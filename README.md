# The Jet scanner, modelled and verified in Dafny

Jet is a small interpreted language in Java. This project models its lexical
scanner: the class `Scanner` in `src/com/jet/lang/Scanner.java`, together with
the token vocabulary (`TokenType`, `Token`) and the error sink of the driver
(`Jet.error` / `Jet.report`). The scanner turns a complete source string into
a list of tokens in a single pass. Its state is three cursors (`start`,
`current`, `line`) over the source and a token list that only grows.

The model has two layers.

* **Lexer** — the reference semantics, as pure functions. `Lexer.Step` is
  what one call of `scanToken` does: the new cursor and line, the token added,
  the error reported, and whether the call threw. `Lexer.ScanFrom` is the loop
  of `scanTokens`.
* **JetScanner** — the imperative class `Scanner`, with the instance fields of
  the Java class and the reporter it reports to. It has one method per instance
  method of the Java class, plus `SkipLineComment` for the `//` loop. The
  character classes and the keyword table are in Lexer. The methods keep the
  Java loops, and
  each is proved to change the state exactly as the matching Lexer function
  says. `Scanner.ScanTokens` is proved equal to `Lexer.ScanFrom`.

The character classes `isDigit`, `isAlpha` and `isAlphaNumeric` are the
predicates `Lexer.IsDigit`, `Lexer.IsAlpha` and `Lexer.IsAlphaNumeric`, and
`isAtEnd` is `JetScanner.Scanner.IsAtEnd`. They are plain definitions, with no
contract of their own, and so have no row in the table below. The cursor
invariant `start <= current <= |source|` is `Scanner.Valid`, which every
method keeps. `Advance` demands `current < |source|`, and every call meets
it; the one call that cannot, after an unterminated string, is the modelled
abort.

The other modules:

* **LexerFacts** proves, for every kind of first character, what one step
  does: single-character tokens, operators, comments, numbers, identifiers
  and keywords, strings, and unexpected characters.
* **ScanFacts** proves the whole-scan properties by induction over the loop:
  * every lexeme is the source text of its span;
  * spans are in source order and do not overlap;
  * each token carries 1 plus the number of line breaks before its end;
  * a scan that returns ends with exactly one EOF token, on line 1 plus the
    number of line breaks in the source;
  * no MINUS or FUN token is ever produced;
  * a source of blanks scans to the EOF token alone.
* **Scenarios** works through small concrete sources.
* **Tokens**, **Jet** and **Wrappers** hold the data model: token kinds,
  tokens, literals, error records, the reporter, and `Option`.

The source is modelled as written, including its quirks. Each quirk is
commented where it occurs in the model.

* `'>'` pairs with a following `'0'`, not `'='`. So `">="` is GREATER then
  EQUAL, and `">0"` is GREATER_EQUAL.
* There is no case for `'-'`. It is reported as an unexpected character, and
  MINUS is never produced.
* `"fun"` is not in the keyword table, so it scans as IDENTIFIER, and FUN is
  never produced.
* The EOF token's literal is the enum constant `NIL` (`NilMarker`), not `null`.
* An unterminated string is reported, and then `advance()` runs at the end of
  the input and throws `StringIndexOutOfBoundsException`. The model makes this
  an explicit outcome:
  * the step is `aborted`;
  * `ScanFrom` returns `completed == false` with only the tokens before the
    string, as Java's `tokens` field holds them when the exception is thrown;
  * `Scanner.ScanTokens` returns `OutOfBounds` and no list.

Where the program's own comments and its code disagree, the model follows
the code:
- `TokenType.java:15` annotates MINUS with `'-'`, but `scanToken` has no case
  for it;
- `TokenType.java:27` annotates GREATER_EQUAL with `'>='`, but
  `Scanner.java:120` pairs `'>'` with `'0'`;
- `TokenType.java:37` lists FUN, but the keyword table has no "fun";
- the Javadoc at `Scanner.java:253-255` says `string` scans "until the closing
  quote or end of file", but at the end of the file it throws after reporting
  the error.

## Model

| member | source | states |
|---|---|---|
| Jet.Reporter.constructor | src/com/jet/lang/Jet.java:12 | the error log starts empty and `hasError` false |
| Jet.Reporter.Report | src/com/jet/lang/Jet.java:102-105 | appends exactly one record `(line, where, message)` and sets `hasError` |
| Jet.Reporter.Error | src/com/jet/lang/Jet.java:113-115 | a report with an empty location |
| Lexer.DigitsEnd | src/com/jet/lang/Scanner.java:217-218 | the digit loop of `number` stops at the end of the maximal digit run |
| Lexer.AlphaNumericsEnd | src/com/jet/lang/Scanner.java:180-181 | the loop of `identifier` stops at the end of the maximal run of letters, digits and '_' |
| Lexer.Find | src/com/jet/lang/Scanner.java:125-126 | the first position holding the character, or the end; nothing before it holds it |
| Lexer.CommentClose | src/com/jet/lang/Scanner.java:160-164 | the loop of `multilineComment` stops at the first "*" "/" or at the end |
| Lexer.ScanBlockComment | src/com/jet/lang/Scanner.java:159-172 | a block comment stays inside the source and never aborts |
| Lexer.ScanString | src/com/jet/lang/Scanner.java:257-272 | a string stays inside the source; an abort leaves the cursor at the end with no token |
| Lexer.ScanNumber | src/com/jet/lang/Scanner.java:216-228 | a number stays inside the source and never aborts |
| Lexer.ScanIdentifier | src/com/jet/lang/Scanner.java:179-188 | an identifier stays inside the source and never aborts |
| Lexer.Step | src/com/jet/lang/Scanner.java:80-157 | every call of `scanToken` consumes at least one character and stays inside the source; an abort ends at the end of the source with no token |
| Lexer.IsBlank | src/com/jet/lang/Scanner.java:133-141 | definition of the characters of the whitespace arms; its properties are proved in `LexerFacts.BlankCharacter` and `ScanFacts.BlankStep` |
| Lexer.IsUnexpected | src/com/jet/lang/Scanner.java:152-154 | definition of the characters that reach the default arm; its properties are proved in `LexerFacts.UnexpectedCharacter` and `LexerFacts.UnexpectedExamples` |
| Lexer.Matches | src/com/jet/lang/Scanner.java:292-295 | definition of the test inside `match`; its properties are proved in `JetScanner.Scanner.Match`, `LexerFacts.OneOrTwoCharacterOperator` and `LexerFacts.GreaterPairsWithZero` |
| Lexer.ClosesAt | src/com/jet/lang/Scanner.java:160 | definition of the `multilineComment` loop guard; its properties are proved in `Lexer.CommentClose` and `LexerFacts.BlockCommentScan` |
| Lexer.Skip | src/com/jet/lang/Scanner.java:133-141 | definition of input consumed with no token and no error; its properties are proved in `LexerFacts.BlankCharacter` and `LexerFacts.LineComment` |
| Lexer.Failure | src/com/jet/lang/Scanner.java:153 | definition of a `Jet.error` call with nothing emitted; its properties are proved in `ScanFacts.StepErrorShape` and `LexerFacts.UnexpectedCharacter` |
| Lexer.NumberEnd | src/com/jet/lang/Scanner.java:216-225 | definition of where `number` stops; its properties are proved in `LexerFacts.NumberScan` and `LexerFacts.NumberToken` |
| Lexer.KeywordOrIdentifier | src/com/jet/lang/Scanner.java:183-186 | definition of the keyword lookup with the IDENTIFIER fallback; its properties are proved in `LexerFacts.IdentifierToken`, `ScanFacts.KeywordKinds` and `Scenarios.Lookups` |
| Lexer.Operator | src/com/jet/lang/Scanner.java:110-121 | definition of the `match`-based one- or two-character operators; its properties are proved in `LexerFacts.OneOrTwoCharacterOperator` and `LexerFacts.GreaterPairsWithZero` |
| Lexer.Emit | src/com/jet/lang/Scanner.java:324-327 | definition of `addToken`'s effect; its properties are proved in `ScanFacts.StepTokenShape` |
| Lexer.EofToken | src/com/jet/lang/Scanner.java:64 | definition of the end-of-input token; its properties are proved in `ScanFacts.ScanEnd` |
| Lexer.ScanFrom | src/com/jet/lang/Scanner.java:59-66 | definition of the `scanTokens` loop from a given cursor and line; its properties are proved in `LexerFacts.ScanFromUnfold`, `ScanFacts.ScanSpans`, `ScanFacts.ScanLines` and `ScanFacts.ScanEnd` |
| Lexer.ScanSource | src/com/jet/lang/Scanner.java:50-66 | definition of the scan of a whole source from line 1; its properties are proved in `ScanFacts.SourceScan` |
| LexerFacts.ScanFromUnfold | src/com/jet/lang/Scanner.java:59-66 | at the end the scan is the EOF token alone; before it, the scan is the step there followed by the scan after it |
| LexerFacts.SingleCharacterToken | src/com/jet/lang/Scanner.java:83-109 | each of `( ) { } , . + ; *` is a one-character token of its own kind |
| LexerFacts.BlankCharacter | src/com/jet/lang/Scanner.java:133-141 | a space, a carriage return or a tab is skipped; a line break is skipped and moves to the next line |
| LexerFacts.UnexpectedCharacter | src/com/jet/lang/Scanner.java:146-155 | a character with no case is consumed and reported as "Unexpected character.", with no token |
| LexerFacts.UnexpectedExamples | src/com/jet/lang/Scanner.java:146-155 | '-', '@' and NUL are unexpected characters; '(', '>' and '_' are not |
| LexerFacts.OneOrTwoCharacterOperator | src/com/jet/lang/Scanner.java:110-118 | `!`, `=` and `<` take a following '=' into a two-character token; otherwise the one-character kind, with the next character left unread |
| LexerFacts.GreaterPairsWithZero | src/com/jet/lang/Scanner.java:119-121 | `>` gives GREATER_EQUAL ">0" exactly when a '0' follows, and GREATER otherwise |
| LexerFacts.LineComment | src/com/jet/lang/Scanner.java:123-126 | "//" skips up to, not including, the next line break or the end, with no token and no error |
| LexerFacts.BlockComment | src/com/jet/lang/Scanner.java:127-128 | "/*" skips through the first following "*" "/", without nesting, and counts its line breaks; the error is reported exactly when there is no close |
| LexerFacts.BlockCommentScan | src/com/jet/lang/Scanner.java:159-172 | the same, for `multilineComment` entered at any position |
| LexerFacts.LoneSlash | src/com/jet/lang/Scanner.java:129-131 | a '/' followed by neither '/' nor '*' is SLASH |
| LexerFacts.NumberToken | src/com/jet/lang/Scanner.java:216-228 | a digit starts a NUMBER: a maximal digit run, with a '.' and a second run only when a digit follows the '.'; the literal is the lexeme |
| LexerFacts.NumberScan | src/com/jet/lang/Scanner.java:216-225 | the same, for `number` entered after its first digit |
| LexerFacts.IdentifierToken | src/com/jet/lang/Scanner.java:179-188 | a word is a maximal run of letters, digits and '_' starting with a letter or '_'; its kind is its keyword or IDENTIFIER; it has no literal |
| LexerFacts.KeywordTable | src/com/jet/lang/Scanner.java:26-43 | every keyword is a well-formed identifier; "fun" is not a keyword |
| LexerFacts.StringToken | src/com/jet/lang/Scanner.java:142-145 | a string ends at the next '"', with no escapes; its literal is the text between the quotes; the token is on the line of the closing quote; the scan aborts exactly when there is no closing quote |
| LexerFacts.StringScan | src/com/jet/lang/Scanner.java:257-272 | the same, for `string` entered after the opening quote |
| ScanFacts.KeywordKinds | src/com/jet/lang/Scanner.java:26-43 | a keyword lookup never gives FUN, MINUS or EOF |
| ScanFacts.NumberHasNoNewlines | src/com/jet/lang/Scanner.java:216-225 | a number lexeme holds no line break |
| ScanFacts.StepSummary | src/com/jet/lang/Scanner.java:80-157 | each step: the line grows by the line breaks consumed; a token's lexeme is the consumed text and its line is the step's last line; no token is EOF, MINUS or FUN; errors are on the current line; only an unterminated string aborts |
| ScanFacts.BlankStep | src/com/jet/lang/Scanner.java:133-141 | the step summary for blanks |
| ScanFacts.SlashStep | src/com/jet/lang/Scanner.java:122-132 | the step summary for '/' |
| ScanFacts.QuoteStep | src/com/jet/lang/Scanner.java:142-145 | the step summary for '"' |
| ScanFacts.DigitStep | src/com/jet/lang/Scanner.java:148-149 | the step summary for digits |
| ScanFacts.AlphaStep | src/com/jet/lang/Scanner.java:150-151 | the step summary for letters and '_' |
| ScanFacts.PunctuationStep | src/com/jet/lang/Scanner.java:83-109 | the step summary for the one-character tokens |
| ScanFacts.OperatorStep | src/com/jet/lang/Scanner.java:110-121 | the step summary for the one- or two-character operators |
| ScanFacts.UnexpectedStep | src/com/jet/lang/Scanner.java:152-154 | the step summary for characters without a case |
| ScanFacts.StepLine | src/com/jet/lang/Scanner.java:138-141 | a step moves the line counter on by exactly the line breaks it consumed |
| ScanFacts.StepTokenShape | src/com/jet/lang/Scanner.java:324-327 | a token a step adds has the consumed text as lexeme, the step's last line, and a kind other than EOF, MINUS and FUN |
| ScanFacts.StepErrorShape | src/com/jet/lang/Scanner.java:153 | an error a step reports is on the step's last line, with an empty location |
| ScanFacts.StepAbort | src/com/jet/lang/Scanner.java:263-268 | only a '"' step can abort, and it has then reported "Unterminated String!" |
| ScanFacts.ScanSpanBounds | src/com/jet/lang/Scanner.java:59-66 | every token has a span, inside the part of the source still to be scanned |
| ScanFacts.ScanSpans | src/com/jet/lang/Scanner.java:324-327 | each token has a span in the source whose text is its lexeme, and the spans are in order without overlap |
| ScanFacts.ScanLines | src/com/jet/lang/Scanner.java:138-141 | each token's line is the starting line plus the line breaks before the end of its span |
| ScanFacts.ScanEnd | src/com/jet/lang/Scanner.java:59-66 | a returning scan ends with the EOF token on the final line, and no other token is EOF; an aborted scan has no EOF token and its last error is the unterminated string |
| ScanFacts.ScanCompletes | src/com/jet/lang/Scanner.java:59-66 | the returning half of `ScanEnd`, by induction over the loop |
| ScanFacts.ScanAborts | src/com/jet/lang/Scanner.java:263-268 | the aborting half of `ScanEnd`: no token is EOF, MINUS or FUN, and the last error is "Unterminated String!" |
| ScanFacts.ScanErrorLines | src/com/jet/lang/Scanner.java:153 | errors are reported with an empty location on lines between the first and the last |
| ScanFacts.BlankSource | src/com/jet/lang/Scanner.java:133-141 | a source of blanks scans to the EOF token alone, on line 1 plus its line breaks, with no error |
| ScanFacts.SourceScan | src/com/jet/lang/Scanner.java:59-66 | the whole scan: lexemes are the text of ordered spans; token lines count from 1; a returning scan ends with EOF on line 1 plus the number of line breaks; no other token is EOF, MINUS or FUN |
| Scenarios.Lookups | src/com/jet/lang/Scanner.java:183-186 | "var" is VAR; "x" and "fun" are IDENTIFIER |
| Scenarios.DeclarationScan | src/com/jet/lang/Scanner.java:59-66 | "var x = 10;" scans to VAR, IDENTIFIER, EQUAL, NUMBER "10", SEMICOLON, EOF |
| Scenarios.DeclarationMiddle | src/com/jet/lang/Scanner.java:59-66 | the same source, from the blank after "var" |
| Scenarios.DeclarationTail | src/com/jet/lang/Scanner.java:59-66 | the same source, from the '=' |
| Scenarios.TrailingDotScan | src/com/jet/lang/Scanner.java:221 | "1." is NUMBER "1" then DOT |
| Scenarios.FractionScan | src/com/jet/lang/Scanner.java:221-225 | "1.5" is one NUMBER |
| Scenarios.GreaterScans | src/com/jet/lang/Scanner.java:120 | ">=" is GREATER then EQUAL; ">0" is GREATER_EQUAL |
| Scenarios.FunScan | src/com/jet/lang/Scanner.java:26-43 | "fun" scans as IDENTIFIER |
| Scenarios.MinusScan | src/com/jet/lang/Scanner.java:146-155 | "-1" reports the '-' and then scans NUMBER "1" |
| Scenarios.TwoLineCommentScan | src/com/jet/lang/Scanner.java:159-172 | "/* a\nb */ x" scans to IDENTIFIER "x" and EOF, both on line 2 |
| Scenarios.WordAfterComment | src/com/jet/lang/Scanner.java:179-188 | the same source, after the comment |
| Scenarios.UnexpectedScan | src/com/jet/lang/Scanner.java:153 | "@" gives the EOF token alone and one "Unexpected character." error |
| Scenarios.LineCommentScan | src/com/jet/lang/Scanner.java:123-126 | "1 // c\n2" and "1 \n2" scan to the same tokens |
| Scenarios.CommentedNumbers | src/com/jet/lang/Scanner.java:123-126 | the tokens of "1 // c\n2" |
| Scenarios.PlainNumbers | src/com/jet/lang/Scanner.java:138-141 | the tokens of "1 \n2" |
| Scenarios.MultilineStringScan | src/com/jet/lang/Scanner.java:258-261 | a string over two lines is one STRING token on line 2 |
| Scenarios.UnterminatedStringScan | src/com/jet/lang/Scanner.java:263-268 | "\"ab" reports "Unterminated String!" and aborts with no tokens |
| Scenarios.UnterminatedCommentScan | src/com/jet/lang/Scanner.java:168-170 | "/* a" reports "Unterminated multi line comment" and the scan still returns EOF |
| Scenarios.EmptyStringScan | src/com/jet/lang/Scanner.java:270-271 | "\"\"" is a STRING with an empty literal |
| JetScanner.ScanSource | src/com/jet/lang/Scanner.java:50-66 | a fresh scanner returns the reference scan of the whole source, or the out-of-bounds outcome, and reports its errors |
| JetScanner.Scanner.constructor | src/com/jet/lang/Scanner.java:19-23 | a fresh scanner: no tokens, both cursors at 0, line 1 |
| JetScanner.Scanner.ScanTokens | src/com/jet/lang/Scanner.java:59-66 | the tokens appended, the errors reported and the outcome are exactly those of the reference scan from the current state; on completion the cursor is at the end and the line is the EOF token's |
| JetScanner.Scanner.ScanToken | src/com/jet/lang/Scanner.java:80-157 | one call changes the cursor, line, tokens and error log exactly as the reference step, and throws exactly when the step aborts |
| JetScanner.Scanner.SkipLineComment | src/com/jet/lang/Scanner.java:125-126 | the cursor stops at the next line break or the end |
| JetScanner.Scanner.MultilineComment | src/com/jet/lang/Scanner.java:159-172 | the state changes exactly as the reference block comment |
| JetScanner.Scanner.ScanIdentifier | src/com/jet/lang/Scanner.java:179-188 | the state changes exactly as the reference identifier |
| JetScanner.Scanner.ScanNumber | src/com/jet/lang/Scanner.java:216-228 | the state changes exactly as the reference number |
| JetScanner.Scanner.PeekNext | src/com/jet/lang/Scanner.java:236-240 | the character after the current one, or NUL past the end |
| JetScanner.Scanner.ScanString | src/com/jet/lang/Scanner.java:257-272 | the state changes exactly as the reference string, and the method throws exactly when that aborts |
| JetScanner.Scanner.Peek | src/com/jet/lang/Scanner.java:279-283 | the current character, or NUL at the end |
| JetScanner.Scanner.Match | src/com/jet/lang/Scanner.java:291-298 | consumes one character exactly when it is the expected one |
| JetScanner.Scanner.Advance | src/com/jet/lang/Scanner.java:305-307 | returns the current character and moves past it; it is only called before the end |
| JetScanner.Scanner.AddToken | src/com/jet/lang/Scanner.java:314-316 | appends a token without a literal |
| JetScanner.Scanner.AddTokenWith | src/com/jet/lang/Scanner.java:324-327 | appends one token whose lexeme is the text from `start` to `current`, on the current line |

## Left out

- The driver's `main`, `runFile`, `runPrompt` and `run` (Jet.java) are left out. They are command-line handling, file reading and a console loop, and `run` is empty.
- `report` prints to standard output. The model appends the record to a log instead.
- `Double.parseDouble` is left out, because it is floating-point parsing. A NUMBER token's literal is its lexeme, which IsNumberText characterises.
- The keyword `HashMap` and its static initialiser become a Dafny map constant.
- `Token.toString` is left out: it only formats a token for debugging.
- Calling `scanTokens` twice on one scanner, and thread safety, are not modelled. `Scanner.ScanTokens` is specified from any valid state, but only `JetScanner.ScanSource` is about a fresh scanner.
- Java `char` is a UTF-16 code unit; the model's `char` is a Unicode scalar value. A character outside the Basic Multilingual Plane is two code units in Java, so outside strings and comments Java reports "Unexpected character." twice for it where the model reports it once, and cursor positions after it differ by one per such character. The model does not capture this.
- The exception thrown after an unterminated string is not modelled as Java control flow. It is the `OutOfBounds` outcome, and the token list built up to that point is not returned. Java's `advance()` increments `current` before `charAt` throws, so Java leaves the cursor one past the end; the model leaves it at the end, and that cursor is not modelled.
- Token lines are unbounded integers. Java's `int` line counter could overflow only after 2^31 line breaks, which is not modelled.
