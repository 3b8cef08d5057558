/**
 * The reference semantics of the Jet scanner (Scanner.java), written as pure
 * functions over the source text. `Step` is what one call of `scanToken` does
 * to the cursors, the token list and the error log; `ScanFrom` is the loop of
 * `scanTokens`. The imperative class in JetScanner is proved to follow these
 * functions, and LexerFacts proves what the scanner promises about them.
 */
module Lexer {
  import opened Wrappers
  import opened Tokens
  import opened Jet

  // ---------------------------------------------------------------------------
  // Character classes
  // ---------------------------------------------------------------------------

  predicate IsDigit(c: char) { '0' <= c <= '9' }

  /** ASCII letters and the underscore: the only characters that start an identifier. */
  predicate IsAlpha(c: char) { ('a' <= c <= 'z') || ('A' <= c <= 'Z') || c == '_' }

  predicate IsAlphaNumeric(c: char) { IsAlpha(c) || IsDigit(c) }

  /** The characters `scanToken` skips without producing a token or an error. */
  predicate IsBlank(c: char) { c == ' ' || c == '\r' || c == '\t' || c == '\n' }

  /** The characters `scanToken` turns into a token of their own, and that token's kind. */
  const SingleCharacterKinds: map<char, TokenType> := map[
    '(' := LeftParen, ')' := RightParen, '{' := LeftBrace, '}' := RightBrace,
    ',' := Comma, '.' := Dot, '+' := Plus, ';' := Semicolon, '*' := Star]

  /**
   * A character with no case in `scanToken`: it is reported as unexpected.
   * Note that '-' is one of them, as the source has no case for it.
   */
  predicate IsUnexpected(c: char) {
    c !in SingleCharacterKinds && c !in "!=<>/\"" && !IsBlank(c) && !IsDigit(c) && !IsAlpha(c)
  }

  /** A well-formed identifier spelling: a letter or '_' followed by letters, digits and '_'. */
  predicate IsIdentifierText(s: string) {
    |s| > 0 && IsAlpha(s[0]) && forall k | 0 < k < |s| :: IsAlphaNumeric(s[k])
  }

  predicate AllDigits(s: string) { forall k | 0 <= k < |s| :: IsDigit(s[k]) }

  /** A non-empty digit run, optionally followed by '.' and a second non-empty digit run. */
  predicate IsNumberText(s: string) {
    || (|s| > 0 && AllDigits(s))
    || exists k | 0 < k < |s| - 1 :: s[k] == '.' && AllDigits(s[..k]) && AllDigits(s[k + 1..])
  }

  /** How many line breaks `s` holds. */
  function Newlines(s: string): nat { multiset(s)['\n'] }

  // ---------------------------------------------------------------------------
  // The keyword table (the static initialiser of Scanner)
  // ---------------------------------------------------------------------------

  /** The reserved words. "fun" is not among them, although TokenType has FUN. */
  const Keywords: map<string, TokenType> := map[
    "and" := And, "class" := Class, "else" := Else, "false" := False,
    "for" := For, "if" := If, "nil" := Nil, "or" := Or, "print" := Print,
    "return" := Return, "super" := Super, "this" := This, "true" := True,
    "var" := Var, "while" := While]

  /** The kind `identifier` gives a scanned word: its keyword, or IDENTIFIER on a miss. */
  function KeywordOrIdentifier(text: string): TokenType {
    if text in Keywords then Keywords[text] else Identifier
  }

  // ---------------------------------------------------------------------------
  // Look-ahead and the extent of each sub-scanner
  // ---------------------------------------------------------------------------

  /** `match(expected)` succeeds at position `i`. */
  predicate Matches(src: string, i: nat, expected: char) { i < |src| && src[i] == expected }

  /** The end of the digit run that starts at `i`. */
  function DigitsEnd(src: string, i: nat): (j: nat)
    requires i <= |src|
    ensures i <= j <= |src|
    ensures forall k | i <= k < j :: IsDigit(src[k])
    ensures j == |src| || !IsDigit(src[j])
    decreases |src| - i
  {
    if i < |src| && IsDigit(src[i]) then DigitsEnd(src, i + 1) else i
  }

  /** The end of the run of letters, digits and underscores that starts at `i`. */
  function AlphaNumericsEnd(src: string, i: nat): (j: nat)
    requires i <= |src|
    ensures i <= j <= |src|
    ensures forall k | i <= k < j :: IsAlphaNumeric(src[k])
    ensures j == |src| || !IsAlphaNumeric(src[j])
    decreases |src| - i
  {
    if i < |src| && IsAlphaNumeric(src[i]) then AlphaNumericsEnd(src, i + 1) else i
  }

  /** The first position at or after `i` that holds `c`, or the end of the source. */
  function Find(src: string, i: nat, c: char): (j: nat)
    requires i <= |src|
    ensures i <= j <= |src|
    ensures forall k | i <= k < j :: src[k] != c
    ensures j == |src| || src[j] == c
    decreases |src| - i
  {
    if i < |src| && src[i] != c then Find(src, i + 1, c) else i
  }

  /** A block comment closes at `k`: the source holds "*" at `k` and "/" at `k + 1`. */
  predicate ClosesAt(src: string, k: nat) { k + 1 < |src| && src[k] == '*' && src[k + 1] == '/' }

  /** The first position at or after `i` where a block comment closes, or the end of the source. */
  function CommentClose(src: string, i: nat): (j: nat)
    requires i <= |src|
    ensures i <= j <= |src|
    ensures forall k | i <= k < j :: !ClosesAt(src, k)
    ensures j < |src| ==> ClosesAt(src, j)
    decreases |src| - i
  {
    if i < |src| && !ClosesAt(src, i) then CommentClose(src, i + 1) else i
  }

  /**
   * Where `number` stops when it is entered at `from`: after the digit run,
   * and after a '.' and a second digit run when a digit follows the '.'.
   */
  function NumberEnd(src: string, from: nat): nat
    requires from <= |src|
  {
    var d := DigitsEnd(src, from);
    if Matches(src, d, '.') && d + 1 < |src| && IsDigit(src[d + 1]) then DigitsEnd(src, d + 1) else d
  }

  // ---------------------------------------------------------------------------
  // One call of scanToken
  // ---------------------------------------------------------------------------

  /**
   * The effect of one call of `scanToken` (or of one of its sub-scanners):
   * the new `current` and `line`, the token added, the error reported, and
   * whether the call ended in an exception (`aborted`).
   */
  datatype Effect = Effect(next: nat, line: int, token: Option<Token>, error: Option<ErrorRecord>, aborted: bool)

  /** `addToken`: the lexeme is the text from `start` to the cursor. */
  function Emit(src: string, start: nat, end: nat, line: int, kind: TokenType, literal: Literal): Effect
    requires start <= end <= |src|
  {
    Effect(end, line, Some(Token(kind, src[start..end], literal, line)), None, false)
  }

  /** Input consumed without a token or an error. */
  function Skip(next: nat, line: int): Effect {
    Effect(next, line, None, None, false)
  }

  /** `Jet.error(line, message)` with nothing emitted. */
  function Failure(next: nat, line: int, message: string, aborted: bool): Effect {
    Effect(next, line, None, Some(ErrorRecord(line, "", message)), aborted)
  }

  /** A one- or two-character operator: the longer kind only on an exact `second`. */
  function Operator(src: string, start: nat, line: int, second: char, long: TokenType, short: TokenType): Effect
    requires start < |src|
  {
    if Matches(src, start + 1, second) then Emit(src, start, start + 2, line, long, NoLiteral)
    else Emit(src, start, start + 1, line, short, NoLiteral)
  }

  /** `multilineComment`, entered just after the opening slash and star, at `from`. */
  function ScanBlockComment(src: string, from: nat, line: int): (e: Effect)
    requires from <= |src|
    ensures from <= e.next <= |src| && !e.aborted
  {
    var close := CommentClose(src, from);
    var line' := line + Newlines(src[from..close]);
    if close < |src| then Skip(close + 2, line')
    else Failure(close, line', "Unterminated multi line comment", false)
  }

  /**
   * `string`, entered after the opening quote at `start`. On a missing closing
   * quote the source reports the error and then calls `advance` at the end of
   * the input, which throws: the step is aborted.
   */
  function ScanString(src: string, start: nat, from: nat, line: int): (e: Effect)
    requires start < from <= |src|
    ensures from <= e.next <= |src|
    ensures e.aborted ==> e.next == |src| && e.token.None?
  {
    var close := Find(src, from, '"');
    var line' := line + Newlines(src[from..close]);
    if close == |src| then Failure(close, line', "Unterminated String!", true)
    else Emit(src, start, close + 1, line', String, StringLiteral(src[start + 1..close]))
  }

  /** `number`, entered at `from` with the lexeme starting at `start`. */
  function ScanNumber(src: string, start: nat, from: nat, line: int): (e: Effect)
    requires start <= from <= |src|
    ensures from <= e.next <= |src| && !e.aborted
  {
    var end := NumberEnd(src, from);
    Emit(src, start, end, line, Number, NumberLiteral(src[start..end]))
  }

  /** `identifier`, entered at `from` with the lexeme starting at `start`. */
  function ScanIdentifier(src: string, start: nat, from: nat, line: int): (e: Effect)
    requires start <= from <= |src|
    ensures from <= e.next <= |src| && !e.aborted
  {
    var end := AlphaNumericsEnd(src, from);
    Emit(src, start, end, line, KeywordOrIdentifier(src[start..end]), NoLiteral)
  }

  /**
   * One call of `scanToken` with `start` and `current` at `cur`. Every call
   * consumes at least one character, which is why `scanTokens` terminates.
   */
  function Step(src: string, cur: nat, line: int): (s: Effect)
    requires cur < |src|
    ensures cur < s.next <= |src|
    ensures s.aborted ==> s.next == |src| && s.token.None?
  {
    var p := cur + 1;
    match src[cur]
    case '(' => Emit(src, cur, p, line, LeftParen, NoLiteral)
    case ')' => Emit(src, cur, p, line, RightParen, NoLiteral)
    case '{' => Emit(src, cur, p, line, LeftBrace, NoLiteral)
    case '}' => Emit(src, cur, p, line, RightBrace, NoLiteral)
    case ',' => Emit(src, cur, p, line, Comma, NoLiteral)
    case '.' => Emit(src, cur, p, line, Dot, NoLiteral)
    case '+' => Emit(src, cur, p, line, Plus, NoLiteral)
    case ';' => Emit(src, cur, p, line, Semicolon, NoLiteral)
    case '*' => Emit(src, cur, p, line, Star, NoLiteral)
    case '!' => Operator(src, cur, line, '=', BangEqual, Bang)
    case '=' => Operator(src, cur, line, '=', EqualEqual, Equal)
    case '<' => Operator(src, cur, line, '=', LessEqual, Less)
    // Quirk of the source: '>' pairs with a following '0', not '='.
    case '>' => Operator(src, cur, line, '0', GreaterEqual, Greater)
    case '/' =>
      if Matches(src, p, '/') then Skip(Find(src, p + 1, '\n'), line)
      else if Matches(src, p, '*') then ScanBlockComment(src, p + 1, line)
      else Emit(src, cur, p, line, Slash, NoLiteral)
    case ' ' | '\r' | '\t' => Skip(p, line)
    case '\n' => Skip(p, line + 1)
    case '"' => ScanString(src, cur, p, line)
    // Quirk of the source: there is no case for '-', so MINUS is never produced.
    case c =>
      if IsDigit(c) then ScanNumber(src, cur, p, line)
      else if IsAlpha(c) then ScanIdentifier(src, cur, p, line)
      else Failure(p, line, "Unexpected character.", false)
  }

  // ---------------------------------------------------------------------------
  // The loop of scanTokens
  // ---------------------------------------------------------------------------

  /** Where a token's lexeme lies in the source: `src[start..end]`. */
  datatype Span = Span(start: nat, end: nat)

  /**
   * What the scan produces: the tokens, the source extent of each, the errors
   * reported, and whether `scanTokens` returned (`completed`) rather than
   * ending in the exception of an unterminated string.
   */
  datatype ScanResult = ScanResult(tokens: seq<Token>, spans: seq<Span>, errors: seq<ErrorRecord>, completed: bool)

  /** The token `scanTokens` adds after the loop. */
  function EofToken(line: int): Token { Token(Eof, "", NilMarker, line) }

  /** The extent of the token a step emits, if it emits one. */
  function SpanOf(s: Effect, cur: nat): seq<Span> {
    if s.token.Some? then [Span(cur, s.next)] else []
  }

  /** `scanTokens` continued from `current == cur` on line `line`. */
  function ScanFrom(src: string, cur: nat, line: int): (r: ScanResult)
    requires cur <= |src|
    decreases |src| - cur
  {
    if cur == |src| then ScanResult([EofToken(line)], [Span(cur, cur)], [], true)
    else
      var s := Step(src, cur, line);
      if s.aborted then ScanResult([], [], Elements(s.error), false)
      else
        var rest := ScanFrom(src, s.next, s.line);
        ScanResult(Elements(s.token) + rest.tokens, SpanOf(s, cur) + rest.spans,
             Elements(s.error) + rest.errors, rest.completed)
  }

  /** `new Scanner(src).scanTokens()`. */
  function ScanSource(src: string): ScanResult {
    ScanFrom(src, 0, 1)
  }
}
