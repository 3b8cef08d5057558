/**
 * What the Jet scanner promises, proved about its reference semantics in
 * Lexer: the shape of every lexeme, the line counting, the end-of-input
 * token, and the quirks of the source (no MINUS, no FUN, '>' paired with '0').
 */
module LexerFacts {
  import opened Wrappers
  import opened Tokens
  import opened Jet
  import opened Lexer

  // ---------------------------------------------------------------------------
  // Counting line breaks
  // ---------------------------------------------------------------------------

  /** Consuming one more character adds one to the count exactly when it is a line break. */
  lemma NewlinesExtend(s: string, from: nat, to: nat)
    requires from <= to < |s|
    ensures Newlines(s[from..to + 1]) == Newlines(s[from..to]) + (if s[to] == '\n' then 1 else 0)
  {
    assert s[from..to + 1] == s[from..to] + [s[to]];
  }

  /** Counts over adjacent stretches of the source add up. */
  lemma NewlinesSplit(s: string, a: nat, b: nat, c: nat)
    requires a <= b <= c <= |s|
    ensures Newlines(s[a..c]) == Newlines(s[a..b]) + Newlines(s[b..c])
  {
    assert s[a..c] == s[a..b] + s[b..c];
  }

  /** A stretch without a line break counts none. */
  lemma NoNewlines(s: string, a: nat, b: nat)
    requires a <= b <= |s|
    requires forall k | a <= k < b :: s[k] != '\n'
    ensures Newlines(s[a..b]) == 0
  {
    assert '\n' !in s[a..b];
  }

  // ---------------------------------------------------------------------------
  // The loop of scanTokens, one iteration at a time
  // ---------------------------------------------------------------------------

  /**
   * One iteration of `scanTokens`: at the end the scan is the end-of-input
   * token alone; before it, it is the step there followed by the scan after it.
   */
  lemma ScanFromUnfold(src: string, cur: nat, line: int)
    requires cur <= |src|
    ensures var r := ScanFrom(src, cur, line);
            cur == |src| ==> r.tokens == [EofToken(line)] && r.spans == [Span(cur, cur)] && r.errors == [] && r.completed
    ensures cur < |src| ==>
            var s := Step(src, cur, line);
            var r := ScanFrom(src, cur, line);
            if s.aborted then r.tokens == [] && r.spans == [] && r.errors == Elements(s.error) && !r.completed
            else
              var rest := ScanFrom(src, s.next, s.line);
              && r.tokens == Elements(s.token) + rest.tokens
              && r.spans == SpanOf(s, cur) + rest.spans
              && r.errors == Elements(s.error) + rest.errors
              && r.completed == rest.completed
  {
  }

  // ---------------------------------------------------------------------------
  // One call of scanToken, by the character it starts with
  // ---------------------------------------------------------------------------

  /** Each of `( ) { } , . + ; *` is a token of its own kind. */
  lemma SingleCharacterToken(src: string, cur: nat, line: int)
    requires cur < |src| && src[cur] in SingleCharacterKinds
    ensures Step(src, cur, line) == Emit(src, cur, cur + 1, line, SingleCharacterKinds[src[cur]], NoLiteral)
  {
  }

  /** Blanks are consumed without a token or an error; a line break moves to the next line. */
  lemma BlankCharacter(src: string, cur: nat, line: int)
    requires cur < |src| && IsBlank(src[cur])
    ensures Step(src, cur, line) == Skip(cur + 1, if src[cur] == '\n' then line + 1 else line)
  {
  }

  /** A character without a case is reported, consumed and produces no token. */
  lemma UnexpectedCharacter(src: string, cur: nat, line: int)
    requires cur < |src| && IsUnexpected(src[cur])
    ensures Step(src, cur, line) == Effect(cur + 1, line, None, Some(ErrorRecord(line, "", "Unexpected character.")), false)
  {
  }

  /** '-', '@' and a literal NUL are among the unexpected characters. */
  lemma UnexpectedExamples()
    ensures IsUnexpected('-') && IsUnexpected('@') && IsUnexpected('\0')
    ensures !IsUnexpected('(') && !IsUnexpected('>') && !IsUnexpected('_')
  {
  }

  /**
   * `!`, `=` and `<` take a following '=' into a two-character token and
   * otherwise leave the next character for the next token.
   */
  lemma OneOrTwoCharacterOperator(src: string, cur: nat, line: int)
    requires cur < |src| && src[cur] in "!=<"
    ensures var s := Step(src, cur, line);
            var long := cur + 1 < |src| && src[cur + 1] == '=';
            && s.next == (if long then cur + 2 else cur + 1)
            && s.error.None? && !s.aborted && s.line == line
            && s.token.Some? && s.token.value.line == line && s.token.value.literal == NoLiteral
            && s.token.value.lexeme == (if long then [src[cur], '='] else [src[cur]])
            && s.token.value.kind == match src[cur]
                 case '!' => if long then BangEqual else Bang
                 case '=' => if long then EqualEqual else Equal
                 case _ => if long then LessEqual else Less
  {
    var long := cur + 1 < |src| && src[cur + 1] == '=';
    if long {
      assert src[cur..cur + 2] == [src[cur], '='];
    }
  }

  /** As written, '>' pairs with a following '0' (the source's typo for '='). */
  lemma GreaterPairsWithZero(src: string, cur: nat, line: int)
    requires cur < |src| && src[cur] == '>'
    ensures var s := Step(src, cur, line);
            var long := cur + 1 < |src| && src[cur + 1] == '0';
            && s.next == (if long then cur + 2 else cur + 1)
            && s.error.None? && !s.aborted && s.line == line
            && s.token == Some(Token(if long then GreaterEqual else Greater, if long then ">0" else ">", NoLiteral, line))
  {
    var long := cur + 1 < |src| && src[cur + 1] == '0';
    if long {
      assert src[cur..cur + 2] == ">0";
    } else {
      assert src[cur..cur + 1] == ">";
    }
  }

  /** "//" skips up to, not including, the next line break, with no token and no error. */
  lemma LineComment(src: string, cur: nat, line: int)
    requires cur + 1 < |src| && src[cur] == '/' && src[cur + 1] == '/'
    ensures var s := Step(src, cur, line);
            && s.token.None? && s.error.None? && !s.aborted && s.line == line
            && cur + 2 <= s.next <= |src|
            && (forall k | cur + 2 <= k < s.next :: src[k] != '\n')
            && (s.next == |src| || src[s.next] == '\n')
  {
  }

  /**
   * A block comment ends just after the first "*" "/" that follows its
   * opening, with no nesting; when there is none it runs to the end of the
   * source and is reported. Line breaks inside it are counted.
   */
  lemma BlockComment(src: string, cur: nat, line: int)
    requires cur + 1 < |src| && src[cur] == '/' && src[cur + 1] == '*'
    ensures var s := Step(src, cur, line);
            && s.token.None? && !s.aborted
            && s.line == line + Newlines(src[cur + 2..s.next])
            && (s.error.None? <==> exists k | cur + 2 <= k :: ClosesAt(src, k))
            && (s.error.None? ==> cur + 4 <= s.next && ClosesAt(src, s.next - 2)
                                  && forall k | cur + 2 <= k < s.next - 2 :: !ClosesAt(src, k))
            && (s.error.Some? ==> s.next == |src|
                                  && s.error == Some(ErrorRecord(s.line, "", "Unterminated multi line comment")))
  {
    assert Step(src, cur, line) == ScanBlockComment(src, cur + 2, line);
    BlockCommentScan(src, cur + 2, line);
  }

  /** `multilineComment` entered at `from`, the position after the opening. */
  lemma BlockCommentScan(src: string, from: nat, line: int)
    requires from <= |src|
    ensures var s := ScanBlockComment(src, from, line);
            && s.token.None? && !s.aborted
            && s.line == line + Newlines(src[from..s.next])
            && (s.error.None? <==> exists k | from <= k :: ClosesAt(src, k))
            && (s.error.None? ==> from + 2 <= s.next && ClosesAt(src, s.next - 2)
                                  && forall k | from <= k < s.next - 2 :: !ClosesAt(src, k))
            && (s.error.Some? ==> s.next == |src|
                                  && s.error == Some(ErrorRecord(s.line, "", "Unterminated multi line comment")))
  {
    var close := CommentClose(src, from);
    if close < |src| {
      NewlinesSplit(src, from, close, close + 2);
      NoNewlines(src, close, close + 2);
    } else {
      forall k | from <= k ensures !ClosesAt(src, k) {
        if k < close {
        }
      }
    }
  }

  /** A '/' not followed by '/' or '*' is SLASH. */
  lemma LoneSlash(src: string, cur: nat, line: int)
    requires cur < |src| && src[cur] == '/'
    requires !Matches(src, cur + 1, '/') && !Matches(src, cur + 1, '*')
    ensures Step(src, cur, line) == Emit(src, cur, cur + 1, line, Slash, NoLiteral)
  {
  }

  /**
   * A digit starts a NUMBER: the longest digit run, with a '.' and a second
   * digit run only when a digit follows the '.'. The literal is the lexeme.
   */
  lemma NumberToken(src: string, cur: nat, line: int)
    requires cur < |src| && IsDigit(src[cur])
    ensures var s := Step(src, cur, line);
            var lexeme := src[cur..s.next];
            && s == Emit(src, cur, s.next, line, Number, NumberLiteral(lexeme))
            && IsNumberText(lexeme)
            && (s.next == |src| || !IsDigit(src[s.next]))
            && (AllDigits(lexeme) ==> !(Matches(src, s.next, '.') && s.next + 1 < |src| && IsDigit(src[s.next + 1])))
            && forall k | cur <= k < s.next :: IsDigit(src[k]) || src[k] == '.'
  {
    assert Step(src, cur, line) == ScanNumber(src, cur, cur + 1, line);
    NumberScan(src, cur, line);
  }

  /** `number` entered just after the first digit, at `start`. */
  lemma NumberScan(src: string, start: nat, line: int)
    requires start < |src| && IsDigit(src[start])
    ensures var s := ScanNumber(src, start, start + 1, line);
            var lexeme := src[start..s.next];
            && s == Emit(src, start, s.next, line, Number, NumberLiteral(lexeme))
            && IsNumberText(lexeme)
            && (s.next == |src| || !IsDigit(src[s.next]))
            && (AllDigits(lexeme) ==> !(Matches(src, s.next, '.') && s.next + 1 < |src| && IsDigit(src[s.next + 1])))
            && forall k | start <= k < s.next :: IsDigit(src[k]) || src[k] == '.'
  {
    var cur := start;
    var d := DigitsEnd(src, cur + 1);
    var e := NumberEnd(src, cur + 1);
    assert AllDigits(src[cur..d]);
    if e != d {
      var lexeme := src[cur..e];
      assert lexeme[d - cur] == '.';
      assert src[cur..d] == lexeme[..d - cur];
      assert src[d + 1..e] == lexeme[d - cur + 1..];
      assert !AllDigits(lexeme) by {
        assert !IsDigit(lexeme[d - cur]);
      }
    }
  }

  /**
   * A letter or '_' starts a word: the longest run of letters, digits and
   * '_'. Its kind is its keyword when it is in the table, IDENTIFIER
   * otherwise; it carries no literal.
   */
  lemma IdentifierToken(src: string, cur: nat, line: int)
    requires cur < |src| && IsAlpha(src[cur])
    ensures var s := Step(src, cur, line);
            var lexeme := src[cur..s.next];
            && s.token.Some? && s.error.None? && !s.aborted && s.line == line
            && s.token.value.lexeme == lexeme && s.token.value.literal == NoLiteral && s.token.value.line == line
            && IsIdentifierText(lexeme)
            && (s.next == |src| || !IsAlphaNumeric(src[s.next]))
            && (lexeme in Keywords ==> s.token.value.kind == Keywords[lexeme])
            && (lexeme !in Keywords ==> s.token.value.kind == Identifier)
  {
  }

  /**
   * Every spelling in the keyword table is a well-formed identifier, so each
   * can be scanned; "fun" is not among them.
   */
  lemma KeywordTable()
    ensures forall w | w in Keywords :: IsIdentifierText(w)
    ensures "fun" !in Keywords && KeywordOrIdentifier("fun") == Identifier
  {
    forall w | w in Keywords ensures IsIdentifierText(w) {
      assert w in {"and", "class", "else", "false", "for", "if", "nil", "or", "print",
                   "return", "super", "this", "true", "var", "while"};
    }
  }

  /**
   * A '"' starts a string that ends at the next '"', with no escapes. The
   * lexeme keeps both quotes, the literal is the text between them, and the
   * token carries the line of the closing quote. Without a closing quote the
   * error is reported and the scan aborts.
   */
  lemma StringToken(src: string, cur: nat, line: int)
    requires cur < |src| && src[cur] == '"'
    ensures var s := Step(src, cur, line);
            var terminated := exists q | cur < q < |src| :: src[q] == '"';
            && (terminated <==> !s.aborted)
            && (terminated ==>
                  && cur + 2 <= s.next && src[s.next - 1] == '"'
                  && (forall k | cur < k < s.next - 1 :: src[k] != '"')
                  && s.line == line + Newlines(src[cur + 1..s.next - 1])
                  && s == Emit(src, cur, s.next, s.line, String, StringLiteral(src[cur + 1..s.next - 1])))
            && (!terminated ==>
                  && s.token.None? && s.next == |src|
                  && s.line == line + Newlines(src[cur + 1..])
                  && s.error == Some(ErrorRecord(s.line, "", "Unterminated String!")))
  {
    assert Step(src, cur, line) == ScanString(src, cur, cur + 1, line);
    StringScan(src, cur, line);
  }

  /** `string` entered just after the opening quote at `start`. */
  lemma StringScan(src: string, start: nat, line: int)
    requires start < |src|
    ensures var s := ScanString(src, start, start + 1, line);
            var terminated := exists q | start < q < |src| :: src[q] == '"';
            && (terminated <==> !s.aborted)
            && (terminated ==>
                  && start + 2 <= s.next && src[s.next - 1] == '"'
                  && (forall k | start < k < s.next - 1 :: src[k] != '"')
                  && s.line == line + Newlines(src[start + 1..s.next - 1])
                  && s == Emit(src, start, s.next, s.line, String, StringLiteral(src[start + 1..s.next - 1])))
            && (!terminated ==>
                  && s.token.None? && s.next == |src|
                  && s.line == line + Newlines(src[start + 1..])
                  && s.error == Some(ErrorRecord(s.line, "", "Unterminated String!")))
  {
    var close := Find(src, start + 1, '"');
    if close == |src| {
      assert src[start + 1..close] == src[start + 1..];
    }
  }
}
