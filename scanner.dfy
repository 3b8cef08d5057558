/**
 * The scanner itself (class `Scanner` of Scanner.java): three cursors over an
 * immutable source string, a token list that only grows, and the error sink
 * of the driver. Every method is proved to change the state exactly as the
 * corresponding function of Lexer says.
 */
module JetScanner {
  import opened Wrappers
  import opened Tokens
  import opened Jet
  import Lexer
  import LexerFacts

  /**
   * How `scanTokens` ends: it returns the token list, or the `advance` after
   * an unterminated string throws StringIndexOutOfBoundsException.
   */
  datatype Outcome = Completed(tokens: seq<Token>) | OutOfBounds

  /**
   * `new Scanner(source).scanTokens()`: a fresh scanner's result is the
   * reference scan of the whole source, and its errors are appended to the
   * reporter's log.
   */
  method ScanSource(source: string, reporter: Reporter) returns (r: Outcome)
    modifies reporter
    ensures var spec := Lexer.ScanSource(source);
            && r == (if spec.completed then Completed(spec.tokens) else OutOfBounds)
            && reporter.errors == old(reporter.errors) + spec.errors
            && reporter.hasError == (old(reporter.hasError) || spec.errors != [])
  {
    var scanner := new Scanner(source, reporter);
    r := scanner.ScanTokens();
  }

  class Scanner {
    const source: string
    /** Where `Jet.error` sends its reports. */
    const reporter: Reporter
    var tokens: seq<Token>
    /** Start of the lexeme being scanned. */
    var start: nat
    /** The next unread position. */
    var current: nat
    var line: int

    ghost predicate Valid()
      reads this
    {
      start <= current <= |source| && 1 <= line
    }

    constructor (source: string, reporter: Reporter)
      ensures this.source == source && this.reporter == reporter
      ensures Valid() && tokens == [] && start == 0 && current == 0 && line == 1
    {
      this.source := source;
      this.reporter := reporter;
      tokens := [];
      start := 0;
      current := 0;
      line := 1;
    }

    /**
     * The state has changed by `e` since the cursor, line, tokens and error
     * log were `tokens0`, `errors0` and `hasError0`.
     */
    ghost predicate AppliedEffect(e: Lexer.Effect, tokens0: seq<Token>, errors0: seq<ErrorRecord>, hasError0: bool)
      reads this, reporter
    {
      && current == e.next
      && line == e.line
      && tokens == tokens0 + Elements(e.token)
      && reporter.errors == errors0 + Elements(e.error)
      && reporter.hasError == (hasError0 || e.error.Some?)
    }

    /** Scans the whole rest of the source and appends the end-of-input token. */
    method ScanTokens() returns (r: Outcome)
      requires Valid()
      modifies this, reporter
      ensures Valid()
      ensures tokens == old(tokens) + Lexer.ScanFrom(source, old(current), old(line)).tokens
      ensures reporter.errors == old(reporter.errors) + Lexer.ScanFrom(source, old(current), old(line)).errors
      ensures reporter.hasError == (old(reporter.hasError) || Lexer.ScanFrom(source, old(current), old(line)).errors != [])
      ensures r == if Lexer.ScanFrom(source, old(current), old(line)).completed then Completed(tokens) else OutOfBounds
      ensures r.Completed? ==> current == |source| && tokens != [] && line == tokens[|tokens| - 1].line
    {
      // The loop is proved from one unfolding per iteration, not from the body of ScanFrom.
      hide Lexer.ScanFrom, Lexer.Step;
      ghost var spec := Lexer.ScanFrom(source, current, line);
      while !IsAtEnd()
        invariant Valid()
        invariant tokens + Lexer.ScanFrom(source, current, line).tokens == old(tokens) + spec.tokens
        invariant reporter.errors + Lexer.ScanFrom(source, current, line).errors == old(reporter.errors) + spec.errors
        invariant Lexer.ScanFrom(source, current, line).completed == spec.completed
        invariant |old(reporter.errors)| <= |reporter.errors|
        invariant reporter.hasError == (old(reporter.hasError) || |old(reporter.errors)| < |reporter.errors|)
        decreases |source| - current
      {
        start := current;
        ghost var cur0, line0, tokens0, errors0 := current, line, tokens, reporter.errors;
        LexerFacts.ScanFromUnfold(source, cur0, line0);
        var threw := ScanToken();
        ghost var s := Lexer.Step(source, cur0, line0);
        if threw {
          return OutOfBounds;
        }
        ghost var rest := Lexer.ScanFrom(source, current, line);
        assert tokens == tokens0 + Elements(s.token);
        assert current == s.next && line == s.line;
        assert tokens + rest.tokens == tokens0 + (Elements(s.token) + rest.tokens);
        assert reporter.errors + rest.errors == errors0 + (Elements(s.error) + rest.errors);
      }
      LexerFacts.ScanFromUnfold(source, current, line);
      tokens := tokens + [Token(Eof, "", NilMarker, line)];
      r := Completed(tokens);
    }

    predicate IsAtEnd()
      reads this
    {
      current >= |source|
    }

    /** Scans one lexeme, starting at `current`. */
    method ScanToken() returns (threw: bool)
      requires Valid() && start == current && current < |source|
      modifies this`current, this`line, this`tokens, reporter
      ensures Valid() && start == old(start)
      ensures AppliedEffect(Lexer.Step(source, old(current), old(line)), old(tokens), old(reporter.errors), old(reporter.hasError))
      ensures threw == Lexer.Step(source, old(current), old(line)).aborted
    {
      // The sub-scanners are proved against their own functions; only the dispatch is needed here.
      hide Lexer.ScanBlockComment, Lexer.ScanString, Lexer.ScanNumber, Lexer.ScanIdentifier, Lexer.Find;
      var c := Advance();
      threw := false;
      match c
      case '(' => AddToken(LeftParen);
      case ')' => AddToken(RightParen);
      case '{' => AddToken(LeftBrace);
      case '}' => AddToken(RightBrace);
      case ',' => AddToken(Comma);
      case '.' => AddToken(Dot);
      case '+' => AddToken(Plus);
      case ';' => AddToken(Semicolon);
      case '*' => AddToken(Star);
      case '!' =>
        var m := Match('=');
        AddToken(if m then BangEqual else Bang);
      case '=' =>
        var m := Match('=');
        AddToken(if m then EqualEqual else Equal);
      case '<' =>
        var m := Match('=');
        AddToken(if m then LessEqual else Less);
      case '>' =>
        // Quirk of the source: the second character matched is '0', not '='.
        var m := Match('0');
        AddToken(if m then GreaterEqual else Greater);
      case '/' =>
        var slash := Match('/');
        if slash {
          SkipLineComment();
        } else {
          var star := Match('*');
          if star {
            MultilineComment();
          } else {
            AddToken(Slash);
          }
        }
      case ' ' | '\r' | '\t' =>
      case '\n' =>
        line := line + 1;
      case '"' =>
        threw := ScanString();
      // Quirk of the source: there is no case for '-'.
      case _ =>
        if Lexer.IsDigit(c) {
          ScanNumber();
        } else if Lexer.IsAlpha(c) {
          ScanIdentifier();
        } else {
          reporter.Error(line, "Unexpected character.");
        }
    }

    /**
     * The loop of the "//" case of `scanToken`: a line comment runs up to,
     * not including, the next line break. Written as a method of its own so
     * that the dispatch is verified apart from it.
     */
    method SkipLineComment()
      requires Valid()
      modifies this`current
      ensures Valid() && current == Lexer.Find(source, old(current), '\n')
    {
      ghost var end := Lexer.Find(source, current, '\n');
      while Peek() != '\n' && !IsAtEnd()
        invariant Valid() && Lexer.Find(source, current, '\n') == end
        decreases |source| - current
      {
        var _ := Advance();
      }
    }

    /** Skips a block comment whose opening has been consumed; comments do not nest. */
    method MultilineComment()
      requires Valid()
      modifies this`current, this`line, reporter
      ensures Valid()
      ensures AppliedEffect(Lexer.ScanBlockComment(source, old(current), old(line)), tokens, old(reporter.errors), old(reporter.hasError))
    {
      hide Lexer.Newlines;
      ghost var from := current;
      LexerFacts.NoNewlines(source, from, from);
      ghost var close := Lexer.CommentClose(source, current);
      while !(Peek() == '*' && PeekNext() == '/') && !IsAtEnd()
        invariant Valid() && from <= current <= close
        invariant Lexer.CommentClose(source, current) == close
        invariant line == old(line) + Lexer.Newlines(source[from..current])
        modifies this`current, this`line
        decreases |source| - current
      {
        LexerFacts.NewlinesExtend(source, from, current);
        if Peek() == '\n' {
          line := line + 1;
        }
        var _ := Advance();
      }
      if !IsAtEnd() {
        // The loop stopped on "*" followed by "/": both characters are there.
        var _ := Advance();
        var _ := Advance();
      } else {
        reporter.Error(line, "Unterminated multi line comment");
      }
    }

    /** Scans the rest of an identifier or keyword; the first character has been consumed. */
    method ScanIdentifier()
      requires Valid()
      modifies this`current, this`tokens
      ensures Valid()
      ensures AppliedEffect(Lexer.ScanIdentifier(source, start, old(current), line), old(tokens), reporter.errors, reporter.hasError)
    {
      ghost var end := Lexer.AlphaNumericsEnd(source, current);
      while Lexer.IsAlphaNumeric(Peek())
        invariant Valid() && Lexer.AlphaNumericsEnd(source, current) == end
        modifies this`current
        decreases |source| - current
      {
        var _ := Advance();
      }
      var text := source[start..current];
      var kind := if text in Lexer.Keywords then Lexer.Keywords[text] else Identifier;
      AddToken(kind);
    }

    /** Scans the rest of a number; the first digit has been consumed. */
    method ScanNumber()
      requires Valid()
      modifies this`current, this`tokens
      ensures Valid()
      ensures AppliedEffect(Lexer.ScanNumber(source, start, old(current), line), old(tokens), reporter.errors, reporter.hasError)
    {
      ghost var from := current;
      ghost var digits := Lexer.DigitsEnd(source, current);
      while Lexer.IsDigit(Peek())
        invariant Valid() && Lexer.DigitsEnd(source, current) == digits
        modifies this`current
        decreases |source| - current
      {
        var _ := Advance();
      }
      assert current == digits;
      // A fractional part only when a digit follows the '.'.
      if Peek() == '.' && Lexer.IsDigit(PeekNext()) {
        var _ := Advance();
        ghost var fraction := Lexer.DigitsEnd(source, current);
        while Lexer.IsDigit(Peek())
          invariant Valid() && Lexer.DigitsEnd(source, current) == fraction
          modifies this`current
          decreases |source| - current
        {
          var _ := Advance();
        }
        assert current == fraction;
      }
      assert current == Lexer.NumberEnd(source, from);
      AddTokenWith(Number, NumberLiteral(source[start..current]));
    }

    /** The look-ahead `peekNext`: the character after the current one, or '\0'. */
    function PeekNext(): (c: char)
      reads this
      ensures current + 1 < |source| ==> c == source[current + 1]
      ensures current + 1 >= |source| ==> c == '\0'
    {
      if current + 1 >= |source| then '\0' else source[current + 1]
    }

    /**
     * Scans a string literal whose opening quote has been consumed. There is
     * no escape handling, and line breaks inside the string are counted.
     */
    method ScanString() returns (threw: bool)
      requires Valid() && start < current
      modifies this`current, this`line, this`tokens, reporter
      ensures Valid()
      ensures AppliedEffect(Lexer.ScanString(source, start, old(current), old(line)), old(tokens), old(reporter.errors), old(reporter.hasError))
      ensures threw == Lexer.ScanString(source, start, old(current), old(line)).aborted
    {
      hide Lexer.Newlines;
      ghost var from := current;
      LexerFacts.NoNewlines(source, from, from);
      ghost var close := Lexer.Find(source, current, '"');
      while Peek() != '"' && !IsAtEnd()
        invariant Valid() && from <= current <= close
        invariant Lexer.Find(source, current, '"') == close
        invariant line == old(line) + Lexer.Newlines(source[from..current])
        modifies this`current, this`line
        decreases |source| - current
      {
        LexerFacts.NewlinesExtend(source, from, current);
        if Peek() == '\n' {
          line := line + 1;
        }
        var _ := Advance();
      }
      if IsAtEnd() {
        reporter.Error(line, "Unterminated String!");
      }
      // The closing quote. At the end of the input the source's advance()
      // throws StringIndexOutOfBoundsException, which ends the scan.
      if IsAtEnd() {
        return true;
      }
      var _ := Advance();
      var value := source[start + 1..current - 1];
      AddTokenWith(String, StringLiteral(value));
      threw := false;
    }

    /** The look-ahead `peek`: the current character, or '\0' at the end. */
    function Peek(): (c: char)
      reads this
      ensures current < |source| ==> c == source[current]
      ensures current >= |source| ==> c == '\0'
    {
      if IsAtEnd() then '\0' else source[current]
    }

    /** Consumes the current character only when it is `expected`. */
    method Match(expected: char) returns (matched: bool)
      requires Valid()
      modifies this`current
      ensures Valid()
      ensures matched == Lexer.Matches(source, old(current), expected)
      ensures current == if matched then old(current) + 1 else old(current)
    {
      if IsAtEnd() {
        return false;
      }
      if source[current] != expected {
        return false;
      }
      current := current + 1;
      return true;
    }

    /** Consumes and returns the current character, which must exist. */
    method Advance() returns (c: char)
      requires Valid() && current < |source|
      modifies this`current
      ensures Valid()
      ensures current == old(current) + 1 && c == source[old(current)]
    {
      c := source[current];
      current := current + 1;
    }

    /** `addToken(type)`: a token without a literal (Java's `null`). */
    method AddToken(kind: TokenType)
      requires Valid()
      modifies this`tokens
      ensures tokens == old(tokens) + [Token(kind, source[start..current], NoLiteral, line)]
    {
      AddTokenWith(kind, NoLiteral);
    }

    /** `addToken(type, literal)`: the lexeme is the text from `start` to `current`. */
    method AddTokenWith(kind: TokenType, literal: Literal)
      requires Valid()
      modifies this`tokens
      ensures tokens == old(tokens) + [Token(kind, source[start..current], literal, line)]
    {
      tokens := tokens + [Token(kind, source[start..current], literal, line)];
    }
  }
}
