/**
 * Concrete scans of small Jet sources, including the quirks of the source
 * as written. Each proof walks the loop of `scanTokens` one call of
 * `scanToken` at a time.
 */
module Scenarios {
  import opened Wrappers
  import opened Tokens
  import opened Jet
  import opened Lexer
  import opened LexerFacts

  /** The declaration scanned below. */
  const Declaration := "var x = 10;"

  /** The keyword lookups used below; "fun" is not a keyword. */
  lemma Lookups()
    ensures KeywordOrIdentifier("var") == Var
    ensures KeywordOrIdentifier("x") == Identifier
    ensures KeywordOrIdentifier("fun") == Identifier
  {
  }

  /** A declaration: keyword, identifier, operator, number, semicolon, end of input. */
  lemma DeclarationScan()
    ensures ScanSource(Declaration) == ScanResult(
      [Token(Var, "var", NoLiteral, 1), Token(Identifier, "x", NoLiteral, 1),
       Token(Equal, "=", NoLiteral, 1), Token(Number, "10", NumberLiteral("10"), 1),
       Token(Semicolon, ";", NoLiteral, 1), EofToken(1)],
      [Span(0, 3), Span(4, 5), Span(6, 7), Span(8, 10), Span(10, 11), Span(11, 11)],
      [], true)
  {
    var src := Declaration;
    hide ScanFrom, KeywordOrIdentifier;
    Lookups();
    DeclarationMiddle();
    assert AlphaNumericsEnd(src, 1) == 3 && src[0..3] == "var";
    assert Step(src, 0, 1) == Emit(src, 0, 3, 1, Var, NoLiteral);
    ScanFromUnfold(src, 0, 1);
  }

  /** The declaration from the blank after its keyword on. */
  lemma DeclarationMiddle()
    ensures ScanFrom(Declaration, 3, 1) == ScanResult(
      [Token(Identifier, "x", NoLiteral, 1),
       Token(Equal, "=", NoLiteral, 1), Token(Number, "10", NumberLiteral("10"), 1),
       Token(Semicolon, ";", NoLiteral, 1), EofToken(1)],
      [Span(4, 5), Span(6, 7), Span(8, 10), Span(10, 11), Span(11, 11)],
      [], true)
  {
    var src := Declaration;
    hide ScanFrom, KeywordOrIdentifier;
    Lookups();
    DeclarationTail();
    assert Step(src, 3, 1) == Skip(4, 1);
    assert AlphaNumericsEnd(src, 5) == 5 && src[4..5] == "x";
    assert Step(src, 4, 1) == Emit(src, 4, 5, 1, Identifier, NoLiteral);
    assert Step(src, 5, 1) == Skip(6, 1);
    ScanFromUnfold(src, 5, 1);
    ScanFromUnfold(src, 4, 1);
    ScanFromUnfold(src, 3, 1);
  }

  /** The declaration from its '=' on. */
  lemma DeclarationTail()
    ensures ScanFrom(Declaration, 6, 1) == ScanResult(
      [Token(Equal, "=", NoLiteral, 1), Token(Number, "10", NumberLiteral("10"), 1),
       Token(Semicolon, ";", NoLiteral, 1), EofToken(1)],
      [Span(6, 7), Span(8, 10), Span(10, 11), Span(11, 11)],
      [], true)
  {
    var src := Declaration;
    hide ScanFrom;
    assert src[6..7] == "=" && src[10..11] == ";";
    assert Step(src, 6, 1) == Emit(src, 6, 7, 1, Equal, NoLiteral);
    assert Step(src, 7, 1) == Skip(8, 1);
    assert NumberEnd(src, 9) == 10 && src[8..10] == "10";
    assert Step(src, 8, 1) == Emit(src, 8, 10, 1, Number, NumberLiteral("10"));
    assert Step(src, 10, 1) == Emit(src, 10, 11, 1, Semicolon, NoLiteral);
    ScanFromUnfold(src, 11, 1);
    ScanFromUnfold(src, 10, 1);
    ScanFromUnfold(src, 8, 1);
    ScanFromUnfold(src, 7, 1);
    ScanFromUnfold(src, 6, 1);
  }

  /** A '.' without a digit after it is not part of the number: "1." is NUMBER then DOT. */
  lemma TrailingDotScan()
    ensures ScanSource("1.") == ScanResult(
      [Token(Number, "1", NumberLiteral("1"), 1), Token(Dot, ".", NoLiteral, 1), EofToken(1)],
      [Span(0, 1), Span(1, 2), Span(2, 2)], [], true)
  {
    var src := "1.";
    hide ScanFrom;
    assert NumberEnd(src, 1) == 1 && src[0..1] == "1" && src[1..2] == ".";
    assert Step(src, 0, 1) == Emit(src, 0, 1, 1, Number, NumberLiteral("1"));
    assert Step(src, 1, 1) == Emit(src, 1, 2, 1, Dot, NoLiteral);
    ScanFromUnfold(src, 2, 1);
    ScanFromUnfold(src, 1, 1);
    ScanFromUnfold(src, 0, 1);
  }

  /** A fraction is part of the number: "1.5" is one NUMBER. */
  lemma FractionScan()
    ensures ScanSource("1.5").tokens == [Token(Number, "1.5", NumberLiteral("1.5"), 1), EofToken(1)]
  {
    var src := "1.5";
    hide ScanFrom;
    assert NumberEnd(src, 1) == 3 && src[0..3] == "1.5";
    assert Step(src, 0, 1) == Emit(src, 0, 3, 1, Number, NumberLiteral("1.5"));
    ScanFromUnfold(src, 3, 1);
    ScanFromUnfold(src, 0, 1);
  }

  /** As written, ">=" is GREATER then EQUAL, and ">0" is one GREATER_EQUAL. */
  lemma GreaterScans()
    ensures ScanSource(">=").tokens == [Token(Greater, ">", NoLiteral, 1), Token(Equal, "=", NoLiteral, 1), EofToken(1)]
    ensures ScanSource(">0").tokens == [Token(GreaterEqual, ">0", NoLiteral, 1), EofToken(1)]
  {
    hide ScanFrom;
    var src := ">=";
    assert src[0..1] == ">" && src[1..2] == "=";
    assert Step(src, 0, 1) == Emit(src, 0, 1, 1, Greater, NoLiteral);
    assert Step(src, 1, 1) == Emit(src, 1, 2, 1, Equal, NoLiteral);
    ScanFromUnfold(src, 2, 1);
    ScanFromUnfold(src, 1, 1);
    ScanFromUnfold(src, 0, 1);
    var src' := ">0";
    assert src'[0..2] == ">0";
    assert Step(src', 0, 1) == Emit(src', 0, 2, 1, GreaterEqual, NoLiteral);
    ScanFromUnfold(src', 2, 1);
    ScanFromUnfold(src', 0, 1);
  }

  /** "fun" is not in the keyword table: it scans as an IDENTIFIER. */
  lemma FunScan()
    ensures ScanSource("fun").tokens == [Token(Identifier, "fun", NoLiteral, 1), EofToken(1)]
  {
    var src := "fun";
    hide ScanFrom, KeywordOrIdentifier;
    Lookups();
    assert AlphaNumericsEnd(src, 1) == 3 && src[0..3] == "fun";
    assert Step(src, 0, 1) == Emit(src, 0, 3, 1, Identifier, NoLiteral);
    ScanFromUnfold(src, 3, 1);
    ScanFromUnfold(src, 0, 1);
  }

  /** '-' has no case: "-1" reports it and goes on to the NUMBER. */
  lemma MinusScan()
    ensures ScanSource("-1") == ScanResult(
      [Token(Number, "1", NumberLiteral("1"), 1), EofToken(1)],
      [Span(1, 2), Span(2, 2)], [ErrorRecord(1, "", "Unexpected character.")], true)
  {
    var src := "-1";
    hide ScanFrom;
    assert NumberEnd(src, 2) == 2 && src[1..2] == "1";
    assert Step(src, 0, 1) == Failure(1, 1, "Unexpected character.", false);
    assert Step(src, 1, 1) == Emit(src, 1, 2, 1, Number, NumberLiteral("1"));
    ScanFromUnfold(src, 2, 1);
    ScanFromUnfold(src, 1, 1);
    ScanFromUnfold(src, 0, 1);
  }

  /** A two-line block comment followed by a word. */
  const CommentThenWord := "/* a\nb */ x"

  /** A block comment over two lines moves what follows it to line 2. */
  lemma TwoLineCommentScan()
    ensures ScanSource(CommentThenWord) == ScanResult(
      [Token(Identifier, "x", NoLiteral, 2), EofToken(2)], [Span(10, 11), Span(11, 11)], [], true)
  {
    var src := CommentThenWord;
    hide ScanFrom, Newlines;
    WordAfterComment();
    assert CommentClose(src, 2) == 7;
    NoNewlines(src, 2, 4);
    NewlinesExtend(src, 2, 4);
    NoNewlines(src, 5, 7);
    NewlinesSplit(src, 2, 5, 7);
    assert Step(src, 0, 1) == Skip(9, 2);
    ScanFromUnfold(src, 0, 1);
  }

  /** What follows the comment. */
  lemma WordAfterComment()
    ensures ScanFrom(CommentThenWord, 9, 2) == ScanResult(
      [Token(Identifier, "x", NoLiteral, 2), EofToken(2)], [Span(10, 11), Span(11, 11)], [], true)
  {
    var src := CommentThenWord;
    hide ScanFrom, KeywordOrIdentifier;
    Lookups();
    assert Step(src, 9, 2) == Skip(10, 2);
    assert AlphaNumericsEnd(src, 11) == 11 && src[10..11] == "x";
    assert Step(src, 10, 2) == Emit(src, 10, 11, 2, Identifier, NoLiteral);
    ScanFromUnfold(src, 11, 2);
    ScanFromUnfold(src, 10, 2);
    ScanFromUnfold(src, 9, 2);
  }

  /** An unexpected character is reported and skipped; the scan goes on to EOF. */
  lemma UnexpectedScan()
    ensures ScanSource("@") == ScanResult([EofToken(1)], [Span(1, 1)], [ErrorRecord(1, "", "Unexpected character.")], true)
  {
    var src := "@";
    hide ScanFrom;
    assert Step(src, 0, 1) == Failure(1, 1, "Unexpected character.", false);
    ScanFromUnfold(src, 1, 1);
    ScanFromUnfold(src, 0, 1);
  }

  /** The tokens of both sources below. */
  const TwoNumbers := [Token(Number, "1", NumberLiteral("1"), 1), Token(Number, "2", NumberLiteral("2"), 2), EofToken(2)]

  /** A line comment drops out of the token list: "1 // c\n2" scans like "1 \n2". */
  lemma LineCommentScan()
    ensures ScanSource("1 // c\n2").tokens == ScanSource("1 \n2").tokens == TwoNumbers
  {
    CommentedNumbers();
    PlainNumbers();
  }

  /** The scan of the source with the comment. */
  lemma CommentedNumbers()
    ensures ScanSource("1 // c\n2").tokens == TwoNumbers
  {
    hide ScanFrom;
    var src := "1 // c\n2";
    assert NumberEnd(src, 1) == 1 && src[0..1] == "1";
    assert Step(src, 0, 1) == Emit(src, 0, 1, 1, Number, NumberLiteral("1"));
    assert Step(src, 1, 1) == Skip(2, 1);
    assert Find(src, 4, '\n') == 6;
    assert Step(src, 2, 1) == Skip(6, 1);
    assert Step(src, 6, 1) == Skip(7, 2);
    assert NumberEnd(src, 8) == 8 && src[7..8] == "2";
    assert Step(src, 7, 2) == Emit(src, 7, 8, 2, Number, NumberLiteral("2"));
    ScanFromUnfold(src, 8, 2);
    ScanFromUnfold(src, 7, 2);
    ScanFromUnfold(src, 6, 1);
    ScanFromUnfold(src, 2, 1);
    ScanFromUnfold(src, 1, 1);
    ScanFromUnfold(src, 0, 1);
  }

  /** The scan of the source without it. */
  lemma PlainNumbers()
    ensures ScanSource("1 \n2").tokens == TwoNumbers
  {
    hide ScanFrom;
    var src := "1 \n2";
    assert NumberEnd(src, 1) == 1 && src[0..1] == "1";
    assert Step(src, 0, 1) == Emit(src, 0, 1, 1, Number, NumberLiteral("1"));
    assert Step(src, 1, 1) == Skip(2, 1);
    assert Step(src, 2, 1) == Skip(3, 2);
    assert NumberEnd(src, 4) == 4 && src[3..4] == "2";
    assert Step(src, 3, 2) == Emit(src, 3, 4, 2, Number, NumberLiteral("2"));
    ScanFromUnfold(src, 4, 2);
    ScanFromUnfold(src, 3, 2);
    ScanFromUnfold(src, 2, 1);
    ScanFromUnfold(src, 1, 1);
    ScanFromUnfold(src, 0, 1);
  }

  /** A string may span lines; its token is on the line of the closing quote. */
  lemma MultilineStringScan()
    ensures ScanSource("\"a\nb\"").tokens == [Token(String, "\"a\nb\"", StringLiteral("a\nb"), 2), EofToken(2)]
  {
    var src := "\"a\nb\"";
    hide ScanFrom, Newlines;
    assert Find(src, 1, '"') == 4;
    NoNewlines(src, 1, 2);
    NewlinesExtend(src, 1, 2);
    NoNewlines(src, 3, 4);
    NewlinesSplit(src, 1, 3, 4);
    assert src[1..4] == "a\nb" && src[0..5] == src;
    assert Step(src, 0, 1) == Emit(src, 0, 5, 2, String, StringLiteral("a\nb"));
    ScanFromUnfold(src, 5, 2);
    ScanFromUnfold(src, 0, 1);
  }

  /** An unterminated string is reported and then ends the scan without an EOF token. */
  lemma UnterminatedStringScan()
    ensures ScanSource("\"ab") == ScanResult([], [], [ErrorRecord(1, "", "Unterminated String!")], false)
  {
    var src := "\"ab";
    hide ScanFrom, Newlines;
    assert Find(src, 1, '"') == 3;
    NoNewlines(src, 1, 3);
    assert src[1..3] == "ab";
    assert Step(src, 0, 1) == Failure(3, 1, "Unterminated String!", true);
    ScanFromUnfold(src, 0, 1);
  }

  /** An unterminated block comment is reported, and the scan still returns. */
  lemma UnterminatedCommentScan()
    ensures ScanSource("/* a") == ScanResult([EofToken(1)], [Span(4, 4)], [ErrorRecord(1, "", "Unterminated multi line comment")], true)
  {
    var src := "/* a";
    hide ScanFrom, Newlines;
    assert CommentClose(src, 2) == 4;
    NoNewlines(src, 2, 4);
    assert src[2..4] == " a";
    assert Step(src, 0, 1) == Failure(4, 1, "Unterminated multi line comment", false);
    ScanFromUnfold(src, 4, 1);
    ScanFromUnfold(src, 0, 1);
  }

  /** The empty string "" has an empty literal. */
  lemma EmptyStringScan()
    ensures ScanSource("\"\"").tokens == [Token(String, "\"\"", StringLiteral(""), 1), EofToken(1)]
  {
    var src := "\"\"";
    hide ScanFrom, Newlines;
    assert Find(src, 1, '"') == 1;
    NoNewlines(src, 1, 1);
    assert src[0..2] == src && src[1..1] == "";
    assert Step(src, 0, 1) == Emit(src, 0, 2, 1, String, StringLiteral(""));
    ScanFromUnfold(src, 2, 1);
    ScanFromUnfold(src, 0, 1);
  }
}
