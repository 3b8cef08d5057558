/**
 * What the whole scan promises, proved by induction over the loop of
 * `scanTokens`: every lexeme is the source text of its span, the spans are
 * in source order and do not overlap, every token carries the number of the
 * line it ends on, exactly one end-of-input token comes last, and the kinds
 * the source never produces (MINUS, FUN) do not occur.
 */
module ScanFacts {
  import opened Wrappers
  import opened Tokens
  import opened Jet
  import opened Lexer
  import opened LexerFacts

  // ---------------------------------------------------------------------------
  // One step
  // ---------------------------------------------------------------------------

  /** The kinds `scanToken` can add: everything but EOF, MINUS and FUN. */
  predicate Producible(kind: TokenType) { kind != Eof && kind != Minus && kind != Fun }

  /** A keyword lookup never yields FUN, and never EOF or MINUS. */
  lemma KeywordKinds(text: string)
    ensures Producible(KeywordOrIdentifier(text))
  {
    if text in Keywords {
      assert Keywords.Keys == {"and", "class", "else", "false", "for", "if", "nil", "or", "print",
                               "return", "super", "this", "true", "var", "while"};
    }
  }

  /** A number lexeme holds digits and at most one '.', never a line break. */
  lemma NumberHasNoNewlines(src: string, cur: nat, line: int)
    requires cur < |src| && IsDigit(src[cur])
    ensures Newlines(src[cur..Step(src, cur, line).next]) == 0
  {
    hide Step, Newlines;
    NumberToken(src, cur, line);
    NoNewlines(src, cur, Step(src, cur, line).next);
  }

  /**
   * What one step does, whatever the character: the line counter grows by
   * the line breaks consumed; a token added has exactly the consumed text as
   * its lexeme, sits on the step's closing line and is of a kind other than
   * EOF, MINUS and FUN; an error is reported on that same line; and only an
   * unterminated string aborts.
   */
  predicate WellBehaved(src: string, cur: nat, line: int)
    requires cur < |src|
  {
    var s := Step(src, cur, line);
    && s.line == line + Newlines(src[cur..s.next])
    && (s.token.Some? ==>
          && s.token.value.lexeme == src[cur..s.next]
          && s.token.value.line == s.line
          && Producible(s.token.value.kind))
    && (s.error.Some? ==> s.error.value.line == s.line && s.error.value.where == "")
    && (s.aborted ==> src[cur] == '"' && s.error == Some(ErrorRecord(s.line, "", "Unterminated String!")))
  }

  /** Every step is well behaved. */
  lemma StepSummary(src: string, cur: nat, line: int)
    requires cur < |src|
    ensures WellBehaved(src, cur, line)
  {
    hide Step, Newlines, WellBehaved;
    var c := src[cur];
    if IsBlank(c) {
      BlankStep(src, cur, line);
    } else if c == '/' {
      SlashStep(src, cur, line);
    } else if c == '"' {
      QuoteStep(src, cur, line);
    } else if IsDigit(c) {
      DigitStep(src, cur, line);
    } else if IsAlpha(c) {
      AlphaStep(src, cur, line);
    } else if c in SingleCharacterKinds {
      PunctuationStep(src, cur, line);
    } else if c in "!=<>" {
      OperatorStep(src, cur, line);
    } else {
      UnexpectedStep(src, cur, line);
    }
  }

  /** The blank cases of the dispatch. */
  lemma BlankStep(src: string, cur: nat, line: int)
    requires cur < |src| && IsBlank(src[cur])
    ensures WellBehaved(src, cur, line)
  {
    hide Step, Newlines;
    BlankCharacter(src, cur, line);
    if src[cur] == '\n' {
      NoNewlines(src, cur, cur);
      NewlinesExtend(src, cur, cur);
    } else {
      NoNewlines(src, cur, cur + 1);
    }
  }

  /** The '/' case: line comment, block comment or SLASH. */
  lemma SlashStep(src: string, cur: nat, line: int)
    requires cur < |src| && src[cur] == '/'
    ensures WellBehaved(src, cur, line)
  {
    hide Step, Newlines;
    var s := Step(src, cur, line);
    if Matches(src, cur + 1, '*') {
      BlockComment(src, cur, line);
      NewlinesSplit(src, cur, cur + 2, s.next);
      NoNewlines(src, cur, cur + 2);
    } else if Matches(src, cur + 1, '/') {
      LineComment(src, cur, line);
      NoNewlines(src, cur, s.next);
    } else {
      LoneSlash(src, cur, line);
      NoNewlines(src, cur, s.next);
    }
  }

  /** The '"' case: a string, terminated or not. */
  lemma QuoteStep(src: string, cur: nat, line: int)
    requires cur < |src| && src[cur] == '"'
    ensures WellBehaved(src, cur, line)
  {
    hide Step, Newlines;
    var s := Step(src, cur, line);
    StringToken(src, cur, line);
    NoNewlines(src, cur, cur + 1);
    if !s.aborted {
      NewlinesSplit(src, cur + 1, s.next - 1, s.next);
      NewlinesSplit(src, cur, cur + 1, s.next);
      NoNewlines(src, s.next - 1, s.next);
    } else {
      NewlinesSplit(src, cur, cur + 1, |src|);
      SuffixSlice(src, cur + 1);
    }
  }

  /** A suffix is the slice that runs to the end. */
  lemma SuffixSlice(s: string, i: nat)
    requires i <= |s|
    ensures s[i..] == s[i..|s|]
  {
  }

  /** A digit: a number. */
  lemma DigitStep(src: string, cur: nat, line: int)
    requires cur < |src| && IsDigit(src[cur])
    ensures WellBehaved(src, cur, line)
  {
    hide Step, Newlines;
    NumberToken(src, cur, line);
    NumberHasNoNewlines(src, cur, line);
  }

  /** A letter or '_': an identifier or keyword. */
  lemma AlphaStep(src: string, cur: nat, line: int)
    requires cur < |src| && IsAlpha(src[cur])
    ensures WellBehaved(src, cur, line)
  {
    hide Step, Newlines;
    var s := Step(src, cur, line);
    IdentifierToken(src, cur, line);
    KeywordKinds(src[cur..s.next]);
    NoNewlines(src, cur, s.next);
  }

  /** One-character tokens of their own kind. */
  lemma PunctuationStep(src: string, cur: nat, line: int)
    requires cur < |src| && src[cur] in SingleCharacterKinds
    ensures WellBehaved(src, cur, line)
  {
    hide Step, Newlines;
    SingleCharacterToken(src, cur, line);
    NoNewlines(src, cur, cur + 1);
  }

  /** The one- or two-character operators. */
  lemma OperatorStep(src: string, cur: nat, line: int)
    requires cur < |src| && src[cur] in "!=<>"
    ensures WellBehaved(src, cur, line)
  {
    hide Step, Newlines;
    var s := Step(src, cur, line);
    if src[cur] == '>' {
      GreaterPairsWithZero(src, cur, line);
    } else {
      OneOrTwoCharacterOperator(src, cur, line);
    }
    NoNewlines(src, cur, s.next);
  }

  /** Characters without a case. */
  lemma UnexpectedStep(src: string, cur: nat, line: int)
    requires cur < |src| && IsUnexpected(src[cur])
    ensures WellBehaved(src, cur, line)
  {
    hide Step, Newlines;
    UnexpectedCharacter(src, cur, line);
    NoNewlines(src, cur, cur + 1);
  }

  /** The step facts the scan lemmas use, one at a time. */
  lemma StepLine(src: string, cur: nat, line: int)
    requires cur < |src|
    ensures var s := Step(src, cur, line);
            s.line == line + Newlines(src[cur..s.next])
  {
    StepSummary(src, cur, line);
  }

  lemma StepTokenShape(src: string, cur: nat, line: int)
    requires cur < |src|
    ensures var s := Step(src, cur, line);
            s.token.Some? ==>
              && s.token.value.lexeme == src[cur..s.next]
              && s.token.value.line == s.line
              && Producible(s.token.value.kind)
  {
    StepSummary(src, cur, line);
  }

  lemma StepErrorShape(src: string, cur: nat, line: int)
    requires cur < |src|
    ensures var s := Step(src, cur, line);
            s.error.Some? ==> s.error.value.line == s.line && s.error.value.where == ""
  {
    StepSummary(src, cur, line);
  }

  lemma StepAbort(src: string, cur: nat, line: int)
    requires cur < |src|
    ensures var s := Step(src, cur, line);
            s.aborted ==> src[cur] == '"' && s.error == Some(ErrorRecord(s.line, "", "Unterminated String!"))
  {
    StepSummary(src, cur, line);
  }

  // ---------------------------------------------------------------------------
  // The whole scan
  // ---------------------------------------------------------------------------

  /** Facts about how the result of a step plus the rest of the scan is indexed. */
  lemma ElementsIndex<T>(o: Option<T>, rest: seq<T>, k: nat)
    requires k < |Elements(o) + rest|
    ensures o.Some? && k == 0 ==> (Elements(o) + rest)[k] == o.value
    ensures o.Some? && k > 0 ==> (Elements(o) + rest)[k] == rest[k - 1]
    ensures o.None? ==> (Elements(o) + rest)[k] == rest[k]
  {
  }

  /** Every token has a span of its own, inside the unscanned source. */
  lemma {:induction false} ScanSpanBounds(src: string, cur: nat, line: int)
    requires cur <= |src|
    ensures var r := ScanFrom(src, cur, line);
            && |r.spans| == |r.tokens|
            && forall k | 0 <= k < |r.spans| :: cur <= r.spans[k].start <= r.spans[k].end <= |src|
    decreases |src| - cur
  {
    hide Step, Newlines, ScanFrom;
    ScanFromUnfold(src, cur, line);
    if cur < |src| {
      var s := Step(src, cur, line);
      if !s.aborted {
        ScanSpanBounds(src, s.next, s.line);
        var r := ScanFrom(src, cur, line);
        var rest := ScanFrom(src, s.next, s.line);
        assert r.spans == SpanOf(s, cur) + rest.spans;
        if s.token.Some? {
          forall k | 0 < k < |r.spans| ensures r.spans[k] == rest.spans[k - 1] {
          }
        }
      }
    }
  }

  /**
   * Where the `k`-th token of a scan comes from: the token of the first step,
   * or a token of the rest of the scan, with its span.
   */
  lemma TokenAt(s: Effect, cur: nat, tokens: seq<Token>, spans: seq<Span>, rest: seq<Token>, restSpans: seq<Span>, k: nat)
    requires tokens == Elements(s.token) + rest && spans == SpanOf(s, cur) + restSpans
    requires k < |tokens| && k < |spans|
    ensures s.token.Some? && k == 0 ==> tokens[k] == s.token.value && spans[k] == Span(cur, s.next)
    ensures !(s.token.Some? && k == 0) ==>
              var i := if s.token.Some? then k - 1 else k;
              0 <= i < |rest| && i < |restSpans| && tokens[k] == rest[i] && spans[k] == restSpans[i]
  {
  }

  /**
   * Every token has a span of its own; the span lies inside the unscanned
   * source, its text is the lexeme, and the spans follow each other in source
   * order without overlapping.
   */
  lemma {:induction false} ScanSpans(src: string, cur: nat, line: int)
    requires cur <= |src|
    ensures var r := ScanFrom(src, cur, line);
            && |r.spans| == |r.tokens|
            && (forall k | 0 <= k < |r.spans| ::
                  cur <= r.spans[k].start <= r.spans[k].end <= |src|
                  && r.tokens[k].lexeme == src[r.spans[k].start..r.spans[k].end])
            && (forall j, k | 0 <= j < k < |r.spans| :: r.spans[j].end <= r.spans[k].start)
    decreases |src| - cur
  {
    hide Step, Newlines, ScanFrom;
    ScanFromUnfold(src, cur, line);
    if cur < |src| {
      var s := Step(src, cur, line);
      if !s.aborted {
        ScanSpans(src, s.next, s.line);
        StepTokenShape(src, cur, line);
        var r := ScanFrom(src, cur, line);
        var rest := ScanFrom(src, s.next, s.line);
        assert |r.spans| == |r.tokens|;
        forall k | 0 <= k < |r.spans|
          ensures cur <= r.spans[k].start <= r.spans[k].end <= |src|
          ensures r.tokens[k].lexeme == src[r.spans[k].start..r.spans[k].end]
        {
          TokenAt(s, cur, r.tokens, r.spans, rest.tokens, rest.spans, k);
        }
        forall j, k | 0 <= j < k < |r.spans| ensures r.spans[j].end <= r.spans[k].start {
          TokenAt(s, cur, r.tokens, r.spans, rest.tokens, rest.spans, j);
          TokenAt(s, cur, r.tokens, r.spans, rest.tokens, rest.spans, k);
        }
      }
    }
  }

  /**
   * Every token carries the line it ends on: the starting line plus the line
   * breaks before the end of its span.
   */
  lemma {:induction false} ScanLines(src: string, cur: nat, line: int)
    requires cur <= |src|
    ensures var r := ScanFrom(src, cur, line);
            forall k | 0 <= k < |r.tokens| && k < |r.spans| && cur <= r.spans[k].end <= |src| ::
              r.tokens[k].line == line + Newlines(src[cur..r.spans[k].end])
    decreases |src| - cur
  {
    hide Step, Newlines, ScanFrom;
    ScanFromUnfold(src, cur, line);
    if cur == |src| {
      NoNewlines(src, cur, cur);
    } else {
      var s := Step(src, cur, line);
      if !s.aborted {
        ScanLines(src, s.next, s.line);
        ScanSpanBounds(src, s.next, s.line);
        StepTokenShape(src, cur, line);
        StepLine(src, cur, line);
        var r := ScanFrom(src, cur, line);
        var rest := ScanFrom(src, s.next, s.line);
        forall k | 0 <= k < |r.tokens| && k < |r.spans| && cur <= r.spans[k].end <= |src|
          ensures r.tokens[k].line == line + Newlines(src[cur..r.spans[k].end])
        {
          TokenAt(s, cur, r.tokens, r.spans, rest.tokens, rest.spans, k);
          NewlinesSplit(src, cur, s.next, r.spans[k].end);
        }
      }
    }
  }

  /**
   * A scan that returns ends with the end-of-input token, on the line after
   * the last line break of the source, and no other token is EOF, MINUS or
   * FUN. A scan cut short by an unterminated string has no EOF token, and its
   * last error is that string's.
   */
  lemma ScanEnd(src: string, cur: nat, line: int)
    requires cur <= |src|
    ensures var r := ScanFrom(src, cur, line);
            && (r.completed ==>
                  && |r.tokens| > 0
                  && r.tokens[|r.tokens| - 1] == EofToken(line + Newlines(src[cur..]))
                  && forall k | 0 <= k < |r.tokens| - 1 :: Producible(r.tokens[k].kind))
            && (!r.completed ==>
                  && (forall k | 0 <= k < |r.tokens| :: Producible(r.tokens[k].kind))
                  && |r.errors| > 0 && r.errors[|r.errors| - 1].message == "Unterminated String!")
  {
    ScanCompletes(src, cur, line);
    ScanAborts(src, cur, line);
  }

  /** The returning half of ScanEnd. */
  lemma {:induction false} ScanCompletes(src: string, cur: nat, line: int)
    requires cur <= |src|
    ensures var r := ScanFrom(src, cur, line);
            r.completed ==>
              && |r.tokens| > 0
              && r.tokens[|r.tokens| - 1] == EofToken(line + Newlines(src[cur..]))
              && forall k | 0 <= k < |r.tokens| - 1 :: Producible(r.tokens[k].kind)
    decreases |src| - cur
  {
    hide Step, Newlines, ScanFrom;
    ScanFromUnfold(src, cur, line);
    if cur == |src| {
      assert src[cur..] == src[cur..cur];
      NoNewlines(src, cur, cur);
    } else {
      var s := Step(src, cur, line);
      if !s.aborted {
        StepTokenShape(src, cur, line);
        StepLine(src, cur, line);
        ScanCompletes(src, s.next, s.line);
        NewlinesSplit(src, cur, s.next, |src|);
        assert src[cur..|src|] == src[cur..] && src[s.next..|src|] == src[s.next..];
        var r := ScanFrom(src, cur, line);
        var rest := ScanFrom(src, s.next, s.line);
        assert r.tokens == Elements(s.token) + rest.tokens;
        if r.completed {
          forall k | 0 <= k < |r.tokens| - 1 ensures Producible(r.tokens[k].kind) {
            ElementsIndex(s.token, rest.tokens, k);
          }
          assert r.tokens[|r.tokens| - 1] == rest.tokens[|rest.tokens| - 1];
        }
      }
    }
  }

  /** The aborting half of ScanEnd. */
  lemma {:induction false} ScanAborts(src: string, cur: nat, line: int)
    requires cur <= |src|
    ensures var r := ScanFrom(src, cur, line);
            !r.completed ==>
              && (forall k | 0 <= k < |r.tokens| :: Producible(r.tokens[k].kind))
              && |r.errors| > 0 && r.errors[|r.errors| - 1].message == "Unterminated String!"
    decreases |src| - cur
  {
    hide Step, Newlines, ScanFrom;
    ScanFromUnfold(src, cur, line);
    if cur < |src| {
      var s := Step(src, cur, line);
      StepAbort(src, cur, line);
      if !s.aborted {
        StepTokenShape(src, cur, line);
        ScanAborts(src, s.next, s.line);
        var r := ScanFrom(src, cur, line);
        var rest := ScanFrom(src, s.next, s.line);
        assert r.tokens == Elements(s.token) + rest.tokens;
        assert r.errors == Elements(s.error) + rest.errors;
        if !r.completed {
          forall k | 0 <= k < |r.tokens| ensures Producible(r.tokens[k].kind) {
            ElementsIndex(s.token, rest.tokens, k);
          }
          assert r.errors[|r.errors| - 1] == rest.errors[|rest.errors| - 1];
        }
      }
    }
  }

  /** The errors of a scan are reported on lines between its first and its last. */
  lemma {:induction false} ScanErrorLines(src: string, cur: nat, line: int)
    requires cur <= |src|
    ensures var r := ScanFrom(src, cur, line);
            forall k | 0 <= k < |r.errors| ::
              line <= r.errors[k].line <= line + Newlines(src[cur..]) && r.errors[k].where == ""
    decreases |src| - cur
  {
    hide Step, Newlines, ScanFrom;
    ScanFromUnfold(src, cur, line);
    if cur < |src| {
      var s := Step(src, cur, line);
      StepErrorShape(src, cur, line);
      StepLine(src, cur, line);
      NewlinesSplit(src, cur, s.next, |src|);
      assert src[cur..|src|] == src[cur..] && src[s.next..|src|] == src[s.next..];
      if !s.aborted {
        ScanErrorLines(src, s.next, s.line);
        var r := ScanFrom(src, cur, line);
        var rest := ScanFrom(src, s.next, s.line);
        assert r.errors == Elements(s.error) + rest.errors;
        forall k | 0 <= k < |r.errors| ensures line <= r.errors[k].line <= line + Newlines(src[cur..]) && r.errors[k].where == "" {
          ElementsIndex(s.error, rest.errors, k);
        }
      }
    }
  }

  /** A source of blanks only scans to the end-of-input token alone, without errors. */
  lemma {:induction false} BlankSource(src: string, cur: nat, line: int)
    requires cur <= |src|
    requires forall k | cur <= k < |src| :: IsBlank(src[k])
    ensures ScanFrom(src, cur, line) == ScanResult([EofToken(line + Newlines(src[cur..]))], [Span(|src|, |src|)], [], true)
    decreases |src| - cur
  {
    hide Step, Newlines, ScanFrom;
    ScanFromUnfold(src, cur, line);
    if cur == |src| {
      assert src[cur..] == src[cur..cur];
      NoNewlines(src, cur, cur);
    } else {
      var s := Step(src, cur, line);
      BlankCharacter(src, cur, line);
      BlankSource(src, cur + 1, s.line);
      StepLine(src, cur, line);
      NewlinesSplit(src, cur, cur + 1, |src|);
      assert src[cur..|src|] == src[cur..] && src[cur + 1..|src|] == src[cur + 1..];
    }
  }

  // ---------------------------------------------------------------------------
  // From the start of the source
  // ---------------------------------------------------------------------------

  /**
   * `new Scanner(src).scanTokens()` as a whole: lexemes are the source text
   * of their spans, in order; token lines count from 1; a returning scan ends
   * with EOF on line 1 plus the number of line breaks in the source.
   */
  lemma SourceScan(src: string)
    ensures var r := ScanSource(src);
            && |r.spans| == |r.tokens|
            && (forall k | 0 <= k < |r.tokens| ::
                  && r.spans[k].start <= r.spans[k].end <= |src|
                  && r.tokens[k].lexeme == src[r.spans[k].start..r.spans[k].end]
                  && r.tokens[k].line == 1 + Newlines(src[..r.spans[k].end]))
            && (forall j, k | 0 <= j < k < |r.spans| :: r.spans[j].end <= r.spans[k].start)
            && (r.completed ==> |r.tokens| > 0 && r.tokens[|r.tokens| - 1] == EofToken(1 + multiset(src)['\n']))
            && (forall k | 0 <= k < |r.tokens| && (r.completed ==> k < |r.tokens| - 1) :: Producible(r.tokens[k].kind))
  {
    ScanSpans(src, 0, 1);
    ScanLines(src, 0, 1);
    ScanEnd(src, 0, 1);
    assert src[0..] == src;
    var r := ScanSource(src);
    forall k | 0 <= k < |r.tokens| ensures r.tokens[k].line == 1 + Newlines(src[..r.spans[k].end]) {
      assert src[0..r.spans[k].end] == src[..r.spans[k].end];
    }
  }
}
