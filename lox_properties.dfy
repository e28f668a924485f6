/**
 * What the Lox scanner guarantees about a whole scan: the token list ends
 * with exactly one END token, every other token's lexeme is the source
 * slice it was scanned from, the slices are disjoint and in source order,
 * and every token carries the line counter in force where its lexeme ends.
 */
module LoxProperties {
  import opened Wrappers
  import opened LoxToken
  import opened LoxLexical

  /** Splitting a slice at any middle index splits its line feeds. */
  lemma {:induction false} NewlinesSplit(src: string, i: nat, j: nat, k: nat)
    requires i <= j <= k <= |src|
    ensures Newlines(src, i, k) == Newlines(src, i, j) + Newlines(src, j, k)
    decreases k - j
  {
    if j < k {
      NewlinesSplit(src, i, j, k - 1);
    }
  }

  /** A slice without a line feed in it counts none. */
  lemma {:induction false} NoNewlines(src: string, i: nat, j: nat)
    requires i <= j <= |src|
    requires forall k :: i <= k < j ==> src[k] != '\n'
    ensures Newlines(src, i, j) == 0
    decreases j - i
  {
    if i < j {
      NoNewlines(src, i, j - 1);
    }
  }

  /** Every token a step emits is the slice it consumed, stamped with the step's final line, and is never END. */
  lemma {:induction false} StepToken(src: string, start: nat, line: int)
    requires start < |src|
    ensures var r := Step(src, start, line);
            r.token.Some? ==>
              && r.token.value.lexeme == src[start..r.end]
              && r.token.value.line == r.line
              && r.token.value.kind != End
  {
    var r := Step(src, start, line);
    if IsAlpha(src[start]) && r.token.Some? {
      assert IdentifierKind(r.token.value.lexeme) != End;
    }
  }

  /** A run of digits, word characters or comment text holds no line feed. */
  lemma {:induction false} RunWithoutNewlines(src: string, i: nat, run: Run)
    requires i <= |src| && run != StringBody
    ensures Newlines(src, i, RunEnd(src, i, run)) == 0
  {
    var end := RunEnd(src, i, run);
    RunEndIsMaximal(src, i, run);
    forall k | i <= k < end
      ensures src[k] != '\n'
    {
      assert Continues(run, src[k]);
    }
    NoNewlines(src, i, end);
  }

  /** A number lexeme holds no line feed. */
  lemma {:induction false} NumberWithoutNewlines(src: string, start: nat, line: int)
    requires start < |src| && IsDigit(src[start])
    ensures Newlines(src, start, NumberStep(src, start, line).end) == 0
  {
    var whole := RunEnd(src, start + 1, Digits);
    var end := NumberStep(src, start, line).end;
    RunEndIsMaximal(src, start + 1, Digits);
    if end != whole {
      RunEndIsMaximal(src, whole + 1, Digits);
    }
    forall k | start < k < end && k != whole
      ensures src[k] != '\n'
    {
      assert Continues(Digits, src[k]);
    }
    NoNewlines(src, start, end);
  }

  /** A string step moves the line counter by the line feeds between its quotes. */
  lemma {:induction false} StringLine(src: string, start: nat, line: int)
    requires start < |src| && src[start] == '"'
    ensures var r := StringStep(src, start, line);
            r.line == line + Newlines(src, start, r.end)
  {
    var r := StringStep(src, start, line);
    var close := RunEnd(src, start + 1, StringBody);
    var inside := Newlines(src, start + 1, close);
    NewlinesSplit(src, start, start + 1, close);
    assert Newlines(src, start, start + 1) == 0;
    if close < |src| {
      assert r.end == close + 1 && r.line == line + inside;
      NewlinesSplit(src, start, close, close + 1);
      assert Newlines(src, close, close + 1) == 0;
    } else {
      assert r.end == close && r.line == line + inside;
    }
  }

  /**
   * The line counter after a step has risen by the number of line feeds the
   * step consumed: one for a line feed, those embedded in a string literal,
   * none for anything else.
   */
  lemma {:induction false} StepLine(src: string, start: nat, line: int)
    requires start < |src|
    ensures var r := Step(src, start, line);
            r.line == line + Newlines(src, start, r.end)
  {
    match src[start]
    case '"' =>
      StringLine(src, start, line);
      assert Step(src, start, line) == StringStep(src, start, line);
    case '/' =>
      if Matches(src, start + 1, '/') {
        NewlinesSplit(src, start, start + 1, start + 2);
        RunWithoutNewlines(src, start + 2, CommentBody);
        NewlinesSplit(src, start, start + 2, RunEnd(src, start + 2, CommentBody));
      }
    case '!' => OperatorLine(src, start);
    case '=' => OperatorLine(src, start);
    case '<' => OperatorLine(src, start);
    case '>' => OperatorLine(src, start);
    case c =>
      if IsDigit(c) {
        NumberWithoutNewlines(src, start, line);
        assert Step(src, start, line) == NumberStep(src, start, line);
      } else if IsAlpha(c) {
        RunWithoutNewlines(src, start + 1, Word);
        NewlinesSplit(src, start, start + 1, RunEnd(src, start + 1, Word));
      }
  }

  /** An operator and a following '=' hold no line feed. */
  lemma {:induction false} OperatorLine(src: string, start: nat)
    requires start < |src| && src[start] != '\n'
    ensures Matches(src, start + 1, '=') ==> Newlines(src, start, start + 2) == 0
  {
    if Matches(src, start + 1, '=') {
      NewlinesSplit(src, start, start + 1, start + 2);
    }
  }

  /** The final line counter is the starting one plus the line feeds in the rest of the source. */
  lemma {:induction false} ScanLine(src: string, pos: nat, line: int)
    requires pos <= |src|
    ensures ScanFrom(src, pos, line).line == line + Newlines(src, pos, |src|)
    decreases |src| - pos
  {
    if pos < |src| {
      var step := Step(src, pos, line);
      ScanLine(src, step.end, step.line);
      StepLine(src, pos, line);
      NewlinesSplit(src, pos, step.end, |src|);
    }
  }

  /**
   * Every step consumes at least one character and yields at most one token
   * or one report, and the line counter never goes down.
   */
  lemma {:induction false} ScanFromBounded(src: string, pos: nat, line: int)
    requires pos <= |src|
    ensures var s := ScanFrom(src, pos, line);
            |s.tokens| + |s.errors| <= |src| - pos && s.line >= line
    decreases |src| - pos
  {
    if pos < |src| {
      var step := Step(src, pos, line);
      ScanFromBounded(src, step.end, step.line);
    }
  }

  /** A source of n characters yields at most n tokens and reports together, plus the END token. */
  lemma TokensAndErrorsBounded(src: string)
    ensures |Tokens(src)| + |Errors(src)| <= |src| + 1
  {
    ScanFromBounded(src, 0, 1);
  }

  /**
   * Each scanned token is the source slice recorded for it in Spans; the
   * slices lie in [pos, |src|), are non-empty, and follow one another
   * without overlap, in source order.
   */
  lemma {:induction false} SpansAreLexemes(src: string, pos: nat, line: int)
    requires pos <= |src|
    ensures var tokens := ScanFrom(src, pos, line).tokens;
            var spans := Spans(src, pos, line);
            && |spans| == |tokens|
            && (forall i :: 0 <= i < |spans| ==>
                  && pos <= spans[i].0 < spans[i].1 <= |src|
                  && tokens[i].lexeme == src[spans[i].0..spans[i].1])
            && (forall i :: 0 <= i < |spans| - 1 ==> spans[i].1 <= spans[i + 1].0)
    decreases |src| - pos
  {
    if pos < |src| {
      var step := Step(src, pos, line);
      SpansAreLexemes(src, step.end, step.line);
      StepToken(src, pos, line);
    }
  }

  /** The line of each scanned token is the starting line plus the line feeds up to the end of its lexeme. */
  lemma {:induction false} TokenLines(src: string, pos: nat, line: int)
    requires pos <= |src|
    ensures var tokens := ScanFrom(src, pos, line).tokens;
            var spans := Spans(src, pos, line);
            |spans| == |tokens| &&
            forall i :: 0 <= i < |spans| ==> pos <= spans[i].1 <= |src| && tokens[i].line == line + Newlines(src, pos, spans[i].1)
    decreases |src| - pos
  {
    if pos < |src| {
      var step := Step(src, pos, line);
      var restTokens := ScanFrom(src, step.end, step.line).tokens;
      var rest := Spans(src, step.end, step.line);
      TokenLines(src, step.end, step.line);
      ScanFromStep(src, pos, line);
      StepLine(src, pos, line);
      forall i | 0 <= i < |rest|
        ensures Newlines(src, pos, rest[i].1) == Newlines(src, pos, step.end) + Newlines(src, step.end, rest[i].1)
      {
        NewlinesSplit(src, pos, step.end, rest[i].1);
      }
      if step.token.Some? {
        StepToken(src, pos, line);
        assert ScanFrom(src, pos, line).tokens == [step.token.value] + restTokens;
        assert Spans(src, pos, line) == [(pos, step.end)] + rest;
      } else {
        assert ScanFrom(src, pos, line).tokens == restTokens;
        assert Spans(src, pos, line) == rest;
      }
    }
  }

  /** No scanned token is END: END is only ever the terminator. */
  lemma {:induction false} NoEndInScan(src: string, pos: nat, line: int)
    requires pos <= |src|
    ensures forall t :: t in ScanFrom(src, pos, line).tokens ==> t.kind != End
    decreases |src| - pos
  {
    if pos < |src| {
      var step := Step(src, pos, line);
      NoEndInScan(src, step.end, step.line);
      StepToken(src, pos, line);
    }
  }

  /**
   * The token list is never empty and ends with exactly one END token: an
   * empty lexeme, no literal, and the final line, which is one plus the
   * number of line feeds in the source.
   */
  lemma TokensEndWithOneEnd(src: string)
    ensures var tokens := Tokens(src);
            && |tokens| >= 1
            && tokens[|tokens| - 1] == Token(End, "", NoLiteral, 1 + Newlines(src, 0, |src|))
            && forall i :: 0 <= i < |tokens| - 1 ==> tokens[i].kind != End
  {
    NoEndInScan(src, 0, 1);
    ScanLine(src, 0, 1);
    var scanned := ScanFrom(src, 0, 1).tokens;
    assert forall i :: 0 <= i < |scanned| ==> scanned[i] in scanned;
  }

  /** Token lines never decrease along the token list, END included. */
  lemma TokenLinesNondecreasing(src: string)
    ensures var tokens := Tokens(src);
            forall i, j :: 0 <= i <= j < |tokens| ==> tokens[i].line <= tokens[j].line
  {
    var tokens := Tokens(src);
    var scanned := ScanFrom(src, 0, 1).tokens;
    var spans := Spans(src, 0, 1);
    SpansAreLexemes(src, 0, 1);
    TokenLines(src, 0, 1);
    ScanLine(src, 0, 1);
    // the span ends grow along the list
    assert forall i, j :: 0 <= i <= j < |spans| ==> spans[i].1 <= spans[j].1 by {
      forall i, j | 0 <= i <= j < |spans|
        ensures spans[i].1 <= spans[j].1
      {
        var k := i;
        while k < j
          invariant i <= k <= j && spans[i].1 <= spans[k].1
        {
          k := k + 1;
        }
      }
    }
    forall i, j | 0 <= i <= j < |tokens|
      ensures tokens[i].line <= tokens[j].line
    {
      if i < |scanned| {
        if j < |scanned| {
          NewlinesSplit(src, 0, spans[i].1, spans[j].1);
        } else {
          NewlinesSplit(src, 0, spans[i].1, |src|);
        }
      }
    }
  }
}
