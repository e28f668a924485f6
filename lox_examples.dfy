/**
 * Whole scans of small sources, worked out from the scanner's definition.
 */
module LoxExamples {
  import opened Wrappers
  import opened LoxToken
  import opened LoxLexical
  import LoxProperties

  /** "!=" is one BANG_EQUAL token, never BANG then EQUAL. */
  lemma BangEqualIsOneToken()
    ensures Tokens("!=") == [Token(BangEqual, "!=", NoLiteral, 1), EndToken(1)]
    ensures Errors("!=") == []
  {
    var src := "!=";
    assert Step(src, 0, 1).end == 2;
    assert src[0..2] == "!=";
  }

  /** "123." is NUMBER then DOT: the dot is not taken without a digit after it. */
  lemma TrailingDotIsSeparate()
    ensures Tokens("123.") == [Token(Number, "123", Num("123"), 1), Token(Dot, ".", NoLiteral, 1), EndToken(1)]
    ensures Errors("123.") == []
  {
    var src := "123.";
    assert RunEnd(src, 3, Digits) == 3;
    assert RunEnd(src, 1, Digits) == 3;
    assert Step(src, 0, 1).end == 3;
    assert src[0..3] == "123" && src[3..4] == ".";
  }

  /** "classroom" is one IDENTIFIER: keywords match whole lexemes only. */
  lemma ClassroomIsIdentifier()
    ensures Tokens("classroom") == [Token(Identifier, "classroom", NoLiteral, 1), EndToken(1)]
  {
    var src := "classroom";
    ClassroomStep();
    assert ScanFrom(src, 9, 1) == Scan([], [], 1);
    assert ScanFrom(src, 0, 1) == Scan([Token(Identifier, src, NoLiteral, 1)], [], 1);
  }

  lemma ClassroomStep()
    ensures Step("classroom", 0, 1) == Lexed(9, 1, Some(Token(Identifier, "classroom", NoLiteral, 1)), None)
  {
    var src := "classroom";
    ClassroomRun();
    assert src[0..9] == src;
    assert IdentifierKind(src) == Identifier by {
      assert forall w :: w in Keywords ==> |w| < 9;
    }
  }

  lemma ClassroomRun()
    ensures RunEnd("classroom", 1, Word) == 9
  {
    var src := "classroom";
    assert RunEnd(src, 9, Word) == 9;
    assert RunEnd(src, 5, Word) == 9;
  }

  /** A closed string: the lexeme keeps both quotes, the literal keeps the closing one. */
  lemma ClosedStringLiteral()
    ensures Tokens("\"hello\"") == [Token(String, "\"hello\"", Str("hello\""), 1), EndToken(1)]
    ensures Errors("\"hello\"") == []
  {
    var src := "\"hello\"";
    ClosedStringStep();
    assert ScanFrom(src, 7, 1) == Scan([], [], 1);
    assert ScanFrom(src, 0, 1) == Scan([Token(String, src, Str("hello\""), 1)], [], 1);
  }

  lemma ClosedStringStep()
    ensures Step("\"hello\"", 0, 1) == Lexed(7, 1, Some(Token(String, "\"hello\"", Str("hello\""), 1)), None)
  {
    var src := "\"hello\"";
    assert RunEnd(src, 1, StringBody) == 6;
    assert src[0..7] == src && src[1..7] == "hello\"";
    LoxProperties.NoNewlines(src, 1, 6);
  }

  /** An unclosed string is reported on its line and yields no token, only END. */
  lemma UnterminatedStringReported()
    ensures Tokens("\"abc") == [EndToken(1)]
    ensures Errors("\"abc") == [LexError(1, UnterminatedString)]
  {
    var src := "\"abc";
    assert RunEnd(src, 1, StringBody) == 4;
    assert src[1..4] == "abc";
    LoxProperties.NoNewlines(src, 1, 4);
    assert Step(src, 0, 1) == Lexed(4, 1, None, Some(LexError(1, UnterminatedString)));
  }

  /** Two unexpected characters are two separate reports, and the scan still ends with END. */
  lemma TwoUnexpectedCharacters()
    ensures Tokens("@ # ") == [EndToken(1)]
    ensures Errors("@ # ") == [LexError(1, UnexpectedCharacter), LexError(1, UnexpectedCharacter)]
  {
  }

  /** Each line feed raises the line: "1\n2\n3" gives numbers on lines 1, 2 and 3. */
  lemma NumbersOnThreeLines()
    ensures Tokens("1\n2\n3") ==
              [Token(Number, "1", Num("1"), 1), Token(Number, "2", Num("2"), 2),
               Token(Number, "3", Num("3"), 3), EndToken(3)]
  {
    var src := "1\n2\n3";
    var one := Token(Number, "1", Num("1"), 1);
    ThreeLinesFromSecond();
    assert Step(src, 1, 1) == Lexed(2, 2, None, None);
    assert ScanFrom(src, 1, 1) == Scan([Token(Number, "2", Num("2"), 2), Token(Number, "3", Num("3"), 3)], [], 3);
    assert RunEnd(src, 1, Digits) == 1 && src[0..1] == "1";
    assert Step(src, 0, 1) == Lexed(1, 1, Some(one), None);
  }

  /** The scan of "1\n2\n3" from its second line on. */
  lemma ThreeLinesFromSecond()
    ensures ScanFrom("1\n2\n3", 2, 2) == Scan([Token(Number, "2", Num("2"), 2), Token(Number, "3", Num("3"), 3)], [], 3)
  {
    var src := "1\n2\n3";
    var two := Token(Number, "2", Num("2"), 2);
    ThreeLinesFromThird();
    assert RunEnd(src, 3, Digits) == 3 && src[2..3] == "2";
    assert Step(src, 2, 2) == Lexed(3, 2, Some(two), None);
  }

  /** The scan of "1\n2\n3" from the line feed that ends its second line. */
  lemma ThreeLinesFromThird()
    ensures ScanFrom("1\n2\n3", 3, 2) == Scan([Token(Number, "3", Num("3"), 3)], [], 3)
  {
    var src := "1\n2\n3";
    var three := Token(Number, "3", Num("3"), 3);
    assert RunEnd(src, 5, Digits) == 5 && src[4..5] == "3";
    assert Step(src, 4, 3) == Lexed(5, 3, Some(three), None);
    assert ScanFrom(src, 4, 3) == Scan([three], [], 3);
    assert Step(src, 3, 2) == Lexed(4, 3, None, None);
  }
}
