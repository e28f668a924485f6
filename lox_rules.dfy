/**
 * The scanner's per-lexeme rules, each stated as what one step does from a
 * token start: maximal munch for the operators, line comments, whitespace,
 * the error for an unexpected character, and the shapes of number,
 * identifier and string lexemes.
 */
module LoxRules {
  import opened Wrappers
  import opened LoxToken
  import opened LoxLexical

  /** The characters that begin a token or are skipped; any other character is unexpected. */
  predicate StartsLexeme(c: char) {
    c in "(){},.-+;*!=<>/ \r\t\n\"" || IsDigit(c) || IsAlpha(c)
  }

  /** The two-character operator kinds. */
  predicate IsTwoCharOperator(kind: TokenType) {
    kind.BangEqual? || kind.EqualEqual? || kind.LessEqual? || kind.GreaterEqual?
  }

  /**
   * ! = < > take the following '=' whenever there is one, and only then:
   * the token is the two-character kind and two characters long exactly
   * when the next character is '='. Each operator keeps to its own pair of
   * kinds.
   */
  lemma {:induction false} OperatorMaximalMunch(src: string, start: nat, line: int)
    requires start < |src| && src[start] in "!=<>"
    ensures var r := Step(src, start, line);
            var equalFollows := Matches(src, start + 1, '=');
            && r.error == None && r.line == line
            && r.end == (if equalFollows then start + 2 else start + 1)
            && r.token.Some?
            && r.token.value.lexeme == src[start..r.end]
            && r.token.value.literal == NoLiteral
            && (IsTwoCharOperator(r.token.value.kind) <==> equalFollows)
            && (src[start] == '!' ==> r.token.value.kind in {Bang, BangEqual})
            && (src[start] == '=' ==> r.token.value.kind in {Equal, EqualEqual})
            && (src[start] == '<' ==> r.token.value.kind in {Less, LessEqual})
            && (src[start] == '>' ==> r.token.value.kind in {Greater, GreaterEqual})
  {
  }

  /** The single-character punctuation emits its own kind and consumes nothing more. */
  lemma {:induction false} PunctuationIsOneCharacter(src: string, start: nat, line: int)
    requires start < |src| && src[start] in "(){},.-+;*"
    ensures var r := Step(src, start, line);
            && r.end == start + 1 && r.line == line && r.error == None
            && r.token.Some? && r.token.value.lexeme == [src[start]]
            && r.token.value.literal == NoLiteral
            && var kind := r.token.value.kind;
            && (src[start] == '(' ==> kind == LeftParen) && (src[start] == ')' ==> kind == RightParen)
            && (src[start] == '{' ==> kind == LeftBrace) && (src[start] == '}' ==> kind == RightBrace)
            && (src[start] == ',' ==> kind == Comma) && (src[start] == '.' ==> kind == Dot)
            && (src[start] == '-' ==> kind == Minus) && (src[start] == '+' ==> kind == Plus)
            && (src[start] == ';' ==> kind == Semicolon) && (src[start] == '*' ==> kind == Star)
  {
  }

  /**
   * "//" starts a comment that runs up to, not including, the next line
   * feed or to the end of the source, and produces neither a token nor an
   * error.
   */
  lemma {:induction false} LineComment(src: string, start: nat, line: int)
    requires start + 1 < |src| && src[start] == '/' && src[start + 1] == '/'
    ensures var r := Step(src, start, line);
            && r.token == None && r.error == None && r.line == line
            && (r.end == |src| || src[r.end] == '\n')
            && forall k :: start <= k < r.end ==> src[k] != '\n'
  {
    RunEndIsMaximal(src, start + 2, CommentBody);
    var r := Step(src, start, line);
    forall k | start + 2 <= k < r.end
      ensures src[k] != '\n'
    {
      assert Continues(CommentBody, src[k]);
    }
  }

  /** A slash not followed by another one is the SLASH token. */
  lemma {:induction false} LoneSlash(src: string, start: nat, line: int)
    requires start < |src| && src[start] == '/' && !Matches(src, start + 1, '/')
    ensures Step(src, start, line) == Lexed(start + 1, line, Some(Token(Slash, "/", NoLiteral, line)), None)
  {
    assert src[start..start + 1] == "/";
  }

  /** Space, carriage return, tab and line feed emit nothing; only the line feed raises the line, by one. */
  lemma {:induction false} WhitespaceSkipped(src: string, start: nat, line: int)
    requires start < |src| && src[start] in " \r\t\n"
    ensures Step(src, start, line) == Lexed(start + 1, if src[start] == '\n' then line + 1 else line, None, None)
  {
  }

  /**
   * A character that starts no lexeme is reported at the current line and
   * skipped; scanning then carries on with the next character.
   */
  lemma {:induction false} UnexpectedCharacterReported(src: string, start: nat, line: int)
    requires start < |src| && !StartsLexeme(src[start])
    ensures Step(src, start, line) == Lexed(start + 1, line, None, Some(LexError(line, UnexpectedCharacter)))
    ensures var rest := ScanFrom(src, start + 1, line);
            ScanFrom(src, start, line) == Scan(rest.tokens, [LexError(line, UnexpectedCharacter)] + rest.errors, rest.line)
  {
    ScanFromStep(src, start, line);
  }

  /** Every character of s is a decimal digit. */
  predicate AllDigits(s: string) {
    forall k :: 0 <= k < |s| ==> IsDigit(s[k])
  }

  /** The shape of a number lexeme: digits, optionally a dot and more digits. */
  predicate NumberShaped(s: string) {
    || (|s| > 0 && AllDigits(s))
    || exists d :: 0 < d < |s| - 1 && s[d] == '.' && AllDigits(s[..d]) && AllDigits(s[d + 1..])
  }

  /** The digits of the run that starts at i, when i is past a digit. */
  lemma {:induction false} DigitRun(src: string, i: nat)
    requires i <= |src|
    ensures var end := RunEnd(src, i, Digits);
            && (forall k :: i <= k < end ==> IsDigit(src[k]))
            && !IsDigit(Peek(src, end))
  {
    RunEndIsMaximal(src, i, Digits);
    var end := RunEnd(src, i, Digits);
    forall k | i <= k < end
      ensures IsDigit(src[k])
    {
      assert Continues(Digits, src[k]);
    }
    if end < |src| {
      assert !Continues(Digits, src[end]);
    }
  }

  /**
   * A digit starts a NUMBER whose lexeme is digits with an optional
   * fractional part; the lexeme is maximal (no digit follows it, and a
   * lexeme without a fraction is not followed by a dot and a digit), and
   * its literal keeps the lexeme's text.
   */
  lemma {:induction false} NumberLiteral(src: string, start: nat, line: int)
    requires start < |src| && IsDigit(src[start])
    ensures var r := Step(src, start, line);
            var lexeme := src[start..r.end];
            && r.token == Some(Token(Number, lexeme, Num(lexeme), line))
            && r.error == None && r.line == line
            && NumberShaped(lexeme)
            && !IsDigit(Peek(src, r.end))
            && (AllDigits(lexeme) ==> !(Peek(src, r.end) == '.' && IsDigit(PeekNext(src, r.end))))
  {
    var r := Step(src, start, line);
    var lexeme := src[start..r.end];
    var whole := RunEnd(src, start + 1, Digits);
    DigitRun(src, start + 1);
    if r.end == whole {
      assert AllDigits(lexeme);
    } else {
      DigitRun(src, whole + 1);
      var d := whole - start;
      assert lexeme[d] == '.' && AllDigits(lexeme[..d]) && AllDigits(lexeme[d + 1..]);
      assert !AllDigits(lexeme) by {
        assert !IsDigit(lexeme[d]);
      }
    }
  }

  /**
   * A letter or underscore starts a maximal run of letters, digits and
   * underscores; the token's kind is the keyword kind when the whole run is
   * a reserved word and IDENTIFIER otherwise, and it carries no literal.
   */
  lemma {:induction false} IdentifierOrKeyword(src: string, start: nat, line: int)
    requires start < |src| && IsAlpha(src[start])
    ensures var r := Step(src, start, line);
            var lexeme := src[start..r.end];
            && r.token == Some(Token(IdentifierKind(lexeme), lexeme, NoLiteral, line))
            && r.error == None && r.line == line
            && (forall k :: 0 <= k < |lexeme| ==> IsAlphaNumeric(lexeme[k]))
            && !IsAlphaNumeric(Peek(src, r.end))
            && (lexeme in Keywords ==> r.token.value.kind == Keywords[lexeme])
            && (lexeme !in Keywords ==> r.token.value.kind == Identifier)
  {
    RunEndIsMaximal(src, start + 1, Word);
    var r := Step(src, start, line);
    forall k | start + 1 <= k < r.end
      ensures IsAlphaNumeric(src[k])
    {
      assert Continues(Word, src[k]);
    }
    if r.end < |src| {
      assert !Continues(Word, src[r.end]);
    }
  }

  /**
   * A quote starts a string literal. When another quote follows, the step
   * ends just past the first one: the token's lexeme spans both quotes, its
   * literal runs from after the opening quote up to and including the
   * closing one, and its line is the line counter after the line feeds
   * inside. Without a closing quote the step consumes the rest of the
   * source, emits no token and reports the error at the line reached.
   */
  lemma {:induction false} StringLiteral(src: string, start: nat, line: int)
    requires start < |src| && src[start] == '"'
    ensures var r := Step(src, start, line);
            && (r.token.Some? <==> '"' in src[start + 1..])
            && (r.token.Some? ==>
                  && start + 2 <= r.end && src[r.end - 1] == '"'
                  && '"' !in src[start + 1..r.end - 1]
                  && r.token.value == Token(String, src[start..r.end], Str(src[start + 1..r.end]), r.line)
                  && r.error == None)
            && (r.token.None? ==>
                  && r.end == |src|
                  && r.error == Some(LexError(r.line, UnterminatedString)))
  {
    var close := RunEnd(src, start + 1, StringBody);
    RunEndIsMaximal(src, start + 1, StringBody);
    forall k | start + 1 <= k < close
      ensures src[k] != '"'
    {
      assert Continues(StringBody, src[k]);
    }
    if close < |src| {
      assert !Continues(StringBody, src[close]);
      assert src[start + 1..][close - start - 1] == '"';
    } else {
      assert src[start + 1..] == src[start + 1..close];
    }
  }
}
