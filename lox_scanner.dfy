/**
 * The Lox scanner as an object: the borrowed source, the token list being
 * built, the three cursors start, current and line, and the log that the
 * error sink appends to. Every method is proved to do what the
 * corresponding function of LoxLexical describes.
 */
module LoxScanner {
  import opened Wrappers
  import opened LoxToken
  import opened LoxLexical

  class Scanner {
    const source: string
    var tokens: seq<Token>
    /** The reports made through the error sink, in order. */
    var errors: seq<LexError>
    var start: nat
    var current: nat
    var line: int

    /** The cursor invariant: start <= current <= |source|, and lines count from 1. */
    ghost predicate Valid()
      reads this
    {
      start <= current <= |source| && line >= 1
    }

    /** The state after a step r that began with the token list toks and the error log errs. */
    ghost predicate Followed(r: Lexed, toks: seq<Token>, errs: seq<LexError>)
      reads this
    {
      current == r.end && line == r.line
      && tokens == toks + OptionToSeq(r.token)
      && errors == errs + OptionToSeq(r.error)
    }

    constructor (src: string)
      ensures Valid()
      ensures source == src && tokens == [] && errors == []
      ensures start == 0 && current == 0 && line == 1
    {
      source := src;
      tokens := [];
      errors := [];
      start, current, line := 0, 0, 1;
    }

    /**
     * Scans the rest of the source: the tokens that ScanFrom describes from
     * the current cursor, then one END token carrying the final line.
     */
    method ScanTokens() returns (result: seq<Token>)
      requires Valid()
      modifies this
      ensures Valid() && current == |source|
      ensures var s := ScanFrom(source, old(current), old(line));
              && result == old(tokens) + s.tokens + [EndToken(s.line)]
              && errors == old(errors) + s.errors
              && line == s.line
      ensures tokens == result
    {
      ghost var total := ScanFrom(source, current, line);
      ghost var tokens0, errors0 := tokens, errors;
      while !IsAtEnd()
        invariant Valid()
        invariant var rest := ScanFrom(source, current, line);
                  && tokens0 + total.tokens == tokens + rest.tokens
                  && errors0 + total.errors == errors + rest.errors
                  && total.line == rest.line
        decreases |source| - current
      {
        start := current;
        ghost var step, tokensBefore, errorsBefore := Step(source, current, line), tokens, errors;
        ScanFromStep(source, current, line);
        ScanToken();
        AppendAssoc(tokensBefore, OptionToSeq(step.token), ScanFrom(source, current, line).tokens);
        AppendAssoc(errorsBefore, OptionToSeq(step.error), ScanFrom(source, current, line).errors);
      }
      tokens := tokens + [EndToken(line)];
      result := tokens;
    }

    /** Whether every character has been consumed; under the invariant, exactly at the end. */
    predicate IsAtEnd(): (atEnd: bool)
      reads this
      ensures !atEnd ==> current < |source|
      ensures atEnd && Valid() ==> current == |source|
    {
      current >= |source|
    }

    /** Consumes the next character if it is expected. */
    method Match(expected: char) returns (matched: bool)
      requires Valid()
      modifies this`current
      ensures Valid()
      ensures matched == Matches(source, old(current), expected)
      ensures current == if matched then old(current) + 1 else old(current)
    {
      if IsAtEnd() {
        return false;
      }
      if source[current] != expected {
        return false;
      }
      current := current + 1;
      return true;
    }

    /** Scans one lexeme whose first character is at start. */
    method ScanToken()
      requires Valid() && start == current < |source|
      modifies this`current, this`line, this`tokens, this`errors
      ensures Valid()
      ensures Followed(Step(source, old(current), old(line)), old(tokens), old(errors))
    {
      AppendEmpty(tokens);
      AppendEmpty(errors);
      var c := Advance();
      match c {
        case '(' => AddToken(LeftParen, NoLiteral);
        case ')' => AddToken(RightParen, NoLiteral);
        case '{' => AddToken(LeftBrace, NoLiteral);
        case '}' => AddToken(RightBrace, NoLiteral);
        case ',' => AddToken(Comma, NoLiteral);
        case '.' => AddToken(Dot, NoLiteral);
        case '-' => AddToken(Minus, NoLiteral);
        case '+' => AddToken(Plus, NoLiteral);
        case ';' => AddToken(Semicolon, NoLiteral);
        case '*' => AddToken(Star, NoLiteral);
        case '!' =>
          var m := Match('=');
          AddToken(if m then BangEqual else Bang, NoLiteral);
        case '=' =>
          var m := Match('=');
          AddToken(if m then EqualEqual else Equal, NoLiteral);
        case '<' =>
          var m := Match('=');
          AddToken(if m then LessEqual else Less, NoLiteral);
        case '>' =>
          var m := Match('=');
          AddToken(if m then GreaterEqual else Greater, NoLiteral);
        case '/' =>
          var m := Match('/');
          if m {
            // a line comment: skip up to, not including, the line feed
            AdvanceWhile(CommentBody);
          } else {
            AddToken(Slash, NoLiteral);
          }
        case ' ' =>
        case '\r' =>
        case '\t' =>
        case '\n' =>
          line := line + 1;
        case '"' => String();
        case _ =>
          if IsDigit(c) {
            Number();
          } else if IsAlpha(c) {
            Identifier();
          } else {
            Error(line, UnexpectedCharacter);
          }
      }
    }

    /** The next unread character, or NUL at the end. */
    function Peek(): (c: char)
      reads this
      ensures current < |source| ==> c == source[current]
      ensures current >= |source| ==> c == '\0'
    {
      LoxLexical.Peek(source, current)
    }

    /** The character after the next one, or NUL past the end. */
    function PeekNext(): (c: char)
      reads this
      ensures current + 1 < |source| ==> c == source[current + 1]
      ensures current + 1 >= |source| ==> c == '\0'
    {
      LoxLexical.PeekNext(source, current)
    }

    /** Consumes and returns the next character. */
    method Advance() returns (c: char)
      requires Valid() && current < |source|
      modifies this`current
      ensures Valid()
      ensures c == source[old(current)] && current == old(current) + 1
    {
      c := source[current];
      current := current + 1;
    }

    /** Appends a token whose lexeme is source[start..current], stamped with the current line. */
    method AddToken(kind: TokenType, literal: Literal)
      requires Valid()
      modifies this`tokens
      ensures tokens == old(tokens) + [Token(kind, source[start..current], literal, line)]
    {
      var text := source[start..current];
      tokens := tokens + [Token(kind, text, literal, line)];
    }

    /** The error sink: records one report. */
    method Error(at: int, message: string)
      modifies this`errors
      ensures errors == old(errors) + [LexError(at, message)]
    {
      errors := errors + [LexError(at, message)];
    }

    /**
     * Consumes characters while they continue the given run: the loop
     * "while the next character is a digit / alphanumeric / not a line feed,
     * advance" that the number, identifier and comment cases share.
     */
    method AdvanceWhile(run: Run)
      requires Valid()
      modifies this`current
      ensures Valid()
      ensures current == RunEnd(source, old(current), run)
    {
      ghost var from := current;
      while !IsAtEnd() && Continues(run, Peek())
        modifies this`current
        invariant Valid() && from <= current
        invariant RunEnd(source, current, run) == RunEnd(source, from, run)
        decreases |source| - current
      {
        var _ := Advance();
      }
    }

    /** Finishes an identifier or keyword whose first character has been consumed. */
    method Identifier()
      requires Valid() && current == start + 1 && start < |source|
      modifies this`current, this`tokens
      ensures Valid()
      ensures Followed(IdentifierStep(source, start, line), old(tokens), errors)
    {
      AppendEmpty(errors);
      AdvanceWhile(Word);
      var text := source[start..current];
      AddToken(IdentifierKind(text), NoLiteral);
    }

    /** Finishes a string literal whose opening quote has been consumed. */
    method String()
      requires Valid() && current == start + 1 && start < |source|
      modifies this`current, this`line, this`tokens, this`errors
      ensures Valid()
      ensures Followed(StringStep(source, start, old(line)), old(tokens), old(errors))
    {
      AppendEmpty(errors);
      AppendEmpty(tokens);
      ghost var body, line0 := start + 1, line;
      while Peek() != '"' && !IsAtEnd()
        modifies this`current, this`line
        invariant body <= current <= |source|
        invariant RunEnd(source, current, StringBody) == RunEnd(source, body, StringBody)
        invariant line == line0 + Newlines(source, body, current)
        decreases |source| - current
      {
        if Peek() == '\n' {
          line := line + 1;
        }
        var _ := Advance();
      }
      if IsAtEnd() {
        Error(line, UnterminatedString);
        return;
      }
      var _ := Advance(); // the closing quote
      var value := source[start + 1..current];
      AddToken(LoxToken.String, Str(value));
    }

    /** Finishes a number literal whose first digit has been consumed. */
    method Number()
      requires Valid() && current == start + 1 && start < |source|
      modifies this`current, this`tokens
      ensures Valid()
      ensures Followed(NumberStep(source, start, line), old(tokens), errors)
    {
      AppendEmpty(errors);
      AdvanceWhile(Digits);
      if Peek() == '.' && IsDigit(PeekNext()) {
        var _ := Advance(); // the '.'
        AdvanceWhile(Digits);
      }
      AddToken(LoxToken.Number, Num(source[start..current]));
    }
  }

  /** Runs a fresh scanner over src, as a caller of the scanner does. */
  method ScanSource(src: string) returns (tokens: seq<Token>, errors: seq<LexError>)
    ensures tokens == Tokens(src) && errors == Errors(src)
  {
    var scanner := new Scanner(src);
    tokens := scanner.ScanTokens();
    errors := scanner.errors;
  }
}
