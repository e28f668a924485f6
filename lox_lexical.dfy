/**
 * The lexical grammar of the Lox scanner as pure functions.
 *
 * Step describes what one iteration of the scanner's main loop does from a
 * token start: how far it consumes, the new line counter, and the token or
 * the error it produces. ScanFrom chains the steps to the end of the source.
 * The imperative scanner in LoxScanner is proved to follow these functions.
 */
module LoxLexical {
  import opened Wrappers
  import opened LoxToken

  /** The characters that the scanner's switch handles by a case of their own. */
  const SwitchCharacters: string := "(){},.-+;*!=<>/ \r\t\n\""

  /** isDigit: a decimal digit. */
  predicate IsDigit(c: char): (digit: bool)
  {
    '0' <= c <= '9'
  }

  /** isAlpha: an ASCII letter or '_'. */
  predicate IsAlpha(c: char): (alpha: bool)
  {
    ('a' <= c <= 'z') || ('A' <= c <= 'Z') || c == '_'
  }

  /** isAlphaNumeric: a character that continues an identifier. */
  predicate IsAlphaNumeric(c: char): (word: bool)
  {
    IsDigit(c) || IsAlpha(c)
  }

  /**
   * Digits and letters are disjoint, neither has a case of its own in the
   * scanner's switch (so both reach its default branch), and both continue
   * an identifier.
   */
  lemma CharacterClasses(c: char)
    ensures IsDigit(c) ==> !IsAlpha(c) && c !in SwitchCharacters
    ensures IsAlpha(c) ==> c !in SwitchCharacters
    ensures IsDigit(c) || IsAlpha(c) ==> IsAlphaNumeric(c)
  {
  }

  /** The character at i, or NUL past the end. */
  function Peek(src: string, i: nat): (c: char)
    ensures i < |src| ==> Matches(src, i, c)
    ensures i >= |src| ==> c == '\0'
  {
    if i >= |src| then '\0' else src[i]
  }

  /** The character after the one at i, or NUL past the end: what Peek sees one further on. */
  function PeekNext(src: string, i: nat): (c: char)
    ensures c == Peek(src, i + 1)
  {
    if i + 1 >= |src| then '\0' else src[i + 1]
  }

  /** Whether the character at i exists and equals expected (the scanner's match). */
  predicate Matches(src: string, i: nat, expected: char) {
    i < |src| && src[i] == expected
  }

  /** The kinds of character runs the scanner consumes in an inner loop. */
  datatype Run = Digits | Word | CommentBody | StringBody

  predicate Continues(run: Run, c: char) {
    match run
    case Digits => IsDigit(c)
    case Word => IsAlphaNumeric(c)
    case CommentBody => c != '\n'
    case StringBody => c != '"'
  }

  /**
   * Where a maximal run of characters of the given kind that starts at i
   * ends (the scanner's "advance while the next character continues the
   * run"); RunEndIsMaximal states what the result is.
   */
  function RunEnd(src: string, i: nat, run: Run): (j: nat)
    requires i <= |src|
    ensures i <= j <= |src|
    ensures j < |src| ==> !Continues(run, src[j])
    decreases |src| - i
  {
    if i == |src| || !Continues(run, src[i]) then i else RunEnd(src, i + 1, run)
  }

  /**
   * RunEnd(src, i, run) is the end of the longest run: every character in
   * between belongs to the run and the one at the result, if any, does not.
   */
  lemma {:induction false} RunEndIsMaximal(src: string, i: nat, run: Run)
    requires i <= |src|
    ensures var j := RunEnd(src, i, run);
            && (forall k :: i <= k < j ==> Continues(run, src[k]))
            && (j == |src| || !Continues(run, src[j]))
    decreases |src| - i
  {
    if i < |src| && Continues(run, src[i]) {
      RunEndIsMaximal(src, i + 1, run);
    }
  }

  /** The number of line feeds in src[i..j]. */
  function Newlines(src: string, i: nat, j: nat): (n: nat)
    requires i <= j <= |src|
    decreases j - i
  {
    if i == j then 0
    else Newlines(src, i, j - 1) + (if src[j - 1] == '\n' then 1 else 0)
  }

  /** The outcome of one scanning step that started at some index. */
  datatype Lexed = Lexed(end: nat, line: int, token: Option<Token>, error: Option<LexError>)

  /** A step that emits the token src[start..end] with the current line. */
  function Emit(src: string, start: nat, end: nat, kind: TokenType, literal: Literal, line: int): (r: Lexed)
    requires start <= end <= |src|
  {
    Lexed(end, line, Some(Token(kind, src[start..end], literal, line)), None)
  }

  /** A step that consumes up to end and emits nothing. */
  function Skip(end: nat, line: int): (r: Lexed) {
    Lexed(end, line, None, None)
  }

  /** A one-character token at start. */
  function Single(src: string, start: nat, kind: TokenType, line: int): (r: Lexed)
    requires start < |src|
  {
    Emit(src, start, start + 1, kind, NoLiteral, line)
  }

  /** An operator at start that becomes its two-character kind when '=' follows it. */
  function Operator(src: string, start: nat, single: TokenType, double: TokenType, line: int): (r: Lexed)
    requires start < |src|
  {
    if Matches(src, start + 1, '=') then Emit(src, start, start + 2, double, NoLiteral, line)
    else Single(src, start, single, line)
  }

  /**
   * A string literal opened by the quote at start. Line feeds inside it
   * advance the line counter. Without a closing quote the step reports an
   * error at the end of the source; otherwise the token spans both quotes,
   * and its literal, as the scanner takes it, runs from after the opening
   * quote up to and including the closing one.
   */
  function StringStep(src: string, start: nat, line: int): (r: Lexed)
    requires start < |src|
    ensures start < r.end <= |src| && r.line >= line
    ensures r.token.Some? != r.error.Some?
    ensures r.token.Some? ==> r.end >= start + 2 && src[r.end - 1] == '"' && r.token.value.kind == String
    ensures r.error.Some? ==> r.end == |src| && r.error.value == LexError(r.line, UnterminatedString)
  {
    var close := RunEnd(src, start + 1, StringBody);
    var endLine := line + Newlines(src, start + 1, close);
    if close == |src| then
      Lexed(close, endLine, None, Some(LexError(endLine, UnterminatedString)))
    else
      Emit(src, start, close + 1, String, Str(src[start + 1..close + 1]), endLine)
  }

  /** A number literal whose first digit is at start: digits, then '.' and digits if a digit follows the dot. */
  function NumberStep(src: string, start: nat, line: int): (r: Lexed)
    requires start < |src|
    ensures start < r.end <= |src| && r.line == line && r.error == None
    ensures r.token.Some? && r.token.value.kind == Number
    ensures r.token.value.literal == Num(r.token.value.lexeme)
    ensures r.end < |src| ==> !IsDigit(src[r.end])
  {
    var whole := RunEnd(src, start + 1, Digits);
    var fraction := Peek(src, whole) == '.' && IsDigit(PeekNext(src, whole));
    var end := if fraction then RunEnd(src, whole + 1, Digits) else whole;
    Emit(src, start, end, Number, Num(src[start..end]), line)
  }

  /** An identifier or keyword whose first character is at start. */
  function IdentifierStep(src: string, start: nat, line: int): (r: Lexed)
    requires start < |src|
    ensures start < r.end <= |src| && r.line == line && r.error == None
    ensures r.token.Some? && r.token.value.kind == IdentifierKind(r.token.value.lexeme)
    ensures r.end < |src| ==> !IsAlphaNumeric(src[r.end])
  {
    var end := RunEnd(src, start + 1, Word);
    Emit(src, start, end, IdentifierKind(src[start..end]), NoLiteral, line)
  }

  /** One iteration of the main loop, dispatching on the character at start. */
  function Step(src: string, start: nat, line: int): (r: Lexed)
    requires start < |src|
    ensures start < r.end <= |src| && r.line >= line
    ensures r.token == None || r.error == None
  {
    match src[start]
    case '(' => Single(src, start, LeftParen, line)
    case ')' => Single(src, start, RightParen, line)
    case '{' => Single(src, start, LeftBrace, line)
    case '}' => Single(src, start, RightBrace, line)
    case ',' => Single(src, start, Comma, line)
    case '.' => Single(src, start, Dot, line)
    case '-' => Single(src, start, Minus, line)
    case '+' => Single(src, start, Plus, line)
    case ';' => Single(src, start, Semicolon, line)
    case '*' => Single(src, start, Star, line)
    case '!' => Operator(src, start, Bang, BangEqual, line)
    case '=' => Operator(src, start, Equal, EqualEqual, line)
    case '<' => Operator(src, start, Less, LessEqual, line)
    case '>' => Operator(src, start, Greater, GreaterEqual, line)
    case '/' =>
      if Matches(src, start + 1, '/') then Skip(RunEnd(src, start + 2, CommentBody), line)
      else Single(src, start, Slash, line)
    case ' ' => Skip(start + 1, line)
    case '\r' => Skip(start + 1, line)
    case '\t' => Skip(start + 1, line)
    case '\n' => Skip(start + 1, line + 1)
    case '"' => StringStep(src, start, line)
    case c =>
      if IsDigit(c) then NumberStep(src, start, line)
      else if IsAlpha(c) then IdentifierStep(src, start, line)
      else Lexed(start + 1, line, None, Some(LexError(line, UnexpectedCharacter)))
  }

  /** What the scanner has produced when it reaches the end: tokens, error reports, final line. */
  datatype Scan = Scan(tokens: seq<Token>, errors: seq<LexError>, line: int)

  /** The tokens, errors and final line of scanning src from pos with the given line counter. */
  function ScanFrom(src: string, pos: nat, line: int): (s: Scan)
    requires pos <= |src|
    decreases |src| - pos
  {
    if pos == |src| then Scan([], [], line)
    else
      var step := Step(src, pos, line);
      var rest := ScanFrom(src, step.end, step.line);
      Scan(OptionToSeq(step.token) + rest.tokens, OptionToSeq(step.error) + rest.errors, rest.line)
  }

  /** Scanning from pos is one step followed by scanning from where the step ended. */
  lemma ScanFromStep(src: string, pos: nat, line: int)
    requires pos < |src|
    ensures var step := Step(src, pos, line);
            var rest := ScanFrom(src, step.end, step.line);
            var scan := ScanFrom(src, pos, line);
            && scan.tokens == OptionToSeq(step.token) + rest.tokens
            && scan.errors == OptionToSeq(step.error) + rest.errors
            && scan.line == rest.line
  {
  }

  /** The END token that closes every token list. */
  function EndToken(line: int): (t: Token) {
    Token(End, "", NoLiteral, line)
  }

  /** The full token list of src: the scanned tokens followed by the END token. */
  function Tokens(src: string): (toks: seq<Token>)
    ensures |toks| >= 1 && toks[|toks| - 1].kind == End
  {
    var s := ScanFrom(src, 0, 1);
    s.tokens + [EndToken(s.line)]
  }

  /** The error reports of scanning src. */
  function Errors(src: string): (errs: seq<LexError>) {
    ScanFrom(src, 0, 1).errors
  }

  /** The source interval [start, end) from which each token of ScanFrom(src, pos, line) was taken. */
  ghost function Spans(src: string, pos: nat, line: int): (spans: seq<(nat, nat)>)
    requires pos <= |src|
    decreases |src| - pos
  {
    if pos == |src| then []
    else
      var step := Step(src, pos, line);
      var rest := Spans(src, step.end, step.line);
      if step.token.Some? then [(pos, step.end)] + rest else rest
  }
}
