/**
 * The token record of the Lox scanner and the static keyword table.
 *
 * A token is a value: its kind, the exact source text that produced it, an
 * optional literal payload and the line counter at the moment it was
 * emitted. The literal payload, a heap object in the scanner, is a tagged
 * value here; a NUMBER literal keeps its digit text, since parsing it into a
 * double is not part of this model.
 */
module LoxToken {

  datatype TokenType =
    // single-character punctuation
    | LeftParen | RightParen | LeftBrace | RightBrace
    | Comma | Dot | Minus | Plus | Semicolon | Slash | Star
    // one- or two-character operators
    | Bang | BangEqual | Equal | EqualEqual
    | Greater | GreaterEqual | Less | LessEqual
    // literals
    | Identifier | String | Number
    // reserved words
    | And | Class | Else | False | Fun | For | If | Nil | Or
    | Print | Return | Super | This | True | Var | While
    // end of input
    | End

  /** The reserved-word kinds: exactly the values of the keyword table. */
  predicate IsReserved(kind: TokenType) {
    kind.And? || kind.Class? || kind.Else? || kind.False? || kind.Fun? || kind.For?
    || kind.If? || kind.Nil? || kind.Or? || kind.Print? || kind.Return? || kind.Super?
    || kind.This? || kind.True? || kind.Var? || kind.While?
  }

  datatype Literal =
    | NoLiteral
    | Str(text: string)
    | Num(digits: string)

  datatype Token = Token(kind: TokenType, lexeme: string, literal: Literal, line: int)

  /** One report made through the error sink: the line and the message. */
  datatype LexError = LexError(line: int, message: string)

  const UnexpectedCharacter: string := "Unexpected character"
  const UnterminatedString: string := "Unterminated string"

  /** The static map from reserved-word spelling to its kind. */
  const Keywords: map<string, TokenType> := map[
    "and" := And,
    "class" := Class,
    "else" := Else,
    "false" := False,
    "for" := For,
    "fun" := Fun,
    "if" := If,
    "nil" := Nil,
    "or" := Or,
    "print" := Print,
    "return" := Return,
    "super" := Super,
    "this" := This,
    "true" := True,
    "var" := Var,
    "while" := While
  ]

  /**
   * The kind of a completed identifier-shaped lexeme: the keyword kind when
   * the whole text is one of the table's spellings, IDENTIFIER otherwise.
   */
  function IdentifierKind(text: string): (kind: TokenType)
    ensures kind == Identifier || IsReserved(kind)
    ensures IsReserved(kind) <==> text in Keywords
    ensures text in Keywords ==> kind == Keywords[text]
  {
    if text in Keywords then Keywords[text] else Identifier
  }

  /** The spelling of a reserved kind, as the keyword table lists it. */
  function Spelling(kind: TokenType): (text: string)
    requires IsReserved(kind)
  {
    match kind
    case And => "and"
    case Class => "class"
    case Else => "else"
    case False => "false"
    case For => "for"
    case Fun => "fun"
    case If => "if"
    case Nil => "nil"
    case Or => "or"
    case Print => "print"
    case Return => "return"
    case Super => "super"
    case This => "this"
    case True => "true"
    case Var => "var"
    case While => "while"
  }

  /**
   * The keyword table is a one-to-one correspondence between sixteen
   * spellings and the sixteen reserved kinds: every value is reserved, and
   * every reserved kind is the value of its spelling and of no other key.
   */
  lemma KeywordTableIsBijective()
    ensures forall w :: w in Keywords ==> IsReserved(Keywords[w]) && Spelling(Keywords[w]) == w
    ensures forall kind :: IsReserved(kind) ==> Spelling(kind) in Keywords && Keywords[Spelling(kind)] == kind
  {
  }
}
