/**
 * Tokens produced by the scanner (Token/token.py).
 * The token kinds are the members of the TokenType enumeration as the
 * scanner, parser and interpreter use them.
 */
module Tokens {

  datatype TokenType =
    | LeftParen | RightParen | LeftBrace | RightBrace | LeftBracket | RightBracket
    | Colon | Comma | Dot | Semicolon
    | Minus | MinusEqual | Plus | PlusEqual | Slash | SlashEqual | Star | StarEqual
    | Bang | BangEqual | Equal | EqualEqual | Greater | GreaterEqual | Less | LessEqual
    | Identifier | StringLit | NumberLit
    | AndKw | ClassKw | ElseKw | FalseKw | FunKw | ForKw | IfKw | NilKw | OrKw
    | PrintKw | ReturnKw | SuperKw | TrueKw | VarKw | WhileKw
    | Eof | NoneKind

  /** The literal a token carries: Python's None, an int, a float or a str. */
  datatype LiteralValue = NoLiteral | IntLiteral(i: int) | FloatLiteral(r: real) | StrLiteral(s: string)

  datatype Token = Token(kind: TokenType, lexeme: string, literal: LiteralValue, line: int)

  /** Python's `==` on two literals: ints and floats compare by numeric value. */
  predicate LiteralEq(a: LiteralValue, b: LiteralValue)
  {
    match (a, b)
    case (NoLiteral, NoLiteral) => true
    case (IntLiteral(x), IntLiteral(y)) => x == y
    case (IntLiteral(x), FloatLiteral(y)) => x as real == y
    case (FloatLiteral(x), IntLiteral(y)) => x == y as real
    case (FloatLiteral(x), FloatLiteral(y)) => x == y
    case (StrLiteral(x), StrLiteral(y)) => x == y
    case _ => false
  }

  /** `Token.__eq__`: the four fields are compared one by one. */
  predicate Eq(a: Token, b: Token)
  {
    a.kind == b.kind && a.lexeme == b.lexeme && LiteralEq(a.literal, b.literal) && a.line == b.line
  }

  /**
   * The tuple `Token.__hash__` feeds to Python's `hash`: kind, lexeme,
   * `str(literal)` and line. The key holds the literal itself in place of
   * its text, so it is finer than the source's: `str` gives the int 1 and
   * the string "1" the same text, which this key keeps apart.
   */
  function HashKey(t: Token): (k: (TokenType, string, LiteralValue, int))
  {
    (t.kind, t.lexeme, t.literal, t.line)
  }

  lemma EqReflexive(t: Token)
    ensures Eq(t, t)
  {
    match t.literal
    case NoLiteral =>
    case IntLiteral(_) =>
    case FloatLiteral(_) =>
    case StrLiteral(_) =>
  }

  lemma EqSymmetric(a: Token, b: Token)
    ensures Eq(a, b) <==> Eq(b, a)
  {
  }

  /** Tokens that differ only in their line are different tokens. */
  lemma LineIsPartOfIdentity(a: Token, b: Token)
    requires a.kind == b.kind && a.lexeme == b.lexeme && a.literal == b.literal
    requires a.line != b.line
    ensures !Eq(a, b)
  {
  }

  /** Equal tokens whose literals are identical hash alike. */
  lemma EqualTokensHashAlike(a: Token, b: Token)
    requires Eq(a, b) && a.literal == b.literal
    ensures HashKey(a) == HashKey(b)
  {
  }
}
