/** Tokens of the tree-walking (Ruby) interpreter: the token kinds the
    scanner emits, the literal a token may carry, and the 16-entry keyword
    table. */
module RloxToken {

  datatype TokenType =
    // single-character tokens
    | LeftParen | RightParen | LeftBrace | RightBrace
    | Comma | Dot | Minus | Plus | Semicolon | Slash | Star
    // one- or two-character tokens
    | Bang | BangEqual | Equal | EqualEqual
    | Greater | GreaterEqual | Less | LessEqual
    // literals
    | Identifier | StringTok | Number
    // keywords
    | And | Class | Else | False | For | Fun | If | Nil | Or
    | Print | Return | Super | This | True | Var | While
    | Eof

  /** The literal slot of a token: a number's value, a string's contents, or nothing. */
  datatype Literal = NoLiteral | NumberLit(n: real) | StringLit(s: string)

  datatype Token = Token(kind: TokenType, lexeme: string, literal: Literal, line: nat)

  /** Reserved words and the token kind each one scans to. */
  const Keywords: map<string, TokenType> := map[
    "and" := And, "class" := Class, "else" := Else, "false" := False,
    "for" := For, "fun" := Fun, "if" := If, "nil" := Nil,
    "or" := Or, "print" := Print, "return" := Return, "super" := Super,
    "this" := This, "true" := True, "var" := Var, "while" := While
  ]

  predicate IsKeywordKind(k: TokenType) {
    k in {And, Class, Else, False, For, Fun, If, Nil, Or, Print, Return, Super, This, True, Var, While}
  }

  /** The kind an identifier-shaped word scans to: its keyword, or Identifier. */
  function WordKind(text: string): (k: TokenType)
    ensures text in Keywords ==> k == Keywords[text] && IsKeywordKind(k)
    ensures text !in Keywords ==> k == Identifier
  {
    if text in Keywords then Keywords[text] else Identifier
  }
}
