/**
 * The vocabulary of the Jet language: the closed set of token kinds
 * (TokenType.java) and the immutable token value (Token.java).
 */
module Tokens {

  /** One constructor per constant of the Java enum, in the same order. */
  datatype TokenType =
    // Single-character tokens. The source spells the first constant LEFT_PAREM.
    | LeftParen | RightParen | LeftBrace | RightBrace
    | Comma | Dot | Minus | Plus | Semicolon | Slash | Star
    // One- or two-character tokens
    | Bang | BangEqual | Equal | EqualEqual
    | Greater | GreaterEqual | Less | LessEqual
    // Literals
    | Identifier | String | Number
    // Keywords
    | And | Class | Else | False | Fun | For | If | Nil | Or | Print
    | Return | Super | This | True | Var | While
    | Eof

  /**
   * The `Object literal` field of a token. Java stores `null` for most tokens,
   * a `Double` for numbers, a `String` for strings, and, for the end-of-input
   * token, the enum constant `NIL` itself. The number's value is kept as its
   * lexeme: parsing it as a double is not part of this model.
   */
  datatype Literal =
    | NoLiteral
    | NumberLiteral(text: string)
    | StringLiteral(value: string)
    | NilMarker

  /** A classified lexeme and the line it was emitted on. */
  datatype Token = Token(kind: TokenType, lexeme: string, literal: Literal, line: int)
}
