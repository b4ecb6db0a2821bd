/**
 * The lexical vocabulary (Interpreter/Token.cs) and the dynamically typed
 * values that token literals and the evaluator produce.
 */
module Tokens {

  /** Every token kind the scanner can produce. */
  datatype TokenType =
    // single-character tokens
    | LeftParen | RightParen | LeftBrace | RightBrace
    | Comma | Dot | Minus | Plus | Semicolon | Slash | Star
    // one- or two-character tokens
    | Bang | BangEqual | Equal | EqualEqual
    | Greater | GreaterEqual | Less | LessEqual
    // literals
    | Identifier | String | Number
    // reserved words
    | And | Class | Else | False | Fun | For | If | Nil | Or
    | Print | Return | Super | This | True | Var | While
    | EOF

  /**
   * A runtime value: the C# `object` that is `null`, a `bool`, a `double`
   * or a `string`. Token literals use the same type (they are only ever
   * `null`, a number or a string). Numbers are kept as reals; see NumOps in
   * the interpreter for how arithmetic on them is treated.
   */
  datatype Value = NilVal | BoolVal(b: bool) | NumVal(n: real) | StrVal(s: string)

  /** An immutable token record: kind, raw source slice, literal payload, source line. */
  datatype Token = Token(kind: TokenType, lexeme: string, literal: Value, line: nat)
}
