/**
 * Error records (Interpreter/Helpers/ParseError.cs) and the calls the
 * scanner and parser make to the two `Lox.error` overloads.
 */
module Errors {
  import opened Tokens

  /** `RuntimeException`: the offending token and the message. */
  datatype RuntimeError = RuntimeError(token: Token, message: string)

  /**
   * One call to `Lox.error`: the scanner reports by line number, the parser
   * by token. The scanner and parser keep these in order; `Lox.Run` passes
   * them on to the reporting methods in the same order.
   */
  datatype Diagnostic =
    | LineError(line: nat, message: string)
    | TokenError(token: Token, message: string)

  /** The message `Environment.get` and `Environment.assign` raise for a missing name. */
  function UndefinedVariable(name: Token): (e: RuntimeError)
    ensures e.token == name
    ensures |e.message| == |name.lexeme| + 22
    ensures e.message[..20] == "Undefined variable '" && e.message[20..20 + |name.lexeme|] == name.lexeme
  {
    RuntimeError(name, "Undefined variable '" + name.lexeme + "'.")
  }
}
