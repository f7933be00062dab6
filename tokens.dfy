/** Values shared by every stage of the front end: the optional wrapper,
    the token kinds, tokens and the diagnostics that stand for calls to the
    error reporter. */
module Wrappers {
  datatype Option<+T> = None | Some(value: T)

  /** The zero- or one-element sequence holding an optional value. */
  function Seq<T>(o: Option<T>): (s: seq<T>)
    ensures |s| <= 1
    ensures o.None? ==> s == []
    ensures o.Some? ==> s == [o.value]
  {
    match o
    case None => []
    case Some(v) => [v]
  }
}

module Tokens {
  /** The token kinds the scanner and the parser use. */
  datatype TokenType =
    // single-character punctuation
    | LeftParen | RightParen | LeftBrace | RightBrace
    | Comma | Dot | Minus | Plus | Semicolon | Slash | Star
    // one- or two-character operators
    | Bang | BangEqual | Equal | EqualEqual
    | Greater | GreaterEqual | Less | LessEqual
    // literals
    | Identifier | String | Number
    // reserved words
    | And | Class | Else | False | Fun | For | If | Nil | Or
    | Print | Return | Super | This | True | Var | While
    // end of input
    | Eof

  /** A literal value: a token's literal (absent, a string or a number) or the
      value a Literal node holds (which may also be a boolean). A number keeps
      its source text; absent and null are the same value, nil. */
  datatype Value =
    | NilValue
    | BoolValue(b: bool)
    | NumberValue(lexeme: string)
    | StringValue(text: string)

  /** An immutable lexical unit. */
  datatype Token = Token(kind: TokenType, lexeme: string, literal: Value, line: int)

  /** One report to the error sink: the scanner reports a line number, the
      parser reports the offending token. */
  datatype Diagnostic =
    | LineError(line: int, message: string)
    | TokenError(token: Token, message: string)
}
