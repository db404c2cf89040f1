/** The single failure kind of the lexer and the parser, and the result types that carry it. */
module Errors {
  import opened Tokens

  /** The message of a failure, one constructor per message text of the source. */
  datatype Message =
    // lexical
    | NumberOutOfRange
    | UnexpectedCharacter(c: char)
    // syntactic
    | ExpectedAtLeastOneStatement
    | ExpectedStatement
    | ExpectedIf
    | ExpectedLParenAfterIf
    | ExpectedRParenAfterCondition
    | ExpectedThenAfterCondition
    | ExpectedElseAfterThenBranch
    | ExpectedWhile
    | ExpectedLParenAfterWhile
    | ExpectedLBrace
    | ExpectedRBraceAfterBlock
    | ExpectedMove
    | ExpectedShoot
    | ExpectedIdentifier
    | ExpectedEqualAfterIdentifier
    | ExpectedDirection
    | ExpectedExpression
    | ExpectedLParen
    | ExpectedRParen
    | ExpectedNearby

  /** A failure: its message, the lexeme it cites (if any) and a source offset. */
  datatype Error = Error(message: Message, lexeme: Option<string>, pos: nat)

  /** The failure a parser raises at token `t`: it cites that token's lexeme and position. */
  function ErrorAt(t: Token, m: Message): Error {
    Error(m, Some(t.lexeme), t.pos)
  }

  /** Either a value or the failure that aborted the computation. */
  datatype Result<+T> = Ok(value: T) | Err(error: Error) {
    predicate IsFailure() {
      Err?
    }

    function PropagateFailure<U>(): Result<U>
      requires Err?
    {
      Err(error)
    }

    function Extract(): T
      requires Ok?
    {
      value
    }
  }

  /** A value recognised by the parser together with the index of the first token after it. */
  datatype Parsed<+T> = Parsed(value: T, next: nat)
}
