/** The interpreter's fail-fast error taxonomy: the first error aborts the run. */
module Errors {

  /** Why the parser gave up. */
  datatype ParseIssue =
    | EndOfInput                   // the current token was read at or past the end of the array
    | ExpectedSymbol(symbol: string) // a required token value was not there
    | LeftSideNotVariable          // `=` after an expression that is not a bare variable
    | UnresolvedStatement          // an expression followed by neither `=` nor `;`
    | ExpectedPrimary              // no `(`, number or identifier where an operand must start
    | ExpectedClosingParen         // `(` expression not followed by `)`

  /** Which lookup failed. */
  datatype NameIssue =
    | NoSuchVariable(name: string)
    | UnknownFunction(key: string)

  /** Operand or condition of the wrong kind. */
  datatype TypeIssue =
    | IncompatibleTypes
    | ConditionNotBool
    | UnaryMinusNotNumber

  /** Failures that the language never reports on purpose. */
  datatype InternalIssue =
    | UnknownOperator(op: string)
    | NullReference                // a member access on the null reference that `print` returns

  datatype Error =
    | LexError(rest: string)       // no token class matches at the start of `rest`
    | ParseError(issue: ParseIssue)
    | NameError(name: NameIssue)
    | TypeError(kind: TypeIssue)
    | InternalError(internal: InternalIssue)
    | NonFiniteArithmetic          // a division by zero, whose IEEE result the model leaves out

  /** An error raised while running, as opposed to while reading the source. */
  predicate IsRuntime(e: Error)
  {
    !e.LexError? && !e.ParseError?
  }
}
