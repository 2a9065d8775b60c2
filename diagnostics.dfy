/** The error sink the scanner and the parser report to.  Reporting never
    changes control flow, so the model keeps the reports as a log. */
module Diagnostics {
  import opened Tokens

  /** One call of the sink: `Error(line, message)` for the scanner's reports
      and `Error(token, message)` for the parser's. */
  datatype Report =
    | LineError(line: int, message: string)
    | TokenError(token: Token, message: string)
}
