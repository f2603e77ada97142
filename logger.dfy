/** The error log shared by the scanner, the parser and the evaluator
    (internal/logger/logger.go). Printing the log is console I/O and is not
    modelled: the log is an append-only sequence of (message, span) entries. */
module Logger {

  /** A source range as a pair of character offsets. The Go code is midway
      through renaming `Pos` to `Span`; both are this pair here. */
  datatype Span = Span(start: int, end: int)

  /** One logged error: `logger.Error{Message, Pos}`. */
  datatype Entry = Entry(message: string, span: Span)

  /** The result of an operation that returns only a Go `error`: `Pass` is
      `nil`, `Fail` carries the error. */
  datatype Outcome = Pass | Fail(error: Entry)

  class Logger {
    var errors: seq<Entry>

    constructor ()
      ensures errors == []
    {
      errors := [];
    }

    /** `Add`: append one error to the log. */
    method Add(message: string, span: Span)
      modifies this
      ensures errors == old(errors) + [Entry(message, span)]
    {
      errors := errors + [Entry(message, span)];
    }
  }
}
