/**
 * The error sink of the interpreter driver (Jet.java): `error` and `report`
 * record a line-tagged message and raise the global `hasError` flag. The
 * printing to standard output is not modelled; the message is appended to a
 * log instead.
 */
module Jet {

  /** What one call of `report(line, where, message)` records. */
  datatype ErrorRecord = ErrorRecord(line: int, where: string, message: string)

  class Reporter {
    /** Every error reported so far, oldest first. */
    var errors: seq<ErrorRecord>
    /** The static `hasError` flag. */
    var hasError: bool

    constructor ()
      ensures errors == [] && !hasError
    {
      errors := [];
      hasError := false;
    }

    /** `report`: records the error and sets `hasError`. */
    method Report(line: int, where: string, message: string)
      modifies this
      ensures errors == old(errors) + [ErrorRecord(line, where, message)]
      ensures hasError
    {
      errors := errors + [ErrorRecord(line, where, message)];
      hasError := true;
    }

    /** `error`: a report with an empty location. */
    method Error(line: int, message: string)
      modifies this
      ensures errors == old(errors) + [ErrorRecord(line, "", message)]
      ensures hasError
    {
      Report(line, "", message);
    }
  }
}
