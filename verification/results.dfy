/** The outcome types of the parsers. Go's `(*UserAgent, error)` pair, of
    which exactly one half is set, becomes a `Result`: a failed parse carries
    no record at all. */
module Results {
  import opened Text

  datatype Option<T> = None | Some(value: T) {
    predicate IsFailure() { None? }

    function PropagateFailure<U>(): Option<U>
      requires None?
    {
      None
    }

    function Extract(): T
      requires Some?
    {
      value
    }
  }

  /** Why a parse failed. The root `useragent` package and the
      `useragent/useragent` package only ever report `NoMatch`; `ua.go` also
      reports a missing or non-numeric OS version. Each carries the text the
      Go message quotes; the message wording is not modelled. */
  datatype ParseError =
    | NoMatch(input: String)
    | MissingOsVersion(osDetail: String)
    | OsVersionNotNumber(osVersion: String)

  datatype Result<T> = Ok(value: T) | Err(error: ParseError)
}
