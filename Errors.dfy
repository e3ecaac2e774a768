/** The exceptions the models and controllers throw, as one tagged type, and
    the outcome of an operation that may throw one of them. */
module Errors {

  import opened Php

  datatype ErrorKind =
    | InvalidParameter       // a query-string key outside the allow-list
    | InvalidParameterValue  // a recognised filter whose value fails its check
    | InvalidDate            // a date bound that fails validateDate
    | RangeFilter            // one half of a paired range filter without the other
    | TooManyParameters      // two filters that exclude each other
    | InvalidId              // a path id whose record does not exist
    | Pagination             // a non-numeric page or limit

  /** The HTTP status each exception passes to its parent constructor. The
      pagination exception declares 422 but has no constructor of its own, so
      its status is not fixed by the files modelled here. */
  function Status(e: ErrorKind): (code: Option<int>)
    ensures code.None? <==> e == Pagination
    ensures code.Some? ==> 400 <= code.value < 500
    ensures code == Some(404) <==> e == InvalidId
    ensures code == Some(416) <==> e == RangeFilter
    ensures code == Some(400) <==> e in {InvalidParameter, InvalidParameterValue, InvalidDate, TooManyParameters}
  {
    match e
    case InvalidParameter => Some(400)
    case InvalidParameterValue => Some(400)
    case InvalidDate => Some(400)
    case TooManyParameters => Some(400)
    case RangeFilter => Some(416)
    case InvalidId => Some(404)
    case Pagination => None
  }

  /** A value, or the one exception that aborted the request. */
  datatype Result<+T> = Ok(value: T) | Err(error: ErrorKind)
}
