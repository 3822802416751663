/** Shared failure-compatible wrappers and the error taxonomy of the SDK.

    Every failure in the SDK is a Python exception (nearly always `ValueError`
    with a message, sometimes a `KeyError` or `TypeError`).  The model names
    each distinct raise site by a constructor of `Error`; the message texts are
    summarised by the constructor, not reproduced character by character. */
module Common {

  datatype Option<+T> = None | Some(value: T) {
    function GetOr(default: T): T {
      match this
      case Some(v) => v
      case None => default
    }
  }

  datatype Error =
    | MissingEnvironment               // "Missing required environment variables"
    | InvalidPort(text: string)        // int() of the PORT variable failed
    | MutuallyExclusive                // bars_back and first_date both given
    | IntervalOutOfRange               // interval not in 1..64999
    | BarsBackOutOfRange               // a truthy bars_back not in 1..57600
    | MissingEndpoint                  // neither endpoint nor url
    | RequestFailed(status: int, text: string)
    | InvalidJson(line: string)        // a stream line json.loads refused
    | NoRefreshToken                   // refresh attempted without a refresh token
    | TokenRequestFailed(text: string) // non-200 from the token endpoint
    | MissingKey(key: string)          // KeyError on body['...']
    | UnexpectedKeyword(name: string)  // TypeError: unexpected keyword argument
    | NotAContainer                    // TypeError: `in` applied to a number, bool or null
    | NotAnObject                      // AttributeError: `.get` on a decoded value that is not a dict
    | MissingAttribute(name: string)   // AttributeError: an instance attribute read before it is set
    | CannotSchedule                   // call_later given a datetime where it takes a delay in seconds

  datatype Result<+T> = Ok(value: T) | Err(error: Error) {
    predicate IsFailure() { Err? }
    function PropagateFailure<U>(): Result<U>
      requires Err?
    {
      Err(error)
    }
    function Extract(): T
      requires Ok?
    {
      value
    }
  }

  /** Python truthiness of an optional string: `None` and `""` are falsy. */
  predicate StrSet(o: Option<string>) {
    o.Some? && o.value != ""
  }

  /** Python truthiness of an optional integer: `None` and `0` are falsy. */
  predicate IntSet(o: Option<int>) {
    o.Some? && o.value != 0
  }

  /** `str(x)` of an optional string, as an f-string renders it. */
  function PyStr(o: Option<string>): string {
    match o
    case Some(s) => s
    case None => "None"
  }
}
