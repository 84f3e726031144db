/** The slice of the `liquid_error` crate that the filter pipeline uses: an error
    with a message, an optional cause and an ordered list of key/value context
    entries; `chain`, which wraps an error under a new message; and
    `context_key(..).value_with(..)`, which appends one context entry. */
module LiquidError {

  datatype Option<+T> = None | Some(value: T)

  /** One diagnostic annotation, `key: value`. */
  datatype Entry = Entry(key: string, value: string)

  datatype Error = Error(message: string, cause: Option<Error>, context: seq<Entry>)

  /** `liquid_error::Result<T>`; usable with `:-` the way Rust uses `?`. */
  datatype Result<+T> = Ok(value: T) | Err(error: Error) {

    predicate IsFailure() {
      Err?
    }

    function PropagateFailure<U>(): Result<U>
      requires Err?
    {
      Err(error)
    }

    function Extract(): T
      requires Ok?
    {
      value
    }
  }

  /** `Error::with_msg(message).cause(e)`: a fresh error with no context of its own
      that keeps `e`, untouched, as its cause. */
  function Wrap(e: Error, message: string): (w: Error)
    ensures w.message == message && w.cause == Some(e) && w.context == []
  {
    Error(message, Some(e), [])
  }

  /** `ResultLiquidChainExt::chain`: a failure is wrapped under `message`, a success
      passes through unchanged. */
  function ChainResult<T>(r: Result<T>, message: string): (c: Result<T>)
    ensures r.Ok? ==> c == r
    ensures r.Err? ==> c == Err(Wrap(r.error, message))
  {
    match r
    case Ok(_) => r
    case Err(e) => Err(Wrap(e, message))
  }

  /** `context_key(key).value_with(..)`: a failure gains one context entry after the
      ones it already has; message and cause are kept. A success passes through,
      and the value is never looked at. */
  function WithContext<T>(r: Result<T>, key: string, value: string): (c: Result<T>)
    ensures r.Ok? ==> c == r
    ensures r.Err? ==> c.Err? && c.error.message == r.error.message && c.error.cause == r.error.cause
    ensures r.Err? ==> c.error.context == r.error.context + [Entry(key, value)]
  {
    match r
    case Ok(_) => r
    case Err(e) => Err(e.(context := e.context + [Entry(key, value)]))
  }
}
