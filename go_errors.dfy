/** Go's error values as data: plain errors made by errors.New or by
    fmt.Errorf with %v (which flattens the cause into text), Kubernetes API
    status errors, and errors made by fmt.Errorf with %w (which keep the cause
    in their wrap chain). Also the Option and Result shapes used for the
    source's (value, error) returns and nil pointers. */
module GoErrors {

  datatype Option<+T> = None | Some(value: T)

  /** The reason carried by a Kubernetes API status error. `OtherKnown` is any
      other reason apimachinery knows; `UnknownReason` is one it does not. */
  datatype Reason = Unauthorized | Forbidden | OtherKnown | UnknownReason

  datatype Error =
    | Plain(text: string)
    | Status(reason: Reason, code: int, text: string)
    | Wrapped(prefix: string, inner: Error)

  /** err.Error() */
  function Message(e: Error): string {
    match e
    case Plain(t) => t
    case Status(_, _, t) => t
    case Wrapped(p, inner) => p + Message(inner)
  }

  /** fmt.Errorf(prefix + "%v", e): the cause survives only as text. */
  function Errorf(prefix: string, e: Error): (r: Error)
    ensures Message(r) == prefix + Message(e) && r.Plain?
  {
    Plain(prefix + Message(e))
  }

  /** errors.Is(e, target): target is e or lies on e's wrap chain. */
  predicate Is(e: Error, target: Error) {
    e == target || (e.Wrapped? && Is(e.inner, target))
  }

  datatype Result<+T> = Ok(value: T) | Err(error: Error)
}
