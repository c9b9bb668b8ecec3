/**
 * What the drivers share: the answer a native call gives, and the outcome
 * of a driver operation that may throw `CalDriverException`.
 */
module CalDriver {

  /** How a call into a library the model cannot see (jssc, the TCP client) ended. */
  datatype Status = Done | Failed(message: string)

  /**
   * A driver operation returns a value, throws `CalDriverException(message)`,
   * or lets a runtime exception of another class escape (`Unchecked`).
   */
  datatype DriverResult<+T> = Ok(value: T) | Raised(message: string) | Unchecked(message: string)

  /** A driver operation's outcome when its one library call ended with `s`: the value, or the call's message. */
  function Outcome<T>(s: Status, value: T): (r: DriverResult<T>)
    ensures r.Ok? <==> s.Done?
    ensures r.Ok? ==> r.value == value
    ensures s.Failed? ==> r == Raised(s.message)
  {
    match s
    case Done => Ok(value)
    case Failed(m) => Raised(m)
  }
}
