/*
 * Optional values and the failure outcome shared by every module.
 *
 * The TypeScript code signals failure by throwing. Two kinds of exception
 * matter to callers: `FormatParseError` (a malformed input file or model) and
 * a plain `Error` (everything else, e.g. a failed analysis precondition).
 */
module Results {

  datatype Option<T> = None | Some(value: T)

  datatype Error = FormatParseError(message: string) | PlainError(message: string)

  datatype Result<T> = Ok(value: T) | Err(error: Error)
  {
    predicate IsFailure() { Err? }

    function PropagateFailure<U>(): Result<U>
      requires Err?
    {
      Err(error)
    }

    function Extract(): T
      requires Ok?
    {
      value
    }
  }

  /** A `FormatParseError` carrying `message`. */
  function FormatFailure<T>(message: string): (r: Result<T>)
    ensures r.Err? && r.error.FormatParseError?
  {
    Err(FormatParseError(message))
  }

  /** A plain `Error` carrying `message`. */
  function PlainFailure<T>(message: string): (r: Result<T>)
    ensures r.Err? && r.error.PlainError?
  {
    Err(PlainError(message))
  }
}
