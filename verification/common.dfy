/** Shared vocabulary of the stores: optional values, what a `catch` block
    receives, and the outcome of an HTTP request. */
module Common {

  /** A TypeScript value that may be `null` or `undefined`. */
  datatype Option<+T> = None | Some(value: T)

  /** What a `catch (error)` clause receives: an `Error` instance (which
      carries a message) or any other thrown value. */
  datatype Thrown = ErrorValue(message: string) | NonError

  /** The outcome of an awaited `fetch` followed by `response.json()`:
      an ok response with its decoded body, a response whose `ok` flag is
      false, or a rejection (network failure, undecodable body). */
  datatype HttpOutcome<+T> = Ok(body: T) | NotOk | Threw(thrown: Thrown)

  /** `error instanceof Error ? error.message : fallback` */
  function ErrorMessage(e: Thrown, fallback: string): (msg: string)
    ensures e.ErrorValue? ==> msg == e.message
    ensures e.NonError? ==> msg == fallback
  {
    match e
    case ErrorValue(m) => m
    case NonError => fallback
  }

  /** JavaScript truthiness of an optional number: `undefined` and `0` are falsy. */
  predicate TruthyInt(o: Option<int>) {
    o.Some? && o.value != 0
  }

  /** JavaScript truthiness of an optional string: `undefined` and `""` are falsy. */
  predicate TruthyString(o: Option<string>) {
    o.Some? && o.value != ""
  }

  /** JavaScript truthiness of an optional boolean: only `true` is truthy. */
  predicate TruthyBool(o: Option<bool>) {
    o == Some(true)
  }
}
