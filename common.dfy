/** Values shared by every component: optional values, the outcome of an
    operation that may throw, and JavaScript's thrown values. */
module Common {

  datatype Option<+T> = None | Some(value: T) {
    predicate IsFailure() {
      None?
    }

    function PropagateFailure<U>(): Option<U>
      requires None?
    {
      None
    }

    function Extract(): T
      requires Some?
    {
      value
    }
  }

  /** What a JavaScript value that is thrown looks like to a `catch` block.
      `ErrorObj` is an instance of `Error` (or a subclass) with its `message`;
      `NonError` is any other thrown value that has no `message` property
      (a string, a number, `undefined`), given by its `String(value)` text. */
  datatype Thrown = ErrorObj(message: string) | NonError(text: string)

  /** The outcome of an awaited call: a value, or the value it threw. */
  datatype Attempt<+T> = Done(value: T) | Threw(error: Thrown)

  /** Raw bytes, as held in a `Buffer`. */
  type Bytes = seq<bv8>

  /** `error instanceof Error ? error.message : String(error)`, the
      conversion every `catch` block of the core applies. */
  function ErrorText(t: Thrown): (r: string)
    ensures t.ErrorObj? ==> r == t.message
    ensures t.NonError? ==> r == t.text
  {
    match t
    case ErrorObj(m) => m
    case NonError(s) => s
  }
}
