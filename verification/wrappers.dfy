/** Option and Result, plus the kinds of Python exception the pipeline code can raise. */
module Wrappers {

  datatype Option<+T> = None | Some(value: T)

  /** The Python exception classes that escape the modelled functions (or that they catch). */
  datatype Fault =
    | AttributeError   // `.get` / `.append` on a value of the wrong type
    | TypeError        // unhashable key, bad operand, not iterable, not subscriptable
    | KeyError         // `d[k]` with `k` missing
    | IndexError       // `xs[i]` out of range
    | ValueError       // `int(...)`, `range(..., 0)`, JSON decoding, empty LLM reply
    | PromptMissing    // a prompt file that cannot be opened
    | ServiceError     // an exception raised by an external collaborator and not caught

  datatype Result<+T> = Ok(value: T) | Err(fault: Fault) {
    predicate IsFailure() {
      Err?
    }

    function PropagateFailure<U>(): Result<U>
      requires Err?
    {
      Err(fault)
    }

    function Extract(): T
      requires Ok?
    {
      value
    }
  }
}
