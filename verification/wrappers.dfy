/** Option and Result, and the Python exceptions that the modelled code raises. */
module Wrappers {

  datatype Option<+T> = None | Some(value: T)

  /** The exception kinds that appear on the modelled error paths. */
  datatype Exception =
    | JsonDecodeError     // json.loads on text that is not JSON
    | TypeError           // an operation applied to a value of the wrong type
    | KeyError            // a missing dictionary key
    | AttributeError      // a missing attribute (for instance on None)
    | IndexError          // a list index out of range
    | NameError           // a name that is not defined
    | ValueError          // a refused argument
    | ZeroDivisionError   // integer division by zero
    | FileNotFoundError   // open() on a file that cannot be read
    | DoesNotExist        // a database get() that matched no row
    | MultipleObjectsReturned  // a database get() that matched several rows
    | IntegrityError      // a database write that breaks a uniqueness constraint
    | EntropyExhausted    // the model's stream of random draws ran out

  datatype Result<+T> = Ok(value: T) | Err(error: Exception) {
    predicate IsFailure() { Err? }

    function PropagateFailure<U>(): Result<U>
      requires Err?
    {
      Err(error)
    }

    function Extract(): T
      requires Ok?
    {
      value
    }
  }
}
