/** Failure values shared by the whole model.

    The decoding code raises Python's built-in exceptions; each kind it can
    raise is one constructor of `Fault`, and every operation that can raise
    returns a `Result`. */
module Faults {

  datatype Option<+T> = None | Some(value: T)

  datatype Fault =
    /** `raise ValueError(message)` with a literal message from the source. */
    | ValueError(message: string)
    /** A dictionary or archive lookup of a missing key (KeyError). */
    | KeyError(key: string)
    /** `key, value = line.split("=")` when the split gave `got` parts instead of two. */
    | UnpackError(got: nat)
    /** Indexing past the end of a list or array (IndexError). */
    | IndexError
    /** `re.search(...).group()` on a key the channel pattern does not match:
        `re.search` returns None and `.group()` raises AttributeError. */
    | NoMatch(key: string)
    /** A host conversion (UTF-8 decoding, `int()`, `float()`, the date parser) refused `text`. */
    | Unparsable(text: string)

  datatype Result<+T> = Ok(value: T) | Err(error: Fault) {
    predicate IsFailure() { Err? }

    function PropagateFailure<U>(): Result<U>
      requires Err?
    {
      Err(error)
    }

    function Extract(): T
      requires Ok?
    {
      value
    }
  }
}
