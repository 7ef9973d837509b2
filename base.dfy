/**
 * Values and failures shared by the tagged-text engine.
 *
 * Attribute values in the engine are Python objects; the ones that occur are
 * strings, integers and None (a bare attribute such as `fg` with no `=value`
 * is stored with the value None).  The engine's failures are Python
 * exceptions; here they are the constructors of `Error`.
 */
module Base {

  datatype Option<+T> = None | Some(value: T)

  datatype Result<+T> = Ok(value: T) | Err(error: Error) {
    predicate IsFailure() { Err? }
    function PropagateFailure<U>(): Result<U>
      requires Err?
    {
      Err(error)
    }
    function Extract(): T
      requires Ok?
    {
      value
    }
  }

  /** A Python attribute value: a str, an int or None. */
  datatype Value = VStr(s: string) | VInt(i: int) | VNone

  /** The exceptions the engine raises. */
  datatype Error =
    | ImbalancedQuotes                   // Exception("Imbalanced Quotes") in split_attrs
    | TooManyEquals(token: string)       // ValueError: `key, val = keyval.split("=")` with two or more '='
    | InvalidInteger(key: string, val: Value)  // ValueError/TypeError from int() on a numeric option
    | InvalidFontSize(val: Value)        // the _print_out(..., Raise=True) for a non-numeric size
    | CaseWithoutValue                   // TypeError: str.startswith(None) for a bare `case`
    | NoAttributes(chunk: string)        // IndexError: a self-closing chunk without whitespace after the tag
    | IndexOutOfRange                    // IndexError in the reflow walk
    | NoText                             // AttributeError: the text of the empty tuple split_chunk returns for ""
    | UnboundKeyMode(kmode: string)      // UnboundLocalError: a kmode starting with neither 'a' nor 'o'
}
