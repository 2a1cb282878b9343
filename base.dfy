/** Shared value types: optional values, results, and the exceptions the backend raises. */
module Base {

  /** Python's `None` or a value. */
  datatype Option<T> = None | Some(value: T)

  /** A value, or the exception that was raised instead of returning it. */
  datatype Result<T, E> = Ok(value: T) | Err(error: E)

  /** The exceptions that reach the handlers' `except Exception` clauses. */
  datatype Error =
    | KeyError(key: string)                  // `data['prices']` on a payload without that key
    | ColumnsNotInIndex(missing: seq<string>) // `df[columns]` naming a column the frame lacks
    | TypeError(message: string)             // arithmetic on `None`
    | Raised(message: string)                // anything raised by the provider client

  /** Python's `str(e)`: a `KeyError` shows its key quoted, the others their message. */
  function Message(e: Error): string
  {
    match e
    case KeyError(k) => "'" + k + "'"
    case ColumnsNotInIndex(cs) => "\"" + ListRepr(cs) + " not in index\""
    case TypeError(msg) => msg
    case Raised(msg) => msg
  }

  /** Python's `repr` of a list of strings: `['a', 'b']`. */
  function ListRepr(cs: seq<string>): string
  {
    "[" + JoinQuoted(cs) + "]"
  }

  function JoinQuoted(cs: seq<string>): string
  {
    if cs == [] then ""
    else if |cs| == 1 then "'" + cs[0] + "'"
    else "'" + cs[0] + "', " + JoinQuoted(cs[1..])
  }
}
