/** Optional values, results of calls that may raise, and dictionary lookups. */
module Wrappers {

  /** Python's `None` or a present value. */
  datatype Option<T> = None | Some(value: T)

  /** A call that returned a value or raised an exception whose `str(e)` is `error`. */
  datatype Result<T> = Ok(value: T) | Err(error: string)

  /** What `d.get(key)` finds under a string-valued key: the key missing, `None`, or a string. */
  datatype Field = Absent | Null | Text(s: string)

  /** Python's truth value of a field: a non-empty string. */
  predicate Truthy(f: Field)
  {
    f.Text? && f.s != ""
  }

  /** `f"{value}"` of a field: the string itself, or "None". */
  function FieldText(f: Field): (t: string)
    ensures f.Text? ==> t == f.s
    ensures !f.Text? ==> t == "None"
  {
    match f
    case Text(s) => s
    case _ => "None"
  }
}
