/** Python values and the failure-compatible wrappers shared by the plugin models. */
module PyValue {

  datatype Option<+T> = None | Some(value: T)

  datatype Result<+T, +E> = Ok(value: T) | Err(error: E)

  /** No element occurs twice: a Python list without duplicates. */
  predicate Distinct<T(==)>(s: seq<T>) {
    forall i, j :: 0 <= i < j < |s| ==> s[i] != s[j]
  }

  /** The Python values a plugin hook or validator can receive (`Any` in the
      type hints): JSON-like data plus `bytes`. Floats are not modelled. */
  datatype Value =
    | NoneValue
    | Bool(b: bool)
    | Int(i: int)
    | Str(s: string)
    | Bytes(bytes: seq<bv8>)
    | List(items: seq<Value>)
    | Dict(entries: map<string, Value>)
}
