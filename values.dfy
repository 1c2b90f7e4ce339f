/** Values shared by the cache store and the proxy: bytes, failure-carrying
    wrappers, and the small set of Python values that the cache records hold. */
module Values {

  newtype byte = x: int | 0 <= x < 256

  datatype Option<+T> = None | Some(value: T)

  datatype Result<+T, +E> = Ok(value: T) | Err(error: E)

  datatype Outcome<+E> = Pass | Fail(error: E)

  /** A scalar stored in a header map or a cache record: a string, a boolean
      flag (the `stream` entry), or Python's `None` (an absent `REFERER`). */
  datatype Field = Str(s: string) | Flag(b: bool) | Null

  /** What the parent key/value store holds under one key: raw content bytes,
      or a dictionary (the `meta` headers, or the file-backed content record). */
  datatype Value = Bytes(data: seq<byte>) | Record(fields: map<string, Field>)

  /** Python truthiness of a field. */
  predicate Truthy(f: Field)
  {
    match f
    case Str(s) => s != ""
    case Flag(b) => b
    case Null => false
  }

  /** Python's `str()` of a field, as used by `str.format`. */
  function Show(f: Field): (r: string)
    ensures f.Str? ==> r == f.s
    ensures Truthy(f) ==> r != ""
  {
    match f
    case Str(s) => s
    case Flag(b) => if b then "True" else "False"
    case Null => "None"
  }

  /** `d.get(key, default)` on a dictionary. */
  function GetOr<V>(m: map<string, V>, key: string, default: V): (r: V)
    ensures key in m ==> r == m[key]
    ensures key !in m ==> r == default
  {
    if key in m then m[key] else default
  }

  /** A string-valued map seen as a dictionary of fields. */
  function Lift(m: map<string, string>): (r: map<string, Field>)
    ensures r.Keys == m.Keys
    ensures forall k :: k in m ==> r[k] == Str(m[k])
  {
    map k | k in m :: Str(m[k])
  }
}
