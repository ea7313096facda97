/**
 * Values that flow through one fetch cycle: the raw strings read from the
 * page, the typed values the transformations produce, and the exceptions
 * the fetch stages can raise.
 */
module Values {
  import opened Wrappers
  import opened TimeUtils

  /** A transformed value: a float, a string, or a date-time (published as its ISO-8601 text). */
  datatype Value = Num(x: real) | Text(s: string) | Stamp(at: DateTime)

  /** One cycle's extracted strings, keyed by result key; a key may map to None. */
  type RawValues = map<string, Option<string>>

  /** One cycle's typed results, keyed by result key; a key may map to None. */
  type ValueMap = map<string, Option<Value>>

  /** The exception kinds the modelled code raises or catches. */
  datatype Fault =
    | TypeError(reason: string)
    | ValueError(reason: string)
    | RuntimeError(reason: string)
    | FetcherException(reason: string)

  /** A computation that returns a value or raises. */
  datatype Result<+T> = Ok(value: T) | Raised(fault: Fault)

  /** `d.get(k)`: None for a missing key as well as for a key mapped to None. */
  function Get<V>(d: map<string, Option<V>>, k: string): (r: Option<V>)
    ensures k in d ==> r == d[k]
    ensures k !in d ==> r.None?
  {
    if k in d then d[k] else None
  }
}
