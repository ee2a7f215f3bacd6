/** Values shared by every part of the model: optional values, and the shapes in
    which the hosted backend answers a query or a write. The backend itself is
    not modelled; its answer is always an input. */
module Common {

  datatype Option<+T> = None | Some(value: T)

  /** `x || fallback` and `if (x)` on a nullable string: only a present,
      non-empty string is truthy. */
  predicate Truthy(o: Option<string>) {
    o.Some? && o.value != ""
  }

  /** `x || null` on a string field. */
  function NullIfEmpty(s: string): (r: Option<string>)
    ensures Truthy(r) <==> s != ""
    ensures r.Some? ==> r.value == s
  {
    if s == "" then None else Some(s)
  }

  /** `x || ''` on a nullable string field. */
  function EmptyIfNull(o: Option<string>): (r: string)
    ensures r == "" <==> !Truthy(o)
    ensures Truthy(o) ==> r == o.value
  {
    if o.Some? then o.value else ""
  }

  /** A form string sent as `x || null` and loaded back as `x || ''` is the
      same string. */
  lemma EmptyNullRoundTrip(s: string)
    ensures EmptyIfNull(NullIfEmpty(s)) == s
  {
  }

  /** A stored value loaded as `x || ''` and saved back as `x || null` comes
      back unchanged exactly when it was not the empty string. */
  lemma NullEmptyRoundTrip(o: Option<string>)
    ensures NullIfEmpty(EmptyIfNull(o)) == o <==> o != Some("")
  {
  }

  /** The `{ data, error }` answer of a read: an error, or data that may be null. */
  datatype Response<T> = Error | Data(data: Option<T>)

  /** `data || []` on a list answer. */
  function ListOrEmpty<T>(d: Option<seq<T>>): (r: seq<T>)
    ensures d.Some? ==> r == d.value
    ensures d.None? ==> r == []
  {
    if d.Some? then d.value else []
  }

  /** The `{ error }` answer of a write. */
  datatype Status = Success | Failure
}
