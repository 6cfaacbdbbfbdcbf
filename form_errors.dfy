/**
 * The per-field `errors` objects the three screens keep: a message per field that
 * has one.
 */
module FormErrors {
  import opened JsText

  /** `errors[field]`: the message, or `undefined`. */
  function Lookup<K>(errors: map<K, string>, f: K): (r: Option<string>)
    ensures r.Some? <==> f in errors
    ensures r.Some? ==> r.value == errors[f]
  {
    if f in errors then Some(errors[f]) else None
  }

  /**
   * The error half of `handleInputChange(f, v)`: when `errors[f]` is truthy it is
   * replaced by the empty string; a falsy or missing entry is left as it is, and no
   * other entry changes.
   */
  function BlankError<K>(errors: map<K, string>, f: K): (r: map<K, string>)
    ensures r.Keys == errors.Keys
    ensures forall g :: g in errors && g != f ==> r[g] == errors[g]
    ensures f in errors ==> r[f] == ""
    ensures !Truthy(Lookup(errors, f)) ==> r == errors
  {
    if Truthy(Lookup(errors, f)) then errors[f := ""] else errors
  }
}
