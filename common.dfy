/** Small value types shared by the catalog model. */
module Common {

  /** An optional value: a form field that may be missing, a parse that may fail (NaN). */
  datatype Option<+T> = None | Some(value: T)

  /** One member of a JSON object as the browser sends it: left out of the
      object, present with `null`, or present with a value. */
  datatype Json<+T> = Absent | Null | Val(value: T)

  /** JavaScript truthiness of an optional text value: `null` and `""` are falsy. */
  predicate Truthy(field: Option<string>)
  {
    field.Some? && field.value != ""
  }

  /** `field || fallback` on an optional text value. */
  function OrElse(field: Option<string>, fallback: string): (r: string)
    ensures Truthy(field) ==> r == field.value
    ensures !Truthy(field) ==> r == fallback
  {
    if Truthy(field) then field.value else fallback
  }

  /** `field || null` on an optional text value, as it travels in JSON. */
  function OrNull(field: Option<string>): (r: Json<string>)
    ensures r != Absent
    ensures r.Val? <==> Truthy(field)
    ensures r.Val? ==> r.value == field.value
  {
    if Truthy(field) then Val(field.value) else Null
  }
}
