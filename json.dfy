/** A parsed JSON value: the model of TypeScript's `unknown` for data read
    from storage or an import file. An absent property (`undefined`) is a
    `None` from `Field`. */
module Json {
  import opened Wrappers

  datatype Json =
    | JNull
    | JBool(b: bool)
    | JNum(n: real)
    | JStr(s: string)
    | JArr(items: seq<Json>)
    | JObj(fields: map<string, Json>)

  /** `typeof v === 'object' && v !== null`: objects and arrays. */
  predicate IsObject(v: Json) {
    v.JObj? || v.JArr?
  }

  /** `v[key]`: arrays and primitives carry none of the named properties
      the core reads. */
  function Field(v: Json, key: string): (r: Option<Json>)
    ensures r.Some? <==> v.JObj? && key in v.fields
  {
    if v.JObj? && key in v.fields then Some(v.fields[key]) else None
  }

  predicate IsString(o: Option<Json>) { o.Some? && o.value.JStr? }
  predicate IsNumber(o: Option<Json>) { o.Some? && o.value.JNum? }
  predicate IsBoolean(o: Option<Json>) { o.Some? && o.value.JBool? }

  function StringOf(o: Option<Json>): string
    requires IsString(o)
  {
    o.value.s
  }
}
