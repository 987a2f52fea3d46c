/** A JavaScript value as produced by `JSON.parse` or read from a request
    body, with `Undefined` for a property that is not there. */
module Json {
  import opened Common

  datatype Json =
    | Undefined
    | Null
    | Bool(b: bool)
    | Num(n: real)
    | Str(s: string)
    | Arr(items: seq<Json>)
    | Obj(fields: map<string, Json>)

  /** JavaScript truthiness. JSON cannot encode NaN, so a number is falsy
      exactly when it is zero. */
  predicate Truthy(v: Json) {
    match v
    case Undefined => false
    case Null => false
    case Bool(b) => b
    case Num(n) => n != 0.0
    case Str(s) => s != ""
    case Arr(_) => true
    case Obj(_) => true
  }

  /** The values whose properties cannot be read. */
  predicate Nullish(v: Json) {
    v.Undefined? || v.Null?
  }

  /** `v.key` on a value that is not null or undefined: an object's own
      field, `undefined` for anything else (the keys read in this model are
      never `length` or a prototype member). */
  function Get(v: Json, key: string): Json
    requires !Nullish(v)
  {
    if v.Obj? && key in v.fields then v.fields[key] else Undefined
  }

  /** The message of the `TypeError` V8 throws for `v.key` on null or undefined. */
  function ReadError(v: Json, key: string): string
    requires Nullish(v)
  {
    "Cannot read properties of " + (if v.Null? then "null" else "undefined")
    + " (reading '" + key + "')"
  }

  /** `v.key`, throwing as JavaScript does when `v` is null or undefined. */
  function Read(v: Json, key: string): (r: Result<Json>)
    ensures r.Err? <==> Nullish(v)
    ensures r.Ok? ==> r.value == Get(v, key)
  {
    if Nullish(v) then Err(ReadError(v, key)) else Ok(Get(v, key))
  }

  /** `a || b`. */
  function Or(a: Json, b: Json): Json {
    if Truthy(a) then a else b
  }

  /** `Array.isArray(v)`. */
  predicate IsArray(v: Json) {
    v.Arr?
  }

  /** The object holding exactly `keys`, each with `v`'s value for it. */
  function Pick(v: Json, keys: set<string>): (r: Json)
    requires !Nullish(v)
    ensures r.Obj? && r.fields.Keys == keys
    ensures forall k :: k in keys ==> r.fields[k] == Get(v, k)
  {
    Obj(map k | k in keys :: Get(v, k))
  }
}
