/** Decoded JSON values, as json.load produces them, with Python's truthiness and dict.get. */
module Json {
  import opened Wrappers
  import opened Errors

  datatype Json =
    | Null
    | Bool(b: bool)
    | Num(n: int)
    | Str(s: string)
    | Arr(items: seq<Json>)
    | Obj(fields: map<string, Json>)

  /** `bool(j)` in Python. */
  predicate Truthy(j: Json)
  {
    match j
    case Null => false
    case Bool(b) => b
    case Num(n) => n != 0
    case Str(s) => s != ""
    case Arr(items) => items != []
    case Obj(fields) => fields != map[]
  }

  /** `j.get(key, default)`: the default for a missing key, AttributeError when `j` is not a dict. */
  function GetOr(j: Json, key: string, default: Json): (r: Result<Json, Error>)
    ensures r.Err? <==> !j.Obj?
    ensures r.Ok? ==> r.value == if key in j.fields then j.fields[key] else default
  {
    if j.Obj? then Ok(if key in j.fields then j.fields[key] else default) else Err(AttributeError)
  }

  /** `j.get(key)`: None for a missing key. */
  function Get(j: Json, key: string): Result<Json, Error>
  {
    GetOr(j, key, Null)
  }

  /** `j[key]` for a string key: KeyError for a missing key, TypeError when `j` is not a dict. */
  function At(j: Json, key: string): (r: Result<Json, Error>)
    ensures r.Ok? <==> j.Obj? && key in j.fields
    ensures r.Ok? ==> r.value == j.fields[key]
    ensures r.Err? ==> r.error == if j.Obj? then KeyError(key) else TypeError
  {
    if !j.Obj? then Err(TypeError) else if key in j.fields then Ok(j.fields[key]) else Err(KeyError(key))
  }

  /** `x or {}` for an optional state entry. */
  function OrEmpty(x: Option<Json>): (r: Json)
    ensures x.Some? && Truthy(x.value) ==> r == x.value
    ensures x.None? ==> r == Obj(map[])
  {
    if x.Some? && Truthy(x.value) then x.value else Obj(map[])
  }
}
