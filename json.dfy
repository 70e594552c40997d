/**
 * The Python values that a JSON request body decodes to: numbers (int or
 * float, both modelled as `real`), strings, booleans, None, lists and dicts
 * with string keys.
 */
module Json {

  datatype Json =
    | Num(n: real)
    | Str(s: string)
    | Bool(b: bool)
    | Null
    | List(items: seq<Json>)
    | Obj(fields: map<string, Json>)

  /** Python can hash every decoded JSON value except a list or a dict. */
  predicate Hashable(v: Json)
  {
    !v.List? && !v.Obj?
  }

  /** Numbers, strings, booleans and None can be hashed; lists and dicts cannot. */
  lemma HashableValues(n: real, s: string, b: bool, items: seq<Json>, fields: map<string, Json>)
    ensures Hashable(Num(n)) && Hashable(Str(s)) && Hashable(Bool(b)) && Hashable(Null)
    ensures !Hashable(List(items)) && !Hashable(Obj(fields))
  {
  }

  /** `d.get(key, default)` on a dict. */
  function Get(fields: map<string, Json>, key: string, default: Json): (v: Json)
    ensures key in fields ==> v == fields[key]
    ensures key !in fields ==> v == default
  {
    if key in fields then fields[key] else default
  }
}
