/** JSON-like Python values (`None`, bools, ints, strings, lists and insertion-ordered dicts)
    as tool arguments, tool results and log events carry them. */
module Json {
  import opened Wrappers

  datatype Value =
    | Null
    | Bool(b: bool)
    | Int(i: int)
    | Str(s: string)
    | List(items: seq<Value>)
    | Dict(fields: seq<(string, Value)>)

  /** Python truthiness of a value. */
  predicate Truthy(v: Value) {
    match v
    case Null => false
    case Bool(b) => b
    case Int(i) => i != 0
    case Str(s) => s != []
    case List(items) => items != []
    case Dict(fields) => fields != []
  }

  function Keys(fields: seq<(string, Value)>): (ks: seq<string>)
    ensures |ks| == |fields|
    ensures forall i :: 0 <= i < |fields| ==> ks[i] == fields[i].0
  {
    if fields == [] then [] else [fields[0].0] + Keys(fields[1..])
  }

  /** `d.get(key)` */
  function Get(fields: seq<(string, Value)>, key: string): (r: Option<Value>)
    ensures r.None? <==> key !in Keys(fields)
    ensures r.Some? ==> (key, r.value) in fields
  {
    if fields == [] then None
    else if fields[0].0 == key then Some(fields[0].1)
    else Get(fields[1..], key)
  }

  /** `d[key] = v`: an existing key keeps its position, a new key goes last. */
  function Put(fields: seq<(string, Value)>, key: string, v: Value): (r: seq<(string, Value)>)
    ensures key in Keys(fields) ==> Keys(r) == Keys(fields)
    ensures key !in Keys(fields) ==> Keys(r) == Keys(fields) + [key]
  {
    if fields == [] then [(key, v)]
    else if fields[0].0 == key then [(key, v)] + fields[1..]
    else [fields[0]] + Put(fields[1..], key, v)
  }

  lemma GetPut(fields: seq<(string, Value)>, key: string, v: Value, other: string)
    ensures Get(Put(fields, key, v), key) == Some(v)
    ensures other != key ==> Get(Put(fields, key, v), other) == Get(fields, other)
  {
    GetPutSame(fields, key, v);
    if other != key {
      GetPutOther(fields, key, v, other);
    }
  }

  /** After `d[key] = v`, `d.get(key)` is `v`. */
  lemma {:induction false} GetPutSame(fields: seq<(string, Value)>, key: string, v: Value)
    ensures Get(Put(fields, key, v), key) == Some(v)
  {
    if fields != [] && fields[0].0 != key {
      GetPutSame(fields[1..], key, v);
    }
  }

  /** `d[key] = v` leaves every other key's value as it was. */
  lemma {:induction false} GetPutOther(fields: seq<(string, Value)>, key: string, v: Value, other: string)
    requires other != key
    ensures Get(Put(fields, key, v), other) == Get(fields, other)
  {
    if fields != [] && fields[0].0 != key {
      GetPutOther(fields[1..], key, v, other);
    }
  }

  /** Dict field `key` of `v`, if `v` is a dict that has it. */
  function Field(v: Value, key: string): Option<Value> {
    if v.Dict? then Get(v.fields, key) else None
  }

  /** `isinstance(v, dict) and v.get("ok") is False` */
  predicate IsFailure(v: Value) {
    Field(v, "ok") == Some(Bool(false))
  }
}
