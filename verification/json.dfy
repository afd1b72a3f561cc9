/**
 * JSON values as the integration sees them after decoding, with the few pieces
 * of Python semantics that the entity code relies on: truthiness, `dict.get`
 * with a default, and the `+` operator. `Path` is an independent way to say
 * "the value found by following these keys and indices", against which the
 * nested `.get` chains of the entities are specified.
 */
module Json {

  datatype Option<+T> = None | Some(value: T)

  /** A decoded JSON value. `Real` stands for a Python float. */
  datatype Json =
    | Null
    | Bool(b: bool)
    | Int(i: int)
    | Real(r: real)
    | Str(s: string)
    | Arr(items: seq<Json>)
    | Obj(fields: map<string, Json>)

  /** A JSON object, the shape of every vehicle record. */
  type Record = map<string, Json>

  /** Python truthiness of a decoded value. */
  predicate Truthy(v: Json) {
    match v
    case Null => false
    case Bool(b) => b
    case Int(i) => i != 0
    case Real(r) => r != 0.0
    case Str(s) => s != []
    case Arr(items) => items != []
    case Obj(fields) => fields != map[]
  }

  /** `d.get(key, default)` on a dict. */
  function Get(d: Record, key: string, default: Json): (r: Json)
    ensures key in d ==> r == d[key]
    ensures key !in d ==> r == default
  {
    if key in d then d[key] else default
  }

  /** Python's `bool`, `int` and `float` all take part in arithmetic. */
  predicate IsNumber(v: Json) {
    v.Bool? || v.Int? || v.Real?
  }

  function IntOf(v: Json): int
    requires v.Bool? || v.Int?
  {
    if v.Bool? then (if v.b then 1 else 0) else v.i
  }

  function RealOf(v: Json): real
    requires IsNumber(v)
  {
    if v.Real? then v.r else IntOf(v) as real
  }

  /** The operand pairs on which Python's `+` does not raise TypeError. */
  predicate Addable(a: Json, b: Json) {
    (IsNumber(a) && IsNumber(b)) || (a.Str? && b.Str?) || (a.Arr? && b.Arr?)
  }

  /** Python's `a + b`: integer or float addition, or concatenation. */
  function Add(a: Json, b: Json): (r: Json)
    requires Addable(a, b)
    ensures a.Int? && b.Int? ==> r == Int(a.i + b.i)
    ensures IsNumber(a) && IsNumber(b) ==> IsNumber(r) && RealOf(r) == RealOf(a) + RealOf(b)
    ensures IsNumber(a) && IsNumber(b) ==> (r.Real? <==> a.Real? || b.Real?)
    ensures a.Str? ==> r == Str(a.s + b.s)
    ensures a.Arr? ==> r == Arr(a.items + b.items)
  {
    if a.Str? then Str(a.s + b.s)
    else if a.Arr? then Arr(a.items + b.items)
    else if a.Real? || b.Real? then Real(RealOf(a) + RealOf(b))
    else Int(IntOf(a) + IntOf(b))
  }

  /** One step of a path into a JSON value: an object key or a list index. */
  datatype Step = Key(name: string) | Index(i: nat)

  /** The value reached by following `path` from `v`, or None when a key is
      missing, an index is out of range, or a step meets the wrong kind of value. */
  function Path(v: Json, path: seq<Step>): Option<Json>
    decreases |path|
  {
    if path == [] then Some(v)
    else match path[0]
      case Key(k) =>
        if v.Obj? && k in v.fields then Path(v.fields[k], path[1..]) else None
      case Index(i) =>
        if v.Arr? && i < |v.items| then Path(v.items[i], path[1..]) else None
  }

  /** `Path` with a fallback for an absent value. */
  function PathOr(v: Json, path: seq<Step>, default: Json): Json {
    match Path(v, path)
    case Some(x) => x
    case None => default
  }

  /** Following `[Key(k)] + rest` is following `rest` from the field `k`. */
  lemma PathKey(v: Json, k: string, rest: seq<Step>)
    ensures Path(v, [Key(k)] + rest) ==
      if v.Obj? && k in v.fields then Path(v.fields[k], rest) else None
  {
    assert ([Key(k)] + rest)[1..] == rest;
  }

  /** Following `[Index(i)] + rest` is following `rest` from element `i`. */
  lemma PathIndex(v: Json, i: nat, rest: seq<Step>)
    ensures Path(v, [Index(i)] + rest) ==
      if v.Arr? && i < |v.items| then Path(v.items[i], rest) else None
  {
    assert ([Index(i)] + rest)[1..] == rest;
  }
}
