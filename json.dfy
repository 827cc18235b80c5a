/**
 * The shape of a JSON value as the client sees it (serde_json's `Value`):
 * numbers keep serde_json's three internal kinds, because `as_u64` depends on them.
 */
module Json {
  import opened Wrappers

  /** Rust's `u64`. */
  type U64 = x: int | 0 <= x < 0x1_0000_0000_0000_0000

  /** A negative `i64`; serde_json stores every non-negative integer as a `u64`. */
  type NegI64 = x: int | -0x8000_0000_0000_0000 <= x < 0 witness -1

  /** serde_json's `Number`: a non-negative integer, a negative integer, or a float
      (kept as its literal text, since floating point is not modelled). */
  datatype Number = PosInt(u: U64) | NegInt(i: NegI64) | Float(literal: string)

  datatype Value =
    | Null
    | Bool(b: bool)
    | Num(n: Number)
    | Str(s: string)
    | Array(items: seq<Value>)
    | Object(fields: map<string, Value>)

  /** `Value::get(key)`: the member `key` of an object; `None` for a missing key and for every non-object. */
  function Get(v: Value, key: string): (r: Option<Value>)
    ensures r.Some? <==> v.Object? && key in v.fields
    ensures r.Some? ==> r.value == v.fields[key]
  {
    match v
    case Object(fields) => if key in fields then Some(fields[key]) else None
    case _ => None
  }

  /** `Value::as_u64()`: succeeds only on a number stored as a non-negative integer. */
  function AsU64(v: Value): (r: Option<U64>)
    ensures r.Some? <==> v.Num? && v.n.PosInt?
    ensures r.Some? ==> r.value == v.n.u
  {
    match v
    case Num(PosInt(u)) => Some(u)
    case _ => None
  }

  /** A JSON array of strings, as serde serializes a `Vec<String>`. */
  function StringArray(xs: seq<string>): (j: Value)
    ensures j.Array? && |j.items| == |xs|
    ensures forall i | 0 <= i < |xs| :: j.items[i] == Str(xs[i])
  {
    Array(seq(|xs|, i requires 0 <= i < |xs| => Str(xs[i])))
  }

  /** Serializing a string list loses nothing: equal arrays come from equal lists. */
  lemma StringArrayInjective(xs: seq<string>, ys: seq<string>)
    requires StringArray(xs) == StringArray(ys)
    ensures xs == ys
  {
    assert |xs| == |ys|;
    forall i | 0 <= i < |xs| ensures xs[i] == ys[i] {
      assert StringArray(xs).items[i] == Str(xs[i]);
      assert StringArray(ys).items[i] == Str(ys[i]);
    }
  }
}
