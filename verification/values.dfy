/**
 JavaScript values as the client sees them: the attribute values a caller may pass,
 the `typeof` test the attribute filter applies, and plain objects viewed as their
 own enumerable entries.
 */
module Values {
  import opened Wrappers

  /** A JavaScript number. The client only carries numbers from the caller into a
      request and never computes with them, so they are modelled as reals. */
  type Number = real

  /** Every kind of value that can sit in an attribute map at run time, even though
      the declared attribute type only admits strings, numbers and booleans. */
  datatype Value =
    | Str(s: string)
    | Num(n: Number)
    | Bool(b: bool)
    | BigInt(i: int)
    | Sym
    | Func
    | Undefined
    | Null
    | Obj(props: seq<(string, Value)>)
    | Arr(items: seq<Value>)

  /** A plain object, as the entries `Object.entries` enumerates, in enumeration order. */
  type Props = seq<(string, Value)>

  /** The result of JavaScript's `typeof` operator. */
  function TypeOf(v: Value): string {
    match v
    case Str(_) => "string"
    case Num(_) => "number"
    case Bool(_) => "boolean"
    case BigInt(_) => "bigint"
    case Sym => "symbol"
    case Func => "function"
    case Undefined => "undefined"
    case Null => "object"
    case Obj(_) => "object"
    case Arr(_) => "object"
  }

  /** The filter's test: `typeof` is "string", "number" or "boolean". Exactly the
      three primitive kinds pass; null, undefined, objects and arrays do not. */
  function IsPrimitive(v: Value): (b: bool)
    ensures b <==> v.Str? || v.Num? || v.Bool?
  {
    TypeOf(v) == "string" || TypeOf(v) == "number" || TypeOf(v) == "boolean"
  }

  /** `k` is an own key of `p`. */
  predicate HasKey(p: Props, k: string) {
    exists i :: 0 <= i < |p| && p[i].0 == k
  }

  /** No key occurs twice: true of every object's enumeration. */
  ghost predicate DistinctKeys(p: Props) {
    forall i, j :: 0 <= i < j < |p| ==> p[i].0 != p[j].0
  }

  /** Property lookup `p[k]`, absent when `k` is not an own key. */
  function Get(p: Props, k: string): (r: Option<Value>)
    ensures r.Some? <==> HasKey(p, k)
    ensures r.Some? ==> (k, r.value) in p
  {
    if p == [] then None
    else if p[0].0 == k then Some(p[0].1)
    else
      assert HasKey(p, k) ==> HasKey(p[1..], k) by {
        if HasKey(p, k) {
          var i :| 0 <= i < |p| && p[i].0 == k;
          assert p[1..][i - 1].0 == k;
        }
      }
      Get(p[1..], k)
  }

  /** In an object with distinct keys, lookup finds exactly the entry stored under the key. */
  lemma GetFindsEntry(p: Props, k: string, v: Value)
    requires DistinctKeys(p)
    ensures Get(p, k) == Some(v) <==> (k, v) in p
  {
    if (k, v) in p {
      var r := Get(p, k);
      assert r.Some?;
      var i :| 0 <= i < |p| && p[i] == (k, v);
      var j :| 0 <= j < |p| && p[j] == (k, r.value);
      assert i == j;
    }
  }
}
