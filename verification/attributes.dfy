/**
 The client's attribute filter (`filterAttributes` in src/client/index.ts): the
 entries of the caller's attribute map whose value is a string, number or boolean,
 in their original order, with keys and values untouched.
 */
module Attributes {
  import opened Wrappers
  import opened Values

  /** The for-of loop over `Object.entries(attributes)`: the prefix `a[..|a|-1]` has
      been filtered, and the last entry is appended when `typeof` lets it through. */
  function KeepPrimitives(a: Props): (kept: Props)
    ensures forall e :: e in kept ==> e in a && IsPrimitive(e.1)
    ensures forall e :: e in a && IsPrimitive(e.1) ==> e in kept
    ensures |kept| <= |a|
    decreases |a|
  {
    if a == [] then []
    else
      var front, last := a[..|a| - 1], a[|a| - 1];
      assert a == front + [last];
      if IsPrimitive(last.1) then KeepPrimitives(front) + [last] else KeepPrimitives(front)
  }

  /** `filterAttributes`: an absent map (`undefined`, and so falsy) yields `{}`. */
  function FilterAttributes(attributes: Option<Props>): (filtered: Props)
    ensures attributes.None? ==> filtered == []
    ensures attributes.Some? ==>
      forall e :: e in filtered <==> e in attributes.value && IsPrimitive(e.1)
  {
    match attributes
    case None => []
    case Some(a) => KeepPrimitives(a)
  }

  /** `kept` is the subsequence of `a` at the strictly increasing positions `idx`,
      and those are exactly the positions holding a primitive value. */
  ghost predicate SelectsPrimitives(kept: Props, a: Props, idx: seq<nat>) {
    && |idx| == |kept|
    && (forall i :: 0 <= i < |idx| ==> idx[i] < |a| && kept[i] == a[idx[i]])
    && (forall i, j :: 0 <= i < j < |idx| ==> idx[i] < idx[j])
    && (forall j :: 0 <= j < |a| ==> (IsPrimitive(a[j].1) <==> j in idx))
  }

  /** The filter keeps every primitive entry, drops every other one, and keeps the
      survivors in their original relative order with their values unchanged. */
  lemma {:induction false} FilterSelectsPrimitiveEntries(a: Props)
    ensures exists idx :: SelectsPrimitives(KeepPrimitives(a), a, idx)
    decreases |a|
  {
    if a == [] {
      assert SelectsPrimitives(KeepPrimitives(a), a, []);
    } else {
      var front, last := a[..|a| - 1], a[|a| - 1];
      assert a == front + [last];
      FilterSelectsPrimitiveEntries(front);
      var idx :| SelectsPrimitives(KeepPrimitives(front), front, idx);
      var idx' := SelectionStep(front, last, idx);
    }
  }

  /** One iteration of the loop extends a selection of the prefix to the whole map. */
  lemma SelectionStep(front: Props, last: (string, Value), idx: seq<nat>) returns (idx': seq<nat>)
    requires SelectsPrimitives(KeepPrimitives(front), front, idx)
    ensures SelectsPrimitives(KeepPrimitives(front + [last]), front + [last], idx')
  {
    var a := front + [last];
    assert a[..|front|] == front;
    if IsPrimitive(last.1) {
      idx' := idx + [|front|];
      SelectKept(KeepPrimitives(front), front, idx, last);
    } else {
      idx' := idx;
      SelectSkipped(KeepPrimitives(front), front, idx, last);
    }
  }

  /** Appending a primitive entry to the map appends it to the selection. */
  lemma SelectKept(kept: Props, front: Props, idx: seq<nat>, last: (string, Value))
    requires SelectsPrimitives(kept, front, idx)
    requires IsPrimitive(last.1)
    ensures SelectsPrimitives(kept + [last], front + [last], idx + [|front|])
  {
    var a, n, idx' := front + [last], |front|, idx + [|front|];
    assert n !in idx;
    forall j | 0 <= j < |a|
      ensures IsPrimitive(a[j].1) <==> j in idx'
    {
      if j < n {
        assert a[j] == front[j];
      }
    }
  }

  /** Appending a non-primitive entry to the map leaves the selection as it is. */
  lemma SelectSkipped(kept: Props, front: Props, idx: seq<nat>, last: (string, Value))
    requires SelectsPrimitives(kept, front, idx)
    requires !IsPrimitive(last.1)
    ensures SelectsPrimitives(kept, front + [last], idx)
  {
    var a, n := front + [last], |front|;
    assert n !in idx;
    forall j | 0 <= j < |a|
      ensures IsPrimitive(a[j].1) <==> j in idx
    {
      if j < n {
        assert a[j] == front[j];
      }
    }
  }

  /** No key is duplicated by the filter: distinct keys in, distinct keys out. */
  lemma FilterPreservesDistinctKeys(a: Props)
    requires DistinctKeys(a)
    ensures DistinctKeys(KeepPrimitives(a))
  {
    FilterSelectsPrimitiveEntries(a);
    var kept := KeepPrimitives(a);
    var idx :| SelectsPrimitives(kept, a, idx);
    forall i, j | 0 <= i < j < |kept|
      ensures kept[i].0 != kept[j].0
    {
      assert idx[i] < idx[j];
    }
  }

  /** Looking a key up in the filtered map gives the caller's value when that value
      is primitive, and nothing otherwise: no key is added, renamed or re-valued. */
  lemma FilterLookup(a: Props, k: string)
    requires DistinctKeys(a)
    ensures Get(FilterAttributes(Some(a)), k) ==
      (match Get(a, k)
       case Some(v) => if IsPrimitive(v) then Some(v) else None
       case None => None)
  {
    var kept := KeepPrimitives(a);
    FilterPreservesDistinctKeys(a);
    match Get(a, k)
    case Some(v) =>
      GetFindsEntry(a, k, v);
      GetFindsEntry(kept, k, v);
    case None =>
  }

  /** Filtering an already filtered map changes nothing. */
  lemma {:induction false} FilterIdempotent(a: Props)
    ensures KeepPrimitives(KeepPrimitives(a)) == KeepPrimitives(a)
    decreases |a|
  {
    if a != [] {
      var front, last := a[..|a| - 1], a[|a| - 1];
      FilterIdempotent(front);
      if IsPrimitive(last.1) {
        var k := KeepPrimitives(front) + [last];
        assert k[..|k| - 1] == KeepPrimitives(front);
      }
    }
  }

  /** The own key that plain-object assignment does not create. */
  const ProtoKey: string := "__proto__"

  /** `filtered[key] = value` on a fresh plain object. The key `__proto__` reaches the
      accessor inherited from Object.prototype, whose setter ignores anything but an
      object or null, so no own entry appears; any other key is appended (the keys
      come from one object's enumeration, so they never repeat). */
  function AssignProperty(obj: Props, key: string, v: Value): Props {
    if key == ProtoKey then obj else obj + [(key, v)]
  }

  /** The loop of `filterAttributes` as written, building its result by assignment. */
  function KeepAsWritten(a: Props): (kept: Props)
    ensures forall e :: e in kept <==> e in KeepPrimitives(a) && e.0 != ProtoKey
    decreases |a|
  {
    if a == [] then []
    else
      var front, last := a[..|a| - 1], a[|a| - 1];
      assert a == front + [last];
      if IsPrimitive(last.1) then AssignProperty(KeepAsWritten(front), last.0, last.1)
      else KeepAsWritten(front)
  }

  /** The discrepancy: an own `__proto__` entry with a string value (as `JSON.parse`
      produces) is dropped by the code as written although its value is primitive. */
  lemma AsWrittenDropsProtoEntry()
    ensures KeepAsWritten([(ProtoKey, Str("x"))]) == []
    ensures KeepPrimitives([(ProtoKey, Str("x"))]) == [(ProtoKey, Str("x"))]
  {
    var a := [(ProtoKey, Str("x"))];
    assert a[..0] == [];
  }

  /** Away from the key `__proto__` the code as written and the filter agree. */
  lemma {:induction false} AsWrittenAgreesAwayFromProto(a: Props)
    requires forall i :: 0 <= i < |a| ==> a[i].0 != ProtoKey
    ensures KeepAsWritten(a) == KeepPrimitives(a)
    decreases |a|
  {
    if a != [] {
      AsWrittenAgreesAwayFromProto(a[..|a| - 1]);
    }
  }
}
