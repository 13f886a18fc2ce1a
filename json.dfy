/**
 * JSON-like Python values as the search extension receives them, Python's
 * truth test on them, and `dict` as an ordered list of distinct keys.
 */
module Json {
  import opened Wrappers

  /** A Python value built from JSON: dicts keep their insertion order. */
  datatype Value =
    | Null
    | Bool(b: bool)
    | Int(i: int)
    | Float(r: real)
    | Str(s: string)
    | List(items: seq<Value>)
    | Dict(entries: seq<(string, Value)>)

  /** Python's `bool(v)`: None, False, 0, 0.0 and empty containers are false. */
  predicate Truthy(v: Value) {
    match v
    case Null => false
    case Bool(b) => b
    case Int(i) => i != 0
    case Float(r) => r != 0.0
    case Str(s) => s != ""
    case List(items) => items != []
    case Dict(entries) => entries != []
  }

  /** Lists and dicts cannot be dict keys: using one as a key raises `TypeError`. */
  predicate Hashable(v: Value) {
    !v.List? && !v.Dict?
  }

  /**
   * The representative of `v` among the values Python treats as equal, and so
   * as the same dict key: `True == 1` and `2.0 == 2`.
   */
  function HashKey(v: Value): (k: Value)
    ensures Hashable(k) <==> Hashable(v)
  {
    match v
    case Bool(b) => Int(if b then 1 else 0)
    case Float(r) => if r == r.Floor as real then Int(r.Floor) else v
    case _ => v
  }

  /**
   * Python's `a == b` (NaN aside): numbers and booleans compare by value, lists
   * item by item, and dicts key by key whatever their key order.
   */
  predicate PyEq(a: Value, b: Value)
    decreases a, 1
  {
    match a
    case List(xs) =>
      && b.List? && |xs| == |b.items|
      && forall i :: 0 <= i < |xs| ==> PyEq(xs[i], b.items[i])
    case Dict(xs) =>
      && b.Dict?
      && (forall i :: 0 <= i < |xs| ==> HasMatch(a, i, b.entries))
      && (forall j :: 0 <= j < |b.entries| ==> IsMatched(a, b.entries, j))
    case _ => Hashable(b) && HashKey(a) == HashKey(b)
  }

  /** Entry `i` of the dict `a` has an entry of `ys` with the same key and an equal value. */
  predicate HasMatch(a: Value, i: nat, ys: seq<(string, Value)>)
    requires a.Dict? && i < |a.entries|
    decreases a, 0
  {
    exists j :: 0 <= j < |ys| && a.entries[i].0 == ys[j].0 && PyEq(a.entries[i].1, ys[j].1)
  }

  /** Entry `j` of `ys` has an entry of the dict `a` with the same key and an equal value. */
  predicate IsMatched(a: Value, ys: seq<(string, Value)>, j: nat)
    requires a.Dict? && j < |ys|
    decreases a, 0
  {
    exists i :: 0 <= i < |a.entries| && a.entries[i].0 == ys[j].0 && PyEq(a.entries[i].1, ys[j].1)
  }

  /** `==` is symmetric. */
  lemma {:induction false} PyEqSymmetric(a: Value, b: Value)
    requires PyEq(a, b)
    ensures PyEq(b, a)
    decreases a
  {
    match a
    case List(xs) =>
      forall i | 0 <= i < |xs| ensures PyEq(b.items[i], xs[i]) {
        PyEqSymmetric(xs[i], b.items[i]);
      }
    case Dict(xs) =>
      var ys := b.entries;
      forall j | 0 <= j < |ys| ensures HasMatch(b, j, xs) {
        assert IsMatched(a, ys, j);
        var i :| 0 <= i < |xs| && xs[i].0 == ys[j].0 && PyEq(xs[i].1, ys[j].1);
        PyEqSymmetric(xs[i].1, ys[j].1);
      }
      forall i | 0 <= i < |xs| ensures IsMatched(b, xs, i) {
        assert HasMatch(a, i, ys);
        var j :| 0 <= j < |ys| && xs[i].0 == ys[j].0 && PyEq(xs[i].1, ys[j].1);
        PyEqSymmetric(xs[i].1, ys[j].1);
      }
    case _ =>
  }

  /** `==` is transitive. */
  lemma {:induction false} PyEqTransitive(a: Value, b: Value, c: Value)
    requires PyEq(a, b) && PyEq(b, c)
    ensures PyEq(a, c)
    decreases a
  {
    match a
    case List(xs) =>
      forall i | 0 <= i < |xs| ensures PyEq(xs[i], c.items[i]) {
        PyEqTransitive(xs[i], b.items[i], c.items[i]);
      }
    case Dict(xs) =>
      var ys, zs := b.entries, c.entries;
      forall i | 0 <= i < |xs| ensures HasMatch(a, i, zs) {
        assert HasMatch(a, i, ys);
        var j :| 0 <= j < |ys| && xs[i].0 == ys[j].0 && PyEq(xs[i].1, ys[j].1);
        assert HasMatch(b, j, zs);
        var l :| 0 <= l < |zs| && ys[j].0 == zs[l].0 && PyEq(ys[j].1, zs[l].1);
        PyEqTransitive(xs[i].1, ys[j].1, zs[l].1);
      }
      forall l | 0 <= l < |zs| ensures IsMatched(a, zs, l) {
        assert IsMatched(b, zs, l);
        var j :| 0 <= j < |ys| && ys[j].0 == zs[l].0 && PyEq(ys[j].1, zs[l].1);
        assert IsMatched(a, ys, j);
        var i :| 0 <= i < |xs| && xs[i].0 == ys[j].0 && PyEq(xs[i].1, ys[j].1);
        PyEqTransitive(xs[i].1, ys[j].1, zs[l].1);
      }
    case _ =>
  }

  /** `d.keys()`, in insertion order. */
  function Keys(d: seq<(string, Value)>): (ks: seq<string>)
    ensures |ks| == |d|
    ensures forall i :: 0 <= i < |d| ==> ks[i] == d[i].0
  {
    if d == [] then [] else [d[0].0] + Keys(d[1..])
  }

  ghost predicate DistinctKeys(d: seq<(string, Value)>) {
    forall i, j :: 0 <= i < j < |d| ==> d[i].0 != d[j].0
  }

  /** A Python `dict` with string keys: no key occurs twice. */
  type PyDict = d: seq<(string, Value)> | DistinctKeys(d) witness []

  /** `d.get(k)`: the value stored under `k`, if any. */
  function Get(d: seq<(string, Value)>, k: string): (r: Option<Value>)
    ensures r.Some? <==> k in Keys(d)

  {
    if d == [] then None
    else if d[0].0 == k then Some(d[0].1)
    else Get(d[1..], k)
  }

  /** `d[k] = v`: an existing key keeps its position, a new key is appended. */
  function Put(d: seq<(string, Value)>, k: string, v: Value): seq<(string, Value)> {
    if d == [] then [(k, v)]
    else if d[0].0 == k then [(k, v)] + d[1..]
    else [d[0]] + Put(d[1..], k, v)
  }

  /** After `d[k] = v`, `k` reads `v` and every other key reads what it read before. */
  lemma {:induction false} PutGet(d: seq<(string, Value)>, k: string, v: Value, k': string)
    ensures Get(Put(d, k, v), k') == if k' == k then Some(v) else Get(d, k')
    decreases |d|
  {
    if d != [] {
      var r := Put(d, k, v);
      if d[0].0 == k {
        assert r[1..] == d[1..];
      } else {
        assert r[1..] == Put(d[1..], k, v);
        PutGet(d[1..], k, v, k');
      }
    }
  }

  /** `d[k] = v` keeps the key order and appends a new key at the end. */
  lemma {:induction false} PutKeys(d: seq<(string, Value)>, k: string, v: Value)
    ensures Keys(Put(d, k, v)) == if k in Keys(d) then Keys(d) else Keys(d) + [k]
    decreases |d|
  {
    if d != [] {
      var r := Put(d, k, v);
      if d[0].0 == k {
        assert r[1..] == d[1..];
        assert Keys(r) == [k] + Keys(d[1..]);
      } else {
        var rest := Put(d[1..], k, v);
        assert r[1..] == rest;
        PutKeys(d[1..], k, v);
        assert Keys(r) == [d[0].0] + Keys(rest);
        assert k in Keys(d) <==> k in Keys(d[1..]);
      }
    }
  }

  /** `d[k] = v` keeps a dict's keys distinct. */
  lemma PutKeepsKeysDistinct(d: seq<(string, Value)>, k: string, v: Value)
    requires DistinctKeys(d)
    ensures DistinctKeys(Put(d, k, v))
  {
    var r := Put(d, k, v);
    PutKeys(d, k, v);
    var ks, ds := Keys(r), Keys(d);
    forall i, j | 0 <= i < j < |r| ensures r[i].0 != r[j].0 {
      assert r[i].0 == ks[i] && r[j].0 == ks[j];
      if k !in ds && j == |d| {
        assert ks[i] == ds[i] && ds[i] in ds;
      } else {
        assert ks[i] == ds[i] == d[i].0 && ks[j] == ds[j] == d[j].0;
      }
    }
  }

  /** Appending an entry: earlier entries win the lookup. */
  lemma {:induction false} GetSnoc(d: seq<(string, Value)>, e: (string, Value), k: string)
    ensures Get(d + [e], k) == if k in Keys(d) then Get(d, k) else if e.0 == k then Some(e.1) else None
    decreases |d|
  {
    if d != [] {
      assert (d + [e])[1..] == d[1..] + [e];
      assert k in Keys(d) <==> d[0].0 == k || k in Keys(d[1..]);
      GetSnoc(d[1..], e, k);
    }
  }

  /** A key's entry is what `d[k]` reads when keys are distinct. */
  lemma {:induction false} GetEntry(d: seq<(string, Value)>, i: nat)
    requires i < |d| && DistinctKeys(d)
    ensures Get(d, d[i].0) == Some(d[i].1)
    decreases i
  {
    if i > 0 {
      assert d[1..][i - 1] == d[i];
      GetEntry(d[1..], i - 1);
    }
  }

  /** Dropping the last entry keeps keys distinct, and its key is not among the rest. */
  lemma DistinctKeysSnoc(d: seq<(string, Value)>)
    requires d != [] && DistinctKeys(d)
    ensures DistinctKeys(d[..|d| - 1]) && d[|d| - 1].0 !in Keys(d[..|d| - 1])
  {
    var p := d[..|d| - 1];
    forall i | 0 <= i < |p| ensures p[i] == d[i] && Keys(p)[i] == d[i].0 {
    }
  }

  /** A lookup in a dict seen as its earlier entries followed by its last one. */
  lemma GetLast(d: seq<(string, Value)>, k: string)
    requires d != []
    ensures Get(d, k) == if k in Keys(d[..|d| - 1]) then Get(d[..|d| - 1], k)
                         else if d[|d| - 1].0 == k then Some(d[|d| - 1].1) else None
    ensures k in Keys(d) <==> k in Keys(d[..|d| - 1]) || d[|d| - 1].0 == k
  {
    var p, e := d[..|d| - 1], d[|d| - 1];
    assert d == p + [e];
    GetSnoc(p, e, k);
  }
}
