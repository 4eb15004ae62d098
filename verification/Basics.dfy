/** Shared vocabulary: optional values and the insertion-ordered dictionary that
    `dict[int, ...]` is in Python. */
module Basics {

  datatype Option<+T> = None | Some(value: T)

  predicate NoDup<T(==)>(s: seq<T>) {
    forall i, j :: 0 <= i < j < |s| ==> s[i] != s[j]
  }

  /** The sequence without its first occurrence of `k`. */
  function Without<T(==)>(s: seq<T>, k: T): (r: seq<T>)
    ensures |r| == if k in s then |s| - 1 else |s|
    ensures forall x :: x in r ==> x in s
    ensures forall x :: x in s && x != k ==> x in r
    ensures NoDup(s) ==> NoDup(r) && k !in r
  {
    if s == [] then []
    else if s[0] == k then
      assert s == [s[0]] + s[1..];
      s[1..]
    else
      assert s == [s[0]] + s[1..];
      var rest := Without(s[1..], k);
      assert NoDup(s) ==> NoDup(s[1..]) && s[0] !in s[1..];
      assert NoDup(s) ==> s[0] !in rest;
      [s[0]] + rest
  }

  /** A dictionary together with its iteration order. */
  datatype Dict<V> = Dict(m: map<nat, V>, order: seq<nat>) {

    ghost predicate Valid() {
      && NoDup(order)
      && forall k :: k in order <==> k in m
    }

    function Set(k: nat, v: V): (d: Dict<V>)
      requires Valid()
      ensures d.Valid() && d.m == m[k := v]
    {
      Dict(m[k := v], if k in m then order else order + [k])
    }

    function Pop(k: nat): (d: Dict<V>)
      requires Valid()
      ensures d.Valid() && d.m == m - {k}
    {
      Dict(m - {k}, Without(order, k))
    }

    /** Popping every key of a list, one at a time. */
    function PopAll(ks: seq<nat>): (d: Dict<V>)
      requires Valid()
      ensures d.Valid()
      ensures forall k :: k in d.m <==> k in m && k !in ks
      ensures forall k :: k in d.m ==> d.m[k] == m[k]
      decreases |ks|
    {
      if ks == [] then this else Pop(ks[0]).PopAll(ks[1..])
    }

    /** The values in iteration order, from position `i` on. */
    function ValuesFrom(i: nat): (vs: seq<V>)
      requires Valid() && i <= |order|
      ensures |vs| == |order| - i
      ensures forall j :: 0 <= j < |vs| ==> vs[j] == m[order[i + j]]
      decreases |order| - i
    {
      if i == |order| then [] else [m[order[i]]] + ValuesFrom(i + 1)
    }

    function Values(): (vs: seq<V>)
      requires Valid()
      ensures |vs| == |order|
      ensures forall j :: 0 <= j < |vs| ==> vs[j] == m[order[j]]
    {
      ValuesFrom(0)
    }
  }

  function Max(a: real, b: real): real { if a < b then b else a }

  function Min(a: real, b: real): real { if a < b then a else b }

  // Products of reals, by name: proofs use the four laws below.

  function Times(x: real, y: real): real { x * y }

  lemma TimesGrows(x: real, f: real)
    requires x > 0.0 && f > 1.0
    ensures Times(x, f) > x
  {
    assert x * (f - 1.0) > 0.0;
  }

  lemma TimesKeepsOrder(x: real, y: real, f: real)
    requires x <= y && f >= 0.0
    ensures Times(x, f) <= Times(y, f) && Times(f, x) <= Times(f, y)
  {
    assert (y - x) * f >= 0.0;
  }

  lemma TimesRegroups(a: real, f: real, w: real)
    ensures Times(a, Times(f, w)) == Times(Times(a, w), f)
  {
  }

  lemma TimesUnit(x: real)
    ensures Times(x, 1.0) == x == Times(1.0, x) && Times(x, 0.0) == 0.0 == Times(0.0, x)
  {
  }
}
