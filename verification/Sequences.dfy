/** Sequences without repetition, concatenated lists, and the order in which a list first uses its elements. */
module Sequences {

  ghost predicate Distinct<T>(s: seq<T>) {
    forall a, b :: 0 <= a < b < |s| ==> s[a] != s[b]
  }

  lemma TailDistinct<T>(s: seq<T>)
    requires Distinct(s) && s != []
    ensures Distinct(s[1..])
    ensures forall x :: x in s[1..] <==> x in s && x != s[0]
  {
    forall x
      ensures x in s[1..] <==> x in s && x != s[0]
    {
      if x in s && x != s[0] {
        var j :| 0 <= j < |s| && s[j] == x;
        assert s[1..][j - 1] == x;
      }
    }
  }

  lemma DistinctMore<T>(s: seq<T>, x: T)
    requires Distinct(s) && x !in s
    ensures Distinct(s + [x])
  {
  }

  /** All lists, one after the other. */
  function Flatten<T>(lists: seq<seq<T>>): seq<T> {
    if lists == [] then [] else Flatten(lists[..|lists| - 1]) + lists[|lists| - 1]
  }

  lemma {:induction false} FlattenPrefix<T>(lists: seq<seq<T>>, g: nat)
    requires g <= |lists|
    ensures Flatten(lists[..g]) <= Flatten(lists)
    decreases |lists|
  {
    if g == |lists| {
      assert lists[..g] == lists;
    } else {
      var n := |lists| - 1;
      FlattenPrefix(lists[..n], g);
      assert lists[..n][..g] == lists[..g];
    }
  }

  lemma FlattenThrough<T>(lists: seq<seq<T>>, g: nat)
    requires g < |lists|
    ensures Flatten(lists[..g + 1]) == Flatten(lists[..g]) + lists[g]
  {
    assert lists[..g + 1][..g] == lists[..g];
  }

  /** Element `i` of list `g` comes after all elements of the lists before, and the `i` before it. */
  lemma FlattenAt<T>(lists: seq<seq<T>>, g: nat, i: nat)
    requires g < |lists| && i < |lists[g]|
    ensures |Flatten(lists[..g])| + i < |Flatten(lists)|
    ensures Flatten(lists)[|Flatten(lists[..g])| + i] == lists[g][i]
  {
    FlattenThrough(lists, g);
    FlattenPrefix(lists, g + 1);
  }

  /** Every position of the concatenation is one of these. */
  lemma {:induction false} FlattenedFrom<T>(lists: seq<seq<T>>, k: nat) returns (g: nat, i: nat)
    requires k < |Flatten(lists)|
    ensures g < |lists| && i < |lists[g]| && k == |Flatten(lists[..g])| + i && Flatten(lists)[k] == lists[g][i]
    decreases |lists|
  {
    var n := |lists| - 1;
    var earlier := Flatten(lists[..n]);
    if k < |earlier| {
      g, i := FlattenedFrom(lists[..n], k);
      assert lists[..n][..g] == lists[..g];
    } else {
      g, i := n, k - |earlier|;
    }
  }

  /** The first place of `x` in `s`, or the length of `s` if it has none. */
  function FirstPlace<T(==)>(s: seq<T>, x: T): (i: nat)
    ensures i <= |s|
    ensures i < |s| ==> s[i] == x
    ensures forall j: nat :: j < i ==> s[j] != x
  {
    if s == [] || s[0] == x then 0 else FirstPlace(s[1..], x) + 1
  }

  /** `r` lists the elements of `s` once each, in the order of their first places. */
  ghost predicate FirstUses<T>(r: seq<T>, s: seq<T>) {
    && Distinct(r)
    && (forall x :: x in r ==> x in s) && (forall x :: x in s ==> x in r)
    && InOrder(r, s)
  }

  ghost predicate InOrder<T>(r: seq<T>, s: seq<T>) {
    forall a, b :: 0 <= a < b < |r| ==> FirstPlace(s, r[a]) < FirstPlace(s, r[b])
  }

  lemma PlaceInPrefix<T>(s: seq<T>, more: seq<T>, x: T)
    ensures x in s ==> FirstPlace(s + more, x) == FirstPlace(s, x) < |s|
    ensures x !in s ==> FirstPlace(s + more, x) >= |s|
  {
    assert forall k :: 0 <= k < |s| ==> (s + more)[k] == s[k];
  }

  /** Using one more element: it is added if it is new. */
  lemma UseOneMore<T>(r: seq<T>, s: seq<T>, x: T)
    requires FirstUses(r, s)
    ensures FirstUses(if x in r then r else r + [x], s + [x])
  {
    var more, all := if x in r then r else r + [x], s + [x];
    forall y
      ensures y in more <==> y in all
    {
    }
    forall a, b | 0 <= a < b < |more|
      ensures FirstPlace(all, more[a]) < FirstPlace(all, more[b])
    {
      PlaceInPrefix(s, [x], more[a]);
      PlaceInPrefix(s, [x], more[b]);
      assert more[a] == r[a] && r[a] in s;
      if b < |r| {
        assert more[b] == r[b] && r[b] in s;
        assert FirstPlace(s, r[a]) < FirstPlace(s, r[b]);
      }
    }
  }

  lemma {:induction false} DistinctUsesItself<T>(s: seq<T>)
    requires Distinct(s)
    ensures FirstUses(s, s)
  {
    forall a | 0 <= a < |s|
      ensures FirstPlace(s, s[a]) == a
    {
    }
  }

  lemma SameEmptiness<T>(r: seq<T>, t: seq<T>)
    requires forall x :: x in r <==> x in t
    ensures r == [] <==> t == []
  {
    if r != [] {
      assert r[0] in r;
    }
    if t != [] {
      assert t[0] in t;
    }
  }

  lemma FirstIsLeast<T>(r: seq<T>, s: seq<T>, x: T)
    requires InOrder(r, s) && x in r
    ensures FirstPlace(s, r[0]) <= FirstPlace(s, x)
  {
    var a :| 0 <= a < |r| && r[a] == x;
    assert r[a] == r[0] || a > 0;
  }

  lemma {:induction false} OrderIsUnique<T>(r: seq<T>, t: seq<T>, s: seq<T>)
    requires InOrder(r, s) && InOrder(t, s) && Distinct(r) && Distinct(t)
    requires forall x :: x in r <==> x in t
    requires forall x :: x in r ==> x in s
    ensures r == t
    decreases |r|
  {
    SameEmptiness(r, t);
    if r != [] {
      assert t[0] in t && t[0] in r && r[0] in r && r[0] in t;
      FirstIsLeast(r, s, t[0]);
      FirstIsLeast(t, s, r[0]);
      PlaceInPrefix(s, [], r[0]);
      PlaceInPrefix(s, [], t[0]);
      assert r[0] == t[0];
      TailDistinct(r);
      TailDistinct(t);
      OrderIsUnique(r[1..], t[1..], s);
      assert r == [r[0]] + r[1..] && t == [t[0]] + t[1..];
    }
  }

  /** There is only one such list, so `FirstUses` determines it. */
  lemma FirstUsesIsUnique<T>(r: seq<T>, t: seq<T>, s: seq<T>)
    requires FirstUses(r, s) && FirstUses(t, s)
    ensures r == t
  {
    OrderIsUnique(r, t, s);
  }
}
