/** Sequence helpers for the list operations the source performs on endpoint and URL lists. */
module Seqs {

  predicate NoDup<T(==)>(s: seq<T>) {
    forall i, j :: 0 <= i < j < |s| ==> s[i] != s[j]
  }

  /** `set(s)`. */
  function Elems<T>(s: seq<T>): set<T> {
    set x | x in s
  }

  /** `s` lists every element of `e` exactly once, as iterating over a Python set does. */
  predicate Enumerates<T(==)>(s: seq<T>, e: set<T>) {
    NoDup(s) && Elems(s) == e
  }

  /** `list.remove(x)`: drops the first occurrence. */
  function RemoveFirst<T(==)>(s: seq<T>, x: T): (r: seq<T>)
    requires x in s
    ensures |r| == |s| - 1
    ensures multiset(r) == multiset(s) - multiset{x}
  {
    assert s == [s[0]] + s[1..];
    if s[0] == x then s[1..] else [s[0]] + RemoveFirst(s[1..], x)
  }

  /** Membership after `RemoveFirst`, read off the multisets. */
  lemma RemoveFirstMembers<T>(s: seq<T>, x: T)
    requires x in s
    ensures forall y :: y in RemoveFirst(s, x) ==> y in s
    ensures forall y :: y in s && y != x ==> y in RemoveFirst(s, x)
  {
    var r := RemoveFirst(s, x);
    forall y | y in r ensures y in s {
      assert multiset(r)[y] > 0;
    }
    forall y | y in s && y != x ensures y in r {
      assert multiset{x}[y] == 0;
      assert multiset(r)[y] == multiset(s)[y] > 0;
    }
  }

  /** On a duplicate-free sequence `RemoveFirst` removes every copy and keeps the sequence duplicate-free. */
  lemma RemoveFirstNoDup<T>(s: seq<T>, x: T)
    requires x in s && NoDup(s)
    ensures NoDup(RemoveFirst(s, x)) && x !in RemoveFirst(s, x)
    ensures Elems(RemoveFirst(s, x)) == Elems(s) - {x}
  {
    RemoveFirstFresh(s, x);
    RemoveFirstMembers(s, x);
  }

  lemma {:induction false} RemoveFirstFresh<T>(s: seq<T>, x: T)
    requires x in s && NoDup(s)
    ensures NoDup(RemoveFirst(s, x)) && x !in RemoveFirst(s, x)
  {
    assert s == [s[0]] + s[1..];
    if s[0] == x {
      assert forall i :: 0 < i < |s| ==> s[i] != x;
    } else {
      var r' := RemoveFirst(s[1..], x);
      RemoveFirstFresh(s[1..], x);
      RemoveFirstMembers(s[1..], x);
      assert s[0] !in s[1..];
      NoDupCons(s[0], r');
    }
  }

  lemma NoDupCons<T>(a: T, t: seq<T>)
    requires NoDup(t) && a !in t
    ensures NoDup([a] + t)
  {
    var s := [a] + t;
    forall i, j | 0 <= i < j < |s| ensures s[i] != s[j] {
      assert s[j] == t[j - 1];
      if i > 0 {
        assert s[i] == t[i - 1];
      }
    }
  }

  /** The elements of `s` that satisfy `p`, in order. */
  function Filter<T(!new)>(s: seq<T>, p: T -> bool): (r: seq<T>)
    ensures |r| <= |s|
    ensures forall y :: y in r <==> y in s && p(y)
    ensures NoDup(s) ==> NoDup(r)
    ensures (forall y :: y in s ==> !p(y)) ==> r == []
    ensures (forall y :: y in s ==> p(y)) ==> r == s
  {
    if s == [] then []
    else
      var rest := Filter(s[1..], p);
      assert forall y :: y in s <==> y == s[0] || y in s[1..];
      if p(s[0]) then [s[0]] + rest else rest
  }

  /** `s` without repeats, keeping first appearances. */
  function Dedup<T(==,!new)>(s: seq<T>): (r: seq<T>)
    ensures Enumerates(r, Elems(s))
  {
    DedupFrom(s, {})
  }

  function DedupFrom<T(==,!new)>(s: seq<T>, seen: set<T>): (r: seq<T>)
    ensures NoDup(r)
    ensures forall y :: y in r <==> y in s && y !in seen
  {
    if s == [] then []
    else
      assert forall y :: y in s <==> y == s[0] || y in s[1..];
      if s[0] in seen then DedupFrom(s[1..], seen)
      else [s[0]] + DedupFrom(s[1..], seen + {s[0]})
  }

}
