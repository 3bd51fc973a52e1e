/** Canonical lists of tag IDs. */
module Ids {
  import opened Common
  import opened Documents

  predicate StrictlyIncreasing(s: seq<int64>) {
    forall i, j | 0 <= i < j < |s| :: s[i] < s[j]
  }

  predicate Ascending(s: seq<int64>) {
    forall i, j | 0 <= i < j < |s| :: s[i] <= s[j]
  }

  lemma ElementsAppend(s: seq<int64>, x: int64)
    ensures Elements(s + [x]) == Elements(s) + {x}
  {
  }

  lemma AppendGreater(s: seq<int64>, x: int64)
    requires StrictlyIncreasing(s) && x !in s && forall y | y in Elements(s) + {x} :: y <= x
    ensures StrictlyIncreasing(s + [x])
  {
    forall i | 0 <= i < |s|
      ensures s[i] < x
    {
      var y := s[i];
      assert y in Elements(s) + {x} && y != x;
    }
  }

  lemma SplitLast(s: seq<int64>)
    requires s != []
    ensures Elements(s) == Elements(s[..|s| - 1]) + {s[|s| - 1]}
  {
    ElementsAppend(s[..|s| - 1], s[|s| - 1]);
    assert s == s[..|s| - 1] + [s[|s| - 1]];
  }

  /** A set has only one strictly increasing list. */
  lemma {:induction false} CanonicalUnique(s: seq<int64>, t: seq<int64>)
    requires StrictlyIncreasing(s) && StrictlyIncreasing(t) && Elements(s) == Elements(t)
    ensures s == t
  {
    assert s != [] ==> s[0] in Elements(s);
    assert t != [] ==> t[0] in Elements(t);
    if s != [] {
      var a, b := s[|s| - 1], t[|t| - 1];
      assert a in Elements(t) && b in Elements(s);
      assert a == b;
      SplitLast(s);
      SplitLast(t);
      assert a !in Elements(s[..|s| - 1]) && a !in Elements(t[..|t| - 1]);
      assert Elements(s[..|s| - 1]) == Elements(s) - {a};
      assert Elements(t[..|t| - 1]) == Elements(t) - {a};
      CanonicalUnique(s[..|s| - 1], t[..|t| - 1]);
      assert s == s[..|s| - 1] + [a] && t == t[..|t| - 1] + [a];
    }
  }

  lemma {:induction false} HasMaximum(s: set<int64>) returns (m: int64)
    requires s != {}
    ensures m in s && forall x | x in s :: x <= m
  {
    var first :| first in s;
    m := first;
    if s != {first} {
      var n := HasMaximum(s - {first});
      m := if n > first then n else first;
      assert forall x | x in s :: x == first || x in s - {first};
    }
  }

  ghost function Maximum(s: set<int64>): (m: int64)
    requires s != {}
    ensures m in s && forall x | x in s :: x <= m
  {
    assert exists m :: m in s && forall x | x in s :: x <= m by {
      var m := HasMaximum(s);
    }
    var m :| m in s && forall x | x in s :: x <= m;
    m
  }

  /** The strictly increasing list of a set. */
  ghost function Canonical(s: set<int64>): (r: seq<int64>)
    ensures StrictlyIncreasing(r) && Elements(r) == s
  {
    if s == {} then []
    else
      var m := Maximum(s);
      var r := Canonical(s - {m});
      assert Elements(r) + {m} == s;
      AppendGreater(r, m);
      ElementsAppend(r, m);
      r + [m]
  }

  ghost predicate AscendingTo(a: array<int64>, n: int)
    requires 0 <= n <= a.Length
    reads a
  {
    forall k, l | 0 <= k < l < n :: a[k] <= a[l]
  }

  method SwapWithPrevious(a: array<int64>, j: nat)
    requires 0 < j < a.Length
    modifies a
    ensures a[j - 1] == old(a[j]) && a[j] == old(a[j - 1])
    ensures forall k | 0 <= k < a.Length && k != j && k != j - 1 :: a[k] == old(a[k])
    ensures multiset(a[..]) == multiset(old(a[..]))
  {
    a[j - 1], a[j] := a[j], a[j - 1];
  }

  /** Sinks the value at index i into the ascending front of the array. */
  method Insert(a: array<int64>, i: nat)
    requires i < a.Length && AscendingTo(a, i)
    modifies a
    ensures AscendingTo(a, i + 1)
    ensures multiset(a[..]) == multiset(old(a[..]))
  {
    var j := i;
    while j > 0 && a[j - 1] > a[j]
      invariant 0 <= j <= i
      invariant forall k, l | 0 <= k < l <= i && l != j :: a[k] <= a[l]
      invariant multiset(a[..]) == multiset(old(a[..]))
    {
      SwapWithPrevious(a, j);
      j := j - 1;
    }
  }

  lemma SameElements(s: seq<int64>, t: seq<int64>)
    requires multiset(s) == multiset(t)
    ensures Elements(s) == Elements(t)
  {
    forall x
      ensures x in s <==> x in t
    {
      assert x in s <==> x in multiset(s);
      assert x in t <==> x in multiset(t);
    }
  }

  /** Sorts in place. */
  method Sort(a: array<int64>)
    modifies a
    ensures Ascending(a[..]) && Elements(a[..]) == Elements(old(a[..]))
  {
    for i := 0 to a.Length
      invariant AscendingTo(a, i)
      invariant multiset(a[..]) == multiset(old(a[..]))
    {
      Insert(a, i);
    }
    SameElements(a[..], old(a[..]));
  }

  /** The distinct values of an ascending list, up to index i, in order. */
  ghost predicate CompactOf(front: seq<int64>, s: seq<int64>, i: nat)
    requires i <= |s|
  {
    && StrictlyIncreasing(front) && Elements(front) == Elements(s[..i])
    && (front == [] <==> i == 0)
    && (i > 0 ==> front[|front| - 1] == s[i - 1])
  }

  lemma CompactStep(front: seq<int64>, s: seq<int64>, i: nat)
    requires Ascending(s) && i < |s| && CompactOf(front, s, i)
    ensures CompactOf(if front == [] || front[|front| - 1] != s[i] then front + [s[i]] else front, s, i + 1)
  {
    ElementsAppend(s[..i], s[i]);
    assert s[..i + 1] == s[..i] + [s[i]];
    if front == [] || front[|front| - 1] != s[i] {
      ElementsAppend(front, s[i]);
    } else {
      assert s[i] in Elements(front);
    }
  }

  lemma CompactDone(front: seq<int64>, s: seq<int64>)
    requires CompactOf(front, s, |s|)
    ensures StrictlyIncreasing(front) && Elements(front) == Elements(s)
  {
    assert s[..|s|] == s;
  }

  lemma CompactNothing(s: seq<int64>)
    ensures CompactOf([], s, 0)
  {
  }

  /** Moves one copy of every value of an ascending array to its front. */
  method Compact(a: array<int64>) returns (n: nat)
    requires Ascending(a[..])
    modifies a
    ensures n <= a.Length
    ensures StrictlyIncreasing(a[..n]) && Elements(a[..n]) == Elements(old(a[..]))
  {
    hide CompactOf, StrictlyIncreasing, Ascending, Elements;
    ghost var was := a[..];
    ghost var front := [];
    n := 0;
    CompactNothing(was);
    for i := 0 to a.Length
      invariant n == |front| <= i
      invariant forall k | 0 <= k < n :: a[k] == front[k]
      invariant forall k | i <= k < a.Length :: a[k] == was[k]
      invariant CompactOf(front, was, i)
    {
      CompactStep(front, was, i);
      if n == 0 || a[n - 1] != a[i] {
        front := front + [a[i]];
        a[n] := a[i];
        n := n + 1;
      }
    }
    CompactDone(front, was);
    assert a[..n] == front;
  }

  /** Clones, sorts and compacts a list of IDs. */
  method NormalizeIDs(ids: seq<int64>) returns (r: seq<int64>)
    ensures StrictlyIncreasing(r) && Elements(r) == Elements(ids)
    ensures r == Canonical(Elements(ids))
  {
    if |ids| == 0 {
      return [];
    }
    var clone := new int64[|ids|](i requires 0 <= i < |ids| => ids[i]);
    assert clone[..] == ids;
    Sort(clone);
    var n := Compact(clone);
    r := clone[..n];
    CanonicalUnique(r, Canonical(Elements(ids)));
  }

  /** Two lists normalise to the same list exactly when they have the same elements. */
  lemma CanonicalIff(s: seq<int64>, t: seq<int64>)
    ensures Canonical(Elements(s)) == Canonical(Elements(t)) <==> Elements(s) == Elements(t)
  {
    assert Elements(Canonical(Elements(s))) == Elements(s);
    assert Elements(Canonical(Elements(t))) == Elements(t);
  }
}
