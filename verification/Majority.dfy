/** Majority selection: sort the per-peer indices, read one slot.
    The reference definition is a count: the greatest value that more than half
    of the peers have reached. */
module Majority {

  // ----- the reference definition -----

  /** The peers whose index is at least x. */
  function Reached(values: seq<int>, x: int): (r: set<nat>)
  {
    set i: nat | i < |values| && values[i] >= x
  }

  predicate IsMajority(q: set<nat>, n: nat)
  {
    n / 2 + 1 <= |q|
  }

  /** x is the greatest value that a majority of the peers has reached. */
  ghost predicate IsMajorityIndex(values: seq<int>, x: int)
  {
    && IsMajority(Reached(values, x), |values|)
    && forall y :: x < y ==> !IsMajority(Reached(values, y), |values|)
  }

  /** How many members are at least x; the same count, by recursion. */
  function CountReached(values: seq<int>, x: int): nat
  {
    if values == [] then 0
    else CountReached(values[..|values| - 1], x) + (if values[|values| - 1] >= x then 1 else 0)
  }

  lemma {:induction false} CountIsCardinality(values: seq<int>, x: int)
    ensures |Reached(values, x)| == CountReached(values, x)
  {
    if values == [] {
      assert Reached(values, x) == {};
    } else {
      var last := |values| - 1;
      var front := values[..last];
      CountIsCardinality(front, x);
      var here := if values[last] >= x then {last} else {};
      assert Reached(values, x) == Reached(front, x) + here;
    }
  }

  // ----- the sorted slot -----

  predicate Ascending(s: seq<int>)
  {
    forall i, j :: 0 <= i < j < |s| ==> s[i] <= s[j]
  }

  /** The slot the leader reads (num - num / 2 - 1). */
  function MajoritySlot(n: nat): (slot: nat)
    requires 0 < n
    ensures slot < n && n - slot == n / 2 + 1
  {
    n - n / 2 - 1
  }

  /** In an ascending sequence the members from slot k up are the ones that reach s[k]. */
  lemma {:induction false} CountInAscending(s: seq<int>, k: nat)
    requires Ascending(s) && k < |s|
    ensures CountReached(s, s[k]) >= |s| - k
    ensures forall y :: s[k] < y ==> CountReached(s, y) <= |s| - k - 1
  {
    var last := |s| - 1;
    var front := s[..last];
    if k < last {
      CountInAscending(front, k);
      assert s[k] <= s[last];
    } else {
      forall y | s[k] < y ensures CountReached(s, y) == 0 { NoneReaches(s, y); }
    }
  }

  lemma {:induction false} NoneReaches(s: seq<int>, y: int)
    requires forall i :: 0 <= i < |s| ==> s[i] < y
    ensures CountReached(s, y) == 0
  {
    if s != [] { NoneReaches(s[..|s| - 1], y); }
  }

  // ----- the function used by the protocol specification -----

  function Insert(x: int, s: seq<int>): (r: seq<int>)
    ensures |r| == |s| + 1
  {
    if s == [] || s[|s| - 1] <= x then s + [x]
    else Insert(x, s[..|s| - 1]) + [s[|s| - 1]]
  }

  function Sorted(s: seq<int>): (r: seq<int>)
    ensures |r| == |s|
  {
    if s == [] then [] else Insert(s[|s| - 1], Sorted(s[..|s| - 1]))
  }

  /** The slot the leader reads after sorting. */
  function MajorityIndex(values: seq<int>): int
    requires values != []
  {
    Sorted(values)[MajoritySlot(|values|)]
  }

  lemma {:induction false} InsertKeepsOrder(x: int, s: seq<int>)
    requires Ascending(s)
    ensures Ascending(Insert(x, s))
    ensures forall v <- Insert(x, s) :: v == x || v in s
  {
    if s != [] && x < s[|s| - 1] {
      var front := s[..|s| - 1];
      InsertKeepsOrder(x, front);
      var r := Insert(x, s);
      forall i | 0 <= i < |front| + 1 ensures r[i] <= s[|s| - 1] {
        assert r[i] == Insert(x, front)[i];
        assert r[i] == x || r[i] in front;
      }
    }
  }

  lemma {:induction false} InsertCounts(x: int, s: seq<int>, y: int)
    ensures CountReached(Insert(x, s), y) == CountReached(s, y) + (if x >= y then 1 else 0)
  {
    if s == [] || s[|s| - 1] <= x {
      assert (s + [x])[..|s|] == s;
    } else {
      var front := s[..|s| - 1];
      InsertCounts(x, front, y);
      assert Insert(x, s)[..|s|] == Insert(x, front);
    }
  }

  /** Sorting is ascending, and for every threshold keeps the number of members that reach it. */
  lemma {:induction false} SortedCorrect(s: seq<int>)
    ensures Ascending(Sorted(s))
    ensures forall y :: CountReached(Sorted(s), y) == CountReached(s, y)
  {
    if s != [] {
      var front := s[..|s| - 1];
      SortedCorrect(front);
      InsertKeepsOrder(s[|s| - 1], Sorted(front));
      forall y ensures CountReached(Sorted(s), y) == CountReached(s, y) {
        InsertCounts(s[|s| - 1], Sorted(front), y);
      }
    }
  }

  /** Whatever sequence is ascending and has the same counts, its slot is the majority index. */
  lemma SlotOfAscending(values: seq<int>, s: seq<int>)
    requires values != [] && |s| == |values| && Ascending(s)
    requires forall y :: CountReached(s, y) == CountReached(values, y)
    ensures IsMajorityIndex(values, s[MajoritySlot(|values|)])
  {
    var k := MajoritySlot(|values|);
    CountInAscending(s, k);
    CountIsCardinality(values, s[k]);
    forall y | s[k] < y ensures !IsMajority(Reached(values, y), |values|) {
      CountIsCardinality(values, y);
    }
  }

  lemma MajorityIndexUnique(values: seq<int>, x: int, y: int)
    requires IsMajorityIndex(values, x) && IsMajorityIndex(values, y)
    ensures x == y
  {
  }

  /** The sorted slot is the greatest value reached by a majority, and no other value is. */
  lemma MajorityIndexCorrect(values: seq<int>, x: int)
    requires values != []
    ensures x == MajorityIndex(values) <==> IsMajorityIndex(values, x)
  {
    SortedCorrect(values);
    SlotOfAscending(values, Sorted(values));
    if IsMajorityIndex(values, x) {
      MajorityIndexUnique(values, x, MajorityIndex(values));
    }
  }

  // ----- quorums -----

  function Peers(n: nat): (r: set<nat>)
    ensures forall i: nat :: i in r <==> i < n
  {
    if n == 0 then {} else Peers(n - 1) + {n - 1}
  }

  lemma {:induction false} PeersSize(n: nat)
    ensures |Peers(n)| == n
  {
    if n > 0 {
      PeersSize(n - 1);
      assert Peers(n) == Peers(n - 1) + {n - 1};
    }
  }

  lemma SubsetSize<T>(a: set<T>, b: set<T>)
    requires a <= b
    ensures |a| <= |b|
  {
    assert b == a + (b - a);
  }

  /** Two majorities of the same peers share a member. */
  lemma MajoritiesIntersect(a: set<nat>, b: set<nat>, n: nat) returns (i: nat)
    requires a <= Peers(n) && b <= Peers(n)
    requires IsMajority(a, n) && IsMajority(b, n)
    ensures i in a && i in b
  {
    if a * b == {} {
      PeersSize(n);
      assert |a + b| == |a| + |b|;
      SubsetSize(a + b, Peers(n));
      assert false;
    }
    i :| i in a * b;
  }

  /** A superset of a majority is a majority. */
  lemma MajorityGrows(a: set<nat>, b: set<nat>, n: nat)
    requires a <= b && IsMajority(a, n)
    ensures IsMajority(b, n)
  {
    SubsetSize(a, b);
  }

  // ----- the in-place computation -----

  lemma {:induction false} SwapCounts(s: seq<int>, j: nat, y: int)
    requires 0 < j < |s|
    ensures CountReached(s[j := s[j - 1]][j - 1 := s[j]], y) == CountReached(s, y)
  {
    var last := |s| - 1;
    var t := s[j := s[j - 1]][j - 1 := s[j]];
    if j < last {
      SwapCounts(s[..last], j, y);
      assert t[..last] == s[..last][j := s[j - 1]][j - 1 := s[j]];
    } else {
      assert t[..last][..last - 1] == s[..last][..last - 1];
    }
  }

  /** The leader's sort of its scratch array, then the slot.  The library sort is
      an insertion sort here. */
  method MajorityEntryIndex(a: array<int>) returns (idx: int)
    requires 0 < a.Length
    modifies a
    ensures idx == MajorityIndex(old(a[..]))
    ensures Ascending(a[..])
    ensures forall y :: CountReached(a[..], y) == CountReached(old(a[..]), y)
  {
    ghost var was := a[..];
    var i := 0;
    while i < a.Length
      invariant 0 <= i <= a.Length
      invariant forall p, q :: 0 <= p < q < i ==> a[p] <= a[q]
      invariant forall y :: CountReached(a[..], y) == CountReached(was, y)
    {
      var j := i;
      while 0 < j && a[j] < a[j - 1]
        invariant 0 <= j <= i
        invariant forall p, q :: 0 <= p < q <= i && q != j ==> a[p] <= a[q]
        invariant forall y :: CountReached(a[..], y) == CountReached(was, y)
      {
        ghost var before := a[..];
        a[j], a[j - 1] := a[j - 1], a[j];
        assert a[..] == before[j := before[j - 1]][j - 1 := before[j]];
        forall y ensures CountReached(a[..], y) == CountReached(before, y) {
          SwapCounts(before, j, y);
        }
        j := j - 1;
      }
      i := i + 1;
    }
    idx := a[MajoritySlot(a.Length)];
    SlotOfAscending(was, a[..]);
    MajorityIndexCorrect(was, idx);
  }
}
