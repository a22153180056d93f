/** What the pointer updates of removal do to the tries in memory. */
module TreeUnlink {
  import opened TreeIndex
  import opened Trie
  import opened TreeMemory
  import opened TreeLinks

  // ----- leaving a ring -----

  /** The neighbours of x are linked to each other. */
  function Unring(mem: Memory, x: nat): Memory
    requires x in mem && mem[x].fd in mem && mem[x].bk in mem
  {
    var f, r := mem[x].fd, mem[x].bk;
    var mem1 := mem[f := mem[f].(bk := r)];
    mem1[r := mem1[r].(fd := f)]
  }

  lemma RingSpot(mem: Memory, ring: seq<nat>, size: nat, i: nat, k: nat)
    requires RingOk(mem, ring, size, i) && k < |ring|
    ensures ring[k] in mem && ring[k] != 0 && ring[k] in RingSet(ring)
    ensures mem[ring[k]].fd == ring[Next(k, |ring|)] && mem[ring[k]].bk == ring[Prev(k, |ring|)]
    ensures mem[ring[k]].fd in mem && mem[ring[k]].bk in mem && mem[ring[k]].size == size && mem[ring[k]].index == i
    ensures 0 < k ==> mem[ring[k]].parent == NoParent && mem[ring[k]].left == 0 && mem[ring[k]].right == 0
  {
    assert RingAt(mem, ring, size, i, k);
    assert RingAt(mem, ring, size, i, Next(k, |ring|));
    assert RingAt(mem, ring, size, i, Prev(k, |ring|));
  }

  /** A chunk that is not first leaves the ring. */
  lemma RingLeft(mem: Memory, ring: seq<nat>, size: nat, i: nat, k: nat)
    requires RingOk(mem, ring, size, i) && NoDup(ring) && 0 < k < |ring|
    ensures ring[k] in mem && mem[ring[k]].fd in mem && mem[ring[k]].bk in mem
    ensures var mem' := Unring(mem, ring[k]);
            && RingOk(mem', RingWithout(ring, k), size, i)
            && ring[0] in mem && ring[0] in mem'
            && mem'[ring[0]] == mem[ring[0]].(fd := mem'[ring[0]].fd, bk := mem'[ring[0]].bk)
  {
    RingSpot(mem, ring, size, i, k);
    RingSpot(mem, ring, size, i, 0);
    var n := |ring|;
    var mem', ring' := Unring(mem, ring[k]), RingWithout(ring, k);
    forall j: nat | j < |ring'| ensures RingAt(mem', ring', size, i, j) {
      var o := if j < k then j else j + 1;
      assert ring'[j] == ring[o] && ring[o] != ring[k];
      assert RingAt(mem, ring, size, i, o);
      RingLeftNext(ring, k, j);
      RingLeftPrev(ring, k, j);
      assert Next(o, n) != o && Prev(o, n) != o;
    }
  }

  lemma RingLeftNext(ring: seq<nat>, k: nat, j: nat)
    requires NoDup(ring) && 0 < k < |ring| && j < |ring| - 1
    ensures var ring', n := RingWithout(ring, k), |ring|;
            var o := if j < k then j else j + 1;
            ring'[Next(j, n - 1)] == ring[if Next(o, n) == k then Next(k, n) else Next(o, n)]
    ensures var o := if j < k then j else j + 1;
            ring[o] == ring[Prev(k, |ring|)] <==> Next(o, |ring|) == k
  {
  }

  lemma RingLeftPrev(ring: seq<nat>, k: nat, j: nat)
    requires NoDup(ring) && 0 < k < |ring| && j < |ring| - 1
    ensures var ring', n := RingWithout(ring, k), |ring|;
            var o := if j < k then j else j + 1;
            ring'[Prev(j, n - 1)] == ring[if Prev(o, n) == k then Prev(k, n) else Prev(o, n)]
    ensures var o := if j < k then j else j + 1;
            ring[o] == ring[Next(k, |ring|)] <==> Prev(o, |ring|) == k
  {
  }

  /** The first chunk leaves the ring: the last one comes first. */
  lemma RingHeadLeft(mem: Memory, ring: seq<nat>, size: nat, i: nat)
    requires RingOk(mem, ring, size, i) && NoDup(ring) && 1 < |ring|
    ensures ring[0] in mem && mem[ring[0]].fd in mem && mem[ring[0]].bk in mem
    ensures RingOk(Unring(mem, ring[0]), RingWithout(ring, 0), size, i)
    ensures var r := mem[ring[0]].bk;
            && r == RingWithout(ring, 0)[0] && r == ring[|ring| - 1]
            && Unring(mem, ring[0])[r].left == 0 && Unring(mem, ring[0])[r].right == 0
  {
    RingSpot(mem, ring, size, i, 0);
    var n := |ring|;
    var mem', ring' := Unring(mem, ring[0]), RingWithout(ring, 0);
    RingSpot(mem, ring, size, i, n - 1);
    forall j: nat | j < |ring'| ensures RingAt(mem', ring', size, i, j) {
      var o := if j == 0 then n - 1 else j;
      assert ring'[j] == ring[o] && ring[o] != ring[0];
      assert RingAt(mem, ring, size, i, o);
      assert 0 < o && (j + 1 < n - 1 ==> ring'[j + 1] == ring[j + 1]) && (1 < j ==> ring'[j - 1] == ring[j - 1]);
    }
  }

  lemma RingWithoutSet(ring: seq<nat>, k: nat)
    requires NoDup(ring) && k < |ring| && 1 < |ring|
    ensures RingSet(RingWithout(ring, k)) == RingSet(ring) - {ring[k]} && NoDup(RingWithout(ring, k))
  {
    var r, n := RingWithout(ring, k), |ring|;
    forall a: nat | a in RingSet(r) ensures a in RingSet(ring) - {ring[k]} {
      var j :| 0 <= j < |r| && r[j] == a;
      var o := if k == 0 then (if j == 0 then n - 1 else j) else if j < k then j else j + 1;
      assert ring[o] == a;
    }
    forall a: nat | a in RingSet(ring) - {ring[k]} ensures a in RingSet(r) {
      var o :| 0 <= o < n && ring[o] == a;
      var j := if k == 0 then (if o == n - 1 then 0 else o) else if o < k then o else o - 1;
      assert r[j] == a;
    }
  }

  // ----- taking over a node's place -----

  /** r takes x's place below xp: its parent, and x's children. */
  function Adopt(mem: Memory, x: nat, r: nat, xp: Link): Memory
    requires x in mem && r in mem && (mem[x].left == 0 || mem[x].left in mem)
    requires mem[x].right == 0 || mem[x].right in mem
  {
    var m1 := mem[r := mem[r].(parent := xp)];
    var m2 := AdoptLeft(m1, x, r);
    AdoptRight(m2, x, r)
  }

  function AdoptLeft(mem: Memory, x: nat, r: nat): Memory
    requires x in mem && r in mem && (mem[x].left == 0 || mem[x].left in mem)
  {
    var c := mem[x].left;
    if c == 0 then mem
    else
      var m := mem[r := mem[r].(left := c)];
      m[c := m[c].(parent := At(r))]
  }

  function AdoptRight(mem: Memory, x: nat, r: nat): Memory
    requires x in mem && r in mem && (mem[x].right == 0 || mem[x].right in mem)
  {
    var c := mem[x].right;
    if c == 0 then mem
    else
      var m := mem[r := mem[r].(right := c)];
      m[c := m[c].(parent := At(r))]
  }

  lemma Reparent(mem: Memory, mem': Memory, c: nat, par: Link, par': Link, t: Tree, i: nat)
    requires Rep(mem, c, par, t, i) && Distinct(t) && t.Node? && c in mem
    requires c in mem' && mem'[c] == mem[c].(parent := par') && Same(mem, mem', Addrs(t) - {c})
    ensures Rep(mem', c, par', t, i)
  {
    hide Rep, Distinct, RingOk;
    RepRing(mem, c, par, t, i);
    RepFirst(mem, c, par, t, i);
    DistinctParts(t);
    RingSame(mem, mem', t.ring, t.size, i);
    SameChild(mem, mem', t, c);
    RepFrame(mem, mem', mem[c].left, At(c), t.left, i);
    RepFrame(mem, mem', mem[c].right, At(c), t.right, i);
    RepMade(mem', c, par', t, i);
  }

  lemma SameChild(mem: Memory, mem': Memory, t: Tree, c: nat)
    requires t.Node? && Same(mem, mem', Addrs(t) - {c}) && c !in Addrs(t.left) && c !in Addrs(t.right)
    ensures Same(mem, mem', Addrs(t.left)) && Same(mem, mem', Addrs(t.right))
  {
  }

  lemma RingSame(mem: Memory, mem': Memory, ring: seq<nat>, size: nat, i: nat)
    requires RingOk(mem, ring, size, i) && NoDup(ring) && ring != [] && ring[0] in mem && ring[0] in mem'
    requires mem'[ring[0]].(left := 0, right := 0, parent := NoParent) ==
             mem[ring[0]].(left := 0, right := 0, parent := NoParent)
    requires forall a: nat :: a in RingSet(ring) && a != ring[0] ==> a in mem && a in mem' && mem'[a] == mem[a]
    ensures RingOk(mem', ring, size, i)
  {
    forall k: nat | 0 < k < |ring| ensures ring[k] in mem && ring[k] in mem' && mem'[ring[k]] == mem[ring[k]] {
      assert ring[k] in RingSet(ring) && ring[k] != ring[0];
    }
    RingRelinked(mem, mem', ring, size, i);
  }

  /** A replacement r and x's subtrees make up a node in x's place. */
  ghost predicate Ready(mem: Memory, x: nat, r: nat, t: Tree, i: nat)
  {
    && t.Node? && Distinct(t) && RingOk(mem, t.ring, t.size, i) && r == t.ring[0] && r in mem && x in mem
    && mem[r].left == 0 && mem[r].right == 0 && x !in Addrs(t)
    && Rep(mem, mem[x].left, At(x), t.left, i) && Rep(mem, mem[x].right, At(x), t.right, i)
  }

  lemma ReadyFacts(mem: Memory, x: nat, r: nat, t: Tree, i: nat)
    requires Ready(mem, x, r, t, i)
    ensures t.Node? && x in mem && r in mem && r == t.ring[0] && r != 0 && r in RingSet(t.ring) && r != x
    ensures mem[r].left == 0 && mem[r].right == 0
    ensures var l := mem[x].left;
            if t.left.Nil? then l == 0 else l != 0 && l in mem && l in Addrs(t.left) && l != r && l != x
    ensures var c := mem[x].right;
            if t.right.Nil? then c == 0
              else c != 0 && c in mem && c in Addrs(t.right) && c != r && c != x && c != mem[x].left
    ensures RingOk(mem, t.ring, t.size, i)
    ensures Rep(mem, mem[x].left, At(x), t.left, i) && Rep(mem, mem[x].right, At(x), t.right, i)
    ensures NoDup(t.ring) && Distinct(t.left) && Distinct(t.right) && x !in Addrs(t)
    ensures RingSet(t.ring) !! Addrs(t.left) && RingSet(t.ring) !! Addrs(t.right) && Addrs(t.left) !! Addrs(t.right)
    ensures Addrs(t) == RingSet(t.ring) + Addrs(t.left) + Addrs(t.right)
  {
    hide Rep, Distinct, Addrs;
    DistinctParts(t);
    RingSpot(mem, t.ring, t.size, i, 0);
    RepPointer(mem, mem[x].left, At(x), t.left, i);
    RepPointer(mem, mem[x].right, At(x), t.right, i);
  }

  lemma RepPointer(mem: Memory, p: nat, par: Link, t: Tree, i: nat)
    requires Rep(mem, p, par, t, i)
    ensures if t.Nil? then p == 0 else p != 0 && p in mem && p in Addrs(t)
  {
    RepNull(mem, p, par, t, i);
    if t.Node? { RepFirst(mem, p, par, t, i); }
  }

  /** What Adopt leaves in memory. */
  lemma AdoptEffect(mem: Memory, x: nat, r: nat, xp: Link)
    requires x in mem && r in mem && r != x && mem[r].left == 0 && mem[r].right == 0
    requires var l, c := mem[x].left, mem[x].right;
             && (l == 0 || (l in mem && l != r && l != x)) && (c == 0 || (c in mem && c != r && c != x && c != l))
    ensures var m, l, c := Adopt(mem, x, r, xp), mem[x].left, mem[x].right;
            && m.Keys == mem.Keys && m[r] == mem[r].(parent := xp, left := l, right := c)
            && (l != 0 ==> m[l] == mem[l].(parent := At(r))) && (c != 0 ==> m[c] == mem[c].(parent := At(r)))
            && forall a: nat :: a in mem && a != r && (a != l || l == 0) && (a != c || c == 0) ==> m[a] == mem[a]
  {
  }

  lemma AdoptRep(mem: Memory, x: nat, r: nat, xp: Link, t: Tree, i: nat)
    requires Ready(mem, x, r, t, i)
    ensures x in mem && r in mem && (mem[x].left == 0 || mem[x].left in mem)
    ensures mem[x].right == 0 || mem[x].right in mem
    ensures Rep(Adopt(mem, x, r, xp), r, xp, t, i)
    ensures Same(mem, Adopt(mem, x, r, xp), mem.Keys - Addrs(t))
  {
    hide Rep, Distinct, RingOk, Adopt, Addrs, Ready;
    ReadyFacts(mem, x, r, t, i);
    AdoptEffect(mem, x, r, xp);
    var m, l, c := Adopt(mem, x, r, xp), mem[x].left, mem[x].right;
    RepDomain(mem, l, At(x), t.left, i);
    RepDomain(mem, c, At(x), t.right, i);
    AdoptedRing(mem, m, t, i, r, l, c);
    if t.left.Node? {
      Reparent(mem, m, l, At(x), At(r), t.left, i);
    } else {
      RepFrame(mem, m, l, At(x), t.left, i);
      NilAnywhere(m, l, At(x), At(r), t.left, i);
    }
    if t.right.Node? {
      Reparent(mem, m, c, At(x), At(r), t.right, i);
    } else {
      RepFrame(mem, m, c, At(x), t.right, i);
      NilAnywhere(m, c, At(x), At(r), t.right, i);
    }
    RepMade(m, r, xp, t, i);
  }

  lemma NilAnywhere(mem: Memory, p: nat, par: Link, par': Link, t: Tree, i: nat)
    requires Rep(mem, p, par, t, i) && t.Nil?
    ensures Rep(mem, p, par', t, i)
  {
  }

  lemma AdoptedRing(mem: Memory, m: Memory, t: Tree, i: nat, r: nat, l: nat, c: nat)
    requires t.Node? && RingOk(mem, t.ring, t.size, i) && NoDup(t.ring) && t.ring != [] && r == t.ring[0] && r in mem
    requires r in m
    requires m.Keys == mem.Keys
    requires m[r].(left := 0, right := 0, parent := NoParent) == mem[r].(left := 0, right := 0, parent := NoParent)
    requires forall a: nat :: a in mem && a != r && (a != l || l == 0) && (a != c || c == 0) ==> m[a] == mem[a]
    requires (l == 0 || l !in RingSet(t.ring)) && (c == 0 || c !in RingSet(t.ring))
    ensures RingOk(m, t.ring, t.size, i)
  {
    forall a: nat | a in RingSet(t.ring) && a != r ensures a in mem && a in m && m[a] == mem[a] {
      var k :| 0 <= k < |t.ring| && t.ring[k] == a;
      RingSpot(mem, t.ring, t.size, i, k);
    }
    RingSame(mem, m, t.ring, t.size, i);
  }

  // ----- taking out a leaf -----

  predicate IsLeaf(t: Tree)
  {
    t.Node? && t.left.Nil? && t.right.Nil?
  }

  function ClearSlot(mem: Memory, owner: nat, right: bool): Memory
    requires owner in mem
  {
    mem[owner := if right then mem[owner].(right := 0) else mem[owner].(left := 0)]
  }

  /** The child slot through which the leaf to pluck hangs, below a node that is no leaf. */
  function Slot(t: Tree): (nat, bool)
  {
    if t.Nil? || IsLeaf(t) then (0, false)
    else if t.right.Node? then if IsLeaf(t.right) then (Head(t), true) else Slot(t.right)
    else if IsLeaf(t.left) then (Head(t), false) else Slot(t.left)
  }

  lemma {:induction false} PluckAddrs(t: Tree)
    requires t.Node? && Distinct(t)
    ensures var (leaf, rest) := Pluck(t);
            && Addrs(t) == Addrs(rest) + RingSet(leaf.ring) && Addrs(rest) !! RingSet(leaf.ring)
            && Distinct(rest) && NoDup(leaf.ring)
  {
    hide NoDup, RingSet;
    assert Addrs(Nil) == {};
    if t.right.Node? {
      PluckAddrs(t.right);
    } else if t.left.Node? {
      PluckAddrs(t.left);
    }
  }

  lemma PluckRight(t: Tree)
    requires t.Node? && t.right.Node?
    ensures Pluck(t) == (Pluck(t.right).0, t.(right := Pluck(t.right).1))
  {
  }

  lemma PluckLeft(t: Tree)
    requires t.Node? && t.right.Nil? && t.left.Node?
    ensures Pluck(t) == (Pluck(t.left).0, t.(left := Pluck(t.left).1))
  {
  }

  lemma PluckLeaf(t: Tree)
    requires IsLeaf(t)
    ensures Pluck(t) == (t, Nil)
  {
  }

  /** The leaf as it lies in memory. */
  lemma {:induction false} PluckedLeaf(mem: Memory, p: nat, par: Link, t: Tree, i: nat)
    requires Rep(mem, p, par, t, i) && t.Node?
    ensures var leaf := Pluck(t).0;
            && leaf.ring != [] && RingOk(mem, leaf.ring, leaf.size, i) && leaf.ring[0] in mem
            && mem[leaf.ring[0]].left == 0 && mem[leaf.ring[0]].right == 0
    decreases t
  {
    hide Rep, RingOk;
    RepRing(mem, p, par, t, i);
    RepFirst(mem, p, par, t, i);
    RepNode(mem, p, par, t, i);
    if t.right.Node? {
      PluckRight(t);
      PluckedLeaf(mem, mem[p].right, At(p), t.right, i);
    } else if t.left.Node? {
      PluckLeft(t);
      PluckedLeaf(mem, mem[p].left, At(p), t.left, i);
    } else {
      PluckLeaf(t);
    }
  }

  lemma {:induction false} SlotInside(mem: Memory, p: nat, par: Link, t: Tree, i: nat)
    requires Rep(mem, p, par, t, i) && t.Node? && !IsLeaf(t)
    ensures Slot(t).0 in Addrs(t) && Slot(t).0 in mem
    decreases t
  {
    hide Rep, RingOk;
    RepRing(mem, p, par, t, i);
    RepFirst(mem, p, par, t, i);
    if t.right.Node? {
      if !IsLeaf(t.right) { SlotInside(mem, mem[p].right, At(p), t.right, i); }
    } else {
      if !IsLeaf(t.left) { SlotInside(mem, mem[p].left, At(p), t.left, i); }
    }
  }

  /** Clearing a slot of the node at hand. */
  lemma ClearHere(mem: Memory, p: nat, par: Link, t: Tree, i: nat, right: bool)
    requires Rep(mem, p, par, t, i) && t.Node? && Distinct(t)
    ensures p in mem && Rep(ClearSlot(mem, p, right), p, par, if right then t.(right := Nil) else t.(left := Nil), i)
  {
    hide Rep, RingOk, Distinct;
    RepRing(mem, p, par, t, i);
    RepFirst(mem, p, par, t, i);
    DistinctParts(t);
    RingAndSubDomain(mem, p, par, t, i);
    var m := ClearSlot(mem, p, right);
    var t' := if right then t.(right := Nil) else t.(left := Nil);
    RingSame(mem, m, t.ring, t.size, i);
    NilRep(m, At(p), i);
    if right {
      RepFrame(mem, m, mem[p].left, At(p), t.left, i);
    } else {
      RepFrame(mem, m, mem[p].right, At(p), t.right, i);
    }
    RepMade(m, p, par, t', i);
  }

  lemma NilRep(mem: Memory, par: Link, i: nat)
    ensures Rep(mem, 0, par, Nil, i)
  {
  }

  lemma ClearFrame(mem: Memory, owner: nat, right: bool, others: set<nat>)
    requires owner in mem && owner !in others && forall a: nat :: a in others ==> a in mem
    ensures Same(mem, ClearSlot(mem, owner, right), others)
  {
  }

  /** Clearing the leaf's slot leaves the trie without it. */
  lemma {:induction false} SlotCleared(mem: Memory, p: nat, par: Link, t: Tree, i: nat)
    requires Rep(mem, p, par, t, i) && t.Node? && !IsLeaf(t) && Distinct(t)
    ensures Slot(t).0 in mem && Rep(ClearSlot(mem, Slot(t).0, Slot(t).1), p, par, Pluck(t).1, i)
    decreases t
  {
    hide Rep, RingOk, Distinct, ClearSlot, Addrs, Pluck, Same;
    SlotInside(mem, p, par, t, i);
    RepRing(mem, p, par, t, i);
    DistinctParts(t);
    RingAndSubDomain(mem, p, par, t, i);
    if t.right.Node? {
      PluckRight(t);
      if IsLeaf(t.right) {
        PluckLeaf(t.right);
        ClearHere(mem, p, par, t, i, true);
      } else {
        SlotCleared(mem, mem[p].right, At(p), t.right, i);
        SlotInside(mem, mem[p].right, At(p), t.right, i);
        ClearFrame(mem, Slot(t.right).0, Slot(t.right).1, RingSet(t.ring) + Addrs(t.left));
        RightChanged(mem, ClearSlot(mem, Slot(t.right).0, Slot(t.right).1), p, par, t, i, Pluck(t.right).1);
      }
    } else {
      PluckLeft(t);
      if IsLeaf(t.left) {
        PluckLeaf(t.left);
        ClearHere(mem, p, par, t, i, false);
      } else {
        SlotCleared(mem, mem[p].left, At(p), t.left, i);
        SlotInside(mem, mem[p].left, At(p), t.left, i);
        ClearFrame(mem, Slot(t.left).0, Slot(t.left).1, RingSet(t.ring) + Addrs(t.right));
        LeftChanged(mem, ClearSlot(mem, Slot(t.left).0, Slot(t.left).1), p, par, t, i, Pluck(t.left).1);
      }
    }
  }

  // ----- the node of a size, and its surroundings -----

  function NodeOf(t: Tree, s: nat): Tree
  {
    if t.Nil? || t.size == s then t else if HasSize(t.left, s) then NodeOf(t.left, s) else NodeOf(t.right, s)
  }

  function Rehung(c: Chunk, x: nat, r: nat): Chunk
  {
    if c.left == x then c.(left := r) else c.(right := r)
  }

  lemma NodeOfLeft(t: Tree, s: nat)
    requires t.Node? && t.size != s && HasSize(t.left, s)
    ensures NodeOf(t, s) == NodeOf(t.left, s) && HasSize(t, s)
  {
  }

  lemma NodeOfRight(t: Tree, s: nat)
    requires t.Node? && t.size != s && HasSize(t, s) && !HasSize(t.left, s)
    ensures NodeOf(t, s) == NodeOf(t.right, s) && HasSize(t.right, s)
  {
  }

  lemma NodeOfHere(t: Tree)
    requires t.Node?
    ensures NodeOf(t, t.size) == t
  {
  }

  /** Where the node of size s hangs. */
  lemma {:induction false} NodePlace(mem: Memory, p: nat, par: Link, t: Tree, i: nat, s: nat)
    requires Rep(mem, p, par, t, i) && Distinct(t) && HasSize(t, s)
    ensures var n := NodeOf(t, s);
            && n.Node? && n.size == s && Distinct(n) && Addrs(n) <= Addrs(t) && Head(n) in mem && Head(n) in Addrs(n)
            && Rep(mem, Head(n), mem[Head(n)].parent, n, i) && RingOf(t, s) == n.ring
            && (t.size == s ==> n == t && mem[Head(n)].parent == par && Head(n) == p)
            && (t.size != s ==> mem[Head(n)].parent.At? && mem[Head(n)].parent.a in Addrs(t) - Addrs(n))
    decreases t
  {
    hide Rep, RingOk, Distinct, Addrs, NodeOf, RingOf, HasSize;
    SizeMeansNode(t, s);
    RepRing(mem, p, par, t, i);
    RepFirst(mem, p, par, t, i);
    DistinctParts(t);
    if t.size == s {
      NodeOfHere(t);
      RingOfHere(t, s);
    } else if HasSize(t.left, s) {
      NodeOfLeft(t, s);
      RingOfLeft(t, s);
      NodePlace(mem, mem[p].left, At(p), t.left, i, s);
    } else {
      NodeOfRight(t, s);
      RingOfRight(t, s);
      NodePlace(mem, mem[p].right, At(p), t.right, i, s);
    }
  }

  /** Around the node at x everything is as before, except that its parent points to r. */
  ghost predicate Replaced(mem: Memory, mem': Memory, around: set<nat>, xp: Link, x: nat, r: nat)
  {
    forall a: nat :: a in around ==>
      a in mem && a in mem' && mem'[a] == if xp == At(a) then Rehung(mem[a], x, r) else mem[a]
  }

  lemma ReplacedSame(mem: Memory, mem': Memory, around: set<nat>, part: set<nat>, xp: Link, x: nat, r: nat)
    requires Replaced(mem, mem', around, xp, x, r) && part <= around && (xp.At? ==> xp.a !in part)
    ensures Same(mem, mem', part)
  {
  }

  lemma ReplacedPart(mem: Memory, mem': Memory, around: set<nat>, part: set<nat>, xp: Link, x: nat, r: nat)
    requires Replaced(mem, mem', around, xp, x, r) && part <= around
    ensures Replaced(mem, mem', part, xp, x, r)
  {
  }

  /** The node's own parent. */
  lemma ReplacedLeftChild(mem: Memory, mem': Memory, p: nat, par: Link, t: Tree, i: nat, x: nat, r: nat, l: Tree)
    requires Rep(mem, p, par, t, i) && t.Node? && Distinct(t) && p in mem && mem[p].left == x && t.left.Node?
    requires Replaced(mem, mem', Addrs(t) - Addrs(t.left), At(p), x, r) && Rep(mem', r, At(p), l, i)
    ensures Rep(mem', p, par, t.(left := l), i)
  {
    hide Rep, RingOk, Distinct, Addrs, Replaced, NoDup;
    RepRing(mem, p, par, t, i);
    RepFirst(mem, p, par, t, i);
    DistinctParts(t);
    ReplacedSame(mem, mem', Addrs(t) - Addrs(t.left), Addrs(t.right), At(p), x, r);
    RepFrame(mem, mem', mem[p].right, At(p), t.right, i);
    ReplacedRing(mem, mem', t, i, p, x, r);
    RepMade(mem', p, par, t.(left := l), i);
  }

  lemma ReplacedRing(mem: Memory, mem': Memory, t: Tree, i: nat, p: nat, x: nat, r: nat)
    requires t.Node? && RingOk(mem, t.ring, t.size, i) && NoDup(t.ring) && t.ring != [] && p == t.ring[0]
    requires p in RingSet(t.ring)
    requires exists around :: RingSet(t.ring) <= around && Replaced(mem, mem', around, At(p), x, r)
    ensures p in mem && p in mem' && mem'[p] == Rehung(mem[p], x, r) && RingOk(mem', t.ring, t.size, i)
  {
    var around :| RingSet(t.ring) <= around && Replaced(mem, mem', around, At(p), x, r);
    RingSame(mem, mem', t.ring, t.size, i);
  }

  lemma ReplacedRightChild(mem: Memory, mem': Memory, p: nat, par: Link, t: Tree, i: nat, x: nat, r: nat, c: Tree)
    requires Rep(mem, p, par, t, i) && t.Node? && Distinct(t) && p in mem && mem[p].right == x && mem[p].left != x
    requires t.right.Node?
    requires Replaced(mem, mem', Addrs(t) - Addrs(t.right), At(p), x, r) && Rep(mem', r, At(p), c, i)
    ensures Rep(mem', p, par, t.(right := c), i)
  {
    hide Rep, RingOk, Distinct, Addrs, Replaced, NoDup;
    RepRing(mem, p, par, t, i);
    RepFirst(mem, p, par, t, i);
    DistinctParts(t);
    ReplacedSame(mem, mem', Addrs(t) - Addrs(t.right), Addrs(t.left), At(p), x, r);
    RepFrame(mem, mem', mem[p].left, At(p), t.left, i);
    ReplacedRing(mem, mem', t, i, p, x, r);
    RepMade(mem', p, par, t.(right := c), i);
  }

  lemma OtherSide(mem: Memory, p: nat, par: Link, t: Tree, i: nat, x: nat)
    requires Rep(mem, p, par, t, i) && t.Node? && Distinct(t) && x in Addrs(t.right)
    ensures p in mem && mem[p].left != x
  {
    hide RingOk, Rep;
    RepRing(mem, p, par, t, i);
    RepDomain(mem, p, par, t, i);
    RepPointer(mem, mem[p].left, At(p), t.left, i);
  }

  /** The whole trie, once the node of size s has been replaced in its place. */
  lemma {:induction false} ContextRep(mem: Memory, mem': Memory, p: nat, par: Link, t: Tree, i: nat, lo: nat, b: nat,
                                      s: nat, k: nat, r: nat)
    requires Rep(mem, p, par, t, i) && Ordered(t, lo, b) && Distinct(t) && HasSize(t, s)
    requires var n := NodeOf(t, s);
             var x := Head(n);
             && x in mem && Rep(mem', r, mem[x].parent, RemoveRoot(n, k), i)
             && Replaced(mem, mem', Addrs(t) - Addrs(n), mem[x].parent, x, r)
    ensures Rep(mem', if t.size == s then r else p, par, Remove(t, lo, b, s, k), i)
    decreases t
  {
    hide Pow2, Ordered, WayOf, Rep, Distinct, RingOk, Addrs, Remove, RemoveRoot, NodeOf, Replaced, HasSize, Same;
    SizeMeansNode(t, s);
    RepRing(mem, p, par, t, i);
    DistinctParts(t);
    NodePlace(mem, p, par, t, i, s);
    WalkHere(t, lo, b, s);
    var n := NodeOf(t, s);
    var x := Head(n);
    var w := WayOf(t, lo, b, s);
    if w.Left? {
      WalkLeft(t, lo, b, s);
      RemoveLeft(t, lo, b, s, k);
      NodeOfLeft(t, s);
      NodePlace(mem, mem[p].left, At(p), t.left, i, s);
      ReplacedPart(mem, mem', Addrs(t) - Addrs(n), Addrs(t.left) - Addrs(n), mem[x].parent, x, r);
      ContextRep(mem, mem', mem[p].left, At(p), t.left, i, lo, b - 1, s, k, r);
      SizeMeansNode(t.left, s);
      if t.left.size == s {
        ReplacedLeftChild(mem, mem', p, par, t, i, x, r, Remove(t.left, lo, b - 1, s, k));
      } else {
        ReplacedSame(mem, mem', Addrs(t) - Addrs(n), RingSet(t.ring) + Addrs(t.right), mem[x].parent, x, r);
        LeftChanged(mem, mem', p, par, t, i, Remove(t.left, lo, b - 1, s, k));
      }
    } else if w.Right? {
      WalkRight(t, lo, b, s);
      RemoveRight(t, lo, b, s, k);
      NodeOfRight(t, s);
      NodePlace(mem, mem[p].right, At(p), t.right, i, s);
      ReplacedPart(mem, mem', Addrs(t) - Addrs(n), Addrs(t.right) - Addrs(n), mem[x].parent, x, r);
      ContextRep(mem, mem', mem[p].right, At(p), t.right, i, lo + Pow2(b - 1), b - 1, s, k, r);
      SizeMeansNode(t.right, s);
      if t.right.size == s {
        OtherSide(mem, p, par, t, i, x);
        ReplacedRightChild(mem, mem', p, par, t, i, x, r, Remove(t.right, lo + Pow2(b - 1), b - 1, s, k));
      } else {
        ReplacedSame(mem, mem', Addrs(t) - Addrs(n), RingSet(t.ring) + Addrs(t.left), mem[x].parent, x, r);
        RightChanged(mem, mem', p, par, t, i, Remove(t.right, lo + Pow2(b - 1), b - 1, s, k));
      }
    } else if w.End? {
      WalkEnd(t, lo, b, s);
    } else {
      RemoveHere(t, lo, b, s, k);
    }
  }

  // ----- taking x off, before its parent is told -----

  lemma {:induction false} SlotStays(t: Tree)
    requires t.Node? && !IsLeaf(t) && OneRing(t)
    ensures Slot(t).0 in Addrs(Pluck(t).1)
    decreases t
  {
    assert t.ring[0] in RingSet(t.ring);
    if t.right.Node? {
      if !IsLeaf(t.right) { SlotStays(t.right); }
    } else {
      if !IsLeaf(t.left) { SlotStays(t.left); }
    }
  }

  /** No ring is empty. */
  predicate OneRing(t: Tree)
  {
    t.Node? ==> t.ring != [] && OneRing(t.left) && OneRing(t.right)
  }

  lemma {:induction false} RepOneRing(mem: Memory, p: nat, par: Link, t: Tree, i: nat)
    requires Rep(mem, p, par, t, i)
    ensures OneRing(t)
    decreases t
  {
    if t.Node? {
      RepOneRing(mem, mem[p].left, At(p), t.left, i);
      RepOneRing(mem, mem[p].right, At(p), t.right, i);
    }
  }

  lemma DropParts(t: Tree)
    requires t.Node? && !IsLeaf(t)
    ensures var (leaf, rest) := Pluck(t);
            DropRoot(t) == Node(leaf.size, leaf.ring, rest.left, rest.right) && rest.Node? && rest.ring == t.ring &&
              rest.size == t.size
  {
  }

  /** A leaf from below replaces a node that was alone of its size. */
  lemma LeafReady(mem: Memory, x: nat, par: Link, t: Tree, i: nat)
    requires Rep(mem, x, par, t, i) && Distinct(t) && t.Node? && |t.ring| == 1 && !IsLeaf(t)
    ensures Slot(t).0 in mem && Slot(t).0 in Addrs(t) && DropRoot(t).Node? && DropRoot(t).ring != []
    ensures Ready(ClearSlot(mem, Slot(t).0, Slot(t).1), x, DropRoot(t).ring[0], DropRoot(t), i)
    ensures Addrs(DropRoot(t)) == Addrs(t) - {x} && x in mem
  {
    hide Rep, RingOk, ClearSlot, Pluck, DropRoot, IsLeaf, Slot;
    SlotInside(mem, x, par, t, i);
    SlotCleared(mem, x, par, t, i);
    PluckedLeaf(mem, x, par, t, i);
    PluckAddrs(t);
    RepOneRing(mem, x, par, t, i);
    RepRing(mem, x, par, t, i);
    SlotStays(t);
    DropParts(t);
    RepFirst(mem, x, par, t, i);
    var (leaf, rest) := Pluck(t);
    var m := ClearSlot(mem, Slot(t).0, Slot(t).1);
    RepRing(m, x, par, rest, i);
    LeafDomain(mem, x, par, t, i);
    ClearFrame(mem, Slot(t).0, Slot(t).1, RingSet(leaf.ring));
    RingFrame(mem, m, leaf.ring, leaf.size, i);
    LoneRing(t.ring, x);
    ReadyMade(mem, m, x, t, leaf, rest, i);
  }

  lemma LoneRing(ring: seq<nat>, x: nat)
    requires |ring| == 1 && ring[0] == x
    ensures RingSet(ring) == {x}
  {
  }

  lemma LeafDomain(mem: Memory, x: nat, par: Link, t: Tree, i: nat)
    requires Rep(mem, x, par, t, i) && t.Node? && Distinct(t)
    ensures forall a: nat :: a in RingSet(Pluck(t).0.ring) ==> a in mem
  {
    hide Rep, Pluck, RingSet, Distinct;
    RepDomain(mem, x, par, t, i);
    PluckAddrs(t);
  }

  lemma ReadyMade(mem: Memory, m: Memory, x: nat, t: Tree, leaf: Tree, rest: Tree, i: nat)
    requires t.Node? && leaf.Node? && rest.Node? && rest.ring == t.ring && RingSet(t.ring) == {x} && x in m
    requires Addrs(t) == Addrs(rest) + RingSet(leaf.ring) && Addrs(rest) !! RingSet(leaf.ring) && Distinct(rest)
    requires NoDup(leaf.ring)
    requires leaf.ring != [] && leaf.ring[0] in mem && mem[leaf.ring[0]].left == 0 && mem[leaf.ring[0]].right == 0
    requires RingOk(m, leaf.ring, leaf.size, i) && Same(mem, m, RingSet(leaf.ring))
    requires Rep(m, m[x].left, At(x), rest.left, i) && Rep(m, m[x].right, At(x), rest.right, i)
    ensures Ready(m, x, leaf.ring[0], Node(leaf.size, leaf.ring, rest.left, rest.right), i)
    ensures Addrs(Node(leaf.size, leaf.ring, rest.left, rest.right)) == Addrs(t) - {x}
  {
    hide Rep, RingOk, NoDup;
    assert leaf.ring[0] in RingSet(leaf.ring);
    DistinctParts(rest);
  }

  /** The next of the ring replaces its first. */
  lemma RingReady(mem: Memory, x: nat, par: Link, t: Tree, i: nat)
    requires Rep(mem, x, par, t, i) && Distinct(t) && t.Node? && 1 < |t.ring|
    ensures x in mem && mem[x].fd in mem && mem[x].bk in mem && mem[x].fd in Addrs(t) && mem[x].bk in Addrs(t)
    ensures Ready(Unring(mem, x), x, mem[x].bk, t.(ring := RingWithout(t.ring, 0)), i)
    ensures Addrs(t.(ring := RingWithout(t.ring, 0))) == Addrs(t) - {x}
  {
    hide Rep, RingOk, Unring, RingWithout, NoDup;
    RepRing(mem, x, par, t, i);
    RepFirst(mem, x, par, t, i);
    DistinctParts(t);
    RingHeadLeft(mem, t.ring, t.size, i);
    RingWithoutSet(t.ring, 0);
    RingSpot(mem, t.ring, t.size, i, 0);
    UnringFrame(mem, t.ring, t.size, i, 0, Addrs(t.left));
    UnringFrame(mem, t.ring, t.size, i, 0, Addrs(t.right));
    RepDomain(mem, x, par, t, i);
    var m := Unring(mem, x);
    RepFrame(mem, m, mem[x].left, At(x), t.left, i);
    RepFrame(mem, m, mem[x].right, At(x), t.right, i);
    UnringKeepsSelf(mem, t.ring, t.size, i);
    RingInDomain(m, RingWithout(t.ring, 0), t.size, i);
  }

  lemma UnringFrame(mem: Memory, ring: seq<nat>, size: nat, i: nat, k: nat, others: set<nat>)
    requires RingOk(mem, ring, size, i) && k < |ring| && others !! RingSet(ring)
    ensures ring[k] in mem && mem[ring[k]].fd in mem && mem[ring[k]].bk in mem
    ensures mem[ring[k]].fd in RingSet(ring) && mem[ring[k]].bk in RingSet(ring)
    ensures (forall a: nat :: a in others ==> a in mem) ==> Same(mem, Unring(mem, ring[k]), others)
  {
    RingSpot(mem, ring, size, i, k);
    RingSpot(mem, ring, size, i, Next(k, |ring|));
    RingSpot(mem, ring, size, i, Prev(k, |ring|));
  }

  lemma UnringKeepsSelf(mem: Memory, ring: seq<nat>, size: nat, i: nat)
    requires RingOk(mem, ring, size, i) && NoDup(ring) && 1 < |ring|
    ensures ring[0] in mem && mem[ring[0]].fd in mem && mem[ring[0]].bk in mem
    ensures ring[0] in Unring(mem, ring[0]) && Unring(mem, ring[0])[ring[0]] == mem[ring[0]]
  {
    RingSpot(mem, ring, size, i, 0);
    assert Next(0, |ring|) != 0 && Prev(0, |ring|) != 0;
  }
}
