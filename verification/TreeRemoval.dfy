/** Removing a chunk from its bin: the whole sequence of pointer updates against removal from the trie. */
module TreeRemoval {
  import opened TreeIndex
  import opened Trie
  import opened TreeMemory
  import opened TreeLinks
  import opened TreeUnlink

  // ----- the leaf that replaces a node -----

  /** The search for the replacing leaf: at r, hanging from the given child slot. */
  ghost predicate Seeking(m: Memory, i: nat, n: Tree, owner: nat, right: bool, r: nat, cur: Tree)
  {
    && cur.Node? && Rep(m, r, At(owner), cur, i) && n.Node? && !IsLeaf(n)
    && Slot(n) == (if IsLeaf(cur) then (owner, right) else Slot(cur)) && Pluck(n).0 == Pluck(cur).0
  }

  lemma SeekBegins(m: Memory, i: nat, x: nat, par: Link, n: Tree)
    requires Rep(m, x, par, n, i) && n.Node?
    ensures x in m
    ensures m[x].right != 0 ==> Seeking(m, i, n, x, true, m[x].right, n.right)
    ensures m[x].right == 0 && m[x].left != 0 ==> Seeking(m, i, n, x, false, m[x].left, n.left)
    ensures m[x].right == 0 && m[x].left == 0 <==> IsLeaf(n)
  {
    hide Rep, RingOk;
    RepRing(m, x, par, n, i);
    RepFirst(m, x, par, n, i);
    RepNode(m, x, par, n, i);
  }

  lemma SeekOn(m: Memory, i: nat, n: Tree, owner: nat, right: bool, r: nat, cur: Tree)
    requires Seeking(m, i, n, owner, right, r, cur)
    ensures r in m && cur.Node?
    ensures m[r].right != 0 ==> Seeking(m, i, n, r, true, m[r].right, cur.right) && cur.right < cur
    ensures m[r].right == 0 && m[r].left != 0 ==> Seeking(m, i, n, r, false, m[r].left, cur.left) && cur.left < cur
    ensures m[r].right == 0 && m[r].left == 0 ==> Slot(n) == (owner, right) && Head(Pluck(n).0) == r
  {
    hide RingOk;
    SeekBegins(m, i, r, At(owner), cur);
    RepRing(m, r, At(owner), cur, i);
    hide Rep;
  }

  /** Find the slot of the leaf that replaces the node at x. */
  method FindLeaf(m: Memory, x: nat, ghost i: nat, ghost par: Link, ghost n: Tree)
    returns (owner: nat, right: bool, r: nat)
    requires Rep(m, x, par, n, i) && n.Node? && !IsLeaf(n)
    ensures (owner, right) == Slot(n) && r == Head(Pluck(n).0)
  {
    hide *;
    SeekBegins(m, i, x, par, n);
    ghost var cur: Tree := if m[x].right != 0 then n.right else n.left;
    if m[x].right != 0 { owner, right, r := x, true, m[x].right; } else { owner, right, r := x, false, m[x].left; }
    SeekOn(m, i, n, owner, right, r, cur);
    while m[r].right != 0 || m[r].left != 0
      invariant Seeking(m, i, n, owner, right, r, cur) && r in m
      decreases cur
    {
      SeekOn(m, i, n, owner, right, r, cur);
      if m[r].right != 0 {
        cur := cur.right;
        owner, right, r := r, true, m[r].right;
      } else {
        cur := cur.left;
        owner, right, r := r, false, m[r].left;
      }
      SeekOn(m, i, n, owner, right, r, cur);
    }
    SeekOn(m, i, n, owner, right, r, cur);
  }

  // ----- a first chunk is taken off -----

  /** x is out of node n; r, or nothing, is there to take its place. */
  ghost predicate TakenOff(mem: Memory, mem1: Memory, x: nat, r: nat, n: Tree, n': Tree, i: nat)
  {
    && mem1.Keys == mem.Keys && x in mem && x in Addrs(n) && mem1[x].parent == mem[x].parent
    && mem1[x].index == mem[x].index
    && Same(mem, mem1, mem.Keys - Addrs(n))
    && Addrs(n') == Addrs(n) - {x} && Distinct(n') && (n'.Nil? <==> r == 0)
    && (n'.Node? ==> Ready(mem1, x, r, n', i))
  }

  lemma TakenOffKeeps(mem: Memory, mem1: Memory, x: nat, r: nat, n: Tree, n': Tree, i: nat)
    requires TakenOff(mem, mem1, x, r, n, n', i)
    ensures x in mem && x in mem1 && mem1[x].index == mem[x].index
  {
    hide Ready, Same, Distinct, Addrs;
  }

  lemma TakeRing(mem: Memory, x: nat, par: Link, n: Tree, i: nat)
    requires Rep(mem, x, par, n, i) && Distinct(n) && n.Node? && 1 < |n.ring|
    ensures x in mem && mem[x].fd in mem && mem[x].bk in mem
    ensures TakenOff(mem, Unring(mem, x), x, mem[x].bk, n, RemoveRoot(n, 0), i)
  {
    hide Rep, RingOk, Distinct, Unring, RingWithout, Addrs, Ready, Same;
    RingReady(mem, x, par, n, i);
    RepRing(mem, x, par, n, i);
    RepFirst(mem, x, par, n, i);
    DistinctParts(n);
    UnringFrame(mem, n.ring, n.size, i, 0, mem.Keys - Addrs(n));
    UnringDomain(mem, x);
    UnringKeepsSelf(mem, n.ring, n.size, i);
    ReadyDistinct(Unring(mem, x), x, mem[x].bk, n.(ring := RingWithout(n.ring, 0)), i);
    ReadyFacts(Unring(mem, x), x, mem[x].bk, n.(ring := RingWithout(n.ring, 0)), i);
  }

  lemma ReadyDistinct(mem: Memory, x: nat, r: nat, t: Tree, i: nat)
    requires Ready(mem, x, r, t, i)
    ensures Distinct(t)
  {
    hide Distinct, Rep, RingOk, Addrs;
  }

  lemma UnringDomain(mem: Memory, x: nat)
    requires x in mem && mem[x].fd in mem && mem[x].bk in mem
    ensures Unring(mem, x).Keys == mem.Keys
  {
  }

  lemma ClearDomain(mem: Memory, owner: nat, right: bool, x: nat)
    requires owner in mem && x in mem
    ensures ClearSlot(mem, owner, right).Keys == mem.Keys && ClearSlot(mem, owner, right)[x].parent == mem[x].parent
    ensures ClearSlot(mem, owner, right)[x].index == mem[x].index
  {
  }

  lemma TakeLeaf(mem: Memory, x: nat, par: Link, n: Tree, i: nat)
    requires Rep(mem, x, par, n, i) && Distinct(n) && n.Node? && |n.ring| == 1 && !IsLeaf(n)
    ensures Slot(n).0 in mem
    ensures TakenOff(mem, ClearSlot(mem, Slot(n).0, Slot(n).1), x, Head(Pluck(n).0), n, RemoveRoot(n, 0), i)
  {
    hide Rep, RingOk, Distinct, ClearSlot, Addrs, Ready, Same, Pluck, DropRoot, Slot, IsLeaf;
    LeafReady(mem, x, par, n, i);
    DropParts(n);
    RepFirst(mem, x, par, n, i);
    DistinctParts(n);
    ClearFrame(mem, Slot(n).0, Slot(n).1, mem.Keys - Addrs(n));
    ClearDomain(mem, Slot(n).0, Slot(n).1, x);
    ReadyDistinct(ClearSlot(mem, Slot(n).0, Slot(n).1), x, DropRoot(n).ring[0], DropRoot(n), i);
    ReadyFacts(ClearSlot(mem, Slot(n).0, Slot(n).1), x, DropRoot(n).ring[0], DropRoot(n), i);
  }

  lemma TakeLast(mem: Memory, x: nat, par: Link, n: Tree, i: nat)
    requires Rep(mem, x, par, n, i) && Distinct(n) && n.Node? && |n.ring| == 1 && IsLeaf(n)
    ensures TakenOff(mem, mem, x, 0, n, RemoveRoot(n, 0), i)
  {
    hide Rep, RingOk;
    RepRing(mem, x, par, n, i);
    RepFirst(mem, x, par, n, i);
    LoneRing(n.ring, x);
    assert Addrs(Nil) == {};
  }

  // ----- its parent and children are told -----

  function Rehang(mem: Memory, xp: Link, x: nat, r: nat): Memory
    requires xp.At? ==> xp.a in mem
  {
    if xp.At? then mem[xp.a := Rehung(mem[xp.a], x, r)] else mem
  }

  /** All that is done once x is off: its parent's child field, then the replacement's own links. */
  function Relink(mem: Memory, x: nat, r: nat, xp: Link): Memory
    requires xp.At? ==> xp.a in mem
    requires r != 0 ==>
             x in mem && r in mem && (mem[x].left == 0 || mem[x].left in mem) &&
               (mem[x].right == 0 || mem[x].right in mem)
    requires xp.At? ==> xp.a != x
  {
    var m := Rehang(mem, xp, x, r);
    if r == 0 then m else Adopt(m, x, r, xp)
  }

  lemma ReadyFrame(mem: Memory, mem': Memory, x: nat, r: nat, t: Tree, i: nat)
    requires Ready(mem, x, r, t, i) && Same(mem, mem', Addrs(t) + {x})
    ensures Ready(mem', x, r, t, i)
  {
    hide Rep, Ready, RingOk, Addrs, Distinct;
    ReadyFacts(mem, x, r, t, i);
    RingFrame(mem, mem', t.ring, t.size, i);
    RepFrame(mem, mem', mem[x].left, At(x), t.left, i);
    RepFrame(mem, mem', mem[x].right, At(x), t.right, i);
    ReadyDistinct(mem, x, r, t, i);
    ReadyIs(mem', x, r, t, i);
  }

  lemma ReadyDomain(mem: Memory, x: nat, r: nat, t: Tree, i: nat)
    requires Ready(mem, x, r, t, i)
    ensures forall a: nat :: a in Addrs(t) ==> a in mem
  {
    hide Rep, Ready, Distinct, Addrs;
    ReadyFacts(mem, x, r, t, i);
    RepDomain(mem, mem[x].left, At(x), t.left, i);
    RepDomain(mem, mem[x].right, At(x), t.right, i);
    forall a: nat | a in RingSet(t.ring) ensures a in mem {
      var k :| 0 <= k < |t.ring| && t.ring[k] == a;
      RingSpot(mem, t.ring, t.size, i, k);
    }
  }

  lemma ReadyIs(mem: Memory, x: nat, r: nat, t: Tree, i: nat)
    requires t.Node? && Distinct(t) && RingOk(mem, t.ring, t.size, i) && r == t.ring[0] && r in mem && x in mem
    requires mem[r].left == 0 && mem[r].right == 0 && x !in Addrs(t)
    requires Rep(mem, mem[x].left, At(x), t.left, i) && Rep(mem, mem[x].right, At(x), t.right, i)
    ensures Ready(mem, x, r, t, i)
  {
    hide Rep, RingOk, Addrs, Distinct;
  }

  /** What the updates after taking x off leave: the node without x in its place, its parent pointing to it,
      and everything else as it was. */
  lemma Relinked(mem: Memory, mem1: Memory, x: nat, r: nat, n: Tree, n': Tree, i: nat)
    requires TakenOff(mem, mem1, x, r, n, n', i)
    requires mem[x].parent.At? ==> mem[x].parent.a in mem && mem[x].parent.a !in Addrs(n)
    ensures var xp := mem[x].parent;
            && mem1[x].parent == xp && (xp.At? ==> xp.a in mem1 && xp.a != x) && (r != 0 ==> r in mem1)
            && (r != 0 ==> (mem1[x].left == 0 || mem1[x].left in mem1) && (mem1[x].right == 0 || mem1[x].right in mem1))
            && Rep(Relink(mem1, x, r, xp), r, xp, n', i)
            && Replaced(mem, Relink(mem1, x, r, xp), mem.Keys - Addrs(n), xp, x, r)
  {
    hide Rep, Ready, Distinct, Addrs, Adopt, RingOk;
    var xp := mem[x].parent;
    var m := Rehang(mem1, xp, x, r);
    if n'.Node? {
      ReadyFacts(mem1, x, r, n', i);
      ReadyDomain(mem1, x, r, n', i);
      assert Same(mem1, m, Addrs(n') + {x});
      ReadyFrame(mem1, m, x, r, n', i);
      AdoptRep(m, x, r, xp, n', i);
    } else {
      NilRep(m, xp, i);
    }
  }

  // ----- the trie afterwards -----

  lemma {:induction false} NodeInside(t: Tree, s: nat)
    requires HasSize(t, s)
    ensures NodeOf(t, s).Node? && NodeOf(t, s).size == s && Addrs(NodeOf(t, s)) <= Addrs(t)
    decreases t
  {
    if t.size != s {
      if HasSize(t.left, s) { NodeInside(t.left, s); } else { NodeInside(t.right, s); }
    }
  }

  lemma RemovedLeft(t: Tree, l: Tree, x: nat)
    requires t.Node? && Distinct(t) && x in Addrs(t.left) && Addrs(l) == Addrs(t.left) - {x} && Distinct(l)
    ensures Addrs(t.(left := l)) == Addrs(t) - {x} && Distinct(t.(left := l))
  {
    hide RingSet, NoDup;
  }

  lemma RemovedRight(t: Tree, r: Tree, x: nat)
    requires t.Node? && Distinct(t) && x in Addrs(t.right) && Addrs(r) == Addrs(t.right) - {x} && Distinct(r)
    ensures Addrs(t.(right := r)) == Addrs(t) - {x} && Distinct(t.(right := r))
  {
    hide RingSet, NoDup;
  }

  lemma {:induction false} RemoveAddrs(t: Tree, lo: nat, b: nat, s: nat, k: nat, x: nat)
    requires Ordered(t, lo, b) && Distinct(t) && HasSize(t, s) && x in Addrs(NodeOf(t, s))
    requires Addrs(RemoveRoot(NodeOf(t, s), k)) == Addrs(NodeOf(t, s)) - {x} && Distinct(RemoveRoot(NodeOf(t, s), k))
    ensures Addrs(Remove(t, lo, b, s, k)) == Addrs(t) - {x} && Distinct(Remove(t, lo, b, s, k))
    ensures t.size != s ==> Remove(t, lo, b, s, k).Node?
    decreases t
  {
    hide Pow2, Ordered, WayOf, Distinct, Addrs, Remove, RemoveRoot, NodeOf, HasSize;
    SizeMeansNode(t, s);
    DistinctParts(t);
    WalkHere(t, lo, b, s);
    var w := WayOf(t, lo, b, s);
    if w.Left? {
      WalkLeft(t, lo, b, s);
      RemoveLeft(t, lo, b, s, k);
      NodeOfLeft(t, s);
      NodeInside(t.left, s);
      RemoveAddrs(t.left, lo, b - 1, s, k, x);
      RemovedLeft(t, Remove(t.left, lo, b - 1, s, k), x);
    } else if w.Right? {
      WalkRight(t, lo, b, s);
      RemoveRight(t, lo, b, s, k);
      NodeOfRight(t, s);
      NodeInside(t.right, s);
      RemoveAddrs(t.right, lo + Pow2(b - 1), b - 1, s, k, x);
      RemovedRight(t, Remove(t.right, lo + Pow2(b - 1), b - 1, s, k), x);
    } else if w.End? {
      WalkEnd(t, lo, b, s);
    } else {
      RemoveHere(t, lo, b, s, k);
      NodeOfHere(t);
    }
  }

  // ----- the bin afterwards -----

  lemma BinParts(mem: Memory, p: nat, t: Tree, i: nat, marked: bool)
    requires i < NTREEBINS && BinOk(mem, p, t, i, marked)
    ensures Rep(mem, p, Root(i), t, i) && Ordered(t, Lo(i), FreeBits(i)) && Distinct(t)
  {
    hide Rep, Ordered, Distinct, Lo, FreeBits;
  }

  lemma BinMade(mem: Memory, p: nat, t: Tree, i: nat, mem': Memory, p': nat, t': Tree)
    requires i < NTREEBINS && BinOk(mem, p, t, i, true)
    requires Rep(mem', p', Root(i), t', i) && Ordered(t', Lo(i), FreeBits(i)) && Distinct(t')
    requires forall s: nat :: HasSize(t', s) ==> HasSize(t, s)
    ensures BinOk(mem', p', t', i, p' != 0)
  {
    hide Rep, Ordered, Distinct, Lo, FreeBits, ComputeTreeIndex, HasSize;
    RepNull(mem', p', Root(i), t', i);
  }

  /** The bin after the node of size s has been replaced in its place. */
  lemma NodeReplaced(mem: Memory, p: nat, t: Tree, i: nat, s: nat, k: nat, x: nat, mem': Memory, r: nat)
    requires i < NTREEBINS && BinOk(mem, p, t, i, true) && HasSize(t, s)
    requires var n := NodeOf(t, s);
             var h := Head(n);
             && h in mem && Rep(mem', r, mem[h].parent, RemoveRoot(n, k), i)
             && Replaced(mem, mem', Addrs(t) - Addrs(n), mem[h].parent, h, r)
             && x in Addrs(n) && Addrs(RemoveRoot(n, k)) == Addrs(n) - {x} && Distinct(RemoveRoot(n, k))
    ensures var t', p' := Remove(t, Lo(i), FreeBits(i), s, k), if t.size == s then r else p;
            BinOk(mem', p', t', i, p' != 0) && Addrs(t') == Addrs(t) - {x}
  {
    hide Rep, Ordered, Distinct, Lo, FreeBits, ComputeTreeIndex, Replaced, NodeOf, Remove, RemoveRoot, Addrs, Pow2,
      BinOk;
    BinParts(mem, p, t, i, true);
    var lo, b := Lo(i), FreeBits(i);
    ContextRep(mem, mem', p, Root(i), t, i, lo, b, s, k, r);
    RemoveAddrs(t, lo, b, s, k, x);
    RemoveKeepsOrder(t, lo, b, s, k);
    forall s': nat | HasSize(Remove(t, lo, b, s, k), s') ensures HasSize(t, s') { RemoveSizes(t, lo, b, s, k, s'); }
    BinMade(mem, p, t, i, mem', if t.size == s then r else p, Remove(t, lo, b, s, k));
  }

  /** Where the first chunk of its size hangs in the bin. */
  lemma HeadPlace(mem: Memory, p: nat, t: Tree, i: nat, s: nat)
    requires i < NTREEBINS && BinOk(mem, p, t, i, true) && HasSize(t, s)
    ensures var n, x := NodeOf(t, s), Head(NodeOf(t, s));
            && n.Node? && n.size == s && n.ring == RingOf(t, s) && Distinct(n) && Addrs(n) <= Addrs(t)
            && x in mem && x in Addrs(n) && Rep(mem, x, mem[x].parent, n, i)
            && (t.size == s ==> mem[x].parent == Root(i) && x == p)
            && (t.size != s ==>
                mem[x].parent.At? && mem[x].parent.a in Addrs(t) - Addrs(n) && mem[x].parent.a in mem && x != p)
  {
    hide Rep, Ordered, Distinct, Lo, FreeBits, NodeOf, Addrs, BinOk, RingOf, HasSize;
    BinParts(mem, p, t, i, true);
    NodePlace(mem, p, Root(i), t, i, s);
    RepDomain(mem, p, Root(i), t, i);
    SizeMeansNode(t, s);
    RepRing(mem, p, Root(i), t, i);
  }

  /** Taking off a chunk that is first of its size. */
  lemma HeadRemoved(mem: Memory, p: nat, t: Tree, i: nat, s: nat, mem1: Memory, r: nat)
    requires i < NTREEBINS && BinOk(mem, p, t, i, true) && HasSize(t, s)
    requires TakenOff(mem, mem1, Head(NodeOf(t, s)), r, NodeOf(t, s), RemoveRoot(NodeOf(t, s), 0), i)
    ensures var x := Head(NodeOf(t, s));
            && x in mem && x in mem1 && mem1[x].parent == mem[x].parent
            && var xp, t', p' := mem[x].parent, Remove(t, Lo(i), FreeBits(i), s, 0), if x == p then r else p;
               && (xp.At? ==> xp.a in mem1 && xp.a != x) && (r != 0 ==> r in mem1)
               && (r != 0 ==>
                   (mem1[x].left == 0 || mem1[x].left in mem1) && (mem1[x].right == 0 || mem1[x].right in mem1))
               && BinOk(Relink(mem1, x, r, xp), p', t', i, p' != 0) && Addrs(t') == Addrs(t) - {x}
               && Same(mem, Relink(mem1, x, r, xp), mem.Keys - Addrs(t))
  {
    hide Rep, BinOk, NodeOf, Remove, RemoveRoot, Addrs, Lo, FreeBits, Relink, Ready, RingOf, HasSize;
    var n, x := NodeOf(t, s), Head(NodeOf(t, s));
    HeadPlace(mem, p, t, i, s);
    Relinked(mem, mem1, x, r, n, RemoveRoot(n, 0), i);
    var mem' := Relink(mem1, x, r, mem[x].parent);
    BinParts(mem, p, t, i, true);
    RepDomain(mem, p, Root(i), t, i);
    ReplacedPart(mem, mem', mem.Keys - Addrs(n), Addrs(t) - Addrs(n), mem[x].parent, x, r);
    ReplacedSame(mem, mem', mem.Keys - Addrs(n), mem.Keys - Addrs(t), mem[x].parent, x, r);
    NodeReplaced(mem, p, t, i, s, 0, x, mem', r);
  }

  // ----- a chunk that is not first of its size -----

  /** The node's parent has it as a child. */
  lemma {:induction false} ParentPoints(mem: Memory, p: nat, par: Link, t: Tree, i: nat, s: nat)
    requires Rep(mem, p, par, t, i) && Distinct(t) && HasSize(t, s) && t.size != s
    ensures var h := Head(NodeOf(t, s));
            h in mem && mem[h].parent.At? && mem[h].parent.a in mem &&
            (mem[mem[h].parent.a].left == h || mem[mem[h].parent.a].right == h)
    decreases t
  {
    hide Rep, RingOk, Distinct, Addrs, NodeOf, RingOf, HasSize;
    SizeMeansNode(t, s);
    RepRing(mem, p, par, t, i);
    DistinctParts(t);
    ChildHasSize(t, s);
    if HasSize(t.left, s) {
      NodeOfLeft(t, s);
      SizeMeansNode(t.left, s);
      RepRing(mem, mem[p].left, At(p), t.left, i);
      if t.left.size == s { NodeOfHere(t.left); } else { ParentPoints(mem, mem[p].left, At(p), t.left, i, s); }
    } else {
      NodeOfRight(t, s);
      SizeMeansNode(t.right, s);
      RepRing(mem, mem[p].right, At(p), t.right, i);
      if t.right.size == s { NodeOfHere(t.right); } else { ParentPoints(mem, mem[p].right, At(p), t.right, i, s); }
    }
  }

  lemma ChildHasSize(t: Tree, s: nat)
    requires HasSize(t, s)
    ensures t.Node? && (t.size == s || HasSize(t.left, s) || HasSize(t.right, s))
  {
  }

  lemma ReplacedNothing(mem: Memory, mem': Memory, around: set<nat>, xp: Link, h: nat)
    requires Same(mem, mem', around)
    requires xp.At? && xp.a in around ==> xp.a in mem && (mem[xp.a].left == h || mem[xp.a].right == h)
    ensures Replaced(mem, mem', around, xp, h, h)
  {
  }

  /** The node itself after a later chunk of its ring is gone. */
  lemma NodeThinned(mem: Memory, h: nat, par: Link, n: Tree, i: nat, k: nat)
    requires Rep(mem, h, par, n, i) && n.Node? && Distinct(n) && 0 < k < |n.ring|
    ensures var x := n.ring[k];
            && x in mem && mem[x].fd in mem && mem[x].bk in mem && x in Addrs(n) && mem[x].parent == NoParent
            && x != h && mem[x].bk != x
            && Rep(Unring(mem, x), h, par, RemoveRoot(n, k), i) && Same(mem, Unring(mem, x), mem.Keys - Addrs(n))
            && Addrs(RemoveRoot(n, k)) == Addrs(n) - {x} && Distinct(RemoveRoot(n, k))
  {
    hide Rep, RingOk, Unring, RingWithout, NoDup, Same;
    RepRing(mem, h, par, n, i);
    RepFirst(mem, h, par, n, i);
    DistinctParts(n);
    RingLeft(mem, n.ring, n.size, i, k);
    RingWithoutSet(n.ring, k);
    RingSpot(mem, n.ring, n.size, i, k);
    LaterChunk(mem, n.ring, n.size, i, k);
    UnringFrame(mem, n.ring, n.size, i, k, mem.Keys - Addrs(n));
    RepDomain(mem, h, par, n, i);
    UnringFrame(mem, n.ring, n.size, i, k, Addrs(n.left));
    UnringFrame(mem, n.ring, n.size, i, k, Addrs(n.right));
    var m := Unring(mem, n.ring[k]);
    RepFrame(mem, m, mem[h].left, At(h), n.left, i);
    RepFrame(mem, m, mem[h].right, At(h), n.right, i);
    RingWithoutFirst(n.ring, k);
    RepMade(m, h, par, n.(ring := RingWithout(n.ring, k)), i);
  }

  lemma RingWithoutFirst(ring: seq<nat>, k: nat)
    requires 0 < k < |ring|
    ensures RingWithout(ring, k)[0] == ring[0]
  {
  }

  lemma LaterChunk(mem: Memory, ring: seq<nat>, size: nat, i: nat, k: nat)
    requires RingOk(mem, ring, size, i) && NoDup(ring) && 0 < k < |ring|
    ensures ring[k] in mem && mem[ring[k]].bk != ring[k] && ring[k] != ring[0]
  {
    RingSpot(mem, ring, size, i, k);
  }

  lemma LaterRemoved(mem: Memory, p: nat, t: Tree, i: nat, s: nat, k: nat)
    requires i < NTREEBINS && BinOk(mem, p, t, i, true) && HasSize(t, s) && 0 < k < |RingOf(t, s)|
    ensures var x := RingOf(t, s)[k];
            && x in mem && mem[x].fd in mem && mem[x].bk in mem && mem[x].parent == NoParent && mem[x].bk != x
            && var t' := Remove(t, Lo(i), FreeBits(i), s, k);
               && BinOk(Unring(mem, x), p, t', i, p != 0) && Addrs(t') == Addrs(t) - {x}
               && Same(mem, Unring(mem, x), mem.Keys - Addrs(t))
  {
    hide Rep, BinOk, NodeOf, Remove, RemoveRoot, Addrs, Lo, FreeBits, Unring, RingOf, HasSize, Replaced, Distinct;
    var n, h := NodeOf(t, s), Head(NodeOf(t, s));
    HeadPlace(mem, p, t, i, s);
    NodeThinned(mem, h, mem[h].parent, n, i, k);
    BinParts(mem, p, t, i, true);
    RepDomain(mem, p, Root(i), t, i);
    SizeMeansNode(t, s);
    if t.size != s { ParentPoints(mem, p, Root(i), t, i, s); }
    var x := RingOf(t, s)[k];
    ReplacedNothing(mem, Unring(mem, x), Addrs(t) - Addrs(n), mem[h].parent, h);
    NodeReplaced(mem, p, t, i, s, k, x, Unring(mem, x), h);
  }
}
