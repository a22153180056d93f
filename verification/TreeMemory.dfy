/** The tree bins of the heap as they lie in memory: chunk headers linked by addresses, 32 roots and a
    bitmap of the non-empty ones.  The loops over links are proved against the tries of module Trie. */
module TreeMemory {
  import opened TreeIndex
  import opened Trie

  /** Where a chunk's parent field points: to nothing, to a root slot, or to another chunk. */
  datatype Link = NoParent | Root(i: nat) | At(a: nat)

  /** The header of a free large chunk; address 0 is the null pointer. */
  datatype Chunk = Chunk(size: nat, index: nat, fd: nat, bk: nat, left: nat, right: nat, parent: Link)

  type Memory = map<nat, Chunk>

  // ----- memory and tries -----

  function Next(k: nat, n: nat): nat { if k + 1 == n then 0 else k + 1 }

  function Prev(k: nat, n: nat): nat
    requires 0 < n
  {
    if k == 0 then n - 1 else k - 1
  }

  /** The k-th chunk of a ring: doubly linked with its neighbours, and no links into the trie unless it is
      the first. */
  ghost predicate RingAt(mem: Memory, ring: seq<nat>, size: nat, i: nat, k: nat)
    requires k < |ring|
  {
    && ring[k] != 0 && ring[k] in mem
    && var c := mem[ring[k]];
       && c.size == size && c.index == i
       && c.fd == ring[Next(k, |ring|)] && c.bk == ring[Prev(k, |ring|)]
       && (0 < k ==> c.parent == NoParent && c.left == 0 && c.right == 0)
  }

  ghost predicate RingOk(mem: Memory, ring: seq<nat>, size: nat, i: nat)
  {
    ring != [] && forall k: nat :: k < |ring| ==> RingAt(mem, ring, size, i, k)
  }

  /** Pointer p, whose target's parent field is par, stands for trie t of bin i. */
  ghost predicate Rep(mem: Memory, p: nat, par: Link, t: Tree, i: nat)
    decreases t
  {
    if t.Nil? then p == 0
    else
      && RingOk(mem, t.ring, t.size, i) && p == t.ring[0] && p in mem && mem[p].parent == par
      && Rep(mem, mem[p].left, At(p), t.left, i) && Rep(mem, mem[p].right, At(p), t.right, i)
  }

  function RingSet(ring: seq<nat>): set<nat>
  {
    set k | 0 <= k < |ring| :: ring[k]
  }

  function Addrs(t: Tree): set<nat>
  {
    if t.Nil? then {} else RingSet(t.ring) + Addrs(t.left) + Addrs(t.right)
  }

  predicate NoDup(ring: seq<nat>)
  {
    forall k, l :: 0 <= k < l < |ring| ==> ring[k] != ring[l]
  }

  /** Every address occurs once. */
  ghost predicate Distinct(t: Tree)
  {
    t.Node? ==>
      && NoDup(t.ring) && Distinct(t.left) && Distinct(t.right)
      && RingSet(t.ring) !! Addrs(t.left) && RingSet(t.ring) !! Addrs(t.right) && Addrs(t.left) !! Addrs(t.right)
  }

  lemma RepNode(mem: Memory, p: nat, par: Link, t: Tree, i: nat)
    requires Rep(mem, p, par, t, i) && p != 0
    ensures t.Node? && p in mem && p in Addrs(t) && t.ring != [] && t.ring[0] == p && mem[p].size == t.size
    ensures mem[p].parent == par && mem[p].index == i && RingOk(mem, t.ring, t.size, i)
    ensures Rep(mem, mem[p].left, At(p), t.left, i) && Rep(mem, mem[p].right, At(p), t.right, i)
    ensures mem[p].left == 0 <==> t.left.Nil?
    ensures mem[p].right == 0 <==> t.right.Nil?
  {
    assert RingAt(mem, t.ring, t.size, i, 0);
    RepNull(mem, mem[p].left, At(p), t.left, i);
    RepNull(mem, mem[p].right, At(p), t.right, i);
  }

  lemma RepNull(mem: Memory, p: nat, par: Link, t: Tree, i: nat)
    requires Rep(mem, p, par, t, i)
    ensures p == 0 <==> t.Nil?
  {
    if t.Node? { assert RingAt(mem, t.ring, t.size, i, 0); }
  }

  // ----- remainders, in 64-bit arithmetic -----

  const WORD: nat := 0x1_0000_0000_0000_0000

  function Wrap(x: int): nat
  {
    x % WORD
  }

  /** The remainder comparison picks exactly the fitting chunks that beat the best so far. */
  lemma RemainderBelow(size: nat, nb: nat, rsize: nat, found: bool, best: nat)
    requires size < SIZE_LIMIT && 0 < nb < SIZE_LIMIT
    requires if found then nb <= best < SIZE_LIMIT && rsize == best - nb else rsize == Wrap(0 - nb)
    ensures Wrap(size - nb) < rsize <==> nb <= size && (!found || size < best)
    ensures nb <= size ==> Wrap(size - nb) == size - nb
  {
  }

  // ----- choosing a chunk -----

  /** s is in the trie at t, or beyond every size there. */
  ghost predicate Beyond(t: Tree, s: nat)
  {
    t.Node? && (HasSize(t, s) || forall s': nat :: HasSize(t, s') ==> s' < s)
  }

  /** A size that may still be the least fit: not better than the best found, or still to be met. */
  ghost predicate Pending(s: nat, found: bool, best: nat, cur: Tree, rest: Tree)
  {
    (found && best <= s) || HasSize(cur, s) || Beyond(rest, s)
  }

  /** The walk's view of the trie: everything that fits is pending. */
  ghost predicate Covered(root: Tree, nb: nat, found: bool, best: nat, cur: Tree, rest: Tree)
  {
    forall s: nat :: HasSize(root, s) && nb <= s ==> Pending(s, found, best, cur, rest)
  }

  /** All sizes at t exceed the bound. */
  ghost predicate AllAbove(t: Tree, bound: nat)
  {
    forall s: nat :: HasSize(t, s) ==> bound <= s
  }

  ghost predicate Within(t: Tree, root: Tree)
  {
    (forall s: nat :: HasSize(t, s) ==> HasSize(root, s)) && Addrs(t) <= Addrs(root)
  }

  ghost predicate Limited(root: Tree)
  {
    forall s: nat :: HasSize(root, s) ==> s < SIZE_LIMIT
  }

  /** What fits is no better than the best found, or below this node, or in the subtree set aside. */
  ghost predicate Below(root: Tree, nb: nat, found: bool, best: nat, cur: Tree, rest: Tree)
    requires cur.Node?
  {
    forall s: nat :: HasSize(root, s) && nb <= s ==>
      (found && best <= s) || HasSize(cur.left, s) || HasSize(cur.right, s) || Beyond(rest, s)
  }

  lemma NodeVisited(root: Tree, nb: nat, found: bool, best: nat, cur: Tree, rest: Tree, found': bool, best': nat)
    requires cur.Node? && Covered(root, nb, found, best, cur, rest)
    requires found ==> found' && best' <= best
    requires nb <= cur.size ==> found' && best' <= cur.size
    ensures Below(root, nb, found', best', cur, rest)
  {
    forall s: nat | HasSize(root, s) && nb <= s
      ensures (found' && best' <= s) || HasSize(cur.left, s) || HasSize(cur.right, s) || Beyond(rest, s)
    {
      assert Pending(s, found, best, cur, rest);
    }
  }

  /** Turning left at a node: the right subtree becomes the nearest one set aside. */
  lemma TurnLeft(root: Tree, nb: nat, found: bool, best: nat, cur: Tree, rest: Tree, lo: nat, b: nat)
    requires cur.Node? && Ordered(cur, lo, b) && b > 0 && AllAbove(rest, lo + Pow2(b))
    requires Below(root, nb, found, best, cur, rest)
    ensures Covered(root, nb, found, best, cur.left, if cur.right.Node? then cur.right else rest)
  {
    forall s: nat | HasSize(root, s) && nb <= s
      ensures Pending(s, found, best, cur.left, if cur.right.Node? then cur.right else rest)
    {
      if cur.right.Node? && Beyond(rest, s) { BeyondNearer(cur, rest, lo, b, s); }
    }
  }

  lemma BeyondNearer(cur: Tree, rest: Tree, lo: nat, b: nat, s: nat)
    requires cur.Node? && cur.right.Node? && Ordered(cur, lo, b) && b > 0 && AllAbove(rest, lo + Pow2(b))
    requires Beyond(rest, s)
    ensures Beyond(cur.right, s)
  {
    assert HasSize(rest, rest.size);
    forall s': nat | HasSize(cur.right, s') ensures s' < s {
      SizesWithin(cur, lo, b, s');
      assert s' < rest.size;
    }
  }

  /** Turning right: what is on the left is too small. */
  lemma TurnRight(root: Tree, nb: nat, found: bool, best: nat, cur: Tree, rest: Tree, lo: nat, b: nat)
    requires cur.Node? && Ordered(cur, lo, b) && b > 0 && lo + Pow2(b - 1) <= nb
    requires Below(root, nb, found, best, cur, rest)
    ensures Covered(root, nb, found, best, cur.right, rest)
  {
    forall s: nat | HasSize(root, s) && nb <= s ensures Pending(s, found, best, cur.right, rest) {
      if HasSize(cur.left, s) { SizesWithin(cur.left, lo, b - 1, s); }
    }
  }

  /** Going down the leftmost path of t: what is set aside is larger than what is ahead. */
  lemma GoLeftmost(t: Tree, lo: nat, b: nat, s: nat)
    requires t.Node? && Ordered(t, lo, b) && (t.left.Node? || t.right.Node?)
    requires Beyond(t, s) && s != t.size
    ensures b > 0 && Beyond(if t.left.Node? then t.left else t.right, s)
  {
    if t.left.Node? {
      if HasSize(t.left, s) {
      } else if HasSize(t.right, s) {
        forall s': nat | HasSize(t.left, s') ensures s' < s { LeftBelowRight(t, lo, b, s', s); }
        assert Beyond(t.left, s);
      } else {
        assert !HasSize(t, s);
        forall s': nat | HasSize(t.left, s') ensures s' < s { assert HasSize(t, s'); }
        assert Beyond(t.left, s);
      }
    } else {
      if HasSize(t.right, s) {
      } else {
        assert !HasSize(t.left, s);
        assert !HasSize(t, s);
        forall s': nat | HasSize(t.right, s') ensures s' < s { assert HasSize(t, s'); }
        assert Beyond(t.right, s);
      }
    }
  }

  /** A size that differs from a node's is told apart from it by a bit that is still free. */
  lemma InHalf(s: nat, lo: nat, b: nat, size: nat)
    requires lo <= s < lo + Pow2(b) && lo <= size < lo + Pow2(b) && s != size
    ensures b > 0
  {
    assert Pow2(0) == 1;
  }

  lemma AsideAbove(cur: Tree, rest: Tree, lo: nat, b: nat)
    requires cur.Node? && Ordered(cur, lo, b) && b > 0 && AllAbove(rest, lo + Pow2(b))
    ensures AllAbove(cur.right, lo + Pow2(b - 1)) && AllAbove(rest, lo + Pow2(b - 1))
  {
    forall s: nat | HasSize(cur.right, s) ensures lo + Pow2(b - 1) <= s {
      SizesWithin(cur.right, lo + Pow2(b - 1), b - 1, s);
    }
    assert Pow2(b) == 2 * Pow2(b - 1);
  }

  // ----- the walk to a size, step by step -----

  /** The current node of the walk, as a pointer and as a trie; the bits of the size still to be looked at. */
  datatype Spot = Spot(t: nat, par: Link, cur: Tree, lo: nat, b: nat, bits: nat)

  /** The deepest right subtree not taken. */
  datatype Aside = Aside(t: nat, par: Link, rest: Tree, lo: nat, b: nat)

  /** The best chunk so far, or 0, and its remainder. */
  datatype Best = Best(v: nat, size: nat, rsize: nat)

  ghost predicate BestOk(mem: Memory, root: Tree, nb: nat, x: Best)
  {
    if x.v == 0 then x.rsize == Wrap(0 - nb)
    else
      && x.v in mem && x.v in Addrs(root) && mem[x.v].size == x.size && nb <= x.size < SIZE_LIMIT
      && HasSize(root, x.size) && x.rsize == x.size - nb
  }

  ghost predicate AsideOk(mem: Memory, root: Tree, i: nat, y: Aside, bound: nat)
  {
    && Rep(mem, y.t, y.par, y.rest, i) && Ordered(y.rest, y.lo, y.b) && AllAbove(y.rest, bound) && Within(y.rest, root)
  }

  ghost predicate SpotOk(mem: Memory, root: Tree, i: nat, nb: nat, p: Spot)
  {
    && Rep(mem, p.t, p.par, p.cur, i) && Ordered(p.cur, p.lo, p.b)
    && Aligned(p.lo, p.b) && p.lo <= nb < p.lo + Pow2(p.b) && p.bits == SizeBits(nb, p.b)
    && Within(p.cur, root)
  }

  ghost predicate WalkOk(mem: Memory, root: Tree, i: nat, nb: nat, p: Spot, y: Aside, x: Best)
  {
    && 0 < nb < SIZE_LIMIT && Limited(root)
    && SpotOk(mem, root, i, nb, p) && AsideOk(mem, root, i, y, p.lo + Pow2(p.b)) && BestOk(mem, root, nb, x)
    && Covered(root, nb, x.v != 0, x.size, p.cur, y.rest)
  }

  /** The node at hand has been looked at; only its subtrees are pending. */
  ghost predicate Visited(mem: Memory, root: Tree, i: nat, nb: nat, p: Spot, y: Aside, x: Best)
  {
    && 0 < nb < SIZE_LIMIT && Limited(root)
    && p.cur.Node? && SpotOk(mem, root, i, nb, p) && AsideOk(mem, root, i, y, p.lo + Pow2(p.b))
    && BestOk(mem, root, nb, x)
    && (nb <= p.cur.size ==> x.v != 0 && x.size <= p.cur.size)
    && Below(root, nb, x.v != 0, x.size, p.cur, y.rest)
  }

  /** Compare the remainder at a chunk with the best so far. */
  function Visit(mem: Memory, nb: nat, t: nat, x: Best): Best
    requires t in mem
  {
    var trem := Wrap(mem[t].size - nb);
    if trem < x.rsize then Best(t, mem[t].size, trem) else x
  }

  lemma VisitStep(mem: Memory, root: Tree, i: nat, nb: nat, p: Spot, y: Aside, x: Best)
    requires WalkOk(mem, root, i, nb, p, y, x) && p.t != 0
    ensures p.t in mem && p.cur.Node? && mem[p.t].size == p.cur.size
    ensures Visited(mem, root, i, nb, p, y,
              if Wrap(mem[p.t].size - nb) < x.rsize then Best(p.t, mem[p.t].size, Wrap(mem[p.t].size - nb)) else x)
  {
    RepNode(mem, p.t, p.par, p.cur, i);
    assert HasSize(p.cur, p.cur.size);
    VisitBest(mem, root, nb, p.t, x);
    var x' := Visit(mem, nb, p.t, x);
    NodeVisited(root, nb, x.v != 0, x.size, p.cur, y.rest, x'.v != 0, x'.size);
    hide Rep, Ordered, Beyond, Pow2, Visit, BestOk, Aligned, SizeBits, Covered;
  }

  lemma VisitBest(mem: Memory, root: Tree, nb: nat, t: nat, x: Best)
    requires t != 0 && t in mem && t in Addrs(root) && mem[t].size < SIZE_LIMIT && HasSize(root, mem[t].size)
    requires 0 < nb < SIZE_LIMIT && BestOk(mem, root, nb, x)
    ensures var x' := Visit(mem, nb, t, x);
            && BestOk(mem, root, nb, x')
            && (x.v != 0 ==> x'.v != 0 && x'.size <= x.size)
            && (nb <= mem[t].size ==> x'.v != 0 && x'.size <= mem[t].size)
  {
    RemainderBelow(mem[t].size, nb, x.rsize, x.v != 0, x.size);
    hide HasSize;
  }

  function SpotLeft(mem: Memory, p: Spot): Spot
    requires p.t in mem && p.b > 0 && p.cur.Node?
  {
    Spot(mem[p.t].left, At(p.t), p.cur.left, p.lo, p.b - 1, Shl(p.bits))
  }

  function SpotRight(mem: Memory, p: Spot): Spot
    requires p.t in mem && p.b > 0 && p.cur.Node?
  {
    Spot(mem[p.t].right, At(p.t), p.cur.right, p.lo + Pow2(p.b - 1), p.b - 1, Shl(p.bits))
  }

  function AsideLeft(mem: Memory, p: Spot, y: Aside): Aside
    requires p.t in mem && p.b > 0 && p.cur.Node?
  {
    if mem[p.t].right != 0 then Aside(mem[p.t].right, At(p.t), p.cur.right, p.lo + Pow2(p.b - 1), p.b - 1) else y
  }

  lemma LeftSpot(mem: Memory, root: Tree, i: nat, nb: nat, p: Spot)
    requires SpotOk(mem, root, i, nb, p) && p.cur.Node? && p.t != 0 && p.t in mem && p.b > 0
    requires nb < p.lo + Pow2(p.b - 1)
    ensures SpotOk(mem, root, i, nb, SpotLeft(mem, p))
  {
    RepNode(mem, p.t, p.par, p.cur, i);
    SignBit(nb, p.lo, p.b);
    hide Rep, Pow2, Aligned, SizeBits, Shl;
  }

  lemma RightSpot(mem: Memory, root: Tree, i: nat, nb: nat, p: Spot)
    requires SpotOk(mem, root, i, nb, p) && p.cur.Node? && p.t != 0 && p.t in mem && p.b > 0
    requires p.lo + Pow2(p.b - 1) <= nb
    ensures SpotOk(mem, root, i, nb, SpotRight(mem, p))
  {
    RepNode(mem, p.t, p.par, p.cur, i);
    SignBit(nb, p.lo, p.b);
    hide Rep, Pow2, Aligned, SizeBits, Shl;
  }

  lemma LeftAside(mem: Memory, root: Tree, i: nat, nb: nat, p: Spot, y: Aside)
    requires p.cur.Node? && p.b > 0 && p.t != 0 && p.t in mem && SpotOk(mem, root, i, nb, p)
    requires AsideOk(mem, root, i, y, p.lo + Pow2(p.b))
    ensures AsideOk(mem, root, i, AsideLeft(mem, p, y), p.lo + Pow2(p.b - 1))
    ensures AsideLeft(mem, p, y).rest == if p.cur.right.Node? then p.cur.right else y.rest
  {
    RepNode(mem, p.t, p.par, p.cur, i);
    AsideAbove(p.cur, y.rest, p.lo, p.b);
    hide Rep, Pow2, AllAbove;
  }

  lemma RightAside(mem: Memory, root: Tree, i: nat, lo: nat, b: nat, y: Aside)
    requires AsideOk(mem, root, i, y, lo + Pow2(b)) && b > 0
    ensures AsideOk(mem, root, i, y, lo + Pow2(b - 1) + Pow2(b - 1))
  {
    HalfWidth(b);
    hide Rep, Pow2, Ordered, AllAbove, Within;
  }

  lemma SpotOrdered(mem: Memory, root: Tree, i: nat, nb: nat, p: Spot)
    requires SpotOk(mem, root, i, nb, p)
    ensures Ordered(p.cur, p.lo, p.b)
  {
  }

  lemma AsideBound(mem: Memory, root: Tree, i: nat, y: Aside, bound: nat)
    requires AsideOk(mem, root, i, y, bound)
    ensures AllAbove(y.rest, bound)
  {
  }

  lemma LeftStep(mem: Memory, root: Tree, i: nat, nb: nat, p: Spot, y: Aside, x: Best)
    requires Visited(mem, root, i, nb, p, y, x) && p.t != 0 && p.t in mem && p.b > 0 && nb < p.lo + Pow2(p.b - 1)
    ensures WalkOk(mem, root, i, nb, SpotLeft(mem, p), AsideLeft(mem, p, y), x)
  {
    hide SpotOk, AsideOk, BestOk, Covered, Ordered, Pow2, Below, Limited, AsideLeft, AllAbove;
    SpotOrdered(mem, root, i, nb, p);
    AsideBound(mem, root, i, y, p.lo + Pow2(p.b));
    LeftSpot(mem, root, i, nb, p);
    LeftAside(mem, root, i, nb, p, y);
    TurnLeft(root, nb, x.v != 0, x.size, p.cur, y.rest, p.lo, p.b);
  }

  lemma RightStep(mem: Memory, root: Tree, i: nat, nb: nat, p: Spot, y: Aside, x: Best)
    requires Visited(mem, root, i, nb, p, y, x) && p.t != 0 && p.t in mem && p.b > 0 && p.lo + Pow2(p.b - 1) <= nb
    ensures WalkOk(mem, root, i, nb, SpotRight(mem, p), y, x)
  {
    hide SpotOk, AsideOk, BestOk, Covered, Ordered, Pow2, Below, Limited;
    SpotOrdered(mem, root, i, nb, p);
    RightSpot(mem, root, i, nb, p);
    RightAside(mem, root, i, p.lo, p.b, y);
    TurnRight(root, nb, x.v != 0, x.size, p.cur, y.rest, p.lo, p.b);
  }

  lemma WalkOn(mem: Memory, root: Tree, i: nat, nb: nat, p: Spot, y: Aside, x: Best)
    requires Visited(mem, root, i, nb, p, y, x) && p.t != 0 && x.rsize != 0
    ensures p.t in mem && p.b > 0 && (TopBit(p.bits) == 0 <==> nb < p.lo + Pow2(p.b - 1))
  {
    RepNode(mem, p.t, p.par, p.cur, i);
    assert nb != p.cur.size;
    InHalf(nb, p.lo, p.b, p.cur.size);
    SignBit(nb, p.lo, p.b);
  }

  /** One turn of the walk: by the front bit of the size, left or right. */
  lemma Turn(mem: Memory, root: Tree, i: nat, nb: nat, p: Spot, y: Aside, x: Best) returns (p': Spot, y': Aside)
    requires Visited(mem, root, i, nb, p, y, x) && p.t != 0 && x.rsize != 0
    ensures p.t in mem && WalkOk(mem, root, i, nb, p', y', x) && p'.b < p.b && p'.bits == Shl(p.bits)
    ensures p'.t == if TopBit(p.bits) == 0 then mem[p.t].left else mem[p.t].right
    ensures y'.t == if TopBit(p.bits) == 0 && mem[p.t].right != 0 then mem[p.t].right else y.t
  {
    WalkOn(mem, root, i, nb, p, y, x);
    hide WalkOk, Visited, Pow2, Shl, TopBit;
    if TopBit(p.bits) == 0 {
      LeftStep(mem, root, i, nb, p, y, x);
      p', y' := SpotLeft(mem, p), AsideLeft(mem, p, y);
    } else {
      RightStep(mem, root, i, nb, p, y, x);
      p', y' := SpotRight(mem, p), y;
    }
  }

  /** Where the search goes on: at a subtree of larger sizes, or anywhere once the fit is exact. */
  ghost predicate GoesOn(mem: Memory, root: Tree, i: nat, nb: nat, y: Aside, x: Best)
  {
    if x.rsize == 0 then Rep(mem, y.t, y.par, y.rest, i) else AsideOk(mem, root, i, y, nb)
  }

  /** How the walk ends: everything that fits is no better than the best met, or is in the subtree set
      aside or beyond it. */
  ghost predicate Chosen(mem: Memory, root: Tree, i: nat, nb: nat, y: Aside, x: Best)
  {
    && Limited(root) && 0 < nb < SIZE_LIMIT && BestOk(mem, root, nb, x) && GoesOn(mem, root, i, nb, y, x)
    && forall s: nat :: HasSize(root, s) && nb <= s ==> (x.v != 0 && x.size <= s) || Beyond(y.rest, s)
  }

  lemma WalkDone(mem: Memory, root: Tree, i: nat, nb: nat, p: Spot, y: Aside, x: Best)
    requires WalkOk(mem, root, i, nb, p, y, x) && p.t == 0
    ensures Chosen(mem, root, i, nb, y, x)
  {
    RepNull(mem, p.t, p.par, p.cur, i);
    hide Rep, Ordered, Pow2, Beyond;
    forall s: nat | HasSize(root, s) && nb <= s ensures (x.v != 0 && x.size <= s) || Beyond(y.rest, s) {
      assert Pending(s, x.v != 0, x.size, p.cur, y.rest);
    }
  }

  lemma ExactFit(mem: Memory, root: Tree, i: nat, nb: nat, p: Spot, y: Aside, x: Best)
    requires Visited(mem, root, i, nb, p, y, x) && x.rsize == 0
    ensures Chosen(mem, root, i, nb, Aside(p.t, p.par, p.cur, p.lo, p.b), x)
  {
    hide Rep, Ordered, Pow2, Beyond;
  }

  lemma WalkBegins(mem: Memory, p: nat, root: Tree, i: nat, nb: nat, marked: bool)
    requires i < NTREEBINS && BinOk(mem, p, root, i, marked) && 0 < nb < SIZE_LIMIT && Lo(i) <= nb < Lo(i) + Width(i)
    ensures WalkOk(mem, root, i, nb, Spot(p, Root(i), root, Lo(i), FreeBits(i), SizeBits(nb, FreeBits(i))),
                   Aside(0, NoParent, Nil, 0, 0), Best(0, 0, Wrap(0 - nb)))
  {
    WalkStart(i);
    hide Lo, FreeBits, Width, Pow2, SizeBits;
  }

  /** Walk towards size nb from the root of bin i: the best chunk met, and the subtree to go on with. */
  method WalkToSize(m: Memory, root: nat, i: nat, nb: nat, ghost tree: Tree, ghost marked: bool)
    returns (t: nat, v: nat, rsize: nat, ghost y: Aside, ghost x: Best)
    requires i < NTREEBINS && BinOk(m, root, tree, i, marked) && root != 0 && 0 < nb < SIZE_LIMIT
    requires Lo(i) <= nb < Lo(i) + Width(i)
    ensures v == x.v && rsize == x.rsize && t == y.t && Chosen(m, tree, i, nb, y, x)
  {
    hide *;
    v, rsize, t := 0, Wrap(0 - nb), root;
    var rst, sizebits := 0, SizeBits(nb, FreeBits(i));
    ghost var p := Spot(t, Root(i), tree, Lo(i), FreeBits(i), sizebits);
    y, x := Aside(0, NoParent, Nil, 0, 0), Best(0, 0, rsize);
    WalkBegins(m, t, tree, i, nb, marked);
    while true
      invariant WalkOk(m, tree, i, nb, p, y, x) && t != 0 && t == p.t && sizebits == p.bits
      invariant v == x.v && rsize == x.rsize && rst == y.t
      decreases p.b
    {
      VisitStep(m, tree, i, nb, p, y, x);
      var trem := Wrap(m[t].size - nb);
      if trem < rsize { v, rsize, x := t, trem, Best(t, m[t].size, trem); }
      if rsize == 0 {
        ExactFit(m, tree, i, nb, p, y, x);
        y := Aside(p.t, p.par, p.cur, p.lo, p.b);
        break;
      }
      p, y := Turn(m, tree, i, nb, p, y, x);
      var rt := m[t].right;
      if TopBit(sizebits) == 0 {
        t := m[t].left;
        if rt != 0 { rst := rt; }
      } else {
        t := rt;
      }
      sizebits := Shl(sizebits);
      if t == 0 {
        WalkDone(m, tree, i, nb, p, y, x);
        t := rst;
        break;
      }
    }
  }

  // ----- the leftmost walk -----

  /** The walk stands at y; of what lies at rest or beyond it, everything that fits is pending. */
  ghost predicate Leftmost(mem: Memory, root: Tree, i: nat, nb: nat, rest: Tree, y: Aside, x: Best)
  {
    && 0 < nb < SIZE_LIMIT && Limited(root) && BestOk(mem, root, nb, x) && AsideOk(mem, root, i, y, nb)
    && forall s: nat :: nb <= s && Beyond(rest, s) ==> (x.v != 0 && x.size <= s) || Beyond(y.rest, s)
  }

  lemma VisitAside(mem: Memory, root: Tree, i: nat, nb: nat, y: Aside, x: Best)
    requires 0 < nb < SIZE_LIMIT && Limited(root) && BestOk(mem, root, nb, x) && AsideOk(mem, root, i, y, nb)
    requires y.t != 0
    ensures y.t in mem && y.rest.Node? && mem[y.t].size == y.rest.size
    ensures var x' := Visit(mem, nb, y.t, x);
            BestOk(mem, root, nb, x') && x'.v != 0 && x'.size <= y.rest.size && (x.v != 0 ==> x'.size <= x.size)
  {
    hide Pow2, Ordered, Visit, BestOk;
    RepNode(mem, y.t, y.par, y.rest, i);
    assert HasSize(y.rest, y.rest.size);
    VisitBest(mem, root, nb, y.t, x);
  }

  function LeftmostChild(mem: Memory, t: nat): nat
    requires t in mem
  {
    if mem[t].left != 0 then mem[t].left else mem[t].right
  }

  lemma LeftmostAside(mem: Memory, root: Tree, i: nat, nb: nat, y: Aside) returns (y': Aside)
    requires AsideOk(mem, root, i, y, nb) && y.t != 0
    ensures y.t in mem && y'.t == LeftmostChild(mem, y.t) && AsideOk(mem, root, i, y', nb)
    ensures y.rest.Node? && y'.rest == (if y.rest.left.Node? then y.rest.left else y.rest.right)
  {
    hide Pow2;
    RepNode(mem, y.t, y.par, y.rest, i);
    var t := y.rest;
    ChildrenWithin(t, root, nb);
    if t.left.Node? {
      y' := Aside(mem[y.t].left, At(y.t), t.left, y.lo, y.b - 1);
    } else if t.right.Node? {
      y' := Aside(mem[y.t].right, At(y.t), t.right, y.lo + Pow2(y.b - 1), y.b - 1);
    } else {
      y' := Aside(0, At(y.t), Nil, 0, 0);
    }
  }

  lemma ChildrenWithin(t: Tree, root: Tree, bound: nat)
    requires t.Node? && Within(t, root)
    ensures Within(t.left, root) && Within(t.right, root)
    ensures AllAbove(t, bound) ==> AllAbove(t.left, bound) && AllAbove(t.right, bound)
  {
    forall s: nat | HasSize(t.left, s) || HasSize(t.right, s) ensures HasSize(t, s) {}
  }

  lemma LeftmostStep(mem: Memory, root: Tree, i: nat, nb: nat, rest: Tree, y: Aside, x: Best, x': Best)
    returns (y': Aside)
    requires Leftmost(mem, root, i, nb, rest, y, x) && y.t != 0 && y.t in mem && x' == Visit(mem, nb, y.t, x)
    ensures y'.t == LeftmostChild(mem, y.t) && Leftmost(mem, root, i, nb, rest, y', x') && y'.rest < y.rest
  {
    hide Pow2, Ordered, Visit, BestOk, Beyond, AsideOk, HasSize;
    VisitAside(mem, root, i, nb, y, x);
    y' := LeftmostAside(mem, root, i, nb, y);
    forall s: nat | nb <= s && Beyond(rest, s) ensures (x'.v != 0 && x'.size <= s) || Beyond(y'.rest, s) {
      if Beyond(y.rest, s) { LeftmostBeyond(mem, root, i, nb, y, s); }
    }
  }

  lemma LeftmostBeyond(mem: Memory, root: Tree, i: nat, nb: nat, y: Aside, s: nat)
    requires AsideOk(mem, root, i, y, nb) && y.rest.Node? && Beyond(y.rest, s)
    ensures y.rest.size <= s || Beyond(if y.rest.left.Node? then y.rest.left else y.rest.right, s)
  {
    hide Pow2, Rep;
    assert HasSize(y.rest, y.rest.size);
    if y.rest.left.Node? || y.rest.right.Node? {
      if s != y.rest.size { GoLeftmost(y.rest, y.lo, y.b, s); }
    } else {
      assert !HasSize(y.rest.left, s) && !HasSize(y.rest.right, s);
    }
  }

  /** The leftmost walk, whether or not it can still find anything better. */
  ghost predicate Walks(mem: Memory, root: Tree, i: nat, nb: nat, rest: Tree, x0: Best, y: Aside, x: Best)
  {
    if x0.rsize == 0 then x == x0 && Rep(mem, y.t, y.par, y.rest, i) else Leftmost(mem, root, i, nb, rest, y, x)
  }

  lemma WalksOn(mem: Memory, root: Tree, i: nat, nb: nat, rest: Tree, x0: Best, y: Aside, x: Best) returns (y': Aside)
    requires Walks(mem, root, i, nb, rest, x0, y, x) && y.t != 0
    ensures y.t in mem && y'.t == LeftmostChild(mem, y.t) && y'.rest < y.rest
    ensures Walks(mem, root, i, nb, rest, x0, y', Visit(mem, nb, y.t, x))
    ensures x0.rsize != 0 && x.v != 0 ==> Visit(mem, nb, y.t, x).v != 0 && Visit(mem, nb, y.t, x).size <= x.size
  {
    hide Leftmost, Pow2, Ordered, BestOk, Visit;
    if x0.rsize == 0 {
      FruitlessVisit(mem, nb, y.t, y.par, y.rest, i, x);
      y' := LeftmostRep(mem, i, y);
    } else {
      LeftmostParts(mem, root, i, nb, rest, y, x);
      VisitAside(mem, root, i, nb, y, x);
      y' := LeftmostStep(mem, root, i, nb, rest, y, x, Visit(mem, nb, y.t, x));
    }
  }

  lemma FruitlessVisit(mem: Memory, nb: nat, t: nat, par: Link, rest: Tree, i: nat, x: Best)
    requires Rep(mem, t, par, rest, i) && t != 0 && x.rsize == 0
    ensures t in mem && Visit(mem, nb, t, x) == x
  {
    RepNode(mem, t, par, rest, i);
  }

  lemma LeftmostRep(mem: Memory, i: nat, y: Aside) returns (y': Aside)
    requires Rep(mem, y.t, y.par, y.rest, i) && y.t != 0
    ensures y.t in mem && y'.t == LeftmostChild(mem, y.t) && Rep(mem, y'.t, y'.par, y'.rest, i) && y'.rest < y.rest
  {
    RepNode(mem, y.t, y.par, y.rest, i);
    y' := if mem[y.t].left != 0 then Aside(mem[y.t].left, At(y.t), y.rest.left, 0, 0)
          else Aside(mem[y.t].right, At(y.t), y.rest.right, 0, 0);
    hide Rep;
  }

  lemma WalksEnd(mem: Memory, root: Tree, i: nat, nb: nat, rest: Tree, x0: Best, y: Aside, x: Best)
    requires Walks(mem, root, i, nb, rest, x0, y, x) && y.t == 0 && BestOk(mem, root, nb, x0)
    ensures BestOk(mem, root, nb, x) && (x0.rsize == 0 ==> x == x0)
    ensures x0.rsize != 0 ==> forall s: nat :: nb <= s && Beyond(rest, s) ==> x.v != 0 && x.size <= s
  {
    hide Leftmost, BestOk, Beyond, Rep;
    if x0.rsize != 0 { LeftmostEnds(mem, root, i, nb, rest, y, x); }
  }

  lemma WalksBegin(mem: Memory, root: Tree, i: nat, nb: nat, y: Aside, x: Best)
    requires 0 < nb < SIZE_LIMIT && Limited(root) && BestOk(mem, root, nb, x) && GoesOn(mem, root, i, nb, y, x)
    ensures Walks(mem, root, i, nb, y.rest, x, y, x)
  {
    hide Leftmost, BestOk, Rep, Limited, AsideOk;
    if x.rsize != 0 { LeftmostBegins(mem, root, i, nb, y, x); }
  }

  /** Go down the leftmost path from t, keeping the best fit. */
  method LeastFrom(m: Memory, start: nat, nb: nat, v0: nat, rsize0: nat, ghost root: Tree, ghost i: nat,
                   ghost y0: Aside, ghost x0: Best)
    returns (v: nat, rsize: nat, ghost x: Best)
    requires 0 < nb < SIZE_LIMIT && Limited(root) && BestOk(m, root, nb, x0) && GoesOn(m, root, i, nb, y0, x0)
    requires start == y0.t && v0 == x0.v && rsize0 == x0.rsize
    ensures v == x.v && rsize == x.rsize && BestOk(m, root, nb, x)
    ensures x0.v != 0 ==> x.v != 0 && x.size <= x0.size
    ensures x0.rsize != 0 ==> forall s: nat :: nb <= s && Beyond(y0.rest, s) ==> x.v != 0 && x.size <= s
  {
    hide *;
    var t := start;
    v, rsize := v0, rsize0;
    x := x0;
    ghost var y := y0;
    WalksBegin(m, root, i, nb, y, x);
    while t != 0
      invariant Walks(m, root, i, nb, y0.rest, x0, y, x) && t == y.t && v == x.v && rsize == x.rsize
      invariant x0.rsize == 0 ==> x == x0
      invariant x0.v != 0 ==> x.v != 0 && x.size <= x0.size
      decreases y.rest
    {
      ghost var y' := WalksOn(m, root, i, nb, y0.rest, x0, y, x);
      VisitIs(m, nb, t, x);
      var trem := Wrap(m[t].size - nb);
      if trem < rsize { rsize, v, x := trem, t, Best(t, m[t].size, trem); }
      t, y := LeftmostChild(m, t), y';
    }
    WalksEnd(m, root, i, nb, y0.rest, x0, y, x);
  }

  lemma VisitIs(mem: Memory, nb: nat, t: nat, x: Best)
    requires t in mem
    ensures Visit(mem, nb, t, x) ==
            if Wrap(mem[t].size - nb) < x.rsize then Best(t, mem[t].size, Wrap(mem[t].size - nb)) else x
  {
  }

  lemma LeftmostBegins(mem: Memory, root: Tree, i: nat, nb: nat, y: Aside, x: Best)
    requires 0 < nb < SIZE_LIMIT && Limited(root) && BestOk(mem, root, nb, x) && AsideOk(mem, root, i, y, nb)
    ensures Leftmost(mem, root, i, nb, y.rest, y, x)
  {
    hide BestOk, AsideOk, Beyond, Limited;
  }

  lemma LeftmostParts(mem: Memory, root: Tree, i: nat, nb: nat, rest: Tree, y: Aside, x: Best)
    requires Leftmost(mem, root, i, nb, rest, y, x)
    ensures 0 < nb < SIZE_LIMIT && Limited(root) && BestOk(mem, root, nb, x) && AsideOk(mem, root, i, y, nb)
  {
    hide BestOk, AsideOk, Beyond, Limited;
  }

  lemma LeftmostEnds(mem: Memory, root: Tree, i: nat, nb: nat, rest: Tree, y: Aside, x: Best)
    requires Leftmost(mem, root, i, nb, rest, y, x) && y.t == 0
    ensures BestOk(mem, root, nb, x)
    ensures forall s: nat :: nb <= s && Beyond(rest, s) ==> x.v != 0 && x.size <= s
  {
    hide Ordered, HasSize, Pow2, Limited, BestOk;
    RepNull(mem, y.t, y.par, y.rest, i);
  }

  // ----- the bins -----

  /** s is the size of some chunk in some bin. */
  ghost predicate Stored(trees: seq<Tree>, s: nat)
  {
    exists i :: 0 <= i < |trees| && HasSize(trees[i], s)
  }

  ghost predicate BinOk(mem: Memory, p: nat, t: Tree, i: nat, marked: bool)
    requires i < NTREEBINS
  {
    && Rep(mem, p, Root(i), t, i) && Ordered(t, Lo(i), FreeBits(i)) && Distinct(t)
    && (marked <==> t.Node?)
    && forall s: nat :: HasSize(t, s) ==> MIN_LARGE_SIZE <= s < SIZE_LIMIT && ComputeTreeIndex(s) == i
  }

  /** All the bins: each one in order, no chunk in two of them. */
  ghost predicate AllBins(mem: Memory, roots: seq<nat>, trees: seq<Tree>, treemap: set<nat>)
  {
    && |roots| == NTREEBINS && |trees| == NTREEBINS
    && (forall i: nat :: i < NTREEBINS ==> BinOk(mem, roots[i], trees[i], i, i in treemap))
    && (forall i: nat, j: nat :: i < j < NTREEBINS ==> Addrs(trees[i]) !! Addrs(trees[j]))
    && forall i: nat :: i in treemap ==> i < NTREEBINS
  }

  lemma OneBin(mem: Memory, roots: seq<nat>, trees: seq<Tree>, treemap: set<nat>, i: nat)
    requires AllBins(mem, roots, trees, treemap) && i < NTREEBINS
    ensures |roots| == |trees| == NTREEBINS && BinOk(mem, roots[i], trees[i], i, i in treemap)
  {
    hide BinOk;
  }

  lemma BinFacts(mem: Memory, p: nat, t: Tree, i: nat, marked: bool)
    requires i < NTREEBINS && BinOk(mem, p, t, i, marked)
    ensures Rep(mem, p, Root(i), t, i) && Ordered(t, Lo(i), FreeBits(i)) && (marked <==> t.Node?)
    ensures marked <==> p != 0
    ensures Limited(t)
  {
    hide Ordered, Distinct, Lo;
    RepNull(mem, p, Root(i), t, i);
  }

  lemma BinSize(mem: Memory, p: nat, t: Tree, i: nat, marked: bool, s: nat)
    requires i < NTREEBINS && BinOk(mem, p, t, i, marked) && HasSize(t, s)
    ensures MIN_LARGE_SIZE <= s < SIZE_LIMIT && ComputeTreeIndex(s) == i
  {
    hide Ordered, Distinct, Rep, ComputeTreeIndex, Lo;
  }

  /** Nothing in bin i fits. */
  ghost predicate NoFit(t: Tree, nb: nat)
  {
    forall s: nat :: HasSize(t, s) ==> s < nb
  }

  lemma NoFitMeans(t: Tree, nb: nat, s: nat)
    requires NoFit(t, nb) && HasSize(t, s)
    ensures s < nb
  {
  }

  lemma EarlierBinsDoNotFit(mem: Memory, roots: seq<nat>, trees: seq<Tree>, treemap: set<nat>, nb: nat, j: nat)
    requires AllBins(mem, roots, trees, treemap) && MIN_LARGE_SIZE <= nb < SIZE_LIMIT
    requires j < ComputeTreeIndex(nb) < NTREEBINS
    ensures NoFit(trees[j], nb)
  {
    hide AllBins, BinOk, ComputeTreeIndex;
    OneBin(mem, roots, trees, treemap, j);
    forall s: nat | HasSize(trees[j], s) ensures s < nb {
      BinSize(mem, roots[j], trees[j], j, j in treemap, s);
      LaterBinIsLarger(s, nb);
    }
  }

  lemma LaterBinIsAbove(mem: Memory, roots: seq<nat>, trees: seq<Tree>, treemap: set<nat>, k: nat, s: nat, j: nat,
                        s': nat)
    requires AllBins(mem, roots, trees, treemap) && k < j < NTREEBINS && HasSize(trees[k], s) && HasSize(trees[j], s')
    ensures s < s'
  {
    hide AllBins, BinOk, ComputeTreeIndex, HasSize;
    OneBin(mem, roots, trees, treemap, j);
    OneBin(mem, roots, trees, treemap, k);
    BinSize(mem, roots[j], trees[j], j, j in treemap, s');
    BinSize(mem, roots[k], trees[k], k, k in treemap, s);
    LaterBinIsLarger(s, s');
  }

  /** The chunk to use, if any: its size is the least stored one that fits. */
  ghost predicate BestFit(trees: seq<Tree>, nb: nat, found: bool, best: nat)
  {
    && (found ==> nb <= best && Stored(trees, best))
    && forall s: nat :: Stored(trees, s) && nb <= s ==> found && best <= s
  }

  /** The least fit of the first bin that has one is the least fit of all. */
  lemma FirstBinDecides(mem: Memory, roots: seq<nat>, trees: seq<Tree>, treemap: set<nat>, nb: nat, k: nat, best: nat)
    requires AllBins(mem, roots, trees, treemap) && k < NTREEBINS && nb <= best && HasSize(trees[k], best)
    requires forall s: nat :: HasSize(trees[k], s) && nb <= s ==> best <= s
    requires forall j: nat :: j < k ==> NoFit(trees[j], nb)
    ensures BestFit(trees, nb, true, best)
  {
    assert |trees| == NTREEBINS;
    assert Stored(trees, best);
    forall s: nat | Stored(trees, s) && nb <= s ensures best <= s {
      var j :| 0 <= j < |trees| && HasSize(trees[j], s);
      if j < k { NoFitMeans(trees[j], nb, s); }
      if k < j { LaterBinIsAbove(mem, roots, trees, treemap, k, best, j, s); }
    }
  }

  lemma NoBinFits(mem: Memory, roots: seq<nat>, trees: seq<Tree>, treemap: set<nat>, nb: nat)
    requires AllBins(mem, roots, trees, treemap)
    requires forall j: nat :: j < NTREEBINS ==> NoFit(trees[j], nb)
    ensures BestFit(trees, nb, false, 0)
  {
    hide BinOk, HasSize;
    forall s: nat | Stored(trees, s) && nb <= s ensures false {
      var j :| 0 <= j < |trees| && HasSize(trees[j], s);
      NoFitMeans(trees[j], nb, s);
    }
  }

  /** The least bit from i on in a bitmap of 32 bins; at least 32 if there is none. */
  method FirstMarked(treemap: set<nat>, i: nat) returns (j: nat)
    ensures i <= j && (j < NTREEBINS ==> j in treemap)
    ensures forall k: nat :: i <= k < j && k < NTREEBINS ==> k !in treemap
  {
    j := i;
    while j < NTREEBINS && j !in treemap
      invariant i <= j
      invariant forall k: nat :: i <= k < j && k < NTREEBINS ==> k !in treemap
    {
      j := j + 1;
    }
  }

  lemma DvDecides(nb: nat, dvsize: nat, rsize: nat, found: bool, best: nat)
    requires 0 < nb < SIZE_LIMIT && dvsize < SIZE_LIMIT && (found ==> nb <= best < SIZE_LIMIT && rsize == best - nb)
    ensures found ==> (rsize < Wrap(dvsize - nb) <==> dvsize < nb || best < dvsize)
  {
  }

  lemma BinFor(nb: nat)
    requires MIN_LARGE_SIZE <= nb < SIZE_LIMIT
    ensures var i := ComputeTreeIndex(nb); 0 < nb && i < NTREEBINS && Lo(i) <= nb < Lo(i) + Width(i)
  {
    BinInterval(nb);
    hide Lo, Width, ComputeTreeIndex;
  }

  lemma EmptyChosen(mem: Memory, tree: Tree, i: nat, nb: nat)
    requires tree.Nil? && 0 < nb < SIZE_LIMIT
    ensures Chosen(mem, tree, i, nb, Aside(0, NoParent, Nil, 0, 0), Best(0, 0, Wrap(0 - nb)))
  {
    hide Pow2;
  }

  lemma NothingHere(mem: Memory, tree: Tree, i: nat, nb: nat, y: Aside, x: Best)
    requires Chosen(mem, tree, i, nb, y, x) && y.t == 0 && x.v == 0
    ensures NoFit(tree, nb) && x.rsize == Wrap(0 - nb)
  {
    hide Pow2, Ordered;
    RepNull(mem, y.t, y.par, y.rest, i);
  }

  lemma UnmarkedIsEmpty(mem: Memory, roots: seq<nat>, trees: seq<Tree>, treemap: set<nat>, nb: nat, j: nat)
    requires AllBins(mem, roots, trees, treemap) && j < NTREEBINS && j !in treemap
    ensures NoFit(trees[j], nb)
  {
    hide AllBins, BinOk;
    OneBin(mem, roots, trees, treemap, j);
    BinFacts(mem, roots[j], trees[j], j, j in treemap);
  }

  /** Bins before k, other than the request's own, hold nothing that fits. */
  lemma BinsBefore(mem: Memory, roots: seq<nat>, trees: seq<Tree>, treemap: set<nat>, nb: nat, i: nat, k: nat)
    requires AllBins(mem, roots, trees, treemap) && MIN_LARGE_SIZE <= nb < SIZE_LIMIT && |trees| == NTREEBINS
    requires i == ComputeTreeIndex(nb) < NTREEBINS && i <= k <= NTREEBINS && (i < k ==> NoFit(trees[i], nb))
    requires forall j: nat :: i < j < k ==> j !in treemap
    ensures forall j: nat :: j < k ==> NoFit(trees[j], nb)
  {
    hide *;
    forall j: nat | j < k ensures NoFit(trees[j], nb) {
      if j < i { EarlierBinsDoNotFit(mem, roots, trees, treemap, nb, j); }
      else if i < j { UnmarkedIsEmpty(mem, roots, trees, treemap, nb, j); }
    }
  }

  lemma NextBinChosen(mem: Memory, roots: seq<nat>, trees: seq<Tree>, treemap: set<nat>, nb: nat, j: nat)
    requires AllBins(mem, roots, trees, treemap) && MIN_LARGE_SIZE <= nb < SIZE_LIMIT
    requires ComputeTreeIndex(nb) < j < NTREEBINS && j in treemap
    ensures |roots| == |trees| == NTREEBINS && roots[j] != 0
    ensures Chosen(mem, trees[j], j, nb, Aside(roots[j], Root(j), trees[j], Lo(j), FreeBits(j)),
                   Best(0, 0, Wrap(0 - nb)))
  {
    hide AllBins, BinOk, ComputeTreeIndex, Rep, Ordered, Lo, FreeBits, Wrap, Pow2;
    OneBin(mem, roots, trees, treemap, j);
    BinFacts(mem, roots[j], trees[j], j, j in treemap);
    forall s: nat | HasSize(trees[j], s) ensures nb <= s {
      BinSize(mem, roots[j], trees[j], j, j in treemap, s);
      LaterBinIsLarger(nb, s);
    }
  }

  lemma ChosenParts(mem: Memory, tree: Tree, k: nat, nb: nat, y: Aside, x: Best)
    requires Chosen(mem, tree, k, nb, y, x)
    ensures Limited(tree) && BestOk(mem, tree, nb, x) && GoesOn(mem, tree, k, nb, y, x)
  {
    hide Limited, BestOk, GoesOn, Beyond, HasSize;
  }

  lemma LeastIsBest(mem: Memory, tree: Tree, k: nat, nb: nat, y: Aside, x0: Best, x: Best)
    requires Chosen(mem, tree, k, nb, y, x0) && (y.t != 0 || x0.v != 0) && BestOk(mem, tree, nb, x)
    requires x0.v != 0 ==> x.v != 0 && x.size <= x0.size
    requires x0.rsize != 0 ==> forall s: nat :: nb <= s && Beyond(y.rest, s) ==> x.v != 0 && x.size <= s
    ensures x.v != 0 && x.v in mem && x.v in Addrs(tree) && mem[x.v].size == x.size && nb <= x.size < SIZE_LIMIT
    ensures x.rsize == x.size - nb
    ensures HasSize(tree, x.size) && forall s: nat :: HasSize(tree, s) && nb <= s ==> x.size <= s
  {
    hide Pow2, Ordered, Limited;
    if y.t != 0 {
      RepNode(mem, y.t, y.par, y.rest, k);
      assert HasSize(y.rest, y.rest.size);
      assert Beyond(y.rest, y.rest.size);
    }
  }

  /** The best fit over all bins. */
  method ChooseFrom(m: Memory, bins: array<nat>, treemap: set<nat>, nb: nat, ghost trees: seq<Tree>)
    returns (v: nat, rsize: nat, ghost best: nat, ghost k: nat)
    requires AllBins(m, bins[..], trees, treemap) && bins.Length == NTREEBINS && MIN_LARGE_SIZE <= nb < SIZE_LIMIT
    ensures BestFit(trees, nb, v != 0, best)
    ensures v != 0 ==> v in m && m[v].size == best && nb <= best < SIZE_LIMIT && rsize == best - nb
    ensures v != 0 ==> k < NTREEBINS && |trees| == NTREEBINS && v in Addrs(trees[k])
  {
    hide *;
    var i := ComputeTreeIndex(nb);
    BinFor(nb);
    OneBin(m, bins[..], trees, treemap, i);
    BinFacts(m, bins[i], trees[i], i, i in treemap);
    var t := bins[i];
    v, rsize, k := 0, Wrap(0 - nb), i;
    ghost var y, x := Aside(0, NoParent, Nil, 0, 0), Best(0, 0, Wrap(0 - nb));
    if t != 0 {
      t, v, rsize, y, x := WalkToSize(m, t, i, nb, trees[i], i in treemap);
    } else {
      EmptyChosen(m, trees[i], i, nb);
    }
    if t == 0 && v == 0 {
      NothingHere(m, trees[i], i, nb, y, x);
      var j := FirstMarked(treemap, i + 1);
      if j < NTREEBINS {
        BinsBefore(m, bins[..], trees, treemap, nb, i, j);
        NextBinChosen(m, bins[..], trees, treemap, nb, j);
        t := bins[j];
        k, y, x := j, Aside(t, Root(j), trees[j], Lo(j), FreeBits(j)), Best(0, 0, Wrap(0 - nb));
      } else {
        BinsBefore(m, bins[..], trees, treemap, nb, i, NTREEBINS);
        NoBinFits(m, bins[..], trees, treemap, nb);
        best := 0;
        return;
      }
    } else {
      BinsBefore(m, bins[..], trees, treemap, nb, i, i);
    }
    ChosenParts(m, trees[k], k, nb, y, x);
    ghost var x0 := x;
    v, rsize, x := LeastFrom(m, t, nb, v, rsize, trees[k], k, y, x);
    best := x.size;
    LeastIsBest(m, trees[k], k, nb, y, x0, x);
    FirstBinDecides(m, bins[..], trees, treemap, nb, k, best);
  }

  // ----- a small request from the tree bins -----

  lemma SmallBinChosen(mem: Memory, roots: seq<nat>, trees: seq<Tree>, treemap: set<nat>, nb: nat, j: nat)
    requires AllBins(mem, roots, trees, treemap) && 0 < nb < MIN_LARGE_SIZE && j < NTREEBINS && j in treemap
    ensures |roots| == |trees| == NTREEBINS && roots[j] != 0
    ensures Limited(trees[j]) && AsideOk(mem, trees[j], j, Aside(roots[j], Root(j), trees[j], Lo(j), FreeBits(j)), nb)
    ensures BestOk(mem, trees[j], nb, Best(0, 0, Wrap(0 - nb)))
  {
    hide AllBins, BinOk, ComputeTreeIndex, Rep, Ordered, Lo, FreeBits, Pow2;
    OneBin(mem, roots, trees, treemap, j);
    BinFacts(mem, roots[j], trees[j], j, j in treemap);
    forall s: nat | HasSize(trees[j], s) ensures nb <= s { BinSize(mem, roots[j], trees[j], j, j in treemap, s); }
  }

  /** The first node is the best so far. */
  lemma FirstVisit(mem: Memory, root: Tree, i: nat, nb: nat, y: Aside) returns (y': Aside)
    requires 0 < nb < SIZE_LIMIT && Limited(root) && AsideOk(mem, root, i, y, nb) && y.t != 0
    requires BestOk(mem, root, nb, Best(0, 0, Wrap(0 - nb)))
    ensures y.t in mem && y'.t == LeftmostChild(mem, y.t)
    ensures var x := Best(y.t, mem[y.t].size, Wrap(mem[y.t].size - nb));
            && BestOk(mem, root, nb, x) && (x.rsize == 0 ==> x.size == nb) && GoesOn(mem, root, i, nb, y', x)
            && forall s: nat :: nb <= s && Beyond(y.rest, s) ==> x.size <= s || Beyond(y'.rest, s)
  {
    hide Pow2, Ordered, BestOk, Beyond, AsideOk, HasSize, Limited, Wrap;
    var x0 := Best(0, 0, Wrap(0 - nb));
    LeftmostBegins(mem, root, i, nb, y, x0);
    VisitAside(mem, root, i, nb, y, x0);
    VisitIs(mem, nb, y.t, x0);
    y' := LeftmostStep(mem, root, i, nb, y.rest, y, x0, Visit(mem, nb, y.t, x0));
    LeftmostParts(mem, root, i, nb, y.rest, y', Visit(mem, nb, y.t, x0));
    var x := Best(y.t, mem[y.t].size, Wrap(mem[y.t].size - nb));
    ExactSize(mem, root, nb, x);
    AsideGoesOn(mem, root, i, nb, y', x);
  }

  lemma ExactSize(mem: Memory, root: Tree, nb: nat, x: Best)
    requires BestOk(mem, root, nb, x) && x.v != 0
    ensures x.rsize == 0 ==> x.size == nb
  {
    hide HasSize;
  }

  lemma AsideGoesOn(mem: Memory, root: Tree, i: nat, nb: nat, y: Aside, x: Best)
    requires AsideOk(mem, root, i, y, nb)
    ensures GoesOn(mem, root, i, nb, y, x)
  {
    hide Rep, Ordered, AllAbove, Within;
  }

  lemma SmallIsBest(mem: Memory, tree: Tree, k: nat, nb: nat, y: Aside, y1: Aside, x1: Best, x: Best)
    requires Limited(tree) && BestOk(mem, tree, nb, x1) && BestOk(mem, tree, nb, x) && y.rest == tree && tree.Node?
    requires x1.v != 0 && x.v != 0 && x.size <= x1.size && (x1.rsize == 0 ==> x1.size == nb)
    requires forall s: nat :: nb <= s && Beyond(y.rest, s) ==> x1.size <= s || Beyond(y1.rest, s)
    requires x1.rsize != 0 ==> forall s: nat :: nb <= s && Beyond(y1.rest, s) ==> x.size <= s
    ensures x.v in mem && x.v in Addrs(tree) && mem[x.v].size == x.size && nb <= x.size < SIZE_LIMIT
    ensures x.rsize == x.size - nb
    ensures HasSize(tree, x.size) && forall s: nat :: HasSize(tree, s) && nb <= s ==> x.size <= s
  {
    hide HasSize;
    forall s: nat | HasSize(tree, s) && nb <= s ensures x.size <= s {
      assert Beyond(tree, s);
    }
  }

  /** The best fit for a small request: every chunk in the tree bins is large enough. */
  method ChooseSmallFrom(m: Memory, bins: array<nat>, treemap: set<nat>, nb: nat, ghost trees: seq<Tree>)
    returns (v: nat, rsize: nat, ghost best: nat, ghost k: nat)
    requires AllBins(m, bins[..], trees, treemap) && bins.Length == NTREEBINS && 0 < nb < MIN_LARGE_SIZE
    requires treemap != {}
    ensures v != 0 && BestFit(trees, nb, true, best)
    ensures v in m && m[v].size == best && nb <= best < SIZE_LIMIT && rsize == best - nb
    ensures k < NTREEBINS && |trees| == NTREEBINS && v in Addrs(trees[k])
  {
    hide *;
    var j := FirstMarked(treemap, 0);
    SomeMarked(m, bins[..], trees, treemap, j);
    k := j;
    SmallLimit(nb);
    SmallBinChosen(m, bins[..], trees, treemap, nb, j);
    ghost var y := Aside(bins[j], Root(j), trees[j], Lo(j), FreeBits(j));
    ghost var y1 := FirstVisit(m, trees[j], j, nb, y);
    v := bins[j];
    rsize := Wrap(m[v].size - nb);
    ghost var x1, x := Best(v, m[v].size, rsize), Best(v, m[v].size, rsize);
    v, rsize, x := LeastFrom(m, LeftmostChild(m, v), nb, v, rsize, trees[j], j, y1, x1);
    best := x.size;
    OneBin(m, bins[..], trees, treemap, j);
    BinFacts(m, bins[j], trees[j], j, true);
    SmallIsBest(m, trees[j], j, nb, y, y1, x1, x);
    forall i: nat | i < j ensures NoFit(trees[i], nb) { UnmarkedIsEmpty(m, bins[..], trees, treemap, nb, i); }
    FirstBinDecides(m, bins[..], trees, treemap, nb, j, best);
  }

  lemma SmallLimit(nb: nat)
    requires nb < MIN_LARGE_SIZE
    ensures nb < SIZE_LIMIT
  {
  }

  lemma SomeMarked(mem: Memory, roots: seq<nat>, trees: seq<Tree>, treemap: set<nat>, j: nat)
    requires AllBins(mem, roots, trees, treemap) && treemap != {}
    requires (j < NTREEBINS ==> j in treemap) && forall k: nat :: k < j && k < NTREEBINS ==> k !in treemap
    ensures j < NTREEBINS && j in treemap
  {
    hide BinOk;
    var k :| k in treemap;
  }
}
