/** What the pointer updates of insertion do to the tries in memory, and what leaves a trie alone. */
module TreeLinks {
  import opened TreeIndex
  import opened Trie
  import opened TreeMemory

  // ----- frames -----

  /** The two memories agree on a set of addresses. */
  ghost predicate Same(mem: Memory, mem': Memory, s: set<nat>)
  {
    forall a: nat :: a in s ==> a in mem && a in mem' && mem'[a] == mem[a]
  }

  lemma RingFrame(mem: Memory, mem': Memory, ring: seq<nat>, size: nat, i: nat)
    requires RingOk(mem, ring, size, i) && Same(mem, mem', RingSet(ring))
    ensures RingOk(mem', ring, size, i)
  {
    forall k: nat | k < |ring| ensures RingAt(mem', ring, size, i, k) {
      assert RingAt(mem, ring, size, i, k);
      assert ring[k] in RingSet(ring);
    }
  }

  lemma {:induction false} RepFrame(mem: Memory, mem': Memory, p: nat, par: Link, t: Tree, i: nat)
    requires Rep(mem, p, par, t, i) && Same(mem, mem', Addrs(t))
    ensures Rep(mem', p, par, t, i)
    decreases t
  {
    hide RingOk;
    if t.Node? {
      RepFirst(mem, p, par, t, i);
      RingFrame(mem, mem', t.ring, t.size, i);
      RepFrame(mem, mem', mem[p].left, At(p), t.left, i);
      RepFrame(mem, mem', mem[p].right, At(p), t.right, i);
    }
  }

  lemma RepFirst(mem: Memory, p: nat, par: Link, t: Tree, i: nat)
    requires Rep(mem, p, par, t, i) && t.Node?
    ensures p != 0 && p in RingSet(t.ring) && t.ring != [] && t.ring[0] == p
  {
    assert RingAt(mem, t.ring, t.size, i, 0);
  }

  lemma {:induction false} RepDomain(mem: Memory, p: nat, par: Link, t: Tree, i: nat)
    requires Rep(mem, p, par, t, i)
    ensures 0 !in Addrs(t) && forall a: nat :: a in Addrs(t) ==> a in mem
    decreases t
  {
    if t.Node? {
      RepDomain(mem, mem[p].left, At(p), t.left, i);
      RepDomain(mem, mem[p].right, At(p), t.right, i);
      forall k: nat | k < |t.ring| ensures t.ring[k] in mem && t.ring[k] != 0 {
        assert RingAt(mem, t.ring, t.size, i, k);
      }
    }
  }

  /** A node from its parts. */
  lemma RepMade(mem: Memory, p: nat, par: Link, t: Tree, i: nat)
    requires t.Node? && RingOk(mem, t.ring, t.size, i) && p == t.ring[0] && p in mem && mem[p].parent == par
    requires Rep(mem, mem[p].left, At(p), t.left, i) && Rep(mem, mem[p].right, At(p), t.right, i)
    ensures Rep(mem, p, par, t, i)
  {
  }

  // ----- insertion -----

  function Head(t: Tree): nat
  {
    if t.Node? && t.ring != [] then t.ring[0] else 0
  }

  /** Where the walk for a new chunk of size s ends: at which node, and on which side of it. */
  function EndOf(t: Tree, lo: nat, b: nat, s: nat): (nat, Way)
    decreases t
  {
    var w := WayOf(t, lo, b, s);
    if w.Left? && t.left.Node? then EndOf(t.left, lo, b - 1, s)
    else if w.Right? && t.right.Node? then EndOf(t.right, lo + Pow2(b - 1), b - 1, s)
    else (Head(t), w)
  }

  /** The updates at the end of the walk: hang the chunk under the node, or link it into the node's ring. */
  function Graft(mem: Memory, e: nat, w: Way, x: nat, s: nat, i: nat): Memory
    requires e in mem && mem[e].fd in mem
  {
    match w
    case Left => mem[e := mem[e].(left := x)][x := Chunk(s, i, x, x, 0, 0, At(e))]
    case Right => mem[e := mem[e].(right := x)][x := Chunk(s, i, x, x, 0, 0, At(e))]
    case Here =>
      var f := mem[e].fd;
      var mem1 := mem[e := mem[e].(fd := x)];
      mem1[f := mem1[f].(bk := x)][x := Chunk(s, i, f, e, 0, 0, NoParent)]
    case End => mem
  }

  lemma HereRing(mem: Memory, ring: seq<nat>, size: nat, i: nat, x: nat)
    requires RingOk(mem, ring, size, i) && NoDup(ring) && x !in RingSet(ring) && x != 0
    ensures ring[0] in mem && mem[ring[0]].fd in mem
    ensures var mem' := Graft(mem, ring[0], Here, x, size, i);
            && RingOk(mem', RingWith(ring, x), size, i)
            && mem'[ring[0]] == mem[ring[0]].(fd := x, bk := mem'[ring[0]].bk)
  {
    assert RingAt(mem, ring, size, i, 0);
    var n := |ring|;
    var e, f := ring[0], ring[Next(0, n)];
    assert RingAt(mem, ring, size, i, Next(0, n));
    var mem', ring' := Graft(mem, e, Here, x, size, i), RingWith(ring, x);
    assert e in RingSet(ring) && f in RingSet(ring);
    forall k: nat | k < |ring'| ensures RingAt(mem', ring', size, i, k) {
      if 2 <= k {
        assert RingAt(mem, ring, size, i, k - 1);
        assert ring[k - 1] in RingSet(ring) && ring[k - 1] != e;
        assert ring'[k] == ring[k - 1];
        if k > 2 { assert ring[k - 1] != ring[1] && ring[k - 2] == ring'[k - 1]; }
        if k + 1 < |ring'| { assert ring'[k + 1] == ring[k]; }
      }
    }
  }

  /** Outside the node where the walk ended, its ring neighbour and the new chunk nothing changes. */
  lemma GraftFrame(mem: Memory, e: nat, w: Way, x: nat, s: nat, i: nat, others: set<nat>)
    requires e in mem && mem[e].fd in mem && x !in others && e !in others && (w.Here? ==> mem[e].fd !in others)
    requires forall a: nat :: a in others ==> a in mem
    ensures Same(mem, Graft(mem, e, w, x, s, i), others)
  {
  }

  lemma RingNeighbour(mem: Memory, ring: seq<nat>, size: nat, i: nat)
    requires RingOk(mem, ring, size, i)
    ensures ring[0] in mem && mem[ring[0]].fd in mem && ring[0] in RingSet(ring) && mem[ring[0]].fd in RingSet(ring)
  {
    assert RingAt(mem, ring, size, i, 0);
    assert RingAt(mem, ring, size, i, Next(0, |ring|));
  }

  /** The walk ends inside the trie. */
  lemma {:induction false} EndInside(mem: Memory, p: nat, par: Link, t: Tree, i: nat, lo: nat, b: nat, s: nat)
    requires Rep(mem, p, par, t, i) && t.Node? && Ordered(t, lo, b) && lo <= s < lo + Pow2(b)
    ensures var (e, w) := EndOf(t, lo, b, s);
            e in Addrs(t) && e in mem && mem[e].fd in mem && mem[e].fd in Addrs(t) && !w.End?
    decreases t
  {
    hide Pow2, Ordered, WayOf, RingOk;
    RepFirst(mem, p, par, t, i);
    RepRing(mem, p, par, t, i);
    RingNeighbour(mem, t.ring, t.size, i);
    var w := WayOf(t, lo, b, s);
    if w.Left? {
      WalkLeft(t, lo, b, s);
      if t.left.Node? { EndInside(mem, mem[p].left, At(p), t.left, i, lo, b - 1, s); }
    } else if w.Right? {
      WalkRight(t, lo, b, s);
      if t.right.Node? { EndInside(mem, mem[p].right, At(p), t.right, i, lo + Pow2(b - 1), b - 1, s); }
    } else if w.End? {
      WalkEnd(t, lo, b, s);
    }
  }

  lemma RepRing(mem: Memory, p: nat, par: Link, t: Tree, i: nat)
    requires Rep(mem, p, par, t, i) && t.Node?
    ensures RingOk(mem, t.ring, t.size, i) && p in mem && mem[p].parent == par && p == t.ring[0] && p == Head(t)
    ensures Rep(mem, mem[p].left, At(p), t.left, i) && Rep(mem, mem[p].right, At(p), t.right, i)
  {
  }

  lemma DistinctParts(t: Tree)
    requires Distinct(t) && t.Node?
    ensures NoDup(t.ring) && Distinct(t.left) && Distinct(t.right)
    ensures RingSet(t.ring) !! Addrs(t.left) && RingSet(t.ring) !! Addrs(t.right) && Addrs(t.left) !! Addrs(t.right)
    ensures Addrs(t) == RingSet(t.ring) + Addrs(t.left) + Addrs(t.right)
  {
  }

  lemma GraftHere(mem: Memory, p: nat, par: Link, t: Tree, i: nat, x: nat)
    requires Rep(mem, p, par, t, i) && t.Node? && Distinct(t) && x !in Addrs(t) && x != 0
    ensures p in mem && mem[p].fd in mem
    ensures Rep(Graft(mem, p, Here, x, t.size, i), p, par, t.(ring := RingWith(t.ring, x)), i)
  {
    hide RingOk, Rep, Distinct, Graft, Addrs;
    RepRing(mem, p, par, t, i);
    RepFirst(mem, p, par, t, i);
    DistinctParts(t);
    RingNeighbour(mem, t.ring, t.size, i);
    HereRing(mem, t.ring, t.size, i, x);
    var mem', t' := Graft(mem, p, Here, x, t.size, i), t.(ring := RingWith(t.ring, x));
    RepDomain(mem, mem[p].left, At(p), t.left, i);
    RepDomain(mem, mem[p].right, At(p), t.right, i);
    GraftFrame(mem, p, Here, x, t.size, i, Addrs(t.left));
    GraftFrame(mem, p, Here, x, t.size, i, Addrs(t.right));
    RepFrame(mem, mem', mem[p].left, At(p), t.left, i);
    RepFrame(mem, mem', mem[p].right, At(p), t.right, i);
    RingInDomain(mem', t'.ring, t.size, i);
    RepMade(mem', p, par, t', i);
  }

  lemma RingInDomain(mem: Memory, ring: seq<nat>, size: nat, i: nat)
    requires RingOk(mem, ring, size, i)
    ensures ring[0] in mem
  {
    assert RingAt(mem, ring, size, i, 0);
  }

  /** Changing only the first chunk's links into the trie leaves the ring alone. */
  lemma RingRelinked(mem: Memory, mem': Memory, ring: seq<nat>, size: nat, i: nat)
    requires RingOk(mem, ring, size, i) && NoDup(ring)
    requires forall k: nat :: 0 < k < |ring| ==> ring[k] in mem && ring[k] in mem' && mem'[ring[k]] == mem[ring[k]]
    requires ring[0] in mem && ring[0] in mem'
    requires mem'[ring[0]].(left := 0, right := 0, parent := NoParent) ==
             mem[ring[0]].(left := 0, right := 0, parent := NoParent)
    ensures RingOk(mem', ring, size, i)
  {
    forall k: nat | k < |ring| ensures RingAt(mem', ring, size, i, k) { assert RingAt(mem, ring, size, i, k); }
  }

  lemma OneChunk(mem: Memory, x: nat, par: Link, s: nat, i: nat)
    requires x != 0 && x in mem && mem[x] == Chunk(s, i, x, x, 0, 0, par)
    ensures Rep(mem, x, par, Node(s, [x], Nil, Nil), i)
  {
    assert RingAt(mem, [x], s, i, 0);
  }

  lemma GraftRing(mem: Memory, p: nat, t: Tree, i: nat, w: Way, x: nat, s: nat)
    requires t.Node? && RingOk(mem, t.ring, t.size, i) && NoDup(t.ring) && p == t.ring[0] && x !in RingSet(t.ring)
    requires p in mem && mem[p].fd in mem && (w.Left? || w.Right?)
    ensures RingOk(Graft(mem, p, w, x, s, i), t.ring, t.size, i)
  {
    var mem' := Graft(mem, p, w, x, s, i);
    assert p in RingSet(t.ring);
    forall k: nat | 0 < k < |t.ring|
      ensures t.ring[k] in mem && t.ring[k] in mem' && mem'[t.ring[k]] == mem[t.ring[k]]
    {
      assert RingAt(mem, t.ring, t.size, i, k);
      assert t.ring[k] in RingSet(t.ring);
    }
    RingRelinked(mem, mem', t.ring, t.size, i);
  }

  lemma GraftLeft(mem: Memory, p: nat, par: Link, t: Tree, i: nat, x: nat, s: nat)
    requires Rep(mem, p, par, t, i) && t.Node? && t.left.Nil? && Distinct(t) && x !in Addrs(t) && x != 0
    ensures p in mem && mem[p].fd in mem
    ensures Rep(Graft(mem, p, Left, x, s, i), p, par, t.(left := Node(s, [x], Nil, Nil)), i)
  {
    hide RingOk, Rep, Distinct, Addrs;
    RepRing(mem, p, par, t, i);
    RepFirst(mem, p, par, t, i);
    DistinctParts(t);
    RingNeighbour(mem, t.ring, t.size, i);
    var mem' := Graft(mem, p, Left, x, s, i);
    GraftRing(mem, p, t, i, Left, x, s);
    RepDomain(mem, mem[p].right, At(p), t.right, i);
    GraftFrame(mem, p, Left, x, s, i, Addrs(t.right));
    RepFrame(mem, mem', mem[p].right, At(p), t.right, i);
    OneChunk(mem', x, At(p), s, i);
    RepMade(mem', p, par, t.(left := Node(s, [x], Nil, Nil)), i);
  }

  lemma GraftRight(mem: Memory, p: nat, par: Link, t: Tree, i: nat, x: nat, s: nat)
    requires Rep(mem, p, par, t, i) && t.Node? && t.right.Nil? && Distinct(t) && x !in Addrs(t) && x != 0
    ensures p in mem && mem[p].fd in mem
    ensures Rep(Graft(mem, p, Right, x, s, i), p, par, t.(right := Node(s, [x], Nil, Nil)), i)
  {
    hide RingOk, Rep, Distinct, Addrs;
    RepRing(mem, p, par, t, i);
    RepFirst(mem, p, par, t, i);
    DistinctParts(t);
    RingNeighbour(mem, t.ring, t.size, i);
    var mem' := Graft(mem, p, Right, x, s, i);
    GraftRing(mem, p, t, i, Right, x, s);
    RepDomain(mem, mem[p].left, At(p), t.left, i);
    GraftFrame(mem, p, Right, x, s, i, Addrs(t.left));
    RepFrame(mem, mem', mem[p].left, At(p), t.left, i);
    OneChunk(mem', x, At(p), s, i);
    RepMade(mem', p, par, t.(right := Node(s, [x], Nil, Nil)), i);
  }

  /** A change inside one subtree. */
  lemma LeftChanged(mem: Memory, mem': Memory, p: nat, par: Link, t: Tree, i: nat, l: Tree)
    requires Rep(mem, p, par, t, i) && t.Node? && Same(mem, mem', RingSet(t.ring) + Addrs(t.right))
    requires p in mem && Rep(mem', mem[p].left, At(p), l, i)
    ensures Rep(mem', p, par, t.(left := l), i)
  {
    hide RingOk, Rep, Addrs, RingSet;
    RepRing(mem, p, par, t, i);
    RepFirst(mem, p, par, t, i);
    RingFrame(mem, mem', t.ring, t.size, i);
    RepFrame(mem, mem', mem[p].right, At(p), t.right, i);
    RepMade(mem', p, par, t.(left := l), i);
  }

  lemma RightChanged(mem: Memory, mem': Memory, p: nat, par: Link, t: Tree, i: nat, r: Tree)
    requires Rep(mem, p, par, t, i) && t.Node? && Same(mem, mem', RingSet(t.ring) + Addrs(t.left))
    requires p in mem && Rep(mem', mem[p].right, At(p), r, i)
    ensures Rep(mem', p, par, t.(right := r), i)
  {
    hide RingOk, Rep, Addrs, RingSet;
    RepRing(mem, p, par, t, i);
    RepFirst(mem, p, par, t, i);
    RingFrame(mem, mem', t.ring, t.size, i);
    RepFrame(mem, mem', mem[p].left, At(p), t.left, i);
    RepMade(mem', p, par, t.(right := r), i);
  }

  /** The updates at the end of the walk turn the trie in memory into the one with the chunk inserted. */
  lemma {:induction false} GraftRep(mem: Memory, p: nat, par: Link, t: Tree, i: nat, lo: nat, b: nat, s: nat, x: nat)
    requires Rep(mem, p, par, t, i) && t.Node? && Ordered(t, lo, b) && lo <= s < lo + Pow2(b)
    requires Distinct(t) && x !in Addrs(t) && x != 0
    ensures var (e, w) := EndOf(t, lo, b, s);
            e in mem && mem[e].fd in mem && Rep(Graft(mem, e, w, x, s, i), p, par, Insert(t, lo, b, s, x), i)
    decreases t
  {
    hide Pow2, Ordered, WayOf, Rep, Distinct, Graft, Insert, RingOk, Addrs, Same;
    EndInside(mem, p, par, t, i, lo, b, s);
    RepRing(mem, p, par, t, i);
    DistinctParts(t);
    EndOnce(t, lo, b, s);
    InsertNil(lo, b, s, x);
    var w := WayOf(t, lo, b, s);
    if w.Left? {
      WalkLeft(t, lo, b, s);
      InsertLeft(t, lo, b, s, x);
      InsertNil(lo, b - 1, s, x);
      if t.left.Node? {
        GraftRep(mem, mem[p].left, At(p), t.left, i, lo, b - 1, s, x);
        EndInside(mem, mem[p].left, At(p), t.left, i, lo, b - 1, s);
        var (e, w') := EndOf(t.left, lo, b - 1, s);
        RingAndSubDomain(mem, p, par, t, i);
        GraftFrame(mem, e, w', x, s, i, RingSet(t.ring) + Addrs(t.right));
        LeftChanged(mem, Graft(mem, e, w', x, s, i), p, par, t, i, Insert(t.left, lo, b - 1, s, x));
      } else {
        GraftLeft(mem, p, par, t, i, x, s);
      }
    } else if w.Right? {
      WalkRight(t, lo, b, s);
      InsertRight(t, lo, b, s, x);
      InsertNil(lo + Pow2(b - 1), b - 1, s, x);
      if t.right.Node? {
        GraftRep(mem, mem[p].right, At(p), t.right, i, lo + Pow2(b - 1), b - 1, s, x);
        EndInside(mem, mem[p].right, At(p), t.right, i, lo + Pow2(b - 1), b - 1, s);
        var (e, w') := EndOf(t.right, lo + Pow2(b - 1), b - 1, s);
        RingAndSubDomain(mem, p, par, t, i);
        GraftFrame(mem, e, w', x, s, i, RingSet(t.ring) + Addrs(t.left));
        RightChanged(mem, Graft(mem, e, w', x, s, i), p, par, t, i, Insert(t.right, lo + Pow2(b - 1), b - 1, s, x));
      } else {
        GraftRight(mem, p, par, t, i, x, s);
      }
    } else if w.End? {
      WalkEnd(t, lo, b, s);
    } else {
      GraftHere(mem, p, par, t, i, x);
      InsertAtNode(t, lo, b, s, x);
    }
  }

  lemma InsertAtNode(t: Tree, lo: nat, b: nat, s: nat, x: nat)
    requires t.Node? && WayOf(t, lo, b, s).Here?
    ensures t.size == s && Insert(t, lo, b, s, x) == t.(ring := RingWith(t.ring, x))
  {
  }

  lemma RingAndSubDomain(mem: Memory, p: nat, par: Link, t: Tree, i: nat)
    requires Rep(mem, p, par, t, i) && t.Node?
    ensures forall a: nat :: a in RingSet(t.ring) + Addrs(t.left) + Addrs(t.right) ==> a in mem
  {
    hide Rep;
    RepDomain(mem, p, par, t, i);
  }

  lemma EndOnce(t: Tree, lo: nat, b: nat, s: nat)
    requires t.Node?
    ensures var w := WayOf(t, lo, b, s);
            && (w.Left? && t.left.Node? ==> b > 0 && EndOf(t, lo, b, s) == EndOf(t.left, lo, b - 1, s))
            && (w.Right? && t.right.Node? ==> b > 0 && EndOf(t, lo, b, s) == EndOf(t.right, lo + Pow2(b - 1), b - 1, s))
            && (!(w.Left? && t.left.Node?) && !(w.Right? && t.right.Node?) ==> EndOf(t, lo, b, s) == (Head(t), w))
  {
  }

  // ----- addresses after insertion -----

  lemma RingSetWith(ring: seq<nat>, x: nat)
    requires ring != []
    ensures RingSet(RingWith(ring, x)) == RingSet(ring) + {x}
    ensures NoDup(ring) && x !in RingSet(ring) ==> NoDup(RingWith(ring, x))
  {
    var r := RingWith(ring, x);
    assert r[0] == ring[0] && r[1] == x;
    forall k | 2 <= k < |r| ensures r[k] == ring[k - 1] {}
    forall a: nat | a in RingSet(ring) ensures a in RingSet(r) {
      var k :| 0 <= k < |ring| && ring[k] == a;
      assert r[if k == 0 then 0 else k + 1] == a;
    }
    forall a: nat | a in RingSet(r) ensures a in RingSet(ring) + {x} {
      var k :| 0 <= k < |r| && r[k] == a;
      assert k != 1 ==> ring[if k == 0 then 0 else k - 1] == a;
    }
  }

  lemma {:induction false} InsertAddrs(t: Tree, lo: nat, b: nat, s: nat, x: nat)
    requires Ordered(t, lo, b) && lo <= s < lo + Pow2(b) && Distinct(t) && x !in Addrs(t)
    ensures Addrs(Insert(t, lo, b, s, x)) == Addrs(t) + {x} && Distinct(Insert(t, lo, b, s, x))
    decreases t
  {
    hide Pow2, Ordered, WayOf, Insert, RingSet, NoDup;
    InsertNil(lo, b, s, x);
    var w := WayOf(t, lo, b, s);
    if w.Left? {
      WalkLeft(t, lo, b, s);
      InsertLeft(t, lo, b, s, x);
      InsertAddrs(t.left, lo, b - 1, s, x);
    } else if w.Right? {
      WalkRight(t, lo, b, s);
      InsertRight(t, lo, b, s, x);
      InsertAddrs(t.right, lo + Pow2(b - 1), b - 1, s, x);
    } else if w.End? {
      WalkEnd(t, lo, b, s);
    } else if t.Node? {
      InsertAtNode(t, lo, b, s, x);
      RingNonEmpty(t, lo, b);
      RingSetWith(t.ring, x);
    } else {
      RingSetOne(x);
    }
  }

  lemma RingSetOne(x: nat)
    ensures RingSet([x]) == {x} && NoDup([x])
  {
    assert [x][0] == x;
  }

  /** A changed bin among unchanged ones. */
  lemma BinChanged(mem: Memory, roots: seq<nat>, trees: seq<Tree>, treemap: set<nat>, i: nat,
                   mem': Memory, p: nat, t: Tree, treemap': set<nat>)
    requires AllBins(mem, roots, trees, treemap) && i < NTREEBINS && BinOk(mem', p, t, i, i in treemap')
    requires forall j: nat :: j != i ==> (j in treemap' <==> j in treemap)
    requires forall j: nat :: j < NTREEBINS && j != i && |trees| == NTREEBINS ==>
             Addrs(trees[j]) !! Addrs(t) && Same(mem, mem', Addrs(trees[j]))
    ensures |roots| == |trees| == NTREEBINS && AllBins(mem', roots[i := p], trees[i := t], treemap')
  {
    hide BinOk, Same, Addrs;
    var roots', trees' := roots[i := p], trees[i := t];
    forall j: nat | j < NTREEBINS ensures BinOk(mem', roots'[j], trees'[j], j, j in treemap') {
      if j != i {
        OneBin(mem, roots, trees, treemap, j);
        BinFrame(mem, mem', roots[j], trees[j], j, j in treemap);
      }
    }
    forall j: nat, k: nat | j < k < NTREEBINS ensures Addrs(trees'[j]) !! Addrs(trees'[k]) {
      assert Addrs(trees[j]) !! Addrs(trees[k]);
    }
  }

  lemma BinFrame(mem: Memory, mem': Memory, p: nat, t: Tree, i: nat, marked: bool)
    requires i < NTREEBINS && BinOk(mem, p, t, i, marked) && Same(mem, mem', Addrs(t))
    ensures BinOk(mem', p, t, i, marked)
  {
    hide Rep, Ordered, Distinct, Lo, FreeBits, ComputeTreeIndex;
    RepFrame(mem, mem', p, Root(i), t, i);
  }

  lemma InsertedBin(mem: Memory, p: nat, t: Tree, i: nat, s: nat, x: nat)
    requires MIN_LARGE_SIZE <= s < SIZE_LIMIT && i == ComputeTreeIndex(s) < NTREEBINS
    requires BinOk(mem, p, t, i, true) && x !in Addrs(t) && x != 0
    ensures var (e, w) := EndOf(t, Lo(i), FreeBits(i), s);
            && e in mem && mem[e].fd in mem && e in Addrs(t) && mem[e].fd in Addrs(t)
            && BinOk(Graft(mem, e, w, x, s, i), p, Insert(t, Lo(i), FreeBits(i), s, x), i, true)
    ensures Addrs(Insert(t, Lo(i), FreeBits(i), s, x)) == Addrs(t) + {x}
  {
    hide Rep, Ordered, Distinct, Lo, FreeBits, ComputeTreeIndex, Graft, Insert, EndOf, Pow2, HasSize, Addrs;
    BinFor(s);
    WalkStart(i);
    BinFacts(mem, p, t, i, true);
    var lo, b := Lo(i), FreeBits(i);
    EndInside(mem, p, Root(i), t, i, lo, b, s);
    GraftRep(mem, p, Root(i), t, i, lo, b, s, x);
    InsertKeepsOrder(t, lo, b, s, x);
    InsertAddrs(t, lo, b, s, x);
    forall s': nat | HasSize(Insert(t, lo, b, s, x), s')
      ensures MIN_LARGE_SIZE <= s' < SIZE_LIMIT && ComputeTreeIndex(s') == i
    {
      InsertSizes(t, lo, b, s, x, s');
      if s' != s { BinSize(mem, p, t, i, true, s'); }
    }
  }

  lemma FirstInBin(mem: Memory, i: nat, s: nat, x: nat)
    requires MIN_LARGE_SIZE <= s < SIZE_LIMIT && i == ComputeTreeIndex(s) < NTREEBINS && x != 0
    ensures BinOk(mem[x := Chunk(s, i, x, x, 0, 0, Root(i))], x, Insert(Nil, Lo(i), FreeBits(i), s, x), i, true)
    ensures Addrs(Insert(Nil, Lo(i), FreeBits(i), s, x)) == {x}
  {
    hide Lo, FreeBits, ComputeTreeIndex, Insert, Pow2, Rep;
    BinFor(s);
    WalkStart(i);
    InsertNil(Lo(i), FreeBits(i), s, x);
    OneChunk(mem[x := Chunk(s, i, x, x, 0, 0, Root(i))], x, Root(i), s, i);
    InsertKeepsOrder(Nil, Lo(i), FreeBits(i), s, x);
    RingSetOne(x);
    SingleNode(s, x);
  }

  lemma SingleNode(s: nat, x: nat)
    ensures Distinct(Node(s, [x], Nil, Nil)) && Addrs(Node(s, [x], Nil, Nil)) == {x}
    ensures forall s': nat :: HasSize(Node(s, [x], Nil, Nil), s') ==> s' == s
  {
    RingSetOne(x);
    assert Addrs(Nil) == {} && Distinct(Nil);
    forall s': nat | HasSize(Node(s, [x], Nil, Nil), s') ensures s' == s { assert !HasSize(Nil, s'); }
  }
}
