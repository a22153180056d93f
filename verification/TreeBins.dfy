/** The tree bins of the heap: inserting, unlinking and choosing large chunks. */
module TreeBins {
  import opened TreeIndex
  import opened Trie
  import opened TreeMemory
  import opened TreeLinks
  import opened TreeUnlink
  import opened TreeRemoval

  /** All large chunks that are free. */
  function AllChunks(trees: seq<Tree>): multiset<ChunkId>
  {
    if trees == [] then multiset{} else AllChunks(trees[..|trees| - 1]) + Chunks(trees[|trees| - 1])
  }

  lemma {:induction false} OneTreeChanged(trees: seq<Tree>, i: nat, t: Tree, m: multiset<ChunkId>)
    requires i < |trees|
    ensures Chunks(t) == Chunks(trees[i]) + m ==> AllChunks(trees[i := t]) == AllChunks(trees) + m
    ensures Chunks(trees[i]) == Chunks(t) + m ==> AllChunks(trees) == AllChunks(trees[i := t]) + m
  {
    hide Chunks;
    var last := |trees| - 1;
    if i < last {
      OneTreeChanged(trees[..last], i, t, m);
      assert trees[i := t][..last] == trees[..last][i := t];
    } else {
      assert trees[i := t][..last] == trees[..last];
    }
  }

  /** x is the address of no free large chunk. */
  ghost predicate Unused(trees: seq<Tree>, x: nat)
  {
    x != 0 && forall i: nat :: i < |trees| ==> x !in Addrs(trees[i])
  }

  // ----- the insertion walk -----

  /** The state of the insertion walk: the node at hand, as pointer and trie, and the bits to come. */
  ghost predicate Descends(m: Memory, i: nat, s: nat, e: nat, par: Link, cur: Tree, lo: nat, b: nat, k: nat)
  {
    && cur.Node? && Rep(m, e, par, cur, i) && Ordered(cur, lo, b)
    && Aligned(lo, b) && lo <= s < lo + Pow2(b) && k == SizeBits(s, b)
  }

  lemma InsertBegins(m: Memory, root: nat, tree: Tree, i: nat, s: nat)
    requires MIN_LARGE_SIZE <= s < SIZE_LIMIT && i == ComputeTreeIndex(s) < NTREEBINS && BinOk(m, root, tree, i, true)
    ensures Descends(m, i, s, root, Root(i), tree, Lo(i), FreeBits(i), SizeBits(s, FreeBits(i)))
  {
    hide Lo, FreeBits, Rep, Ordered, Pow2, SizeBits, ComputeTreeIndex, Distinct, Width;
    BinFacts(m, root, tree, i, true);
    BinFor(s);
    WalkStart(i);
  }

  lemma OrderedRange(t: Tree, lo: nat, b: nat)
    requires t.Node? && Ordered(t, lo, b)
    ensures lo <= t.size < lo + Pow2(b)
  {
  }

  /** One turn of the insertion walk. */
  lemma DescendFacts(m: Memory, i: nat, s: nat, e: nat, par: Link, cur: Tree, lo: nat, b: nat, k: nat)
    requires Descends(m, i, s, e, par, cur, lo, b, k)
    ensures e in m && m[e].size == cur.size && cur.Node?
    ensures m[e].size == s ==> EndOf(cur, lo, b, s) == (e, Here)
    ensures m[e].size != s ==> b > 0
    ensures m[e].size != s && TopBit(k) == 0 ==>
              if m[e].left == 0 then EndOf(cur, lo, b, s) == (e, Left)
              else Descends(m, i, s, m[e].left, At(e), cur.left, lo, b - 1, Shl(k)) &&
                   EndOf(cur.left, lo, b - 1, s) == EndOf(cur, lo, b, s)
    ensures m[e].size != s && TopBit(k) != 0 ==>
              if m[e].right == 0 then EndOf(cur, lo, b, s) == (e, Right)
              else Descends(m, i, s, m[e].right, At(e), cur.right, lo + Pow2(b - 1), b - 1, Shl(k)) &&
                   EndOf(cur.right, lo + Pow2(b - 1), b - 1, s) == EndOf(cur, lo, b, s)
  {
    hide Pow2, SizeBits, Shl, TopBit, Ordered, Rep, Aligned, EndOf, RingOk;
    RepRing(m, e, par, cur, i);
    RepFirst(m, e, par, cur, i);
    RepNode(m, e, par, cur, i);
    EndOnce(cur, lo, b, s);
    OrderedRange(cur, lo, b);
    if cur.size != s {
      InHalf(s, lo, b, cur.size);
      SignBit(s, lo, b);
      if s < lo + Pow2(b - 1) { WalkLeft(cur, lo, b, s); } else { WalkRight(cur, lo, b, s); }
    }
  }

  /** Walk to the node where a chunk of size s belongs. */
  method FindEnd(m: Memory, root: nat, i: nat, s: nat, ghost tree: Tree) returns (e: nat, w: Way)
    requires MIN_LARGE_SIZE <= s < SIZE_LIMIT && i == ComputeTreeIndex(s) < NTREEBINS
    requires BinOk(m, root, tree, i, true)
    ensures (e, w) == EndOf(tree, Lo(i), FreeBits(i), s)
  {
    hide *;
    var k := SizeBits(s, FreeBits(i));
    ghost var cur: Tree, par: Link, lo: nat, b: nat := tree, Root(i), Lo(i), FreeBits(i);
    e := root;
    InsertBegins(m, root, tree, i, s);
    while true
      invariant Descends(m, i, s, e, par, cur, lo, b, k) && EndOf(cur, lo, b, s) == EndOf(tree, Lo(i), FreeBits(i), s)
      decreases b
    {
      DescendFacts(m, i, s, e, par, cur, lo, b, k);
      if m[e].size == s { return e, Here; }
      var right := TopBit(k) != 0;
      k := Shl(k);
      var c := if right then m[e].right else m[e].left;
      if c == 0 { return e, if right then Right else Left; }
      par := At(e);
      if right { cur, lo := cur.right, lo + Pow2(b - 1); } else { cur := cur.left; }
      e, b := c, b - 1;
    }
  }

  // ----- the bins as a whole -----

  lemma InsertKeepsBins(mem: Memory, roots: seq<nat>, trees: seq<Tree>, treemap: set<nat>, s: nat, x: nat)
    requires AllBins(mem, roots, trees, treemap) && MIN_LARGE_SIZE <= s < SIZE_LIMIT && Unused(trees, x)
    requires ComputeTreeIndex(s) in treemap
    ensures |trees| == |roots| == NTREEBINS && ComputeTreeIndex(s) < NTREEBINS
    ensures var i := ComputeTreeIndex(s);
            var (e, w) := EndOf(trees[i], Lo(i), FreeBits(i), s);
            && e in mem && mem[e].fd in mem
            && AllBins(Graft(mem, e, w, x, s, i), roots, trees[i := Insert(trees[i], Lo(i), FreeBits(i), s, x)],
                       treemap)
  {
    hide AllBins, BinOk, EndOf, Graft, Insert, ComputeTreeIndex, Lo, FreeBits, Addrs, Same;
    BinFor(s);
    var i := ComputeTreeIndex(s);
    OneBin(mem, roots, trees, treemap, i);
    InsertedBin(mem, roots[i], trees[i], i, s, x);
    var (e, w) := EndOf(trees[i], Lo(i), FreeBits(i), s);
    var t := Insert(trees[i], Lo(i), FreeBits(i), s, x);
    var mem' := Graft(mem, e, w, x, s, i);
    forall j: nat | j < NTREEBINS && j != i ensures Addrs(trees[j]) !! Addrs(t) && Same(mem, mem', Addrs(trees[j])) {
      Apart(mem, roots, trees, treemap, i, j);
      BinDomain(mem, roots, trees, treemap, j);
      GraftFrame(mem, e, w, x, s, i, Addrs(trees[j]));
    }
    BinChanged(mem, roots, trees, treemap, i, mem', roots[i], t, treemap);
    assert roots[i := roots[i]] == roots;
  }

  lemma FirstKeepsBins(mem: Memory, roots: seq<nat>, trees: seq<Tree>, treemap: set<nat>, s: nat, x: nat)
    requires AllBins(mem, roots, trees, treemap) && MIN_LARGE_SIZE <= s < SIZE_LIMIT && Unused(trees, x)
    requires ComputeTreeIndex(s) !in treemap
    ensures |trees| == |roots| == NTREEBINS && ComputeTreeIndex(s) < NTREEBINS
    ensures var i := ComputeTreeIndex(s);
            && trees[i] == Nil
            && AllBins(mem[x := Chunk(s, i, x, x, 0, 0, Root(i))], roots[i := x],
                       trees[i := Insert(Nil, Lo(i), FreeBits(i), s, x)], treemap + {i})
  {
    hide AllBins, BinOk, Insert, ComputeTreeIndex, Lo, FreeBits, Addrs;
    BinFor(s);
    var i := ComputeTreeIndex(s);
    OneBin(mem, roots, trees, treemap, i);
    BinFacts(mem, roots[i], trees[i], i, false);
    FirstInBin(mem, i, s, x);
    var mem' := mem[x := Chunk(s, i, x, x, 0, 0, Root(i))];
    var t := Insert(Nil, Lo(i), FreeBits(i), s, x);
    forall j: nat | j < NTREEBINS && j != i ensures Addrs(trees[j]) !! Addrs(t) && Same(mem, mem', Addrs(trees[j])) {
      BinDomain(mem, roots, trees, treemap, j);
    }
    BinChanged(mem, roots, trees, treemap, i, mem', x, t, treemap + {i});
  }

  lemma Apart(mem: Memory, roots: seq<nat>, trees: seq<Tree>, treemap: set<nat>, i: nat, j: nat)
    requires AllBins(mem, roots, trees, treemap) && i < NTREEBINS && j < NTREEBINS && i != j
    ensures |trees| == NTREEBINS && Addrs(trees[i]) !! Addrs(trees[j])
  {
    hide BinOk, Addrs;
    if i < j { assert Addrs(trees[i]) !! Addrs(trees[j]); } else { assert Addrs(trees[j]) !! Addrs(trees[i]); }
  }

  lemma BinDomain(mem: Memory, roots: seq<nat>, trees: seq<Tree>, treemap: set<nat>, j: nat)
    requires AllBins(mem, roots, trees, treemap) && j < NTREEBINS
    ensures |trees| == NTREEBINS && forall a: nat :: a in Addrs(trees[j]) ==> a in mem
  {
    hide AllBins, BinOk, Addrs;
    OneBin(mem, roots, trees, treemap, j);
    BinFacts(mem, roots[j], trees[j], j, j in treemap);
    RepDomain(mem, roots[j], Root(j), trees[j], j);
  }

  lemma InsertChunks(mem: Memory, roots: seq<nat>, trees: seq<Tree>, treemap: set<nat>, s: nat, x: nat)
    requires AllBins(mem, roots, trees, treemap) && MIN_LARGE_SIZE <= s < SIZE_LIMIT
    ensures |trees| == NTREEBINS && ComputeTreeIndex(s) < NTREEBINS
    ensures var i := ComputeTreeIndex(s);
            AllChunks(trees[i := Insert(trees[i], Lo(i), FreeBits(i), s, x)]) == AllChunks(trees) + multiset{(x, s)}
  {
    hide AllBins, BinOk, Insert, ComputeTreeIndex, Lo, FreeBits, Pow2, Ordered, AllChunks, Chunks;
    BinFor(s);
    var i := ComputeTreeIndex(s);
    WalkStart(i);
    OneBin(mem, roots, trees, treemap, i);
    BinFacts(mem, roots[i], trees[i], i, i in treemap);
    InsertAdds(trees[i], Lo(i), FreeBits(i), s, x);
    OneTreeChanged(trees, i, Insert(trees[i], Lo(i), FreeBits(i), s, x), multiset{(x, s)});
  }

  // ----- where a stored chunk sits -----

  /** x is the k-th chunk of size s, in bin i. */
  ghost predicate Sits(trees: seq<Tree>, i: nat, s: nat, k: nat, x: nat)
  {
    i < |trees| && HasSize(trees[i], s) && k < |RingOf(trees[i], s)| && RingOf(trees[i], s)[k] == x
  }

  predicate Among(ring: seq<nat>, x: nat)
  {
    exists k :: 0 <= k < |ring| && ring[k] == x
  }

  lemma {:induction false} InRing(ring: seq<nat>, size: nat, x: nat, s: nat)
    requires (x, s) in RingChunks(ring, size)
    ensures s == size && Among(ring, x)
  {
    if x != ring[|ring| - 1] || s != size { InRing(ring[..|ring| - 1], size, x, s); }
  }

  lemma InSubtrie(t: Tree, x: nat, s: nat)
    requires (x, s) in Chunks(t)
    ensures t.Node? && ((x, s) in RingChunks(t.ring, t.size) || (x, s) in Chunks(t.left) || (x, s) in Chunks(t.right))
  {
    hide RingChunks;
  }

  lemma SizeParts(t: Tree, lo: nat, b: nat, s: nat)
    requires Ordered(t, lo, b) && t.Node?
    ensures t.size == s || HasSize(t.left, s) || HasSize(t.right, s) <==> HasSize(t, s)
    ensures HasSize(t.left, s) || HasSize(t.right, s) ==> s != t.size
    ensures HasSize(t.right, s) ==> !HasSize(t.left, s)
    ensures b == 0 ==> t.left.Nil? && t.right.Nil?
    ensures b > 0 ==> Ordered(t.left, lo, b - 1) && Ordered(t.right, lo + Pow2(b - 1), b - 1)
  {
    if HasSize(t.left, s) && HasSize(t.right, s) { LeftBelowRight(t, lo, b, s, s); }
    hide Pow2;
  }

  lemma {:induction false} InTrie(t: Tree, lo: nat, b: nat, x: nat, s: nat)
    requires Ordered(t, lo, b) && (x, s) in Chunks(t)
    ensures HasSize(t, s) && Among(RingOf(t, s), x)
    decreases t
  {
    hide Pow2, Ordered, RingOf, HasSize, RingChunks, Chunks, Among;
    InSubtrie(t, x, s);
    SizeParts(t, lo, b, s);
    assert Chunks(Nil) == multiset{} by { NilChunks(); }
    if (x, s) in RingChunks(t.ring, t.size) {
      InRing(t.ring, t.size, x, s);
      RingOfHere(t, s);
    } else if (x, s) in Chunks(t.left) {
      InTrie(t.left, lo, b - 1, x, s);
      RingOfLeft(t, s);
    } else {
      InTrie(t.right, lo + Pow2(b - 1), b - 1, x, s);
      RingOfRight(t, s);
    }
  }

  lemma NilChunks()
    ensures Chunks(Nil) == multiset{}
  {
  }

  lemma {:induction false} InSomeTree(trees: seq<Tree>, x: nat, s: nat)
    requires (x, s) in AllChunks(trees)
    ensures exists i :: 0 <= i < |trees| && (x, s) in Chunks(trees[i])
  {
    hide Chunks;
    if (x, s) !in Chunks(trees[|trees| - 1]) { InSomeTree(trees[..|trees| - 1], x, s); }
  }

  lemma StoredSits(mem: Memory, roots: seq<nat>, trees: seq<Tree>, treemap: set<nat>, x: nat, s: nat)
    returns (i: nat, k: nat)
    requires AllBins(mem, roots, trees, treemap) && (x, s) in AllChunks(trees)
    ensures i < NTREEBINS && i < |trees| && Sits(trees, i, s, k, x)
  {
    hide AllBins, BinOk, Chunks, RingOf, HasSize, Ordered, AllChunks, Lo, FreeBits;
    OneBin(mem, roots, trees, treemap, 0);
    InSomeTree(trees, x, s);
    i :| 0 <= i < |trees| && (x, s) in Chunks(trees[i]);
    OneBin(mem, roots, trees, treemap, i);
    BinFacts(mem, roots[i], trees[i], i, i in treemap);
    InTrie(trees[i], Lo(i), FreeBits(i), x, s);
    k :| 0 <= k < |RingOf(trees[i], s)| && RingOf(trees[i], s)[k] == x;
  }

  lemma RemoveChunks(mem: Memory, roots: seq<nat>, trees: seq<Tree>, treemap: set<nat>, i: nat, s: nat, k: nat, x: nat)
    requires AllBins(mem, roots, trees, treemap) && i < NTREEBINS && Sits(trees, i, s, k, x)
    ensures AllChunks(trees) == AllChunks(trees[i := Remove(trees[i], Lo(i), FreeBits(i), s, k)]) + multiset{(x, s)}
  {
    hide AllBins, BinOk, Remove, Lo, FreeBits, Pow2, Ordered, AllChunks, Chunks, HasSize, RingOf;
    OneBin(mem, roots, trees, treemap, i);
    BinFacts(mem, roots[i], trees[i], i, i in treemap);
    RemoveTakes(trees[i], Lo(i), FreeBits(i), s, k);
    OneTreeChanged(trees, i, Remove(trees[i], Lo(i), FreeBits(i), s, k), multiset{(x, s)});
  }

  /** What lies in a trie is stored, with the size its header gives. */
  lemma {:induction false} AddrStored(mem: Memory, p: nat, par: Link, t: Tree, i: nat, a: nat)
    requires Rep(mem, p, par, t, i) && a in Addrs(t)
    ensures a in mem && (a, mem[a].size) in Chunks(t)
    decreases t
  {
    hide RingOk, RingChunks;
    if a in RingSet(t.ring) {
      RepRing(mem, p, par, t, i);
      var k :| 0 <= k < |t.ring| && t.ring[k] == a;
      RingSpot(mem, t.ring, t.size, i, k);
      RingHas(t.ring, t.size, k);
    } else if a in Addrs(t.left) {
      AddrStored(mem, mem[p].left, At(p), t.left, i, a);
    } else {
      AddrStored(mem, mem[p].right, At(p), t.right, i, a);
    }
  }

  lemma RingHas(ring: seq<nat>, size: nat, k: nat)
    requires k < |ring|
    ensures (ring[k], size) in RingChunks(ring, size)
  {
    RingSplit(ring, k, size);
  }

  lemma {:induction false} InAll(trees: seq<Tree>, i: nat, c: ChunkId)
    requires i < |trees| && c in Chunks(trees[i])
    ensures c in AllChunks(trees)
  {
    hide Chunks;
    if i < |trees| - 1 { InAll(trees[..|trees| - 1], i, c); }
  }

  lemma BinStored(mem: Memory, roots: seq<nat>, trees: seq<Tree>, treemap: set<nat>, i: nat, a: nat)
    requires AllBins(mem, roots, trees, treemap) && i < NTREEBINS && |trees| == NTREEBINS && a in Addrs(trees[i])
    ensures a in mem && (a, mem[a].size) in AllChunks(trees)
  {
    hide AllBins, BinOk, Addrs, Rep, AllChunks;
    OneBin(mem, roots, trees, treemap, i);
    BinFacts(mem, roots[i], trees[i], i, i in treemap);
    AddrStored(mem, roots[i], Root(i), trees[i], i, a);
    InAll(trees, i, (a, mem[a].size));
  }

  /** What is stored lies in some trie, is large, and its size is found there. */
  lemma StoredSize(mem: Memory, roots: seq<nat>, trees: seq<Tree>, treemap: set<nat>, x: nat, s: nat)
    requires AllBins(mem, roots, trees, treemap) && (x, s) in AllChunks(trees)
    ensures Stored(trees, s) && treemap != {}
  {
    hide AllBins, BinOk, HasSize, RingOf;
    var i, k := StoredSits(mem, roots, trees, treemap, x, s);
    SitsInBin(mem, roots, trees, treemap, i, s, k, x);
  }

  /** The bin in which a chunk sits is not empty. */
  lemma SitsInBin(mem: Memory, roots: seq<nat>, trees: seq<Tree>, treemap: set<nat>, i: nat, s: nat, k: nat, x: nat)
    requires AllBins(mem, roots, trees, treemap) && i < NTREEBINS && Sits(trees, i, s, k, x)
    ensures |roots| == |trees| == NTREEBINS && roots[i] != 0 && i in treemap && BinOk(mem, roots[i], trees[i], i, true)
    ensures HasSize(trees[i], s)
  {
    hide AllBins, BinOk, HasSize, RingOf;
    OneBin(mem, roots, trees, treemap, i);
    BinFacts(mem, roots[i], trees[i], i, i in treemap);
    SizeMeansNode(trees[i], s);
  }

  lemma OtherBins(mem: Memory, roots: seq<nat>, trees: seq<Tree>, treemap: set<nat>, i: nat, t: Tree, mem': Memory)
    requires AllBins(mem, roots, trees, treemap) && i < NTREEBINS && |trees| == NTREEBINS
    requires Addrs(t) <= Addrs(trees[i]) && Same(mem, mem', mem.Keys - Addrs(trees[i]))
    ensures forall j: nat :: j < NTREEBINS && j != i ==> Addrs(trees[j]) !! Addrs(t) && Same(mem, mem', Addrs(trees[j]))
  {
    hide AllBins, BinOk, Addrs;
    forall j: nat | j < NTREEBINS && j != i ensures Addrs(trees[j]) !! Addrs(t) && Same(mem, mem', Addrs(trees[j])) {
      Apart(mem, roots, trees, treemap, i, j);
      BinDomain(mem, roots, trees, treemap, j);
    }
  }

  /** A chunk that is not first of its size leaves. */
  lemma LaterKeepsBins(mem: Memory, roots: seq<nat>, trees: seq<Tree>, treemap: set<nat>, i: nat, s: nat, k: nat,
                       x: nat)
    requires AllBins(mem, roots, trees, treemap) && i < NTREEBINS && Sits(trees, i, s, k, x) && 0 < k
    ensures x in mem && mem[x].fd in mem && mem[x].bk in mem && mem[x].bk != x && mem[x].parent == NoParent
    ensures AllBins(Unring(mem, x), roots, trees[i := Remove(trees[i], Lo(i), FreeBits(i), s, k)], treemap)
  {
    hide AllBins, BinOk, Remove, Lo, FreeBits, Addrs, Same, Unring, HasSize, RingOf;
    SitsInBin(mem, roots, trees, treemap, i, s, k, x);
    LaterRemoved(mem, roots[i], trees[i], i, s, k);
    var t := Remove(trees[i], Lo(i), FreeBits(i), s, k);
    OtherBins(mem, roots, trees, treemap, i, t, Unring(mem, x));
    BinChanged(mem, roots, trees, treemap, i, Unring(mem, x), roots[i], t, treemap);
    assert roots[i := roots[i]] == roots;
  }

  /** What the code sees at a chunk that is first of its size. */
  lemma HeadSeen(mem: Memory, roots: seq<nat>, trees: seq<Tree>, treemap: set<nat>, i: nat, s: nat, x: nat)
    requires AllBins(mem, roots, trees, treemap) && i < NTREEBINS && Sits(trees, i, s, 0, x)
    ensures |roots| == |trees| == NTREEBINS && x in mem && mem[x].index == i && mem[x].fd in mem && mem[x].bk in mem
    ensures mem[x].parent != NoParent && (x != roots[i] <==> mem[x].parent.At?)
    ensures var n := NodeOf(trees[i], s);
            && n.Node? && Distinct(n) && Rep(mem, x, mem[x].parent, n, i) && Head(n) == x
            && (1 < |n.ring| <==> mem[x].bk != x) && (|n.ring| == 1 <==> mem[x].bk == x)
            && (IsLeaf(n) <==> mem[x].right == 0 && mem[x].left == 0)
  {
    hide AllBins, BinOk, Rep, HasSize, RingOf, NodeOf, Distinct, IsLeaf, Addrs;
    SitsInBin(mem, roots, trees, treemap, i, s, 0, x);
    HeadPlace(mem, roots[i], trees[i], i, s);
    var n := NodeOf(trees[i], s);
    RepRing(mem, x, mem[x].parent, n, i);
    RingSpot(mem, n.ring, n.size, i, 0);
    DistinctParts(n);
    assert 1 < |n.ring| ==> n.ring[|n.ring| - 1] != n.ring[0];
    SeekBegins(mem, i, x, mem[x].parent, n);
  }

  /** A chunk that is first of its size leaves. */
  lemma HeadKeepsBins(mem: Memory, roots: seq<nat>, trees: seq<Tree>, treemap: set<nat>, i: nat, s: nat, x: nat,
                      mem1: Memory, r: nat)
    requires AllBins(mem, roots, trees, treemap) && i < NTREEBINS && Sits(trees, i, s, 0, x)
    requires var n := NodeOf(trees[i], s); Head(n) == x && TakenOff(mem, mem1, x, r, n, RemoveRoot(n, 0), i)
    ensures x in mem && x in mem1 && |roots| == |trees| == NTREEBINS && mem1[x].index == mem[x].index
    ensures var xp := mem[x].parent;
            && (xp.At? ==> xp.a in mem1 && xp.a != x) && (r != 0 ==> r in mem1)
            && (r != 0 ==> (mem1[x].left == 0 || mem1[x].left in mem1) && (mem1[x].right == 0 || mem1[x].right in mem1))
            && AllBins(Relink(mem1, x, r, xp), if x == roots[i] then roots[i := r] else roots,
                       trees[i := Remove(trees[i], Lo(i), FreeBits(i), s, 0)],
                       if x == roots[i] && r == 0 then treemap - {i} else treemap)
  {
    hide AllBins, BinOk, Remove, RemoveRoot, Lo, FreeBits, Addrs, Same, HasSize, RingOf, NodeOf, TakenOff, Relink;
    SitsInBin(mem, roots, trees, treemap, i, s, 0, x);
    HeadRemoved(mem, roots[i], trees[i], i, s, mem1, r);
    TakenOffKeeps(mem, mem1, x, r, NodeOf(trees[i], s), RemoveRoot(NodeOf(trees[i], s), 0), i);
    var t := Remove(trees[i], Lo(i), FreeBits(i), s, 0);
    var m := Relink(mem1, x, r, mem[x].parent);
    OtherBins(mem, roots, trees, treemap, i, t, m);
    BinChanged(mem, roots, trees, treemap, i, m, if x == roots[i] then r else roots[i], t,
               if x == roots[i] && r == 0 then treemap - {i} else treemap);
    assert roots[i := roots[i]] == roots;
  }

  /** No stored chunk that fits is smaller. */
  ghost predicate LeastFit(trees: seq<Tree>, nb: nat, size: nat)
  {
    forall c: ChunkId :: c in AllChunks(trees) && nb <= c.1 ==> size <= c.1
  }

  lemma LeastFitIs(mem: Memory, roots: seq<nat>, trees: seq<Tree>, treemap: set<nat>, nb: nat, found: bool, best: nat)
    requires AllBins(mem, roots, trees, treemap) && BestFit(trees, nb, found, best)
    ensures found ==> LeastFit(trees, nb, best)
    ensures !found ==> forall c: ChunkId :: c in AllChunks(trees) ==> c.1 < nb
  {
    hide AllBins, Stored, AllChunks;
    forall c: ChunkId | c in AllChunks(trees) && nb <= c.1 ensures found && best <= c.1 {
      StoredSize(mem, roots, trees, treemap, c.0, c.1);
    }
  }

  lemma LeavesDv(trees: seq<Tree>, nb: nat, best: nat, dvsize: nat)
    requires LeastFit(trees, nb, best) && nb <= dvsize <= best
    ensures forall c: ChunkId :: c in AllChunks(trees) && nb <= c.1 ==> nb <= dvsize <= c.1
  {
    hide AllChunks;
  }

  class TreeBins {
    var mem: Memory
    const bins: array<nat>
    var treemap: set<nat>          // the bitmap, as the set of its one bits
    ghost var trees: seq<Tree>

    ghost predicate Valid()
      reads this, bins
    {
      AllBins(mem, bins[..], trees, treemap)
    }

    constructor ()
      ensures Valid() && fresh(bins) && AllChunks(trees) == multiset{}
    {
      mem, treemap := map[], {};
      trees := seq(NTREEBINS, _ => Nil);
      bins := new nat[NTREEBINS](_ => 0);
      new;
      NoChunks(trees);
    }

    /** Insert the chunk at address x into the bin of its size. */
    method InsertLargeChunk(x: nat, s: nat)
      requires Valid() && MIN_LARGE_SIZE <= s < SIZE_LIMIT && Unused(trees, x)
      modifies this, bins
      ensures Valid() && AllChunks(trees) == old(AllChunks(trees)) + multiset{(x, s)}
      ensures var i := ComputeTreeIndex(s);
              i < |old(trees)| && trees == old(trees)[i := Insert(old(trees)[i], Lo(i), FreeBits(i), s, x)]
    {
      hide *;
      ValidHere();
      BinFor(s);
      var i := ComputeTreeIndex(s);
      InsertChunks(mem, bins[..], trees, treemap, s, x);
      ghost var t := Insert(trees[i], Lo(i), FreeBits(i), s, x);
      if i !in treemap {
        FirstKeepsBins(mem, bins[..], trees, treemap, s, x);
        treemap := treemap + {i};
        bins[i] := x;
        mem := mem[x := Chunk(s, i, x, x, 0, 0, Root(i))];
      } else {
        InsertKeepsBins(mem, bins[..], trees, treemap, s, x);
        OneBin(mem, bins[..], trees, treemap, i);
        var e, w := FindEnd(mem, bins[i], i, s, trees[i]);
        GraftIs(mem, e, w, x, s, i);
        if w == Here {
          var f := mem[e].fd;
          mem := mem[e := mem[e].(fd := x)];
          mem := mem[f := mem[f].(bk := x)];
          mem := mem[x := Chunk(s, i, f, e, 0, 0, NoParent)];
        } else if w == Left {
          mem := mem[e := mem[e].(left := x)];
          mem := mem[x := Chunk(s, i, x, x, 0, 0, At(e))];
        } else if w == Right {
          mem := mem[e := mem[e].(right := x)];
          mem := mem[x := Chunk(s, i, x, x, 0, 0, At(e))];
        }
      }
      trees := trees[i := t];
      ValidIs();
    }

    /** r takes the place of x below xp; with r = 0 the place stays empty. */
    method PutInPlace(x: nat, r: nat, xp: Link)
      requires x in mem && mem[x].index < bins.Length && (bins[mem[x].index] != x ==> xp.At?)
      requires bins[mem[x].index] == x ==> !xp.At?
      requires (xp.At? ==> xp.a in mem && xp.a != x) && (r != 0 ==> r in mem)
      requires r != 0 ==> (mem[x].left == 0 || mem[x].left in mem) && (mem[x].right == 0 || mem[x].right in mem)
      modifies this, bins
      ensures trees == old(trees) && mem == Relink(old(mem), x, r, xp)
      ensures var h := old(mem)[x].index;
              && bins[..] == (if old(bins[..])[h] == x then old(bins[..])[h := r] else old(bins[..]))
              && treemap == (if old(bins[..])[h] == x && r == 0 then old(treemap) - {h} else old(treemap))
    {
      hide *;
      RelinkIs(mem, x, r, xp);
      var h := mem[x].index;
      if bins[h] == x {
        bins[h] := r;
        if r == 0 { treemap := treemap - {h}; }
      } else {
        mem := mem[xp.a := if mem[xp.a].left == x then mem[xp.a].(left := r) else mem[xp.a].(right := r)];
      }
      if r != 0 {
        mem := mem[r := mem[r].(parent := xp)];
        AdoptLeftIs(mem, x, r);
        var c0 := mem[x].left;
        if c0 != 0 {
          mem := mem[r := mem[r].(left := c0)];
          mem := mem[c0 := mem[c0].(parent := At(r))];
        }
        AdoptRightIs(mem, x, r);
        var c1 := mem[x].right;
        if c1 != 0 {
          mem := mem[r := mem[r].(right := c1)];
          mem := mem[c1 := mem[c1].(parent := At(r))];
        }
      }
    }

    /** Take the chunk at address x out of its bin: out of its ring if it shares one; else a leaf from below,
        if there is one, takes its place in the trie. */
    method UnlinkLargeChunk(x: nat, ghost s: nat)
      requires Valid() && (x, s) in AllChunks(trees)
      modifies this, bins
      ensures Valid() && old(AllChunks(trees)) == AllChunks(trees) + multiset{(x, s)}
      ensures exists i: nat, k: nat ::
                i < NTREEBINS && Sits(old(trees), i, s, k, x) &&
                  trees == old(trees)[i := Remove(old(trees)[i], Lo(i), FreeBits(i), s, k)]
    {
      hide *;
      ValidHere();
      ghost var i, k := StoredSits(mem, bins[..], trees, treemap, x, s);
      RemoveChunks(mem, bins[..], trees, treemap, i, s, k, x);
      ghost var t := Remove(trees[i], Lo(i), FreeBits(i), s, k);
      if 0 < k {
        LaterKeepsBins(mem, bins[..], trees, treemap, i, s, k, x);
      } else {
        HeadSeen(mem, bins[..], trees, treemap, i, s, x);
      }
      ghost var mem0 := mem;
      var xp, r := mem[x].parent, 0;
      if mem[x].bk != x {
        if k == 0 { TakeRing(mem, x, xp, NodeOf(trees[i], s), i); }
        UnringIs(mem, x);
        var f := mem[x].fd;
        r := mem[x].bk;
        mem := mem[f := mem[f].(bk := r)];
        mem := mem[r := mem[r].(fd := f)];
      } else if mem[x].right != 0 || mem[x].left != 0 {
        TakeLeaf(mem, x, xp, NodeOf(trees[i], s), i);
        var owner, right;
        owner, right, r := FindLeaf(mem, x, i, xp, NodeOf(trees[i], s));
        ClearIs(mem, owner, right);
        mem := mem[owner := if right then mem[owner].(right := 0) else mem[owner].(left := 0)];
      } else {
        TakeLast(mem, x, xp, NodeOf(trees[i], s), i);
      }
      if xp != NoParent {
        HeadKeepsBins(mem0, bins[..], trees, treemap, i, s, x, mem, r);
        PutInPlace(x, r, xp);
      }
      trees := trees[i := t];
      ValidIs();
    }

    /** Choose a chunk for a large request: the walk in the request's own bin, else the next larger bin, then
        the leftmost path.  Nothing is chosen when nothing fits, or when the designated victim leaves no larger
        a remainder. */
    method ChooseLarge(nb: nat, dvsize: nat) returns (v: nat, rsize: nat)
      requires Valid() && MIN_LARGE_SIZE <= nb < SIZE_LIMIT && dvsize < SIZE_LIMIT
      ensures v != 0 ==>
              (v, nb + rsize) in AllChunks(trees) && LeastFit(trees, nb, nb + rsize) &&
                (dvsize < nb || nb + rsize < dvsize)
      ensures v == 0 ==> forall c: ChunkId :: c in AllChunks(trees) && nb <= c.1 ==> nb <= dvsize <= c.1
    {
      hide *;
      ValidHere();
      ghost var best, k;
      v, rsize, best, k := ChooseFrom(mem, bins, treemap, nb, trees);
      BinFor(nb);
      DvDecides(nb, dvsize, rsize, v != 0, best);
      LeastFitIs(mem, bins[..], trees, treemap, nb, v != 0, best);
      if v != 0 {
        BinStored(mem, bins[..], trees, treemap, k, v);
        if !(rsize < Wrap(dvsize - nb)) {
          LeavesDv(trees, nb, best, dvsize);
          v := 0;
        }
      }
    }

    /** Choose a chunk for a small request, which any chunk of the tree bins can serve. */
    method ChooseSmall(nb: nat) returns (v: nat, rsize: nat)
      requires Valid() && 0 < nb < MIN_LARGE_SIZE && treemap != {}
      ensures (v, nb + rsize) in AllChunks(trees) && LeastFit(trees, nb, nb + rsize)
    {
      hide *;
      ValidHere();
      ghost var best, k;
      v, rsize, best, k := ChooseSmallFrom(mem, bins, treemap, nb, trees);
      LeastFitIs(mem, bins[..], trees, treemap, nb, true, best);
      BinStored(mem, bins[..], trees, treemap, k, v);
    }

    /** An address that no stored chunk has can be inserted. */
    lemma FreeAddress(x: nat)
      requires Valid() && x != 0 && forall s: nat :: (x, s) !in AllChunks(trees)
      ensures Unused(trees, x)
    {
      hide AllBins, Addrs, AllChunks;
      ValidHere();
      OneBin(mem, bins[..], trees, treemap, 0);
      forall i: nat | i < |trees| ensures x !in Addrs(trees[i]) {
        if x in Addrs(trees[i]) { BinStored(mem, bins[..], trees, treemap, i, x); }
      }
    }

    lemma StoredIsLarge(x: nat, s: nat)
      requires Valid() && (x, s) in AllChunks(trees)
      ensures MIN_LARGE_SIZE <= s < SIZE_LIMIT && treemap != {}
    {
      hide AllBins, AllChunks, HasSize, RingOf, BinOk;
      ValidHere();
      StoredSize(mem, bins[..], trees, treemap, x, s);
      ghost var i, k := StoredSits(mem, bins[..], trees, treemap, x, s);
      SitsInBin(mem, bins[..], trees, treemap, i, s, k, x);
      BinSize(mem, bins[..][i], trees[i], i, true, s);
    }

    lemma ValidHere()
      requires Valid()
      ensures AllBins(mem, bins[..], trees, treemap) && bins.Length == NTREEBINS
    {
      hide BinOk;
    }

    lemma ValidIs()
      requires AllBins(mem, bins[..], trees, treemap)
      ensures Valid()
    {
      hide AllBins;
    }
  }

  lemma GraftIs(mem: Memory, e: nat, w: Way, x: nat, s: nat, i: nat)
    requires e in mem && mem[e].fd in mem
    ensures w.Left? ==> Graft(mem, e, w, x, s, i) == mem[e := mem[e].(left := x)][x := Chunk(s, i, x, x, 0, 0, At(e))]
    ensures w.Right? ==> Graft(mem, e, w, x, s, i) == mem[e := mem[e].(right := x)][x := Chunk(s, i, x, x, 0, 0, At(e))]
    ensures w.End? ==> Graft(mem, e, w, x, s, i) == mem
    ensures w.Here? ==>
              var f := mem[e].fd;
              var mem1 := mem[e := mem[e].(fd := x)];
              Graft(mem, e, w, x, s, i) == mem1[f := mem1[f].(bk := x)][x := Chunk(s, i, f, e, 0, 0, NoParent)]
  {
  }

  lemma UnringIs(mem: Memory, x: nat)
    requires x in mem && mem[x].fd in mem && mem[x].bk in mem
    ensures var f, r := mem[x].fd, mem[x].bk;
            var mem1 := mem[f := mem[f].(bk := r)];
            Unring(mem, x) == mem1[r := mem1[r].(fd := f)]
  {
  }

  lemma RelinkIs(mem: Memory, x: nat, r: nat, xp: Link)
    requires x in mem && (xp.At? ==> xp.a in mem && xp.a != x)
    requires r != 0 ==>
             r in mem && (mem[x].left == 0 || mem[x].left in mem) && (mem[x].right == 0 || mem[x].right in mem)
    ensures var m := if xp.At? then
            mem[xp.a := if mem[xp.a].left == x then mem[xp.a].(left := r) else mem[xp.a].(right := r)] else mem;
            && x in m && (r != 0 ==> r in m) && m.Keys == mem.Keys
            && (r == 0 ==> Relink(mem, x, r, xp) == m)
            && (r != 0 ==>
                  var m1 := m[r := m[r].(parent := xp)];
                  && x in m1 && (m1[x].left == 0 || m1[x].left in m1)
                  && var m2 := AdoptLeft(m1, x, r);
                     && x in m2 && r in m2 && (m2[x].right == 0 || m2[x].right in m2)
                     && Relink(mem, x, r, xp) == AdoptRight(m2, x, r))
  {
  }

  lemma AdoptLeftIs(mem: Memory, x: nat, r: nat)
    requires x in mem && r in mem && (mem[x].left == 0 || mem[x].left in mem)
    ensures var c := mem[x].left;
            AdoptLeft(mem, x, r) == if c == 0 then mem
                                    else var m := mem[r := mem[r].(left := c)]; m[c := m[c].(parent := At(r))]
  {
  }

  lemma AdoptRightIs(mem: Memory, x: nat, r: nat)
    requires x in mem && r in mem && (mem[x].right == 0 || mem[x].right in mem)
    ensures var c := mem[x].right;
            AdoptRight(mem, x, r) == if c == 0 then mem
                                     else var m := mem[r := mem[r].(right := c)]; m[c := m[c].(parent := At(r))]
  {
  }

  lemma ClearIs(mem: Memory, owner: nat, right: bool)
    requires owner in mem
    ensures ClearSlot(mem, owner, right) ==
            mem[owner := if right then mem[owner].(right := 0) else mem[owner].(left := 0)]
  {
  }

  lemma {:induction false} NoChunks(trees: seq<Tree>)
    requires forall i :: 0 <= i < |trees| ==> trees[i] == Nil
    ensures AllChunks(trees) == multiset{}
  {
    if trees != [] { NoChunks(trees[..|trees| - 1]); }
  }
}
