/** The bitwise tries that keep free large chunks: what their order is, what insertion, removal and the
    leftmost walk do to it. */
module Trie {
  import opened TreeIndex

  /** A node stands for all chunks of one size: the first of the ring is linked into the trie. */
  datatype Tree = Nil | Node(size: nat, ring: seq<nat>, left: Tree, right: Tree)

  type ChunkId = (nat, nat)   // address and size

  function RingChunks(ring: seq<nat>, size: nat): multiset<ChunkId>
  {
    if ring == [] then multiset{} else RingChunks(ring[..|ring| - 1], size) + multiset{(ring[|ring| - 1], size)}
  }

  /** The chunks stored in a trie. */
  function Chunks(t: Tree): multiset<ChunkId>
  {
    match t
    case Nil => multiset{}
    case Node(size, ring, left, right) => RingChunks(ring, size) + Chunks(left) + Chunks(right)
  }

  predicate HasSize(t: Tree, s: nat)
  {
    t.Node? && (t.size == s || HasSize(t.left, s) || HasSize(t.right, s))
  }

  /** All sizes lie in [lo, lo + 2^b); the left subtree has the lower half, the right one the upper half;
      no size occurs twice. */
  ghost predicate Ordered(t: Tree, lo: nat, b: nat)
    decreases t
  {
    t.Node? ==>
      && t.ring != [] && lo <= t.size < lo + Pow2(b)
      && !HasSize(t.left, t.size) && !HasSize(t.right, t.size)
      && (b == 0 ==> t.left.Nil? && t.right.Nil?)
      && (b > 0 ==> Ordered(t.left, lo, b - 1) && Ordered(t.right, lo + Pow2(b - 1), b - 1))
  }

  lemma {:induction false} SizesWithin(t: Tree, lo: nat, b: nat, s: nat)
    requires Ordered(t, lo, b) && HasSize(t, s)
    ensures lo <= s < lo + Pow2(b)
    decreases t
  {
    if t.size != s {
      assert Pow2(b) == 2 * Pow2(b - 1);
      if HasSize(t.left, s) { SizesWithin(t.left, lo, b - 1, s); }
      else { SizesWithin(t.right, lo + Pow2(b - 1), b - 1, s); }
    }
  }

  /** Which way the walk for size s goes at t. */
  datatype Way = Here | Left | Right | End

  function WayOf(t: Tree, lo: nat, b: nat, s: nat): Way
  {
    if t.Nil? || s == t.size then Here else if b == 0 then End else if s < lo + Pow2(b - 1) then Left else Right
  }

  /** What a walk for size s can rely on. */
  lemma WalkLeft(t: Tree, lo: nat, b: nat, s: nat)
    requires Ordered(t, lo, b) && WayOf(t, lo, b, s).Left?
    ensures t.Node? && b > 0 && Ordered(t.left, lo, b - 1) && !HasSize(t.left, t.size)
    ensures s != t.size && s < lo + Pow2(b - 1) && !HasSize(t.right, s)
    ensures HasSize(t, s) <==> HasSize(t.left, s)
  {
    if HasSize(t.right, s) { SizesWithin(t.right, lo + Pow2(b - 1), b - 1, s); }
  }

  lemma WalkRight(t: Tree, lo: nat, b: nat, s: nat)
    requires Ordered(t, lo, b) && WayOf(t, lo, b, s).Right?
    ensures t.Node? && b > 0 && Ordered(t.right, lo + Pow2(b - 1), b - 1) && !HasSize(t.right, t.size)
    ensures s != t.size && lo + Pow2(b - 1) <= s && !HasSize(t.left, s)
    ensures HasSize(t, s) <==> HasSize(t.right, s)
    ensures Pow2(b) == 2 * Pow2(b - 1)
  {
    if HasSize(t.left, s) { SizesWithin(t.left, lo, b - 1, s); }
  }

  lemma WalkEnd(t: Tree, lo: nat, b: nat, s: nat)
    requires Ordered(t, lo, b) && WayOf(t, lo, b, s).End?
    ensures t.Node? && b == 0 && !(lo <= s < lo + Pow2(b)) && !HasSize(t, s)
  {
    assert Pow2(0) == 1;
  }

  lemma WalkHere(t: Tree, lo: nat, b: nat, s: nat)
    requires t.Node?
    ensures WayOf(t, lo, b, s).Here? <==> s == t.size
  {
  }

  lemma HalfWidth(b: nat)
    ensures b == 0 ==> Pow2(b) == 1
    ensures b > 0 ==> Pow2(b) == 2 * Pow2(b - 1)
  {
  }

  lemma WithLeft(t: Tree, lo: nat, b: nat, l: Tree)
    requires t.Node? && b > 0 && Ordered(t, lo, b) && Ordered(l, lo, b - 1) && !HasSize(l, t.size)
    ensures Ordered(t.(left := l), lo, b)
  {
  }

  lemma WithRight(t: Tree, lo: nat, b: nat, r: Tree)
    requires t.Node? && b > 0 && Ordered(t, lo, b) && Ordered(r, lo + Pow2(b - 1), b - 1) && !HasSize(r, t.size)
    ensures Ordered(t.(right := r), lo, b)
  {
  }

  // ----- insertion -----

  function Insert(t: Tree, lo: nat, b: nat, s: nat, a: nat): Tree
    decreases t
  {
    match WayOf(t, lo, b, s)
    case Here => if t.Nil? then Node(s, [a], Nil, Nil) else t.(ring := RingWith(t.ring, a))
    case Left => t.(left := Insert(t.left, lo, b - 1, s, a))
    case Right => t.(right := Insert(t.right, lo + Pow2(b - 1), b - 1, s, a))
    case End => t
  }

  lemma InsertNil(lo: nat, b: nat, s: nat, a: nat)
    ensures Insert(Nil, lo, b, s, a) == Node(s, [a], Nil, Nil) && WayOf(Nil, lo, b, s).Here?
  {
  }

  /** A chunk joins a ring behind its first member. */
  function RingWith(ring: seq<nat>, a: nat): seq<nat>
  {
    if ring == [] then [a] else [ring[0], a] + ring[1..]
  }

  lemma RingChunksJoin(x: seq<nat>, y: seq<nat>, size: nat)
    ensures RingChunks(x + y, size) == RingChunks(x, size) + RingChunks(y, size)
    decreases |y|
  {
    if y == [] {
      assert x + y == x;
    } else {
      assert (x + y)[..|x + y| - 1] == x + y[..|y| - 1];
      RingChunksJoin(x, y[..|y| - 1], size);
    }
  }

  lemma RingOfOne(a: nat, size: nat)
    ensures RingChunks([a], size) == multiset{(a, size)}
  {
    assert [a][..0] == [];
  }

  lemma RingInsert(ring: seq<nat>, a: nat, size: nat)
    requires ring != []
    ensures RingChunks(RingWith(ring, a), size) == RingChunks(ring, size) + multiset{(a, size)}
  {
    assert [ring[0], a] + ring[1..] == [ring[0]] + ([a] + ring[1..]);
    assert ring == [ring[0]] + ring[1..];
    RingChunksJoin([ring[0]], [a] + ring[1..], size);
    RingChunksJoin([a], ring[1..], size);
    RingChunksJoin([ring[0]], ring[1..], size);
    RingOfOne(a, size);
  }

  lemma InsertLeft(t: Tree, lo: nat, b: nat, s: nat, a: nat)
    requires t.Node? && WayOf(t, lo, b, s).Left?
    ensures b > 0 && Insert(t, lo, b, s, a) == t.(left := Insert(t.left, lo, b - 1, s, a))
  {
  }

  lemma InsertRight(t: Tree, lo: nat, b: nat, s: nat, a: nat)
    requires t.Node? && WayOf(t, lo, b, s).Right?
    ensures b > 0 && Insert(t, lo, b, s, a) == t.(right := Insert(t.right, lo + Pow2(b - 1), b - 1, s, a))
  {
  }

  /** At its place the chunk starts a node, or joins a ring. */
  lemma InsertHere(t: Tree, lo: nat, b: nat, s: nat, a: nat)
    requires Ordered(t, lo, b) && lo <= s < lo + Pow2(b) && WayOf(t, lo, b, s).Here?
    ensures Insert(t, lo, b, s, a).Node? && Ordered(Insert(t, lo, b, s, a), lo, b)
    ensures forall s' :: HasSize(Insert(t, lo, b, s, a), s') <==> HasSize(t, s') || s' == s
  {
    hide Pow2;
  }

  lemma InsertHereAdds(t: Tree, lo: nat, b: nat, s: nat, a: nat)
    requires WayOf(t, lo, b, s).Here? && (t.Node? ==> t.ring != [])
    ensures Chunks(Insert(t, lo, b, s, a)) == Chunks(t) + multiset{(a, s)}
  {
    RingOfOne(a, s);
    if t.Node? {
      RingInsert(t.ring, a, s);
      ChunksParts(t, Nil, Nil, RingWith(t.ring, a));
      hide RingChunks, RingWith, Chunks;
    }
  }

  lemma {:induction false} InsertSizes(t: Tree, lo: nat, b: nat, s: nat, a: nat, s': nat)
    requires Ordered(t, lo, b) && lo <= s < lo + Pow2(b)
    ensures HasSize(Insert(t, lo, b, s, a), s') <==> HasSize(t, s') || s' == s
    decreases t
  {
    hide Pow2, Ordered, WayOf, Insert;
    var w := WayOf(t, lo, b, s);
    if w.Left? {
      WalkLeft(t, lo, b, s);
      InsertLeft(t, lo, b, s, a);
      InsertSizes(t.left, lo, b - 1, s, a, s');
    } else if w.Right? {
      WalkRight(t, lo, b, s);
      InsertRight(t, lo, b, s, a);
      InsertSizes(t.right, lo + Pow2(b - 1), b - 1, s, a, s');
    } else if w.End? {
      WalkEnd(t, lo, b, s);
    } else {
      InsertHere(t, lo, b, s, a);
    }
  }

  /** Insertion keeps the order. */
  lemma {:induction false} InsertKeepsOrder(t: Tree, lo: nat, b: nat, s: nat, a: nat)
    requires Ordered(t, lo, b) && lo <= s < lo + Pow2(b)
    ensures Insert(t, lo, b, s, a).Node? && Ordered(Insert(t, lo, b, s, a), lo, b)
    decreases t
  {
    hide Pow2, Ordered, WayOf, Insert, HasSize;
    var w := WayOf(t, lo, b, s);
    if w.Left? {
      WalkLeft(t, lo, b, s);
      InsertLeft(t, lo, b, s, a);
      InsertKeepsOrder(t.left, lo, b - 1, s, a);
      InsertSizes(t.left, lo, b - 1, s, a, t.size);
      WithLeft(t, lo, b, Insert(t.left, lo, b - 1, s, a));
    } else if w.Right? {
      WalkRight(t, lo, b, s);
      InsertRight(t, lo, b, s, a);
      InsertKeepsOrder(t.right, lo + Pow2(b - 1), b - 1, s, a);
      InsertSizes(t.right, lo + Pow2(b - 1), b - 1, s, a, t.size);
      WithRight(t, lo, b, Insert(t.right, lo + Pow2(b - 1), b - 1, s, a));
    } else if w.End? {
      WalkEnd(t, lo, b, s);
    } else {
      InsertHere(t, lo, b, s, a);
    }
  }

  lemma ChunksParts(t: Tree, l: Tree, r: Tree, ring: seq<nat>)
    requires t.Node?
    ensures Chunks(t) == RingChunks(t.ring, t.size) + Chunks(t.left) + Chunks(t.right)
    ensures Chunks(t.(left := l)) == RingChunks(t.ring, t.size) + Chunks(l) + Chunks(t.right)
    ensures Chunks(t.(right := r)) == RingChunks(t.ring, t.size) + Chunks(t.left) + Chunks(r)
    ensures Chunks(t.(ring := ring)) == RingChunks(ring, t.size) + Chunks(t.left) + Chunks(t.right)
  {
  }

  /** Replacing a subtree changes the stored chunks by what the subtree changed. */
  lemma ShiftLeft(t: Tree, l: Tree, m: multiset<ChunkId>)
    requires t.Node?
    ensures Chunks(l) == Chunks(t.left) + m ==> Chunks(t.(left := l)) == Chunks(t) + m
    ensures Chunks(t.left) == Chunks(l) + m ==> Chunks(t) == Chunks(t.(left := l)) + m
  {
    ChunksParts(t, l, Nil, []);
    hide Chunks, RingChunks;
  }

  lemma ShiftRight(t: Tree, r: Tree, m: multiset<ChunkId>)
    requires t.Node?
    ensures Chunks(r) == Chunks(t.right) + m ==> Chunks(t.(right := r)) == Chunks(t) + m
    ensures Chunks(t.right) == Chunks(r) + m ==> Chunks(t) == Chunks(t.(right := r)) + m
  {
    ChunksParts(t, Nil, r, []);
    hide Chunks, RingChunks;
  }

  lemma RingNonEmpty(t: Tree, lo: nat, b: nat)
    requires Ordered(t, lo, b)
    ensures t.Node? ==> t.ring != []
  {
  }

  /** Insertion adds exactly the one chunk. */
  lemma {:induction false} InsertAdds(t: Tree, lo: nat, b: nat, s: nat, a: nat)
    requires Ordered(t, lo, b) && lo <= s < lo + Pow2(b)
    ensures Chunks(Insert(t, lo, b, s, a)) == Chunks(t) + multiset{(a, s)}
    decreases t
  {
    hide Pow2, Ordered, WayOf, Insert, HasSize, RingChunks, Chunks;
    var w := WayOf(t, lo, b, s);
    if w.Left? {
      WalkLeft(t, lo, b, s);
      InsertLeft(t, lo, b, s, a);
      InsertAdds(t.left, lo, b - 1, s, a);
      ShiftLeft(t, Insert(t.left, lo, b - 1, s, a), multiset{(a, s)});
    } else if w.Right? {
      WalkRight(t, lo, b, s);
      InsertRight(t, lo, b, s, a);
      InsertAdds(t.right, lo + Pow2(b - 1), b - 1, s, a);
      ShiftRight(t, Insert(t.right, lo + Pow2(b - 1), b - 1, s, a), multiset{(a, s)});
    } else if w.End? {
      WalkEnd(t, lo, b, s);
    } else {
      RingNonEmpty(t, lo, b);
      InsertHereAdds(t, lo, b, s, a);
    }
  }

  // ----- removal -----

  /** Take out the leaf reached by going right where possible, else left. */
  function Pluck(t: Tree): (r: (Tree, Tree))
    requires t.Node?
    ensures r.0.Node? && r.0.left.Nil? && r.0.right.Nil?
  {
    if t.right.Node? then
      var (leaf, rest) := Pluck(t.right);
      (leaf, t.(right := rest))
    else if t.left.Node? then
      var (leaf, rest) := Pluck(t.left);
      (leaf, t.(left := rest))
    else (t, Nil)
  }

  /** A node gives way to a leaf from below it, or to nothing. */
  function DropRoot(t: Tree): Tree
    requires t.Node?
  {
    if t.right.Node? then
      var (leaf, rest) := Pluck(t.right);
      Node(leaf.size, leaf.ring, t.left, rest)
    else if t.left.Node? then
      var (leaf, rest) := Pluck(t.left);
      Node(leaf.size, leaf.ring, rest, t.right)
    else Nil
  }

  /** Take a out of a ring; the one behind it takes the first place if a had it. */
  function RingWithout(ring: seq<nat>, k: nat): seq<nat>
    requires k < |ring| && 1 < |ring|
  {
    if k == 0 then [ring[|ring| - 1]] + ring[1..|ring| - 1] else ring[..k] + ring[k + 1..]
  }

  lemma RingSplit(ring: seq<nat>, k: nat, size: nat)
    requires k < |ring|
    ensures RingChunks(ring, size) == RingChunks(ring[..k] + ring[k + 1..], size) + multiset{(ring[k], size)}
  {
    assert ring == ring[..k] + ([ring[k]] + ring[k + 1..]);
    RingChunksJoin(ring[..k], [ring[k]] + ring[k + 1..], size);
    RingChunksJoin([ring[k]], ring[k + 1..], size);
    RingChunksJoin(ring[..k], ring[k + 1..], size);
    RingOfOne(ring[k], size);
  }

  lemma RingRemove(ring: seq<nat>, k: nat, size: nat)
    requires k < |ring| && 1 < |ring|
    ensures RingChunks(RingWithout(ring, k), size) == RingChunks(ring, size) - multiset{(ring[k], size)}
  {
    RingSplit(ring, k, size);
    if k == 0 {
      var n := |ring|;
      assert ring[..0] + ring[1..] == ring[1..n - 1] + [ring[n - 1]];
      RingChunksJoin(ring[1..n - 1], [ring[n - 1]], size);
      RingChunksJoin([ring[n - 1]], ring[1..n - 1], size);
    }
  }

  /** Remove the k-th chunk of size s. */
  function Remove(t: Tree, lo: nat, b: nat, s: nat, k: nat): Tree
    decreases t
  {
    match WayOf(t, lo, b, s)
    case Here => RemoveRoot(t, k)
    case Left => t.(left := Remove(t.left, lo, b - 1, s, k))
    case Right => t.(right := Remove(t.right, lo + Pow2(b - 1), b - 1, s, k))
    case End => t
  }

  lemma RemoveLeft(t: Tree, lo: nat, b: nat, s: nat, k: nat)
    requires WayOf(t, lo, b, s).Left?
    ensures t.Node? && b > 0 && Remove(t, lo, b, s, k) == t.(left := Remove(t.left, lo, b - 1, s, k))
  {
  }

  lemma RemoveRight(t: Tree, lo: nat, b: nat, s: nat, k: nat)
    requires WayOf(t, lo, b, s).Right?
    ensures t.Node? && b > 0 && Remove(t, lo, b, s, k) == t.(right := Remove(t.right, lo + Pow2(b - 1), b - 1, s, k))
  {
  }

  lemma RemoveStays(t: Tree, lo: nat, b: nat, s: nat, k: nat)
    requires WayOf(t, lo, b, s).End? || t.Nil?
    ensures Remove(t, lo, b, s, k) == t
  {
  }

  lemma RemoveHere(t: Tree, lo: nat, b: nat, s: nat, k: nat)
    requires t.Node? && WayOf(t, lo, b, s).Here?
    ensures t.size == s && Remove(t, lo, b, s, k) == RemoveRoot(t, k)
  {
  }

  function RemoveRoot(t: Tree, k: nat): Tree
  {
    if t.Nil? then t
    else if 1 < |t.ring| && k < |t.ring| then t.(ring := RingWithout(t.ring, k))
    else DropRoot(t)
  }

  /** The ring of the chunks of size s. */
  function RingOf(t: Tree, s: nat): seq<nat>
  {
    if t.Nil? then []
    else if t.size == s then t.ring
    else if HasSize(t.left, s) then RingOf(t.left, s)
    else RingOf(t.right, s)
  }

  lemma {:induction false} PluckSizes(t: Tree, lo: nat, b: nat, s: nat)
    requires t.Node? && Ordered(t, lo, b)
    ensures HasSize(t, s) <==> (HasSize(Pluck(t).1, s) || s == Pluck(t).0.size)
    ensures !HasSize(Pluck(t).1, Pluck(t).0.size)
    ensures lo <= Pluck(t).0.size < lo + Pow2(b) && Pluck(t).0.ring != []
    decreases t
  {
    HalfWidth(b);
    hide Pow2;
    var leaf := Pluck(t).0;
    if t.right.Node? {
      PluckSizes(t.right, lo + Pow2(b - 1), b - 1, s);
      PluckSizes(t.right, lo + Pow2(b - 1), b - 1, leaf.size);
      if HasSize(t.left, leaf.size) { SizesWithin(t.left, lo, b - 1, leaf.size); }
    } else if t.left.Node? {
      PluckSizes(t.left, lo, b - 1, s);
      PluckSizes(t.left, lo, b - 1, leaf.size);
    }
  }

  lemma {:induction false} PluckKeepsOrder(t: Tree, lo: nat, b: nat)
    requires t.Node? && Ordered(t, lo, b)
    ensures Ordered(Pluck(t).1, lo, b)
    decreases t
  {
    hide Pow2;
    if t.right.Node? {
      PluckKeepsOrder(t.right, lo + Pow2(b - 1), b - 1);
      PluckSizes(t.right, lo + Pow2(b - 1), b - 1, t.size);
    } else if t.left.Node? {
      PluckKeepsOrder(t.left, lo, b - 1);
      PluckSizes(t.left, lo, b - 1, t.size);
    }
  }

  lemma {:induction false} PluckChunks(t: Tree)
    requires t.Node?
    ensures Chunks(t) == Chunks(Pluck(t).1) + RingChunks(Pluck(t).0.ring, Pluck(t).0.size)
  {
    hide RingChunks;
    if t.right.Node? {
      PluckChunks(t.right);
    } else if t.left.Node? {
      PluckChunks(t.left);
    }
  }

  lemma DropSizes(t: Tree, lo: nat, b: nat, s: nat)
    requires t.Node? && Ordered(t, lo, b)
    ensures HasSize(DropRoot(t), s) <==> HasSize(t, s) && s != t.size
  {
    hide Pow2;
    if t.right.Node? {
      PluckSizes(t.right, lo + Pow2(b - 1), b - 1, s);
      PluckSizes(t.right, lo + Pow2(b - 1), b - 1, t.size);
    } else if t.left.Node? {
      PluckSizes(t.left, lo, b - 1, s);
      PluckSizes(t.left, lo, b - 1, t.size);
    }
  }

  /** Dropping a node keeps the order: its replacement comes from its own interval. */
  lemma DropKeepsOrder(t: Tree, lo: nat, b: nat)
    requires t.Node? && Ordered(t, lo, b)
    ensures Ordered(DropRoot(t), lo, b)
  {
    HalfWidth(b);
    hide Pow2;
    if t.right.Node? {
      var leaf := Pluck(t.right).0;
      PluckKeepsOrder(t.right, lo + Pow2(b - 1), b - 1);
      PluckSizes(t.right, lo + Pow2(b - 1), b - 1, leaf.size);
      if HasSize(t.left, leaf.size) { SizesWithin(t.left, lo, b - 1, leaf.size); }
    } else if t.left.Node? {
      PluckKeepsOrder(t.left, lo, b - 1);
      PluckSizes(t.left, lo, b - 1, Pluck(t.left).0.size);
    }
  }

  lemma DropChunks(t: Tree)
    requires t.Node?
    ensures Chunks(t) == Chunks(DropRoot(t)) + RingChunks(t.ring, t.size)
  {
    hide RingChunks;
    if t.right.Node? { PluckChunks(t.right); }
    else if t.left.Node? { PluckChunks(t.left); }
  }

  lemma RemoveRootOk(t: Tree, lo: nat, b: nat, k: nat)
    requires t.Node? && Ordered(t, lo, b)
    ensures Ordered(RemoveRoot(t, k), lo, b)
    ensures forall s :: HasSize(RemoveRoot(t, k), s) ==> HasSize(t, s)
  {
    DropKeepsOrder(t, lo, b);
    forall s | HasSize(RemoveRoot(t, k), s) ensures HasSize(t, s) { DropSizes(t, lo, b, s); }
    hide Pow2, DropRoot;
  }

  lemma RemoveRootTakes(t: Tree, k: nat)
    requires t.Node? && k < |t.ring|
    ensures Chunks(t) == Chunks(RemoveRoot(t, k)) + multiset{(t.ring[k], t.size)}
  {
    if 1 < |t.ring| {
      var ring := RingWithout(t.ring, k);
      RingRemoved(t.ring, k, t.size);
      ChunksParts(t, Nil, Nil, ring);
      hide RingChunks, Chunks, RingWithout;
    } else {
      DropChunks(t);
      assert t.ring == [t.ring[0]];
      RingOfOne(t.ring[0], t.size);
      hide RingChunks, Chunks, DropRoot;
    }
  }

  lemma RingRemoved(ring: seq<nat>, k: nat, size: nat)
    requires k < |ring| && 1 < |ring|
    ensures RingChunks(ring, size) == RingChunks(RingWithout(ring, k), size) + multiset{(ring[k], size)}
  {
    RingRemove(ring, k, size);
    RingSplit(ring, k, size);
    hide RingChunks, RingWithout;
  }

  lemma {:induction false} RemoveSizes(t: Tree, lo: nat, b: nat, s: nat, k: nat, s': nat)
    requires Ordered(t, lo, b) && HasSize(Remove(t, lo, b, s, k), s')
    ensures HasSize(t, s')
    decreases t
  {
    hide Pow2, Ordered, RemoveRoot, WayOf, Remove;
    var w := WayOf(t, lo, b, s);
    if w.Left? {
      WalkLeft(t, lo, b, s);
      RemoveLeft(t, lo, b, s, k);
      if HasSize(Remove(t.left, lo, b - 1, s, k), s') { RemoveSizes(t.left, lo, b - 1, s, k, s'); }
    } else if w.Right? {
      WalkRight(t, lo, b, s);
      RemoveRight(t, lo, b, s, k);
      if HasSize(Remove(t.right, lo + Pow2(b - 1), b - 1, s, k), s') {
        RemoveSizes(t.right, lo + Pow2(b - 1), b - 1, s, k, s');
      }
    } else if w.End? || t.Nil? {
      RemoveStays(t, lo, b, s, k);
    } else {
      RemoveHere(t, lo, b, s, k);
      RemoveRootOk(t, lo, b, k);
    }
  }

  /** Removal keeps the order. */
  lemma {:induction false} RemoveKeepsOrder(t: Tree, lo: nat, b: nat, s: nat, k: nat)
    requires Ordered(t, lo, b)
    ensures Ordered(Remove(t, lo, b, s, k), lo, b)
    decreases t
  {
    hide Pow2, Ordered, RemoveRoot, HasSize, WayOf, Remove;
    var w := WayOf(t, lo, b, s);
    if w.Left? {
      WalkLeft(t, lo, b, s);
      RemoveLeft(t, lo, b, s, k);
      RemoveKeepsOrder(t.left, lo, b - 1, s, k);
      if HasSize(Remove(t.left, lo, b - 1, s, k), t.size) { RemoveSizes(t.left, lo, b - 1, s, k, t.size); }
      WithLeft(t, lo, b, Remove(t.left, lo, b - 1, s, k));
    } else if w.Right? {
      WalkRight(t, lo, b, s);
      RemoveRight(t, lo, b, s, k);
      RemoveKeepsOrder(t.right, lo + Pow2(b - 1), b - 1, s, k);
      if HasSize(Remove(t.right, lo + Pow2(b - 1), b - 1, s, k), t.size) {
        RemoveSizes(t.right, lo + Pow2(b - 1), b - 1, s, k, t.size);
      }
      WithRight(t, lo, b, Remove(t.right, lo + Pow2(b - 1), b - 1, s, k));
    } else if w.End? || t.Nil? {
      RemoveStays(t, lo, b, s, k);
    } else {
      RemoveHere(t, lo, b, s, k);
      RemoveRootOk(t, lo, b, k);
    }
  }

  lemma RingOfHere(t: Tree, s: nat)
    requires t.Node? && t.size == s
    ensures RingOf(t, s) == t.ring
  {
  }

  lemma RingOfLeft(t: Tree, s: nat)
    requires t.Node? && t.size != s && HasSize(t.left, s)
    ensures RingOf(t, s) == RingOf(t.left, s)
  {
  }

  lemma RingOfRight(t: Tree, s: nat)
    requires t.Node? && t.size != s && !HasSize(t.left, s)
    ensures RingOf(t, s) == RingOf(t.right, s)
  {
  }

  /** Removal takes away exactly the one chunk. */
  lemma {:induction false} RemoveTakes(t: Tree, lo: nat, b: nat, s: nat, k: nat)
    requires Ordered(t, lo, b) && HasSize(t, s) && k < |RingOf(t, s)|
    ensures Chunks(t) == Chunks(Remove(t, lo, b, s, k)) + multiset{(RingOf(t, s)[k], s)}
    decreases t
  {
    hide Pow2, Ordered, RemoveRoot, RingChunks, WayOf, Remove, HasSize, Chunks, RingOf;
    var m := multiset{(RingOf(t, s)[k], s)};
    var w := WayOf(t, lo, b, s);
    if w.Left? {
      WalkLeft(t, lo, b, s);
      RemoveLeft(t, lo, b, s, k);
      RingOfLeft(t, s);
      RemoveTakes(t.left, lo, b - 1, s, k);
      ShiftLeft(t, Remove(t.left, lo, b - 1, s, k), m);
    } else if w.Right? {
      WalkRight(t, lo, b, s);
      RemoveRight(t, lo, b, s, k);
      RingOfRight(t, s);
      RemoveTakes(t.right, lo + Pow2(b - 1), b - 1, s, k);
      ShiftRight(t, Remove(t.right, lo + Pow2(b - 1), b - 1, s, k), m);
    } else if w.End? {
      WalkEnd(t, lo, b, s);
    } else {
      SizeMeansNode(t, s);
      RemoveHere(t, lo, b, s, k);
      RingOfHere(t, s);
      RemoveRootTakes(t, k);
    }
  }

  lemma SizeMeansNode(t: Tree, s: nat)
    requires HasSize(t, s)
    ensures t.Node?
  {
  }

  // ----- the least size -----

  /** In an ordered trie every size on the left is below every size on the right. */
  lemma LeftBelowRight(t: Tree, lo: nat, b: nat, s: nat, s': nat)
    requires t.Node? && Ordered(t, lo, b) && HasSize(t.left, s) && HasSize(t.right, s')
    ensures s < s'
  {
    SizesWithin(t.left, lo, b - 1, s);
    SizesWithin(t.right, lo + Pow2(b - 1), b - 1, s');
  }
}
