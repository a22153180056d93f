/** Allocation and release of chunks in one segment, over boundary tags, small bins, tree bins, the designated
    victim and the top chunk. */
module Heap {
  import opened HeapTags
  import opened TreeIndex
  import T = Trie
  import S = SmallBins
  import B = TreeBins
  import M = TreeMemory

  type ChunkId = T.ChunkId

  const CHUNK_OVERHEAD: nat := 8
  const CHUNK2MEM: nat := 16
  const MIN_REQUEST: nat := 23
  const MAX_SMALL_REQUEST: nat := 232
  const MAX_REQUEST: nat := 0xFFFF_FFFF_FFFF_FF80
  const MAX_SIZE_T: nat := 0xFFFF_FFFF_FFFF_FFFF

  function Request2Size(bytes: nat): nat
  {
    if bytes < MIN_REQUEST then MIN_CHUNK_SIZE else (bytes + CHUNK_OVERHEAD + ALIGNMENT - 1) / ALIGNMENT * ALIGNMENT
  }

  lemma RequestFacts(bytes: nat)
    ensures var nb := Request2Size(bytes);
            && nb % ALIGNMENT == 0 && MIN_CHUNK_SIZE <= nb && bytes + CHUNK_OVERHEAD <= nb
            && nb < bytes + CHUNK_OVERHEAD + MIN_CHUNK_SIZE
            && (bytes <= MAX_SMALL_REQUEST <==> nb < MIN_LARGE_SIZE)
  {
  }

  /** The padded request is the least size that will do. */
  lemma RequestIsLeast(bytes: nat, size: nat)
    requires size % ALIGNMENT == 0 && MIN_CHUNK_SIZE <= size && bytes + CHUNK_OVERHEAD <= size
    ensures Request2Size(bytes) <= size
  {
  }

  // ----- which free chunk is kept where -----

  function DvChunk(dv: nat, dvsize: nat): multiset<ChunkId>
  {
    if dvsize == 0 then multiset{} else multiset{(dv, dvsize)}
  }

  /** Each free chunk below top is the designated victim or in one bin, once; but for those owed to a bin. */
  ghost predicate Binned(bs: seq<Block>, t: multiset<ChunkId>, s: multiset<ChunkId>, dv: nat, dvsize: nat,
                         owed: multiset<ChunkId>)
  {
    bs != [] && FreeBelow(bs) == t + s + DvChunk(dv, dvsize) + owed
  }

  ghost predicate Fixed(bs: seq<Block>, base: nat, limit: nat, dv: nat, dvsize: nat, top: nat, topsize: nat)
  {
    && bs != [] && S.NSMALLBINS <= base && (dv == 0 <==> dvsize == 0)
    && End(bs[|bs| - 1]) == limit < base + SIZE_LIMIT
    && top == bs[|bs| - 1].at && topsize == bs[|bs| - 1].size
  }

  /** Sizes are within the segment. */
  lemma SizesLimited(h: Heads, f: Feet, bs: seq<Block>, base: nat, limit: nat, dv: nat, dvsize: nat, top: nat,
                     topsize: nat, k: nat)
    requires Laid(h, f, bs, base) && Fixed(bs, base, limit, dv, dvsize, top, topsize) && k < |bs|
    ensures bs[k].size < SIZE_LIMIT && S.NSMALLBINS <= bs[k].at && bs[k].at != 0 && bs[k].at % ALIGNMENT == 0
    ensures bs[k].size % ALIGNMENT == 0
  {
    hide Laid;
    AllAligned(h, f, bs, base, k);
    if k < |bs| - 1 { InOrder(h, f, bs, base, k, |bs| - 1); }
    OneBlock(h, f, bs, base, k);
  }

  /** Where a free chunk below top lies. */
  lemma FreeAt(bs: seq<Block>, c: ChunkId) returns (k: nat)
    requires bs != [] && c in FreeBelow(bs)
    ensures k + 1 < |bs| && bs[k] == Block(c.0, c.1, false)
  {
    k := PickedAt(bs[..|bs| - 1], false, c);
  }

  lemma FreeHas(bs: seq<Block>, k: nat)
    requires k + 1 < |bs| && !bs[k].used
    ensures (bs[k].at, bs[k].size) in FreeBelow(bs)
  {
    PickedHas(bs[..|bs| - 1], k);
  }

  /** Two free chunks below top at one address are the same, and each is there once. */
  lemma FreeOnce(h: Heads, f: Feet, bs: seq<Block>, base: nat, c: ChunkId, d: ChunkId)
    requires Laid(h, f, bs, base) && bs != [] && c in FreeBelow(bs)
    ensures FreeBelow(bs)[c] == 1
    ensures d in FreeBelow(bs) && d.0 == c.0 ==> d == c
  {
    hide Laid, Picked;
    PickedOnce(h, f, bs, base, |bs| - 1, false, c);
    if d in FreeBelow(bs) && d.0 == c.0 {
      var j := PickedAt(bs[..|bs| - 1], false, d);
      SameChunk(h, f, bs, base, |bs| - 1, false, c, j);
    }
  }

  // ----- accounts -----

  lemma WholeAccounts(bs: seq<Block>, k: nat)
    requires k + 1 < |bs| && !bs[k].used
    ensures var bs', c := Splice(bs, k, k + 1, [Block(bs[k].at, bs[k].size, true)]), (bs[k].at, bs[k].size);
            && bs' != [] && FreeBelow(bs') + multiset{c} == FreeBelow(bs)
            && Picked(bs', true) == Picked(bs, true) + multiset{c}
            && bs'[|bs'| - 1] == bs[|bs| - 1]
  {
    hide Picked;
    var b := Block(bs[k].at, bs[k].size, true);
    assert bs[k..k + 1] == [bs[k]];
    PickedOne(b, true);
    PickedOne(b, false);
    PickedOne(bs[k], true);
    PickedOne(bs[k], false);
    FreeSplice(bs, k, k + 1, [b]);
    PickedSplice(bs, k, k + 1, [b], true);
  }

  lemma SplitAccounts(bs: seq<Block>, k: nat, nb: nat)
    requires k + 1 < |bs| && !bs[k].used && nb <= bs[k].size
    ensures var a, s := bs[k].at, bs[k].size;
            var bs' := Splice(bs, k, k + 1, [Block(a, nb, true), Block(a + nb, s - nb, false)]);
            && bs' != [] && FreeBelow(bs') + multiset{(a, s)} == FreeBelow(bs) + multiset{(a + nb, s - nb)}
            && Picked(bs', true) == Picked(bs, true) + multiset{(a, nb)} && bs'[|bs'| - 1] == bs[|bs| - 1]
  {
    hide Picked;
    var b, r := Block(bs[k].at, nb, true), Block(bs[k].at + nb, bs[k].size - nb, false);
    assert bs[k..k + 1] == [bs[k]];
    PickedOnes(bs[k]);
    PickedPair(b, r);
    FreeSplice(bs, k, k + 1, [b, r]);
    PickedSplice(bs, k, k + 1, [b, r], true);
  }

  lemma PickedOnes(b: Block)
    ensures Picked([b], true) == If(b.used, b) && Picked([b], false) == If(!b.used, b)
  {
    PickedOne(b, true);
    PickedOne(b, false);
  }

  /** A used block in front of a free one. */
  lemma PickedPair(b: Block, r: Block)
    requires b.used && !r.used
    ensures Picked([b, r], true) == multiset{(b.at, b.size)} && Picked([b, r], false) == multiset{(r.at, r.size)}
  {
    hide Picked;
    PickedOnes(b);
    PickedOnes(r);
    PickedTwo(b, r, true);
    PickedTwo(b, r, false);
  }

  lemma TopAccounts(bs: seq<Block>, nb: nat)
    requires bs != [] && !bs[|bs| - 1].used && nb <= bs[|bs| - 1].size
    ensures var k := |bs| - 1;
            var a, s := bs[k].at, bs[k].size;
            var bs' := Splice(bs, k, k + 1, [Block(a, nb, true), Block(a + nb, s - nb, false)]);
            && bs' != [] && FreeBelow(bs') == FreeBelow(bs) && Picked(bs', true) == Picked(bs, true) + multiset{(a, nb)}
            && bs'[|bs'| - 1] == Block(a + nb, s - nb, false)
  {
    hide Picked;
    var k := |bs| - 1;
    var b, r := Block(bs[k].at, nb, true), Block(bs[k].at + nb, bs[k].size - nb, false);
    var bs' := Splice(bs, k, k + 1, [b, r]);
    assert bs[k..k + 1] == [bs[k]];
    PickedOnes(b);
    PickedOnes(bs[k]);
    PickedPair(b, r);
    PickedSplice(bs, k, k + 1, [b, r], true);
    assert bs'[..|bs'| - 1] == bs[..k] + [b];
    PickedJoin(bs[..k], [b], false);
  }

  function If(c: bool, b: Block): multiset<ChunkId> { if c then multiset{(b.at, b.size)} else multiset{} }

  /** What merging does to the accounts; b is the merged block. */
  lemma MergeAccounts(bs: seq<Block>, k: nat, lo: nat, hi: nat, b: Block)
    requires k < |bs| && Merges(bs, k, lo, hi) && hi < |bs| && !b.used
    ensures lo <= hi
    ensures var bs' := Splice(bs, lo, hi, [b]);
            && bs' != [] && bs'[|bs'| - 1] == bs[|bs| - 1]
            && FreeBelow(bs') + If(lo < k, bs[lo]) + If(k + 1 < hi, bs[k + 1]) ==
              FreeBelow(bs) + multiset{(b.at, b.size)}
            && Picked(bs, true) == Picked(bs', true) + multiset{(bs[k].at, bs[k].size)}
  {
    hide Picked;
    PickedOnes(b);
    MergedPart(bs, k, lo, hi);
    FreeSplice(bs, lo, hi, [b]);
    PickedSplice(bs, lo, hi, [b], true);
  }

  lemma MergedPart(bs: seq<Block>, k: nat, lo: nat, hi: nat)
    requires k < |bs| && Merges(bs, k, lo, hi)
    ensures lo <= k < hi <= |bs|
    ensures Picked(bs[lo..hi], false) == If(lo < k, bs[lo]) + If(k + 1 < hi, bs[k + 1])
    ensures Picked(bs[lo..hi], true) == multiset{(bs[k].at, bs[k].size)}
    ensures Picked(bs[lo..k + 1], false) == If(lo < k, bs[lo])
  {
    hide Picked;
    PickedOnes(bs[k]);
    if lo < k {
      assert bs[lo..k + 1] == [bs[lo], bs[k]];
      PickedOrder(bs[lo], bs[k]);
    } else {
      assert bs[lo..k + 1] == [bs[k]];
    }
    if k + 1 < hi {
      PickedOnes(bs[k + 1]);
      assert bs[lo..hi] == bs[lo..k + 1] + [bs[k + 1]];
      PickedJoin(bs[lo..k + 1], [bs[k + 1]], true);
      PickedJoin(bs[lo..k + 1], [bs[k + 1]], false);
    }
  }

  /** A free block in front of a used one. */
  lemma PickedOrder(r: Block, b: Block)
    requires b.used && !r.used
    ensures Picked([r, b], true) == multiset{(b.at, b.size)} && Picked([r, b], false) == multiset{(r.at, r.size)}
  {
    hide Picked;
    PickedOnes(b);
    PickedOnes(r);
    PickedTwo(r, b, true);
    PickedTwo(r, b, false);
  }

  lemma MergeTopAccounts(bs: seq<Block>, k: nat, lo: nat, hi: nat, b: Block)
    requires k < |bs| && Merges(bs, k, lo, hi) && hi == |bs| && !b.used && !bs[|bs| - 1].used
    ensures lo <= hi
    ensures var bs' := Splice(bs, lo, hi, [b]);
            && bs' != [] && bs'[|bs'| - 1] == b
            && FreeBelow(bs') + If(lo < k, bs[lo]) == FreeBelow(bs)
            && Picked(bs, true) == Picked(bs', true) + multiset{(bs[k].at, bs[k].size)}
  {
    hide Picked;
    PickedOnes(b);
    MergedPart(bs, k, lo, hi);
    PickedSplice(bs, lo, hi, [b], true);
    var bs' := Splice(bs, lo, hi, [b]);
    assert bs'[..|bs'| - 1] == bs[..lo];
    assert bs[..|bs| - 1] == bs[..lo] + bs[lo..k + 1];
    PickedJoin(bs[..lo], bs[lo..k + 1], false);
  }

  /** A chunk that is accounted for separately is not in the rest of the accounts. */
  lemma Alone(h: Heads, f: Feet, bs: seq<Block>, base: nat, rest: multiset<ChunkId>, c: ChunkId)
    requires Laid(h, f, bs, base) && bs != [] && FreeBelow(bs) == rest + multiset{c}
    ensures forall s: nat :: (c.0, s) !in rest
  {
    hide Laid, FreeBelow;
    forall s: nat | (c.0, s) in rest ensures false {
      FreeOnce(h, f, bs, base, c, (c.0, s));
    }
  }

  lemma FreshSegment(segment: nat, size: nat)
    requires segment % ALIGNMENT == 0 && size % ALIGNMENT == 0 && 0 < size
    ensures var bs := [Block(segment, size, false)];
            Laid(map[segment := Head(size, true, false)], map[], bs, segment) && FreeBelow(bs) == multiset{}
  {
    assert [Block(segment, size, false)][..0] == [];
  }

  class Heap {
    var head: Heads
    var foot: Feet
    var dv: nat
    var dvsize: nat
    var top: nat
    var topsize: nat
    const small: S.SmallBins
    const tree: B.TreeBins
    ghost const base: nat
    ghost const limit: nat
    ghost var blocks: seq<Block>

    /** The heap is in order, but for the chunks that are owed to the bins. */
    ghost predicate Keeps(owed: multiset<ChunkId>)
      reads this, tree, tree.bins, small
    {
      && tree.Valid() && small.Valid() && Laid(head, foot, blocks, base)
      && Fixed(blocks, base, limit, dv, dvsize, top, topsize)
      && Binned(blocks, B.AllChunks(tree.trees), S.SmallChunks(small.lists), dv, dvsize, owed)
    }

    ghost predicate Valid()
      reads this, tree, tree.bins, small
    {
      Keeps(multiset{})
    }

    constructor (segment: nat, size: nat)
      requires S.NSMALLBINS <= segment && segment % ALIGNMENT == 0 && size % ALIGNMENT == 0 && 0 < size < SIZE_LIMIT
      ensures Valid() && fresh(tree) && fresh(tree.bins) && fresh(small)
      ensures base == segment && limit == segment + size && blocks == [Block(segment, size, false)]
    {
      head, foot := map[segment := Head(size, true, false)], map[];
      dv, dvsize, top, topsize := 0, 0, segment, size;
      base, limit, blocks := segment, segment + size, [Block(segment, size, false)];
      small := new S.SmallBins();
      tree := new B.TreeBins();
      new;
      FreshSegment(segment, size);
    }

    lemma KeepsParts(owed: multiset<ChunkId>)
      requires Keeps(owed)
      ensures tree.Valid() && small.Valid() && Laid(head, foot, blocks, base)
      ensures Fixed(blocks, base, limit, dv, dvsize, top, topsize)
      ensures blocks != [] && S.NSMALLBINS <= base
      ensures FreeBelow(blocks) == B.AllChunks(tree.trees) + S.SmallChunks(small.lists) + DvChunk(dv, dvsize) + owed
    {
      hide Laid;
    }

    lemma KeepsIs(owed: multiset<ChunkId>)
      requires tree.Valid() && small.Valid() && Laid(head, foot, blocks, base)
      requires Fixed(blocks, base, limit, dv, dvsize, top, topsize)
      requires blocks != []
      requires FreeBelow(blocks) == B.AllChunks(tree.trees) + S.SmallChunks(small.lists) + DvChunk(dv, dvsize) + owed
      ensures Keeps(owed)
    {
      hide Laid;
    }

    // ----- chunks into and out of the bins -----

    method InsertChunk(p: nat, s: nat)
      requires Keeps(multiset{(p, s)})
      modifies tree, tree.bins, small
      ensures Keeps(multiset{})
    {
      hide *;
      KeepsParts(multiset{(p, s)});
      ghost var t0, s0, d := B.AllChunks(tree.trees), S.SmallChunks(small.lists), DvChunk(dv, dvsize);
      OwedFacts(p, s);
      if S.IsSmall(s) {
        small.FreeAddress(p);
        small.InsertSmallChunk(p, s);
      } else {
        tree.FreeAddress(p);
        tree.InsertLargeChunk(p, s);
      }
      KeepsIs(multiset{});
    }

    lemma OwedFacts(p: nat, s: nat)
      requires Keeps(multiset{(p, s)})
      ensures forall s': nat :: (p, s') !in B.AllChunks(tree.trees) && (p, s') !in S.SmallChunks(small.lists)
      ensures S.NSMALLBINS <= p && p != 0 && s < SIZE_LIMIT && s % 8 == 0 && (S.IsSmall(s) <==> s < MIN_LARGE_SIZE)
      ensures (p, s) in FreeBelow(blocks)
    {
      hide *;
      KeepsParts(multiset{(p, s)});
      Alone(head, foot, blocks, base, B.AllChunks(tree.trees) + S.SmallChunks(small.lists) + DvChunk(dv, dvsize),
            (p, s));
      var k := FreeAt(blocks, (p, s));
      SizesLimited(head, foot, blocks, base, limit, dv, dvsize, top, topsize, k);
      SmallSizes(s);
    }

    method UnlinkChunk(p: nat, s: nat, ghost owed: multiset<ChunkId>)
      requires Keeps(owed) && blocks != [] && (p, s) in FreeBelow(blocks) && p != dv && (p, s) !in owed
      modifies tree, tree.bins, small
      ensures Keeps(owed + multiset{(p, s)})
    {
      hide *;
      KeepsParts(owed);
      BinHas(p, s, owed);
      if S.IsSmall(s) { small.UnlinkSmallChunk(p, s); } else { tree.UnlinkLargeChunk(p, s); }
      KeepsIs(owed + multiset{(p, s)});
    }

    /** A free chunk below top that is not the designated victim is in the bin for its size. */
    lemma BinHas(p: nat, s: nat, owed: multiset<ChunkId>)
      requires Keeps(owed) && blocks != [] && (p, s) in FreeBelow(blocks) && p != dv && (p, s) !in owed
      ensures if S.IsSmall(s) then (p, s) in S.SmallChunks(small.lists) else (p, s) in B.AllChunks(tree.trees)
    {
      hide Laid, FreeBelow;
      KeepsParts(owed);
      if (p, s) in B.AllChunks(tree.trees) { tree.StoredIsLarge(p, s); } else { small.StoredIsSmall(p, s); }
    }

    /** The chunk becomes the designated victim; the old one goes to its bin. */
    method ReplaceDv(p: nat, s: nat)
      requires Keeps(multiset{(p, s)}) && p != 0 && s != 0 && S.IsSmall(dvsize)
      modifies this`dv, this`dvsize, small
      ensures Keeps(multiset{})
    {
      hide *;
      KeepsParts(multiset{(p, s)});
      DvIs(dv, dvsize);
      DvIs(p, s);
      FixedDv(blocks, base, limit, dv, dvsize, p, s, top, topsize);
      if dvsize != 0 {
        DvFacts(multiset{(p, s)});
        small.FreeAddress(dv);
        small.InsertSmallChunk(dv, dvsize);
      }
      dvsize := s;
      dv := p;
      KeepsIs(multiset{});
    }

    lemma DvFacts(owed: multiset<ChunkId>)
      requires Keeps(owed) && dvsize != 0
      ensures forall s: nat :: (dv, s) !in S.SmallChunks(small.lists)
      ensures blocks != [] && (dv, dvsize) in FreeBelow(blocks) && dvsize % 8 == 0 && S.NSMALLBINS <= dv
      ensures dvsize < SIZE_LIMIT
    {
      hide *;
      KeepsParts(owed);
      DvIs(dv, dvsize);
      var rest := B.AllChunks(tree.trees) + S.SmallChunks(small.lists) + owed;
      assert FreeBelow(blocks) == rest + multiset{(dv, dvsize)};
      Alone(head, foot, blocks, base, rest, (dv, dvsize));
      var k := FreeAt(blocks, (dv, dvsize));
      SizesLimited(head, foot, blocks, base, limit, dv, dvsize, top, topsize, k);
      SmallSizes(dvsize);
    }

    // ----- chunks put in use -----

    /** A chunk that has left its bin is put in use as a whole. */
    method TakeWhole(p: nat, s: nat)
      requires Keeps(multiset{(p, s)})
      modifies this`head, this`blocks
      ensures Keeps(multiset{}) && Picked(blocks, true) == old(Picked(blocks, true)) + multiset{(p, s)}
    {
      hide *;
      KeepsParts(multiset{(p, s)});
      OwedFacts(p, s);
      ghost var k := FreeAt(blocks, (p, s));
      WholeUsed(head, foot, blocks, base, k);
      WholeAccounts(blocks, k);
      ghost var bs := Splice(blocks, k, k + 1, [Block(p, s, true)]);
      FixedOn(blocks, bs, base, limit, dv, dvsize, top, topsize);
      EndIs(blocks[k]);
      Exchange(FreeBelow(blocks), FreeBelow(bs),
               B.AllChunks(tree.trees) + S.SmallChunks(small.lists) + DvChunk(dv, dvsize),
               multiset{(p, s)}, multiset{});
      head := head[p := Head(s, true, true)];
      head := head[p + s := head[p + s].(pinuse := true)];
      blocks := bs;
      KeepsIs(multiset{});
    }

    /** The front of a free chunk is put in use; the rest stays free. */
    method SplitFree(p: nat, nb: nat, s: nat)
      requires Laid(head, foot, blocks, base) && blocks != [] && (p, s) in FreeBelow(blocks)
      requires MIN_CHUNK_SIZE <= nb && nb % ALIGNMENT == 0 && nb + MIN_CHUNK_SIZE <= s
      modifies this`head, this`foot, this`blocks
      ensures Laid(head, foot, blocks, base) && blocks != [] && blocks[|blocks| - 1] == old(blocks[|blocks| - 1])
      ensures FreeBelow(blocks) + multiset{(p, s)} == old(FreeBelow(blocks)) + multiset{(p + nb, s - nb)}
      ensures Picked(blocks, true) == old(Picked(blocks, true)) + multiset{(p, nb)}
    {
      hide *;
      ghost var k := FreeAt(blocks, (p, s));
      FreeSplit(head, foot, blocks, base, k, nb);
      SplitAccounts(blocks, k, nb);
      var r, rsize := p + nb, s - nb;
      head := head[p := Head(nb, true, true)];
      head := head[r := Head(rsize, true, false)];
      foot := foot[r + rsize := rsize];
      blocks := Splice(blocks, k, k + 1, [Block(p, nb, true), Block(r, rsize, false)]);
    }

    /** The front of a chunk that has left its bin is put in use; the rest is owed to the bins. */
    method TakeFront(p: nat, nb: nat, s: nat)
      requires Keeps(multiset{(p, s)}) && MIN_CHUNK_SIZE <= nb && nb % ALIGNMENT == 0 && nb + MIN_CHUNK_SIZE <= s
      modifies this`head, this`foot, this`blocks
      ensures Keeps(multiset{(p + nb, s - nb)}) && Picked(blocks, true) == old(Picked(blocks, true)) + multiset{(p, nb)}
    {
      hide *;
      KeepsParts(multiset{(p, s)});
      OwedFacts(p, s);
      ghost var bs := blocks;
      SplitFree(p, nb, s);
      FixedOn(bs, blocks, base, limit, dv, dvsize, top, topsize);
      Exchange(FreeBelow(bs), FreeBelow(blocks),
               B.AllChunks(tree.trees) + S.SmallChunks(small.lists) + DvChunk(dv, dvsize),
               multiset{(p, s)}, multiset{(p + nb, s - nb)});
      KeepsIs(multiset{(p + nb, s - nb)});
    }

    /** A chunk out of its bin serves a small request; what is left over becomes the designated victim. */
    method TakeForSmall(p: nat, nb: nat, s: nat) returns (ghost size: nat)
      requires Keeps(multiset{(p, s)}) && MIN_CHUNK_SIZE <= nb <= s && nb % ALIGNMENT == 0 && S.IsSmall(dvsize)
      modifies this, small
      ensures Valid() && nb <= size < nb + MIN_CHUNK_SIZE
      ensures Picked(blocks, true) == old(Picked(blocks, true)) + multiset{(p, size)}
    {
      hide *;
      Constants();
      OwedFacts(p, s);
      var rsize := s - nb;
      if rsize < MIN_CHUNK_SIZE {
        TakeWhole(p, s);
        size := s;
      } else {
        TakeFront(p, nb, s);
        size := nb;
        SmallSizes(nb);
        ReplaceDv(p + nb, rsize);
      }
      ValidIs();
    }

    lemma ValidIs()
      ensures Valid() <==> Keeps(multiset{})
    {
      hide Keeps;
    }

    /** The least chunk of the tree bins serves a small request. */
    method TmallocSmall(nb: nat) returns (mem: nat, ghost size: nat, ghost from: nat)
      requires Valid() && MIN_CHUNK_SIZE <= nb < MIN_LARGE_SIZE && nb % ALIGNMENT == 0 && tree.treemap != {}
      requires dvsize < nb
      modifies this, tree, tree.bins, small
      ensures Valid() && Served(old(Picked(blocks, true)), Picked(blocks, true), mem, nb, size)
      ensures blocks != [] && nb <= from && old(blocks) != [] && CHUNK2MEM <= mem
      ensures (mem - CHUNK2MEM, from) in old(FreeBelow(blocks))
      ensures forall c: ChunkId :: c in old(B.AllChunks(tree.trees)) && nb <= c.1 ==> from <= c.1
    {
      hide *;
      ValidIs();
      KeepsParts(multiset{});
      SmallSizes(nb);
      SmallSizes(dvsize);
      var v, rsize := tree.ChooseSmall(nb);
      from := nb + rsize;
      LeastIs(tree.trees, nb, from);
      tree.UnlinkLargeChunk(v, from);
      KeepsIs(multiset{(v, from)});
      size := TakeForSmall(v, nb, nb + rsize);
      ValidIs();
      KeepsParts(multiset{});
      ServedIs(old(Picked(blocks, true)), Picked(blocks, true), v, nb, size);
      mem := v + CHUNK2MEM;
    }

    /** A free chunk below top that is large is in the tree bins, or is the designated victim. */
    lemma LargeIsInTree(c: ChunkId)
      requires Keeps(multiset{}) && blocks != [] && c in FreeBelow(blocks) && MIN_LARGE_SIZE <= c.1
      ensures c in B.AllChunks(tree.trees) || c == (dv, dvsize)
    {
      hide Laid, FreeBelow;
      KeepsParts(multiset{});
      if c in S.SmallChunks(small.lists) { small.StoredIsSmall(c.0, c.1); }
    }

    lemma DvLimit(owed: multiset<ChunkId>)
      requires Keeps(owed)
      ensures dvsize < SIZE_LIMIT && (dvsize != 0 ==> dv != 0)
    {
      hide Laid, FreeBelow;
      if dvsize != 0 { DvFacts(owed); }
    }

    lemma FitsBest(nb: nat, from: nat)
      requires Keeps(multiset{}) && blocks != [] && MIN_LARGE_SIZE <= nb && B.LeastFit(tree.trees, nb, from)
      requires dvsize < nb || from < dvsize
      ensures forall c: ChunkId :: c in FreeBelow(blocks) && nb <= c.1 ==> from <= c.1
    {
      hide *;
      LeastIs(tree.trees, nb, from);
      forall c: ChunkId | c in FreeBelow(blocks) && nb <= c.1 ensures from <= c.1 { LargeIsInTree(c); }
    }

    lemma DvFitsBest(nb: nat)
      requires Keeps(multiset{}) && blocks != [] && MIN_LARGE_SIZE <= nb
      requires forall c: ChunkId :: c in B.AllChunks(tree.trees) && nb <= c.1 ==> nb <= dvsize <= c.1
      ensures forall c: ChunkId :: c in FreeBelow(blocks) && nb <= c.1 ==> nb <= dvsize <= c.1
    {
      hide *;
      forall c: ChunkId | c in FreeBelow(blocks) && nb <= c.1 ensures nb <= dvsize <= c.1 { LargeIsInTree(c); }
    }

    /** A chunk out of its bin serves a large request; what is left over goes into a bin. */
    method TakeForLarge(p: nat, nb: nat, s: nat) returns (ghost size: nat)
      requires Keeps(multiset{(p, s)}) && MIN_CHUNK_SIZE <= nb <= s && nb % ALIGNMENT == 0
      modifies this, tree, tree.bins, small
      ensures Valid() && nb <= size < nb + MIN_CHUNK_SIZE
      ensures Picked(blocks, true) == old(Picked(blocks, true)) + multiset{(p, size)}
    {
      hide *;
      Constants();
      var rsize := s - nb;
      if rsize < MIN_CHUNK_SIZE {
        TakeWhole(p, s);
        size := s;
      } else {
        TakeFront(p, nb, s);
        size := nb;
        InsertChunk(p + nb, rsize);
      }
      ValidIs();
    }

    /** A large request is served from the least chunk of the tree bins that fits, unless the designated victim
        fits at least as well. */
    method TmallocLarge(nb: nat) returns (mem: nat, ghost size: nat, ghost from: nat)
      requires Valid() && MIN_LARGE_SIZE <= nb < SIZE_LIMIT && nb % ALIGNMENT == 0
      modifies this, tree, tree.bins, small
      ensures Valid() && blocks != [] && old(blocks) != []
      ensures mem != 0 ==> Served(old(Picked(blocks, true)), Picked(blocks, true), mem, nb, size)
      ensures mem != 0 ==> CHUNK2MEM <= mem && (mem - CHUNK2MEM, from) in old(FreeBelow(blocks)) && nb <= from
      ensures mem != 0 ==> forall c: ChunkId :: c in old(FreeBelow(blocks)) && nb <= c.1 ==> from <= c.1
      ensures mem == 0 ==>
              blocks == old(blocks) && dvsize == old(dvsize) && dv == old(dv) && topsize == old(topsize) &&
                top == old(top)
      ensures mem == 0 ==> forall c: ChunkId :: c in FreeBelow(blocks) && nb <= c.1 ==> nb <= dvsize <= c.1
    {
      hide *;
      ValidIs();
      KeepsParts(multiset{});
      Constants();
      DvLimit(multiset{});
      var v, rsize := tree.ChooseLarge(nb, dvsize);
      from := nb + rsize;
      if v == 0 {
        DvFitsBest(nb);
        return 0, 0, 0;
      }
      FitsBest(nb, from);
      tree.UnlinkLargeChunk(v, from);
      KeepsIs(multiset{(v, from)});
      size := TakeForLarge(v, nb, nb + rsize);
      ValidIs();
      KeepsParts(multiset{});
      ServedIs(old(Picked(blocks, true)), Picked(blocks, true), v, nb, size);
      mem := v + CHUNK2MEM;
    }

    /** The front of the designated victim is put in use; the rest is the new victim. */
    method SplitDv(nb: nat)
      requires Valid() && MIN_CHUNK_SIZE <= nb && nb % ALIGNMENT == 0 && nb + MIN_CHUNK_SIZE <= dvsize
      modifies this
      ensures Valid() && Picked(blocks, true) == old(Picked(blocks, true)) + multiset{(old(dv), nb)}
    {
      hide *;
      ValidIs();
      KeepsParts(multiset{});
      Constants();
      DvFacts(multiset{});
      DvIs(dv, dvsize);
      ghost var bs := blocks;
      var r, rsize := dv + nb, dvsize - nb;
      FixedDv(bs, base, limit, dv, dvsize, r, rsize, top, topsize);
      SplitFree(dv, nb, dvsize);
      FixedOn(bs, blocks, base, limit, r, rsize, top, topsize);
      DvIs(r, rsize);
      Exchange(FreeBelow(bs), FreeBelow(blocks), B.AllChunks(tree.trees) + S.SmallChunks(small.lists),
               multiset{(dv, dvsize)}, multiset{(r, rsize)});
      dv := r;
      dvsize := rsize;
      KeepsIs(multiset{});
      ValidIs();
    }

    /** The designated victim is put in use as a whole; there is no victim then. */
    method ExhaustDv()
      requires Valid() && dvsize != 0
      modifies this
      ensures Valid() && Picked(blocks, true) == old(Picked(blocks, true)) + multiset{(old(dv), old(dvsize))}
    {
      hide *;
      ValidIs();
      KeepsParts(multiset{});
      DvIs(dv, dvsize);
      FixedDv(blocks, base, limit, dv, dvsize, 0, 0, top, topsize);
      var p, dvs := dv, dvsize;
      dvsize := 0;
      dv := 0;
      DvIs(0, 0);
      KeepsIs(multiset{(p, dvs)});
      TakeWhole(p, dvs);
      ValidIs();
    }

    /** The designated victim serves the request. */
    method UseDv(nb: nat) returns (mem: nat, ghost size: nat, ghost from: nat)
      requires Valid() && MIN_CHUNK_SIZE <= nb <= dvsize && nb % ALIGNMENT == 0
      modifies this
      ensures Valid() && blocks != [] && old(blocks) != [] && from == old(dvsize)
      ensures Served(old(Picked(blocks, true)), Picked(blocks, true), mem, nb, size)
      ensures mem == old(dv) + CHUNK2MEM && (mem - CHUNK2MEM, from) in old(FreeBelow(blocks))
    {
      hide *;
      ValidIs();
      KeepsParts(multiset{});
      Constants();
      DvFacts(multiset{});
      from := dvsize;
      var rsize, p := dvsize - nb, dv;
      if rsize >= MIN_CHUNK_SIZE {
        SplitDv(nb);
        size := nb;
      } else {
        size := dvsize;
        ExhaustDv();
      }
      ValidIs();
      KeepsParts(multiset{});
      ServedIs(old(Picked(blocks, true)), Picked(blocks, true), p, nb, size);
      mem := p + CHUNK2MEM;
    }

    /** The top chunk serves the request. */
    method UseTop(nb: nat) returns (mem: nat)
      requires Valid() && MIN_CHUNK_SIZE <= nb < topsize && nb % ALIGNMENT == 0
      modifies this
      ensures Valid() && mem == old(top) + CHUNK2MEM
      ensures Served(old(Picked(blocks, true)), Picked(blocks, true), mem, nb, nb)
    {
      hide *;
      ValidIs();
      KeepsParts(multiset{});
      Constants();
      TopIs(head, foot, blocks, base, limit, dv, dvsize, top, topsize);
      TopSplit(head, foot, blocks, base, nb);
      TopAccounts(blocks, nb);
      ghost var k := |blocks| - 1;
      ghost var bs := Splice(blocks, k, k + 1, [Block(top, nb, true), Block(top + nb, topsize - nb, false)]);
      FixedTop(blocks, bs, base, limit, dv, dvsize, top, topsize, nb);
      topsize := topsize - nb;
      var p := top;
      top := p + nb;
      head := head[top := Head(topsize, true, false)];
      head := head[p := Head(nb, true, true)];
      blocks := bs;
      KeepsIs(multiset{});
      ValidIs();
      ServedIs(old(Picked(blocks, true)), Picked(blocks, true), p, nb, nb);
      mem := p + CHUNK2MEM;
    }

    /** Take the first chunk of small bin i. */
    method PopSmall(i: nat) returns (p: nat)
      requires Keeps(multiset{}) && i in small.smallmap
      modifies small
      ensures Keeps(multiset{(p, S.SmallIndex2Size(i))}) && blocks != []
      ensures (p, S.SmallIndex2Size(i)) in FreeBelow(blocks)
    {
      hide *;
      KeepsParts(multiset{});
      p := small.UnlinkFirstSmallChunk(i);
      KeepsIs(multiset{(p, S.SmallIndex2Size(i))});
    }

    /** No chunk below top can serve a small request. */
    lemma NoSmallFits(nb: nat)
      requires Keeps(multiset{}) && blocks != [] && nb % ALIGNMENT == 0 && tree.treemap == {} && dvsize < nb
      requires forall i: nat :: S.SmallIndex(nb) <= i < S.NSMALLBINS ==> i !in small.smallmap
      ensures forall c: ChunkId :: c in FreeBelow(blocks) ==> c.1 < nb
    {
      hide Laid, FreeBelow;
      KeepsParts(multiset{});
      forall c: ChunkId | c in FreeBelow(blocks) ensures c.1 < nb {
        if c in B.AllChunks(tree.trees) { tree.StoredIsLarge(c.0, c.1); }
        if c in S.SmallChunks(small.lists) { small.StoredIsSmall(c.0, c.1); }
      }
    }

    /** Where a free chunk below top, other than the designated victim, is kept. */
    lemma KeptWhere(c: ChunkId)
      requires Keeps(multiset{}) && blocks != [] && c in FreeBelow(blocks) && c != (dv, dvsize)
      ensures (c in B.AllChunks(tree.trees) && MIN_LARGE_SIZE <= c.1) ||
              (c.1 < MIN_LARGE_SIZE && c.1 == S.SmallIndex2Size(S.SmallIndex(c.1)) &&
               S.SmallIndex(c.1) in small.smallmap && S.SmallIndex(c.1) < S.NSMALLBINS)
    {
      hide *;
      KeepsParts(multiset{});
      DvIs(dv, dvsize);
      if c in B.AllChunks(tree.trees) {
        tree.StoredIsLarge(c.0, c.1);
      } else {
        small.StoredIsSmall(c.0, c.1);
        SmallSizes(c.1);
        S.IndexOf(c.1);
      }
    }

    /** What the bitmap says about the sizes to be had. */
    lemma SmallChoice(nb: nat, i: nat)
      requires Keeps(multiset{}) && blocks != [] && nb % ALIGNMENT == 0 && nb < MIN_LARGE_SIZE && i < S.NSMALLBINS
      requires S.SmallIndex(nb) <= i && forall j: nat :: S.SmallIndex(nb) <= j < i ==> j !in small.smallmap
      ensures forall c: ChunkId :: c in FreeBelow(blocks) && c != (dv, dvsize) && nb <= c.1 ==>
              S.SmallIndex2Size(i) <= c.1
    {
      hide *;
      Constants();
      forall c: ChunkId | c in FreeBelow(blocks) && c != (dv, dvsize) && nb <= c.1 ensures S.SmallIndex2Size(i) <= c.1 {
        KeptWhere(c);
        IndexOrder(nb, c.1, i);
      }
    }

    /** Without a marked small bin from the request's on, what fits and is kept in the bins is in the trees. */
    lemma SmallLeftIs(nb: nat)
      requires Keeps(multiset{}) && blocks != [] && nb % ALIGNMENT == 0
      requires forall j: nat :: S.SmallIndex(nb) <= j < S.NSMALLBINS ==> j !in small.smallmap
      ensures forall c: ChunkId :: c in FreeBelow(blocks) && c != (dv, dvsize) && nb <= c.1 ==>
              c in B.AllChunks(tree.trees)
    {
      hide *;
      forall c: ChunkId | c in FreeBelow(blocks) && c != (dv, dvsize) && nb <= c.1
        ensures c in B.AllChunks(tree.trees)
      {
        KeptWhere(c);
        IndexOrder(nb, c.1, S.SmallIndex(c.1));
      }
    }

    /** Neither the request's own bin nor the next holds anything. */
    lemma NoRemainderless(nb: nat)
      requires Keeps(multiset{}) && blocks != [] && nb % ALIGNMENT == 0 && MIN_CHUNK_SIZE <= nb < MIN_LARGE_SIZE
      requires S.SmallIndex(nb) !in small.smallmap && S.SmallIndex(nb) + 1 !in small.smallmap
      ensures NoRemainderlessFit(FreeBelow(blocks), (dv, dvsize), nb)
    {
      hide *;
      SmallFacts(nb);
      Constants();
      forall c: ChunkId | c in FreeBelow(blocks) && c != (dv, dvsize) ensures c.1 != nb && c.1 != nb + 8 {
        KeptWhere(c);
        NextIndex(nb);
      }
      NoRemainderlessIs(FreeBelow(blocks), (dv, dvsize), nb);
    }

    /** The first chunk of small bin i serves a small request; nothing smaller in the bins would do. */
    method FromSmallBin(nb: nat, i: nat) returns (mem: nat, ghost size: nat, ghost from: nat)
      requires Valid() && MIN_CHUNK_SIZE <= nb < MIN_LARGE_SIZE && nb % ALIGNMENT == 0 && i in small.smallmap
      requires S.SmallIndex(nb) <= i < S.NSMALLBINS && forall j: nat :: S.SmallIndex(nb) <= j < i ==>
               j !in small.smallmap
      requires i <= S.SmallIndex(nb) + 1 || dvsize < nb
      modifies this, tree, tree.bins, small
      ensures Valid() && blocks != [] && old(blocks) != []
      ensures Served(old(Picked(blocks, true)), Picked(blocks, true), mem, nb, size) && mem != 0
      ensures CHUNK2MEM <= mem && (mem - CHUNK2MEM, from) in old(FreeBelow(blocks)) && nb <= from
      ensures FromBins(old(FreeBelow(blocks)), (old(dv), old(dvsize)), nb, from)
    {
      hide *;
      ValidIs();
      KeepsParts(multiset{});
      Constants();
      SmallFacts(nb);
      IndexGrows(nb, i);
      SmallChoice(nb, i);
      SmallSizes(dvsize);
      from := S.SmallIndex2Size(i);
      FromBinsIs(FreeBelow(blocks), (dv, dvsize), nb, from);
      var p := PopSmall(i);
      if i <= S.SmallIndex(nb) + 1 {
        TakeWhole(p, S.SmallIndex2Size(i));
        size := from;
        ValidIs();
      } else {
        size := TakeForSmall(p, nb, S.SmallIndex2Size(i));
        ValidIs();
      }
      KeepsParts(multiset{});
      ServedIs(old(Picked(blocks, true)), Picked(blocks, true), p, nb, size);
      mem := p + CHUNK2MEM;
    }

    /** The least chunk of the tree bins serves a small request; the small bins hold nothing that would do. */
    method FromTree(nb: nat) returns (mem: nat, ghost size: nat, ghost from: nat)
      requires Valid() && MIN_CHUNK_SIZE <= nb < MIN_LARGE_SIZE && nb % ALIGNMENT == 0 && tree.treemap != {}
      requires dvsize < nb
      requires forall j: nat :: S.SmallIndex(nb) <= j < S.NSMALLBINS ==> j !in small.smallmap
      modifies this, tree, tree.bins, small
      ensures Valid() && blocks != [] && old(blocks) != []
      ensures Served(old(Picked(blocks, true)), Picked(blocks, true), mem, nb, size) && mem != 0
      ensures CHUNK2MEM <= mem && (mem - CHUNK2MEM, from) in old(FreeBelow(blocks)) && nb <= from
      ensures FromBins(old(FreeBelow(blocks)), (old(dv), old(dvsize)), nb, from)
    {
      hide *;
      ValidIs();
      KeepsParts(multiset{});
      ghost var t0, free0, victim: ChunkId := tree.trees, FreeBelow(blocks), (dv, dvsize);
      SmallLeftIs(nb);
      mem, size, from := TmallocSmall(nb);
      assert forall c: ChunkId :: c in free0 && c != victim && nb <= c.1 ==> c in B.AllChunks(t0);
      FromBinsIs(free0, victim, nb, from);
      ServedParts(old(Picked(blocks, true)), Picked(blocks, true), mem, nb, size);
    }

    /** A small request: from the small bin of its size or the next, else, unless the designated victim will
        do, from the next larger small bin or the tree bins. */
    method FromBinsSmall(nb: nat) returns (mem: nat, ghost size: nat, ghost from: nat)
      requires Valid() && MIN_CHUNK_SIZE <= nb < MIN_LARGE_SIZE && nb % ALIGNMENT == 0
      modifies this, tree, tree.bins, small
      ensures Valid() && blocks != [] && old(blocks) != []
      ensures mem != 0 ==> Served(old(Picked(blocks, true)), Picked(blocks, true), mem, nb, size)
      ensures mem != 0 ==> CHUNK2MEM <= mem && (mem - CHUNK2MEM, from) in old(FreeBelow(blocks)) && nb <= from
      ensures mem == 0 ==>
              blocks == old(blocks) && dvsize == old(dvsize) && dv == old(dv) && topsize == old(topsize) &&
                top == old(top)
      ensures mem == 0 ==> nb <= dvsize || forall c: ChunkId :: c in FreeBelow(blocks) ==> c.1 < nb
      ensures mem != 0 ==> FromBins(old(FreeBelow(blocks)), (old(dv), old(dvsize)), nb, from)
      ensures mem == 0 ==> NoRemainderlessFit(FreeBelow(blocks), (dv, dvsize), nb)
    {
      hide *;
      ValidIs();
      KeepsParts(multiset{});
      Constants();
      SmallFacts(nb);
      var idx := S.SmallIndex(nb);
      mem, size, from := 0, 0, 0;
      NextIndex(nb);
      if idx in small.smallmap || idx + 1 in small.smallmap {
        if idx !in small.smallmap { idx := idx + 1; }
        mem, size, from := FromSmallBin(nb, idx);
      } else {
        NoRemainderless(nb);
        if dvsize < nb {
          var i := M.FirstMarked(small.smallmap, idx);
          if i < S.NSMALLBINS {
            mem, size, from := FromSmallBin(nb, i);
          } else if tree.treemap != {} {
            mem, size, from := FromTree(nb);
          } else {
            NoSmallFits(nb);
          }
        }
      }
      ValidIs();
      KeepsParts(multiset{});
    }

    // ----- allocation -----

    /** Search the bins for a chunk to serve the request. */
    method SearchBins(bytes: nat) returns (nb: nat, mem: nat, ghost size: nat, ghost from: nat)
      requires Valid() && (bytes + 64 < SIZE_LIMIT || MAX_REQUEST <= bytes <= MAX_SIZE_T)
      modifies this, tree, tree.bins, small
      ensures Valid() && blocks != [] && old(blocks) != [] && nb == Wanted(bytes)
      ensures mem != 0 ==> Served(old(Picked(blocks, true)), Picked(blocks, true), mem, nb, size)
      ensures mem != 0 ==>
              Source(old(FreeBelow(blocks)), (old(dv), old(dvsize)), old(top), mem, nb, from) &&
                !NoneFits(old(FreeBelow(blocks)), nb)
      ensures mem == 0 ==>
              blocks == old(blocks) && top == old(top) && topsize == old(topsize) && dv == old(dv) &&
                dvsize == old(dvsize)
      ensures mem == 0 ==> Searched(FreeBelow(blocks), (dv, dvsize), nb)
      ensures mem == 0 && MAX_REQUEST <= bytes ==> dvsize < nb && topsize < nb
    {
      hide *;
      ValidIs();
      KeepsParts(multiset{});
      WantedFacts(bytes);
      ghost var free0, victim: ChunkId := FreeBelow(blocks), (dv, dvsize);
      nb, mem, size, from := Request2Size(bytes), 0, 0, 0;
      if bytes <= MAX_SMALL_REQUEST {
        mem, size, from := FromBinsSmall(nb);
        if mem != 0 { FromSmall(free0, victim, old(top), mem, nb, from); } else { SmallSearched(free0, victim, nb); }
      } else if MAX_REQUEST <= bytes {
        nb := MAX_SIZE_T;
        TooBig(bytes);
      } else if tree.treemap != {} {
        mem, size, from := TmallocLarge(nb);
        if mem != 0 { FromLarge(free0, victim, old(top), mem, nb, from); } else { LargeSearched(free0, victim, nb); }
      } else {
        EmptyTree();
        DvFitsBest(nb);
        LargeSearched(free0, victim, nb);
      }
    }

    /** Allocate: null exactly when no free chunk is large enough. */
    method Malloc(bytes: nat) returns (mem: nat, ghost size: nat, ghost from: nat)
      requires Valid() && (bytes + 64 < SIZE_LIMIT || MAX_REQUEST <= bytes <= MAX_SIZE_T)
      modifies this, tree, tree.bins, small
      ensures Valid() && blocks != [] && old(blocks) != []
      ensures mem == 0 <==> NoneFits(old(FreeBelow(blocks)), Wanted(bytes)) && old(topsize) <= Wanted(bytes)
      ensures mem == 0 ==> blocks == old(blocks)
      ensures mem != 0 ==> Served(old(Picked(blocks, true)), Picked(blocks, true), mem, Wanted(bytes), size)
      ensures mem != 0 ==> Source(old(FreeBelow(blocks)), (old(dv), old(dvsize)), old(top), mem, Wanted(bytes), from)
    {
      hide *;
      ValidIs();
      KeepsParts(multiset{});
      WantedFacts(bytes);
      ghost var free0, was, victim: ChunkId := FreeBelow(blocks), Picked(blocks, true), (dv, dvsize);
      var nb;
      nb, mem, size, from := SearchBins(bytes);
      if mem != 0 { return; }
      if nb <= dvsize {
        mem, size, from := UseDv(nb);
        SearchedDv(free0, victim, old(top), mem, nb);
        ServedParts(was, Picked(blocks, true), mem, nb, size);
      } else if nb < topsize {
        SearchedNone(free0, victim, top, top + CHUNK2MEM, nb, from);
        mem := UseTop(nb);
        size := nb;
        ServedParts(was, Picked(blocks, true), mem, nb, size);
      } else {
        SearchedNone(free0, victim, top, 0, nb, from);
      }
      ValidIs();
      KeepsParts(multiset{});
    }

    lemma EmptyTree()
      requires tree.Valid() && tree.treemap == {}
      ensures forall c: ChunkId :: c !in B.AllChunks(tree.trees)
    {
      hide *;
      forall c: ChunkId | c in B.AllChunks(tree.trees) ensures false { tree.StoredIsLarge(c.0, c.1); }
    }

    /** A request that big exceeds every chunk. */
    lemma TooBig(bytes: nat)
      requires Keeps(multiset{}) && blocks != [] && MAX_REQUEST <= bytes <= MAX_SIZE_T
      ensures Searched(FreeBelow(blocks), (dv, dvsize), MAX_SIZE_T) && dvsize < MAX_SIZE_T && topsize < MAX_SIZE_T
    {
      hide Laid, FreeBelow;
      KeepsParts(multiset{});
      SizesLimited(head, foot, blocks, base, limit, dv, dvsize, top, topsize, |blocks| - 1);
      forall c: ChunkId | c in FreeBelow(blocks) ensures c.1 < MAX_SIZE_T {
        var k := FreeAt(blocks, c);
        SizesLimited(head, foot, blocks, base, limit, dv, dvsize, top, topsize, k);
      }
      DvLimit(multiset{});
    }

    // ----- release -----

    /** What the tags around a used chunk say. */
    lemma FreeingFacts(p: nat, size: nat) returns (k: nat)
      requires Keeps(multiset{}) && (p, size) in Picked(blocks, true)
      ensures k + 1 < |blocks| && blocks[k] == Block(p, size, true) && blocks[k + 1].at == p + size && p != 0
      ensures size < SIZE_LIMIT
      ensures p in head && head[p] == Head(size, k == 0 || blocks[k - 1].used, true)
      ensures p + size in head && head[p + size] == Head(blocks[k + 1].size, true, blocks[k + 1].used)
      ensures p + size == top <==> k + 2 == |blocks|
      ensures k + 2 == |blocks| ==> !blocks[k + 1].used && blocks[k + 1].size == topsize
      ensures !blocks[k + 1].used && k + 2 < |blocks| ==> (p + size, blocks[k + 1].size) in FreeBelow(blocks)
    {
      hide *;
      KeepsParts(multiset{});
      k := PickedAt(blocks, true, (p, size));
      TopIs(head, foot, blocks, base, limit, dv, dvsize, top, topsize);
      UsedTags(head, foot, blocks, base, k);
      SizesLimited(head, foot, blocks, base, limit, dv, dvsize, top, topsize, k);
      if k + 2 < |blocks| {
        InOrder(head, foot, blocks, base, k + 1, |blocks| - 1);
        if !blocks[k + 1].used { FreeHas(blocks, k + 1); }
      }
    }

    /** The free chunk before a used one. */
    lemma PrevFacts(p: nat, k: nat)
      requires Keeps(multiset{}) && 0 < k < |blocks| && blocks[k].at == p && !blocks[k - 1].used
      ensures blocks != [] && p in foot && foot[p] == blocks[k - 1].size && foot[p] <= p
      ensures blocks[k - 1].at == p - foot[p] && p - foot[p] != 0
      ensures (blocks[k - 1].at, blocks[k - 1].size) in FreeBelow(blocks)
    {
      hide *;
      KeepsParts(multiset{});
      PrevTags(head, foot, blocks, base, k);
      SizesLimited(head, foot, blocks, base, limit, dv, dvsize, top, topsize, k - 1);
      FreeHas(blocks, k - 1);
    }

    /** The designated victim, found among the blocks. */
    lemma DvBlock(owed: multiset<ChunkId>, j: nat)
      requires Keeps(owed) && j < |blocks| && blocks[j].at == dv
      ensures dvsize == blocks[j].size && !blocks[j].used && dvsize != 0
      ensures DvChunk(dv, dvsize) == multiset{(dv, dvsize)}
    {
      hide Laid, Picked;
      KeepsParts(owed);
      SizesLimited(head, foot, blocks, base, limit, dv, dvsize, top, topsize, j);
      DvFacts(owed);
      SameChunk(head, foot, blocks, base, |blocks| - 1, false, (dv, dvsize), j);
    }

    /** Write the tags of the merged free chunk; its successor is in use. */
    method SetFree(p: nat, psize: nat, ghost k: nat, ghost lo: nat, ghost hi: nat)
      requires Laid(head, foot, blocks, base) && k < |blocks| && Merges(blocks, k, lo, hi) && hi < |blocks|
      requires hi == k + 2 && lo < hi && p == blocks[lo].at && p + psize == End(blocks[hi - 1])
      modifies this`head, this`foot, this`blocks
      ensures Laid(head, foot, blocks, base) && blocks != [] && blocks[|blocks| - 1] == old(blocks[|blocks| - 1])
      ensures FreeBelow(blocks) + If(lo < k, old(blocks)[lo]) + If(true, old(blocks)[k + 1]) ==
              old(FreeBelow(blocks)) + multiset{(p, psize)}
      ensures old(Picked(blocks, true)) == Picked(blocks, true) + multiset{(old(blocks)[k].at, old(blocks)[k].size)}
    {
      hide *;
      MergeFacts(head, foot, blocks, base, k, lo, hi);
      Constants();
      MergesIs(blocks, k, lo, hi);
      ghost var b := Block(p, psize, false);
      MergeAccounts(blocks, k, lo, hi, b);
      ghost var h, f := head, foot;
      head := head[p := Head(psize, true, false)];
      foot := foot[p + psize := psize];
      Merged(h, f, blocks, base, k, lo, hi, head, foot);
      blocks := Splice(blocks, lo, hi, [b]);
    }

    /** The same when the chunk after the freed one is in use: it must learn that its predecessor is free. */
    method SetFreeWithPinuse(p: nat, psize: nat, next: nat, ghost k: nat, ghost lo: nat, ghost hi: nat)
      requires Laid(head, foot, blocks, base) && k < |blocks| && Merges(blocks, k, lo, hi) && hi < |blocks|
      requires hi == k + 1 && lo < hi && p == blocks[lo].at && p + psize == End(blocks[hi - 1]) && next == p + psize
      requires next in head
      modifies this`head, this`foot, this`blocks
      ensures Laid(head, foot, blocks, base) && blocks != [] && blocks[|blocks| - 1] == old(blocks[|blocks| - 1])
      ensures FreeBelow(blocks) + If(lo < k, old(blocks)[lo]) == old(FreeBelow(blocks)) + multiset{(p, psize)}
      ensures old(Picked(blocks, true)) == Picked(blocks, true) + multiset{(old(blocks)[k].at, old(blocks)[k].size)}
    {
      hide *;
      MergeFacts(head, foot, blocks, base, k, lo, hi);
      Constants();
      MergesIs(blocks, k, lo, hi);
      ghost var b := Block(p, psize, false);
      MergeAccounts(blocks, k, lo, hi, b);
      IfNot(blocks[k + 1]);
      ghost var h, f := head, foot;
      head := head[next := head[next].(pinuse := false)];
      head := head[p := Head(psize, true, false)];
      foot := foot[p + psize := psize];
      Merged(h, f, blocks, base, k, lo, hi, head, foot);
      blocks := Splice(blocks, lo, hi, [b]);
    }

    /** Freed next to top: the chunk, and its free predecessor, go into the top chunk. */
    method FreeIntoTop(p: nat, psize: nat, ghost k: nat, ghost lo: nat, ghost owed: multiset<ChunkId>)
      requires Keeps(owed) && k < |blocks| && Merges(blocks, k, lo, k + 2) && k + 2 == |blocks| && lo <= k
      requires p == blocks[lo].at && p + psize == blocks[k + 1].at && owed == If(lo < k && p != dv, blocks[lo])
      modifies this
      ensures Valid()
      ensures old(Picked(blocks, true)) == Picked(blocks, true) + multiset{(old(blocks)[k].at, old(blocks)[k].size)}
    {
      hide *;
      KeepsParts(owed);
      MergesIs(blocks, k, lo, k + 2);
      TopIs(head, foot, blocks, base, limit, dv, dvsize, top, topsize);
      MergedIntoTop(head, foot, blocks, base, k, lo, k + 2);
      EndIs(blocks[k + 1]);
      ghost var b := Block(p, psize + topsize, false);
      MergeTopAccounts(blocks, k, lo, k + 2, b);
      IfNot(blocks[lo]);
      if p == dv { DvBlock(owed, lo); }
      ghost var bs := Splice(blocks, lo, k + 2, [b]);
      ghost var rest := B.AllChunks(tree.trees) + S.SmallChunks(small.lists);
      IntoTopAccounts(FreeBelow(blocks), FreeBelow(bs), rest, DvChunk(dv, dvsize), owed, If(lo < k, blocks[lo]),
                      p == dv);
      FixedIntoTop(blocks, bs, base, limit, dv, dvsize, top, topsize, p, psize + topsize);
      var tsize := topsize + psize;
      topsize := tsize;
      top := p;
      head := head[p := Head(tsize, true, false)];
      if p == dv { dv, dvsize := 0, 0; }
      DvIs(0, 0);
      blocks := bs;
      KeepsIs(multiset{});
      ValidIs();
    }

    /** Freed before the designated victim: the merged chunk is the victim. */
    method FreeIntoDv(p: nat, psize: nat, ghost k: nat, ghost lo: nat, ghost owed: multiset<ChunkId>)
      requires Keeps(owed) && k < |blocks| && Merges(blocks, k, lo, k + 2) && k + 2 < |blocks| && lo <= k
      requires p == blocks[lo].at && p + psize == blocks[k + 1].at == dv && owed == If(lo < k, blocks[lo]) && p != 0
      modifies this
      ensures Valid()
      ensures old(Picked(blocks, true)) == Picked(blocks, true) + multiset{(old(blocks)[k].at, old(blocks)[k].size)}
    {
      hide *;
      KeepsParts(owed);
      DvBlock(owed, k + 1);
      EndIs(blocks[k + 1]);
      IfNot(blocks[k + 1]);
      ghost var bs, rest := blocks, B.AllChunks(tree.trees) + S.SmallChunks(small.lists);
      var dsize := dvsize + psize;
      SetFree(p, dsize, k, lo, k + 2);
      Exchange(FreeBelow(bs), FreeBelow(blocks), rest, If(lo < k, bs[lo]) + If(true, bs[k + 1]), multiset{(p, dsize)});
      FixedOn(bs, blocks, base, limit, dv, dvsize, top, topsize);
      FixedDv(blocks, base, limit, dv, dvsize, p, dsize, top, topsize);
      dvsize := dsize;
      dv := p;
      DvIs(p, dsize);
      KeepsIs(multiset{});
      ValidIs();
    }

    /** Freed after the designated victim and before a chunk in use: the victim grows. */
    method FreeOntoDv(p: nat, psize: nat, next: nat, ghost k: nat)
      requires Keeps(multiset{}) && 0 < k && k + 1 < |blocks| && Merges(blocks, k, k - 1, k + 1) && next in head
      requires p == blocks[k - 1].at == dv && p + psize == blocks[k + 1].at == next && p + psize == End(blocks[k])
      requires 0 < psize
      modifies this
      ensures Valid()
      ensures old(Picked(blocks, true)) == Picked(blocks, true) + multiset{(old(blocks)[k].at, old(blocks)[k].size)}
    {
      hide *;
      KeepsParts(multiset{});
      DvBlock(multiset{}, k - 1);
      IfNot(blocks[k - 1]);
      ghost var bs, rest := blocks, B.AllChunks(tree.trees) + S.SmallChunks(small.lists);
      SetFreeWithPinuse(p, psize, next, k, k - 1, k + 1);
      Exchange(FreeBelow(bs), FreeBelow(blocks), rest, If(true, bs[k - 1]), multiset{(p, psize)});
      FixedOn(bs, blocks, base, limit, dv, dvsize, top, topsize);
      FixedDv(blocks, base, limit, dv, dvsize, p, psize, top, topsize);
      dvsize := psize;
      DvIs(p, psize);
      KeepsIs(multiset{});
      ValidIs();
    }

    /** Freed before a free chunk that has left its bin: the merged chunk grows the victim, or is owed to a bin. */
    method FreeBeforeFree(p: nat, psize: nat, ghost k: nat, ghost lo: nat, ghost owed: multiset<ChunkId>)
      returns (binned: bool)
      requires k < |blocks| && Merges(blocks, k, lo, k + 2) && k + 2 < |blocks| && lo <= k && 0 < psize
      requires Keeps(owed + If(true, blocks[k + 1])) && owed == If(lo < k && p != dv, blocks[lo])
      requires p == blocks[lo].at && p + psize == End(blocks[k + 1])
      modifies this
      ensures old(Picked(blocks, true)) == Picked(blocks, true) + multiset{(old(blocks)[k].at, old(blocks)[k].size)}
      ensures if binned then Keeps(multiset{(p, psize)}) else Valid()
    {
      hide *;
      KeepsParts(owed + If(true, blocks[k + 1]));
      MergesIs(blocks, k, lo, k + 2);
      ghost var bs, rest, d := blocks, B.AllChunks(tree.trees) + S.SmallChunks(small.lists), DvChunk(dv, dvsize);
      IfNot(blocks[lo]);
      if p == dv { DvBlock(owed + If(true, blocks[k + 1]), lo); }
      SetFree(p, psize, k, lo, k + 2);
      FixedOn(bs, blocks, base, limit, dv, dvsize, top, topsize);
      if p == dv {
        FixedDv(blocks, base, limit, dv, dvsize, p, psize, top, topsize);
        Exchange(FreeBelow(bs), FreeBelow(blocks), rest, If(lo < k, bs[lo]) + If(true, bs[k + 1]),
                 multiset{(p, psize)});
        dvsize := psize;
        DvIs(p, psize);
        KeepsIs(multiset{});
        ValidIs();
        return false;
      }
      Exchange(FreeBelow(bs), FreeBelow(blocks), rest + d, If(lo < k, bs[lo]) + If(true, bs[k + 1]),
               multiset{(p, psize)});
      KeepsIs(multiset{(p, psize)});
      return true;
    }

    /** Freed before a chunk in use: the merged chunk is owed to a bin. */
    method FreeBeforeUsed(p: nat, psize: nat, next: nat, ghost k: nat, ghost lo: nat, ghost owed: multiset<ChunkId>)
      requires k < |blocks| && Merges(blocks, k, lo, k + 1) && k + 1 < |blocks| && lo <= k && next in head
      requires Keeps(owed) && owed == If(lo < k, blocks[lo])
      requires p == blocks[lo].at && p + psize == End(blocks[k]) == next
      modifies this`head, this`foot, this`blocks
      ensures old(Picked(blocks, true)) == Picked(blocks, true) + multiset{(old(blocks)[k].at, old(blocks)[k].size)}
      ensures Keeps(multiset{(p, psize)})
    {
      hide *;
      KeepsParts(owed);
      ghost var bs, rest := blocks, B.AllChunks(tree.trees) + S.SmallChunks(small.lists) + DvChunk(dv, dvsize);
      SetFreeWithPinuse(p, psize, next, k, lo, k + 1);
      FixedOn(bs, blocks, base, limit, dv, dvsize, top, topsize);
      Exchange(FreeBelow(bs), FreeBelow(blocks), rest, owed, multiset{(p, psize)});
      KeepsIs(multiset{(p, psize)});
    }

    /** The chunk at p, with its free predecessor merged in, goes where what follows it decides. */
    method FreeForward(p: nat, psize: nat, next: nat, ghost k: nat, ghost lo: nat, ghost owed: multiset<ChunkId>)
      requires Keeps(owed) && lo <= k && k + 1 < |blocks| && blocks[k].used && owed == If(lo < k && p != dv, blocks[lo])
      requires p != 0 && 0 < psize
      requires lo == (if 0 < k && !blocks[k - 1].used then k - 1 else k)
      requires p == blocks[lo].at && p + psize == End(blocks[k]) == next == blocks[k + 1].at && p < next
      requires next in head && head[next] == Head(blocks[k + 1].size, true, blocks[k + 1].used)
      requires (next == top <==> k + 2 == |blocks|) && (p == dv ==> lo < k && !blocks[k + 1].used)
      requires !blocks[k + 1].used && k + 2 < |blocks| ==> (next, blocks[k + 1].size) in FreeBelow(blocks)
      modifies this, tree, tree.bins, small
      ensures Valid()
      ensures old(Picked(blocks, true)) == Picked(blocks, true) + multiset{(old(blocks)[k].at, old(blocks)[k].size)}
    {
      hide *;
      MergesHere(blocks, k);
      IfNot(blocks[lo]);
      IfNot(blocks[k + 1]);
      EndIs(blocks[k + 1]);
      if !head[next].cinuse {
        if next == top {
          FreeIntoTop(p, psize, k, lo, owed);
          return;
        } else if next == dv {
          FreeIntoDv(p, psize, k, lo, owed);
          return;
        } else {
          var nsize := head[next].size;
          UnlinkChunk(next, nsize, owed);
          var binned := FreeBeforeFree(p, psize + nsize, k, lo, owed);
          if !binned { return; }
          InsertChunk(p, psize + nsize);
        }
      } else {
        FreeBeforeUsed(p, psize, next, k, lo, owed);
        InsertChunk(p, psize);
      }
      ValidIs();
    }

    /** Release the chunk whose payload starts at mem: it merges with its free neighbours. */
    method Free(mem: nat, ghost size: nat)
      requires Valid() && (mem != 0 ==> CHUNK2MEM <= mem && (mem - CHUNK2MEM, size) in Picked(blocks, true))
      modifies this, tree, tree.bins, small
      ensures Valid()
      ensures old(Picked(blocks, true)) ==
              Picked(blocks, true) + if mem == 0 then multiset{} else multiset{(mem - CHUNK2MEM, size)}
    {
      hide *;
      ValidIs();
      KeepsParts(multiset{});
      if mem == 0 { return; }
      var p := mem - CHUNK2MEM;
      ghost var k := FreeingFacts(p, size);
      ghost var lo, owed: multiset<ChunkId> := k, multiset{};
      NotDv(k);
      MergesHere(blocks, k);
      IfNot(blocks[k]);
      EndIs(blocks[k]);
      var psize := head[p].size;
      var next := p + psize;
      if !head[p].pinuse {
        lo := k - 1;
        PrevFacts(p, k);
        IfNot(blocks[lo]);
        var prevsize := foot[p];
        psize := psize + prevsize;
        p := p - prevsize;
        if p != dv {
          UnlinkChunk(p, prevsize, multiset{});
          owed := multiset{(p, prevsize)};
          assert multiset{} + multiset{(p, prevsize)} == owed;
        } else if head[next].pinuse && head[next].cinuse {
          FreeOntoDv(p, psize, next, k);
          return;
        }
      }
      FreeForward(p, psize, next, k, lo, owed);
    }

    // ----- any sequence of calls -----

    /** The segment is tiled from its base to its limit: no byte is lost and none is gained. */
    lemma Conserved()
      requires Valid()
      ensures blocks != [] && blocks[0].at == base && End(blocks[|blocks| - 1]) == limit
      ensures TotalSize(blocks) == limit - base
    {
      hide *;
      ValidIs();
      KeepsParts(multiset{});
      var n := |blocks| - 1;
      BytesConserved(head, foot, blocks, base, n);
      assert blocks[..n + 1] == blocks;
      SegmentEnds(head, foot, blocks, base, limit, dv, dvsize, top, topsize);
    }

    /** Every byte of the segment is in a block. */
    lemma Covered(x: nat) returns (k: nat)
      requires Valid() && base <= x < limit
      ensures k < |blocks| && blocks[k].at <= x < End(blocks[k])
    {
      hide *;
      Conserved();
      ValidIs();
      KeepsParts(multiset{});
      k := EveryByteCovered(head, foot, blocks, base, |blocks| - 1, x);
    }

    /** Serve any sequence of calls; a release names one of the allocations that are live.  Afterwards the
        segment is as long as ever, exactly the live allocations are in use, each has the room it was asked
        for, and no two share a byte. */
    method Drive(calls: seq<Call>) returns (live: seq<nat>, ghost leases: seq<Lease>)
      requires Valid() && Picked(blocks, true) == multiset{}
      modifies this, tree, tree.bins, small
      ensures Valid() && TotalSize(blocks) == limit - base
      ensures |live| == |leases| && forall i :: 0 <= i < |live| ==> live[i] == leases[i].mem
      ensures Picked(blocks, true) == LeasedChunks(leases)
      ensures Roomy(leases) && Apart(leases)
    {
      hide *;
      live, leases := [], [];
      NoLeases();
      for n := 0 to |calls|
        invariant Valid() && Picked(blocks, true) == LeasedChunks(leases) && Roomy(leases)
        invariant |live| == |leases| && forall i :: 0 <= i < |live| ==> live[i] == leases[i].mem
      {
        var call := calls[n];
        if call.Allocate? && call.bytes < MAX_BYTES {
          WithinMax(call.bytes);
          ghost var was := Picked(blocks, true);
          var mem;
          ghost var size, from;
          mem, size, from := Malloc(call.bytes);
          if mem != 0 {
            LeaseTaken(was, Picked(blocks, true), leases, mem, call.bytes, size);
            live, leases := live + [mem], leases + [Lease(mem, call.bytes, size)];
          }
        } else if call.Release? && call.k < |live| {
          var k := call.k;
          LeaseEnded(leases, k);
          Free(live[k], leases[k].size);
          Cancel(Picked(blocks, true), LeasedChunks(leases[..k] + leases[k + 1..]),
                 multiset{(live[k] - CHUNK2MEM, leases[k].size)});
          live, leases := live[..k] + live[k + 1..], leases[..k] + leases[k + 1..];
        }
      }
      Conserved();
      ValidIs();
      KeepsParts(multiset{});
      LeasesApart(head, foot, blocks, base, leases);
    }

    lemma NotDv(k: nat)
      requires Keeps(multiset{}) && k < |blocks| && blocks[k].used
      ensures blocks[k].at != dv && 0 < blocks[k].size
    {
      hide *;
      KeepsParts(multiset{});
      if blocks[k].at == dv { DvBlock(multiset{}, k); }
      BlockSize(head, foot, blocks, base, k);
    }
  }

  function Wanted(bytes: nat): nat
  {
    if bytes < MAX_REQUEST then Request2Size(bytes) else MAX_SIZE_T
  }

  lemma WantedFacts(bytes: nat)
    requires bytes + 64 < SIZE_LIMIT || MAX_REQUEST <= bytes <= MAX_SIZE_T
    ensures bytes < MAX_REQUEST ==> Wanted(bytes) == Request2Size(bytes)
    ensures bytes < MAX_REQUEST ==> MIN_CHUNK_SIZE <= Wanted(bytes) < SIZE_LIMIT && Wanted(bytes) % ALIGNMENT == 0
    ensures bytes < MAX_REQUEST ==> (bytes <= MAX_SMALL_REQUEST <==> Wanted(bytes) < MIN_LARGE_SIZE)
    ensures MAX_REQUEST <= bytes ==> Wanted(bytes) == MAX_SIZE_T && MAX_SMALL_REQUEST < bytes
    ensures bytes <= MAX_SMALL_REQUEST ==> bytes < MAX_REQUEST
    ensures MIN_CHUNK_SIZE <= MIN_LARGE_SIZE && SIZE_LIMIT < MAX_SIZE_T
  {
    RequestFacts(bytes);
  }

  ghost predicate NoneFits(free: multiset<ChunkId>, nb: nat)
  {
    forall c: ChunkId :: c in free ==> c.1 < nb
  }

  /** No chunk but the designated victim has the request's size, or eight bytes more. */
  ghost predicate NoRemainderlessFit(free: multiset<ChunkId>, dv: ChunkId, nb: nat)
  {
    forall c: ChunkId :: c in free && c != dv ==> c.1 != nb && c.1 != nb + 8
  }

  /** A small request is served from the bins: by a fit without remainder, or because the designated victim is
      too small; and by the least chunk that fits. */
  ghost predicate FromBins(free: multiset<ChunkId>, dv: ChunkId, nb: nat, from: nat)
  {
    && (from == nb || from == nb + 8 || dv.1 < nb)
    && forall c: ChunkId :: c in free && c != dv && nb <= c.1 ==> from <= c.1
  }

  /** Where the chunk at mem comes from: a free chunk of size from.  A large request takes the least that fits;
      a small one the least in the bins, or the designated victim when the bins hold no remainderless fit.  The
      top chunk serves only if nothing below it fits. */
  ghost predicate Source(free: multiset<ChunkId>, dv: ChunkId, top: nat, mem: nat, nb: nat, from: nat)
  {
    if mem == top + CHUNK2MEM && NoneFits(free, nb) then true
    else
      && CHUNK2MEM <= mem && (mem - CHUNK2MEM, from) in free && nb <= from
      && (if MIN_LARGE_SIZE <= nb then forall c: ChunkId :: c in free && nb <= c.1 ==> from <= c.1
          else FromBins(free, dv, nb, from) || ((mem - CHUNK2MEM, from) == dv && NoRemainderlessFit(free, dv, nb)))
  }

  /** The bins have been searched: what fits is the designated victim, or no better. */
  ghost predicate Searched(free: multiset<ChunkId>, dv: ChunkId, nb: nat)
  {
    && (dv.1 < nb ==> NoneFits(free, nb))
    && (if MIN_LARGE_SIZE <= nb then forall c: ChunkId :: c in free && nb <= c.1 ==> dv.1 <= c.1
        else NoRemainderlessFit(free, dv, nb))
  }

  lemma FromBinsIs(free: multiset<ChunkId>, dv: ChunkId, nb: nat, from: nat)
    requires from == nb || from == nb + 8 || dv.1 < nb
    requires forall c: ChunkId :: c in free && c != dv && nb <= c.1 ==> from <= c.1
    ensures FromBins(free, dv, nb, from)
  {
  }

  lemma NoRemainderlessIs(free: multiset<ChunkId>, dv: ChunkId, nb: nat)
    requires forall c: ChunkId :: c in free && c != dv ==> c.1 != nb && c.1 != nb + 8
    ensures NoRemainderlessFit(free, dv, nb)
  {
  }

  lemma FromSmall(free: multiset<ChunkId>, dv: ChunkId, top: nat, mem: nat, nb: nat, from: nat)
    requires CHUNK2MEM <= mem && (mem - CHUNK2MEM, from) in free && nb <= from && nb < MIN_LARGE_SIZE
    requires FromBins(free, dv, nb, from)
    ensures Source(free, dv, top, mem, nb, from) && !NoneFits(free, nb)
  {
  }

  lemma FromLarge(free: multiset<ChunkId>, dv: ChunkId, top: nat, mem: nat, nb: nat, from: nat)
    requires CHUNK2MEM <= mem && (mem - CHUNK2MEM, from) in free && nb <= from && MIN_LARGE_SIZE <= nb
    requires forall c: ChunkId :: c in free && nb <= c.1 ==> from <= c.1
    ensures Source(free, dv, top, mem, nb, from) && !NoneFits(free, nb)
  {
  }

  lemma SearchedDv(free: multiset<ChunkId>, dv: ChunkId, top: nat, mem: nat, nb: nat)
    requires Searched(free, dv, nb) && CHUNK2MEM <= mem && (mem - CHUNK2MEM, dv.1) in free && mem - CHUNK2MEM == dv.0
    requires nb <= dv.1
    ensures Source(free, dv, top, mem, nb, dv.1) && !NoneFits(free, nb)
  {
  }

  lemma SearchedNone(free: multiset<ChunkId>, dv: ChunkId, top: nat, mem: nat, nb: nat, from: nat)
    requires Searched(free, dv, nb) && dv.1 < nb
    ensures NoneFits(free, nb) && (mem == top + CHUNK2MEM ==> Source(free, dv, top, mem, nb, from))
  {
  }

  lemma SmallSearched(free: multiset<ChunkId>, dv: ChunkId, nb: nat)
    requires nb < MIN_LARGE_SIZE && (nb <= dv.1 || forall c: ChunkId :: c in free ==> c.1 < nb)
    requires NoRemainderlessFit(free, dv, nb)
    ensures Searched(free, dv, nb)
  {
  }

  lemma LargeSearched(free: multiset<ChunkId>, dv: ChunkId, nb: nat)
    requires MIN_LARGE_SIZE <= nb && forall c: ChunkId :: c in free && nb <= c.1 ==> nb <= dv.1 <= c.1
    ensures Searched(free, dv, nb)
  {
  }

  /** The payload of the chunk put in use starts at mem. */
  ghost predicate Served(was: multiset<ChunkId>, now: multiset<ChunkId>, mem: nat, nb: nat, size: nat)
  {
    && nb <= size < nb + MIN_CHUNK_SIZE && CHUNK2MEM <= mem
    && now == was + multiset{(mem - CHUNK2MEM, size)}
  }

  /** Where c stood, d stands now. */
  lemma Exchange(was: multiset<ChunkId>, now: multiset<ChunkId>, rest: multiset<ChunkId>, c: multiset<ChunkId>,
                 d: multiset<ChunkId>)
    requires was == rest + c && now + c == was + d
    ensures now == rest + d
  {
    forall x: ChunkId | true ensures now[x] == (rest + d)[x] { assert (now + c)[x] == (was + d)[x]; }
  }

  lemma DvIs(dv: nat, dvsize: nat)
    ensures DvChunk(dv, dvsize) == if dvsize == 0 then multiset{} else multiset{(dv, dvsize)}
  {
  }

  lemma SmallSizes(s: nat)
    ensures S.IsSmall(s) <==> s < MIN_LARGE_SIZE
    ensures s % ALIGNMENT == 0 ==> s % 8 == 0
    ensures S.NSMALLBINS > 0
  {
  }

  lemma Constants()
    ensures MIN_CHUNK_SIZE == 32 && ALIGNMENT == 16 && CHUNK2MEM == 16 && MIN_LARGE_SIZE == 256
  {
  }

  lemma ServedIs(was: multiset<ChunkId>, now: multiset<ChunkId>, p: nat, nb: nat, size: nat)
    requires nb <= size < nb + MIN_CHUNK_SIZE && now == was + multiset{(p, size)}
    ensures Served(was, now, p + CHUNK2MEM, nb, size) && p + CHUNK2MEM != 0
  {
  }

  lemma LeastIs(trees: seq<T.Tree>, nb: nat, size: nat)
    requires B.LeastFit(trees, nb, size)
    ensures forall c: ChunkId :: c in B.AllChunks(trees) && nb <= c.1 ==> size <= c.1
  {
  }

  lemma TopIs(h: Heads, f: Feet, bs: seq<Block>, base: nat, limit: nat, dv: nat, dvsize: nat, top: nat, topsize: nat)
    requires Laid(h, f, bs, base) && Fixed(bs, base, limit, dv, dvsize, top, topsize)
    ensures bs != [] && bs[|bs| - 1] == Block(top, topsize, false)
  {
    OneBlock(h, f, bs, base, |bs| - 1);
  }

  lemma FixedTop(bs: seq<Block>, bs': seq<Block>, base: nat, limit: nat, dv: nat, dvsize: nat, top: nat, topsize: nat,
                 nb: nat)
    requires Fixed(bs, base, limit, dv, dvsize, top, topsize) && bs != [] && bs' != [] && nb <= topsize
    requires bs'[|bs'| - 1] == Block(top + nb, topsize - nb, false)
    ensures Fixed(bs', base, limit, dv, dvsize, top + nb, topsize - nb)
  {
  }

  lemma SmallFacts(nb: nat)
    requires nb % ALIGNMENT == 0 && MIN_CHUNK_SIZE <= nb < MIN_LARGE_SIZE
    ensures S.SmallIndex2Size(S.SmallIndex(nb)) == nb && S.SmallIndex2Size(S.SmallIndex(nb) + 1) == nb + 8
    ensures S.NSMALLBINS == 32 && NTREEBINS == 32 && S.SmallIndex(nb) < 32
  {
  }

  lemma NextIndex(nb: nat)
    requires nb % ALIGNMENT == 0
    ensures S.SmallIndex(nb + 8) == S.SmallIndex(nb) + 1
    ensures nb < MIN_LARGE_SIZE ==> S.SmallIndex(nb) + 1 < S.NSMALLBINS && nb + 8 < MIN_LARGE_SIZE
  {
  }

  lemma IndexOrder(nb: nat, s: nat, i: nat)
    requires nb <= s
    ensures S.SmallIndex(nb) <= S.SmallIndex(s)
    ensures i <= S.SmallIndex(s) && s == S.SmallIndex2Size(S.SmallIndex(s)) ==> S.SmallIndex2Size(i) <= s
    ensures i < S.NSMALLBINS && MIN_LARGE_SIZE <= s ==> S.SmallIndex2Size(i) <= s
  {
  }

  lemma IndexGrows(nb: nat, i: nat)
    requires nb % ALIGNMENT == 0 && S.SmallIndex(nb) <= i
    ensures nb <= S.SmallIndex2Size(i)
  {
  }

  lemma ServedParts(was: multiset<ChunkId>, now: multiset<ChunkId>, mem: nat, nb: nat, size: nat)
    requires Served(was, now, mem, nb, size)
    ensures CHUNK2MEM <= mem && mem != 0
  {
  }

  lemma MergesIs(bs: seq<Block>, k: nat, lo: nat, hi: nat)
    requires k < |bs| && Merges(bs, k, lo, hi)
    ensures k + 1 < |bs| && bs[k].used && lo <= k < hi <= k + 2 && (lo < k ==> lo == k - 1 && !bs[lo].used)
    ensures hi == (if bs[k + 1].used then k + 1 else k + 2)
  {
  }

  lemma IfNot(b: Block)
    ensures If(false, b) == multiset{} && If(true, b) == multiset{(b.at, b.size)}
  {
  }

  lemma UsedTags(h: Heads, f: Feet, bs: seq<Block>, base: nat, k: nat)
    requires Laid(h, f, bs, base) && k < |bs| && bs[k].used
    ensures var p, next := bs[k].at, bs[k].at + bs[k].size;
            && p in h && h[p] == Head(bs[k].size, k == 0 || bs[k - 1].used, true)
            && k + 1 < |bs| && bs[k + 1].at == next && next in h
            && h[next] == Head(bs[k + 1].size, true, bs[k + 1].used)
  {
    OneBlock(h, f, bs, base, k);
    if k + 1 < |bs| { OneBlock(h, f, bs, base, k + 1); }
    hide Laid;
  }

  lemma PrevTags(h: Heads, f: Feet, bs: seq<Block>, base: nat, k: nat)
    requires Laid(h, f, bs, base) && 0 < k < |bs| && !bs[k - 1].used
    ensures var p := bs[k].at; p in f && f[p] == bs[k - 1].size && f[p] <= p && bs[k - 1].at == p - f[p]
  {
    OneBlock(h, f, bs, base, k - 1);
    hide Laid;
  }

  /** The predecessor leaves the accounts with the merge, whether it was the designated victim or owed. */
  lemma IntoTopAccounts(was: multiset<ChunkId>, now: multiset<ChunkId>, rest: multiset<ChunkId>, d: multiset<ChunkId>,
                        owed: multiset<ChunkId>, prev: multiset<ChunkId>, victim: bool)
    requires was == rest + d + owed && now + prev == was
    requires if victim then prev == d && owed == multiset{} else owed == prev
    ensures now == rest + if victim then multiset{} else d
  {
    forall x: ChunkId | true
      ensures now[x] == (rest + if victim then multiset{} else d)[x]
    {
      assert (now + prev)[x] == was[x];
    }
  }

  lemma FixedIntoTop(bs: seq<Block>, bs': seq<Block>, base: nat, limit: nat, dv: nat, dvsize: nat, top: nat,
                     topsize: nat, p: nat, size: nat)
    requires Fixed(bs, base, limit, dv, dvsize, top, topsize) && bs != [] && bs' != []
    requires bs'[|bs'| - 1] == Block(p, size, false) && p + size == End(bs[|bs| - 1])
    ensures Fixed(bs', base, limit, dv, dvsize, p, size) && Fixed(bs', base, limit, 0, 0, p, size)
  {
  }

  /** Whom a used block merges with. */
  lemma MergesHere(bs: seq<Block>, k: nat)
    requires k + 1 < |bs| && bs[k].used
    ensures Merges(bs, k, if 0 < k && !bs[k - 1].used then k - 1 else k, if bs[k + 1].used then k + 1 else k + 2)
  {
  }

  lemma BlockSize(h: Heads, f: Feet, bs: seq<Block>, base: nat, k: nat)
    requires Laid(h, f, bs, base) && k < |bs|
    ensures 0 < bs[k].size
  {
    OneBlock(h, f, bs, base, k);
    hide Laid, Tagged;
  }

  lemma EndIs(b: Block)
    ensures End(b) == b.at + b.size
  {
  }

  lemma FixedDv(bs: seq<Block>, base: nat, limit: nat, dv: nat, dvsize: nat, dv': nat, dvsize': nat, top: nat,
                topsize: nat)
    requires Fixed(bs, base, limit, dv, dvsize, top, topsize) && (dv' == 0 <==> dvsize' == 0)
    ensures Fixed(bs, base, limit, dv', dvsize', top, topsize) && (dv == 0 <==> dvsize == 0)
  {
  }

  lemma FixedOn(bs: seq<Block>, bs': seq<Block>, base: nat, limit: nat, dv: nat, dvsize: nat, top: nat, topsize: nat)
    requires Fixed(bs, base, limit, dv, dvsize, top, topsize) && bs != [] && bs' != [] && bs'[|bs'| - 1] == bs[|bs| - 1]
    ensures Fixed(bs', base, limit, dv, dvsize, top, topsize)
  {
  }

  // ----- allocations over a sequence of calls -----

  datatype Call = Allocate(bytes: nat) | Release(k: nat)

  /** A live allocation: where it is, how much was asked for, and the size of its chunk. */
  datatype Lease = Lease(mem: nat, asked: nat, size: nat)

  const MAX_BYTES: nat := 0xFF_FFFF_FFC0

  lemma WithinMax(bytes: nat)
    requires bytes < MAX_BYTES
    ensures bytes + 64 < SIZE_LIMIT && bytes < MAX_REQUEST
  {
  }

  function ChunkOf(l: Lease): ChunkId
  {
    (if l.mem < CHUNK2MEM then 0 else l.mem - CHUNK2MEM, l.size)
  }

  function LeasedChunks(leases: seq<Lease>): multiset<ChunkId>
  {
    if leases == [] then multiset{} else LeasedChunks(leases[..|leases| - 1]) + multiset{ChunkOf(leases[|leases| - 1])}
  }

  /** Every allocation starts behind a chunk's head and has the room asked for. */
  ghost predicate Roomy(leases: seq<Lease>)
  {
    forall i :: 0 <= i < |leases| ==> CHUNK2MEM <= leases[i].mem && leases[i].asked + CHUNK_OVERHEAD <= leases[i].size
  }

  /** No byte belongs to two allocations: one ends before the other begins. */
  ghost predicate Apart(leases: seq<Lease>)
  {
    forall i, j :: 0 <= i < j < |leases| ==>
      || leases[i].mem + leases[i].asked <= leases[j].mem
      || leases[j].mem + leases[j].asked <= leases[i].mem
  }

  lemma Cancel(a: multiset<ChunkId>, b: multiset<ChunkId>, c: multiset<ChunkId>)
    requires a + c == b + c
    ensures a == b
  {
    forall x: ChunkId | true ensures a[x] == b[x] { assert (a + c)[x] == (b + c)[x]; }
  }

  lemma NoLeases()
    ensures LeasedChunks([]) == multiset{} && Roomy([])
  {
  }

  lemma SegmentEnds(h: Heads, f: Feet, bs: seq<Block>, base: nat, limit: nat, dv: nat, dvsize: nat, top: nat,
                    topsize: nat)
    requires Laid(h, f, bs, base) && Fixed(bs, base, limit, dv, dvsize, top, topsize)
    ensures bs != [] && bs[0].at == base && End(bs[|bs| - 1]) == limit
  {
  }

  lemma LeaseTaken(was: multiset<ChunkId>, now: multiset<ChunkId>, leases: seq<Lease>, mem: nat, bytes: nat, size: nat)
    requires was == LeasedChunks(leases) && Roomy(leases) && bytes < MAX_REQUEST
    requires Served(was, now, mem, Wanted(bytes), size)
    ensures now == LeasedChunks(leases + [Lease(mem, bytes, size)]) && Roomy(leases + [Lease(mem, bytes, size)])
  {
    RequestFacts(bytes);
    assert (leases + [Lease(mem, bytes, size)])[..|leases|] == leases;
  }

  lemma LeasesNext(leases: seq<Lease>, l: Lease)
    ensures LeasedChunks(leases + [l]) == LeasedChunks(leases) + multiset{ChunkOf(l)}
  {
    assert (leases + [l])[..|leases|] == leases;
  }

  lemma {:induction false} LeasesWithout(leases: seq<Lease>, k: nat)
    requires k < |leases|
    ensures LeasedChunks(leases) == LeasedChunks(leases[..k] + leases[k + 1..]) + multiset{ChunkOf(leases[k])}
  {
    hide ChunkOf, LeasedChunks;
    var n := |leases| - 1;
    var front, last := leases[..n], leases[n];
    LeasesNext(front, last);
    assert leases == front + [last];
    if k < n {
      LeasesWithout(front, k);
      LeasesNext(front[..k] + front[k + 1..], last);
      assert leases[..k] + leases[k + 1..] == front[..k] + front[k + 1..] + [last];
    } else {
      assert leases[..k] + leases[k + 1..] == front;
    }
  }

  lemma LeaseEnded(leases: seq<Lease>, k: nat)
    requires Roomy(leases) && k < |leases|
    ensures CHUNK2MEM <= leases[k].mem && leases[k].mem != 0
    ensures (leases[k].mem - CHUNK2MEM, leases[k].size) in LeasedChunks(leases)
    ensures var rest := leases[..k] + leases[k + 1..];
            Roomy(rest) &&
              LeasedChunks(leases) == LeasedChunks(rest) + multiset{(leases[k].mem - CHUNK2MEM, leases[k].size)}
  {
    LeasesWithout(leases, k);
    hide LeasedChunks;
  }

  lemma LeasesApart(h: Heads, f: Feet, bs: seq<Block>, base: nat, leases: seq<Lease>)
    requires Laid(h, f, bs, base) && Picked(bs, true) == LeasedChunks(leases) && Roomy(leases)
    ensures Apart(leases)
  {
    hide Laid, Picked, LeasedChunks;
    forall i, j | 0 <= i < j < |leases|
      ensures leases[i].mem + leases[i].asked <= leases[j].mem || leases[j].mem + leases[j].asked <= leases[i].mem
    {
      TwoLeases(h, f, bs, base, leases, i, j);
      ChunksApart(h, f, bs, base, ChunkOf(leases[i]), ChunkOf(leases[j]));
    }
  }

  lemma TwoLeases(h: Heads, f: Feet, bs: seq<Block>, base: nat, leases: seq<Lease>, i: nat, j: nat)
    requires Laid(h, f, bs, base) && Picked(bs, true) == LeasedChunks(leases) && i < j < |leases|
    ensures ChunkOf(leases[i]) in Picked(bs, true) && ChunkOf(leases[j]) in Picked(bs, true)
    ensures ChunkOf(leases[i]) != ChunkOf(leases[j])
  {
    hide Laid, Picked, LeasedChunks, ChunkOf;
    var rest := leases[..j] + leases[j + 1..];
    LeasesWithout(leases, j);
    LeasesWithout(rest, i);
    assert rest[i] == leases[i] && bs[..|bs|] == bs;
    PickedOnce(h, f, bs, base, |bs|, true, ChunkOf(leases[j]));
  }
}
