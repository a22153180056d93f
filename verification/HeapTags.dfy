/** Boundary tags: the chunks of a segment as their heads and feet describe them. */
module HeapTags {

  const MIN_CHUNK_SIZE: nat := 32
  const ALIGNMENT: nat := 16

  /** The head word of a chunk: its size and the bits that say whether its predecessor and itself are in use. */
  datatype Head = Head(size: nat, pinuse: bool, cinuse: bool)

  type Heads = map<nat, Head>
  type Feet = map<nat, nat>

  datatype Block = Block(at: nat, size: nat, used: bool)

  function End(b: Block): nat { b.at + b.size }

  /** The k-th block and its successor: adjacent, and not both free.  The last block is the top chunk. */
  ghost predicate Shape(bs: seq<Block>, k: nat)
    requires k < |bs|
  {
    && bs[k].size % ALIGNMENT == 0 && 0 < bs[k].size
    && if k + 1 < |bs| then MIN_CHUNK_SIZE <= bs[k].size && bs[k + 1].at == End(bs[k]) && (bs[k].used || bs[k + 1].used)
       else !bs[k].used
  }

  /** The tags of the k-th block: only a free block below top has a foot. */
  ghost predicate Tagged(h: Heads, f: Feet, bs: seq<Block>, k: nat)
    requires k < |bs|
  {
    && bs[k].at in h && h[bs[k].at] == Head(bs[k].size, k == 0 || bs[k - 1].used, bs[k].used)
    && (!bs[k].used && k + 1 < |bs| ==> End(bs[k]) in f && f[End(bs[k])] == bs[k].size)
  }

  /** The blocks tile the segment from base, and the tags describe them. */
  ghost predicate Laid(h: Heads, f: Feet, bs: seq<Block>, base: nat)
  {
    && bs != [] && bs[0].at == base && base % ALIGNMENT == 0
    && forall k: nat :: k < |bs| ==> Shape(bs, k) && Tagged(h, f, bs, k)
  }

  lemma OneBlock(h: Heads, f: Feet, bs: seq<Block>, base: nat, k: nat)
    requires Laid(h, f, bs, base) && k < |bs|
    ensures Shape(bs, k) && Tagged(h, f, bs, k)
  {
  }

  /** Blocks lie one after the other. */
  lemma {:induction false} InOrder(h: Heads, f: Feet, bs: seq<Block>, base: nat, i: nat, j: nat)
    requires Laid(h, f, bs, base) && i < j < |bs|
    ensures End(bs[i]) <= bs[j].at && bs[i].at < bs[j].at
    decreases j
  {
    assert Shape(bs, i) && Shape(bs, j - 1);
    if i < j - 1 { InOrder(h, f, bs, base, i, j - 1); }
  }

  lemma {:induction false} AllAligned(h: Heads, f: Feet, bs: seq<Block>, base: nat, k: nat)
    requires Laid(h, f, bs, base) && k < |bs|
    ensures bs[k].at % ALIGNMENT == 0 && base <= bs[k].at
    decreases k
  {
    if k > 0 {
      assert Shape(bs, k - 1);
      AllAligned(h, f, bs, base, k - 1);
    }
  }

  /** The bytes of any two blocks are disjoint. */
  lemma BytesDisjoint(h: Heads, f: Feet, bs: seq<Block>, base: nat, i: nat, j: nat, x: nat)
    requires Laid(h, f, bs, base) && i < |bs| && j < |bs| && i != j
    requires bs[i].at <= x < End(bs[i])
    ensures !(bs[j].at <= x < End(bs[j]))
  {
    if i < j { InOrder(h, f, bs, base, i, j); } else { InOrder(h, f, bs, base, j, i); }
  }

  function TotalSize(bs: seq<Block>): nat
  {
    if bs == [] then 0 else TotalSize(bs[..|bs| - 1]) + bs[|bs| - 1].size
  }

  /** No byte of the segment is lost: the sizes add up to its length. */
  lemma {:induction false} BytesConserved(h: Heads, f: Feet, bs: seq<Block>, base: nat, n: nat)
    requires Laid(h, f, bs, base) && n < |bs|
    ensures base + TotalSize(bs[..n + 1]) == End(bs[n])
  {
    assert bs[..n + 1][..n] == bs[..n];
    if n > 0 {
      assert Shape(bs, n - 1);
      BytesConserved(h, f, bs, base, n - 1);
    } else {
      assert bs[..1][..0] == [];
    }
  }

  /** Every byte of the segment is in some block. */
  lemma {:induction false} EveryByteCovered(h: Heads, f: Feet, bs: seq<Block>, base: nat, n: nat, x: nat)
    returns (k: nat)
    requires Laid(h, f, bs, base) && n < |bs| && base <= x < End(bs[n])
    ensures k <= n && bs[k].at <= x < End(bs[k])
  {
    if bs[n].at <= x {
      k := n;
    } else {
      assert Shape(bs, n - 1);
      k := EveryByteCovered(h, f, bs, base, n - 1, x);
    }
  }

  // ----- replacing some blocks by others -----

  function Splice(bs: seq<Block>, lo: nat, hi: nat, mid: seq<Block>): seq<Block>
    requires lo <= hi <= |bs|
  {
    bs[..lo] + mid + bs[hi..]
  }

  /** The new blocks fill the same room. */
  ghost predicate Fills(bs: seq<Block>, lo: nat, hi: nat, mid: seq<Block>)
    requires lo < hi <= |bs| && mid != []
  {
    var last := mid[|mid| - 1];
    && mid[0].at == bs[lo].at && End(last) == End(bs[hi - 1])
    && (0 < lo ==> bs[lo - 1].used || mid[0].used)
    && (hi < |bs| ==> MIN_CHUNK_SIZE <= last.size && (last.used || bs[hi].used))
    && (hi == |bs| ==> !last.used)
    && (forall k: nat :: k < |mid| ==> mid[k].size % ALIGNMENT == 0 && 0 < mid[k].size)
    && forall k: nat :: k + 1 < |mid| ==>
         MIN_CHUNK_SIZE <= mid[k].size && mid[k + 1].at == End(mid[k]) && (mid[k].used || mid[k + 1].used)
  }

  /** The new blocks' tags are in place. */
  ghost predicate Retagged(h: Heads, f: Feet, bs: seq<Block>, lo: nat, hi: nat, mid: seq<Block>, k: nat)
    requires lo < hi <= |bs| && k < |mid|
  {
    && mid[k].at in h
    && h[mid[k].at] == Head(mid[k].size, if k == 0 then lo == 0 || bs[lo - 1].used else mid[k - 1].used, mid[k].used)
    && (!mid[k].used && (k + 1 < |mid| || hi < |bs|) ==> End(mid[k]) in f && f[End(mid[k])] == mid[k].size)
  }

  /** Outside the room, tags are as they were, but the next block knows whether its new predecessor is in use. */
  ghost predicate Around(h: Heads, f: Feet, bs: seq<Block>, lo: nat, hi: nat, mid: seq<Block>, h': Heads, f': Feet)
    requires lo < hi <= |bs| && mid != []
  {
    var a, b := bs[lo].at, End(bs[hi - 1]);
    && (forall x: nat :: x in h && (x < a || x > b) ==> x in h' && h'[x] == h[x])
    && (forall x: nat :: x in f && (x <= a || x > b) ==> x in f' && f'[x] == f[x])
    && (hi < |bs| ==> b in h && b in h' && h'[b] == h[b].(pinuse := mid[|mid| - 1].used))
  }

  lemma Spliced(h: Heads, f: Feet, bs: seq<Block>, base: nat, lo: nat, hi: nat, mid: seq<Block>, h': Heads, f': Feet)
    requires Laid(h, f, bs, base) && lo < hi <= |bs| && mid != [] && Fills(bs, lo, hi, mid)
    requires forall k: nat :: k < |mid| ==> Retagged(h', f', bs, lo, hi, mid, k)
    requires Around(h, f, bs, lo, hi, mid, h', f')
    ensures Laid(h', f', Splice(bs, lo, hi, mid), base)
  {
    var bs' := Splice(bs, lo, hi, mid);
    forall k: nat | k < |bs'| ensures Shape(bs', k) && Tagged(h', f', bs', k) {
      if k < lo {
        BeforeRoom(h, f, bs, base, lo, hi, mid, h', f', k);
      } else if k < lo + |mid| {
        InRoom(h, f, bs, base, lo, hi, mid, h', f', k - lo);
      } else {
        AfterRoom(h, f, bs, base, lo, hi, mid, h', f', k - lo - |mid| + hi);
      }
    }
    FirstStays(bs, lo, hi, mid);
    hide Shape, Tagged, Fills, Retagged, Around;
  }

  lemma FirstStays(bs: seq<Block>, lo: nat, hi: nat, mid: seq<Block>)
    requires lo < hi <= |bs| && mid != [] && Fills(bs, lo, hi, mid)
    ensures var bs' := Splice(bs, lo, hi, mid); bs' != [] && bs'[0].at == bs[0].at
  {
  }

  lemma BeforeRoom(h: Heads, f: Feet, bs: seq<Block>, base: nat, lo: nat, hi: nat, mid: seq<Block>, h': Heads, f': Feet,
                   k: nat)
    requires Laid(h, f, bs, base) && lo < hi <= |bs| && mid != [] && Fills(bs, lo, hi, mid)
    requires Around(h, f, bs, lo, hi, mid, h', f') && k < lo
    ensures var bs' := Splice(bs, lo, hi, mid); k < |bs'| && Shape(bs', k) && Tagged(h', f', bs', k)
  {
    OneBlock(h, f, bs, base, k);
    InOrder(h, f, bs, base, k, lo);
    hide Laid;
  }

  lemma InRoom(h: Heads, f: Feet, bs: seq<Block>, base: nat, lo: nat, hi: nat, mid: seq<Block>, h': Heads, f': Feet,
               k: nat)
    requires Laid(h, f, bs, base) && lo < hi <= |bs| && mid != [] && Fills(bs, lo, hi, mid)
    requires k < |mid| && Retagged(h', f', bs, lo, hi, mid, k)
    ensures var bs' := Splice(bs, lo, hi, mid); lo + k < |bs'| && Shape(bs', lo + k) && Tagged(h', f', bs', lo + k)
  {
    OneBlock(h, f, bs, base, hi - 1);
    hide Laid;
    var bs' := Splice(bs, lo, hi, mid);
    assert bs'[lo + k] == mid[k];
    if k > 0 { assert bs'[lo + k - 1] == mid[k - 1]; } else if lo > 0 { assert bs'[lo - 1] == bs[lo - 1]; }
    if k + 1 < |mid| { assert bs'[lo + k + 1] == mid[k + 1]; } else if hi < |bs| { assert bs'[lo + |mid|] == bs[hi]; }
  }

  lemma AfterRoom(h: Heads, f: Feet, bs: seq<Block>, base: nat, lo: nat, hi: nat, mid: seq<Block>, h': Heads, f': Feet,
                  j: nat)
    requires Laid(h, f, bs, base) && lo < hi <= |bs| && mid != [] && Fills(bs, lo, hi, mid)
    requires Around(h, f, bs, lo, hi, mid, h', f') && hi <= j < |bs|
    ensures var bs', k := Splice(bs, lo, hi, mid), j - hi + lo + |mid|;
            k < |bs'| && Shape(bs', k) && Tagged(h', f', bs', k)
  {
    OneBlock(h, f, bs, base, j);
    OneBlock(h, f, bs, base, hi - 1);
    if hi < j { InOrder(h, f, bs, base, hi - 1, j); InOrder(h, f, bs, base, hi, j); OneBlock(h, f, bs, base, hi); }
    hide Laid;
    var bs', k := Splice(bs, lo, hi, mid), j - hi + lo + |mid|;
    assert bs'[k] == bs[j];
    if hi < j { assert bs'[k - 1] == bs[j - 1]; } else { assert bs'[k - 1] == mid[|mid| - 1]; }
    if j + 1 < |bs| { assert bs'[k + 1] == bs[j + 1]; }
  }

  // ----- what the operations write -----

  /** A free chunk is put in use as a whole. */
  lemma WholeUsed(h: Heads, f: Feet, bs: seq<Block>, base: nat, k: nat)
    requires Laid(h, f, bs, base) && k + 1 < |bs| && !bs[k].used
    ensures var a, n, s := bs[k].at, End(bs[k]), bs[k].size;
            && n in h && a != n && bs[k + 1].at == n
            && Laid(h[a := Head(s, true, true)][n := h[n].(pinuse := true)], f,
                    Splice(bs, k, k + 1, [Block(a, s, true)]), base)
  {
    OneBlock(h, f, bs, base, k);
    OneBlock(h, f, bs, base, k + 1);
    if k > 0 { OneBlock(h, f, bs, base, k - 1); }
    var a, n, s := bs[k].at, End(bs[k]), bs[k].size;
    var h' := h[a := Head(s, true, true)][n := h[n].(pinuse := true)];
    Spliced(h, f, bs, base, k, k + 1, [Block(a, s, true)], h', f);
  }

  /** A free chunk below the top chunk, and the chunks beside it. */
  lemma FreeFacts(h: Heads, f: Feet, bs: seq<Block>, base: nat, k: nat)
    requires Laid(h, f, bs, base) && k + 1 < |bs| && !bs[k].used
    ensures bs[k].size % ALIGNMENT == 0 && MIN_CHUNK_SIZE <= bs[k].size && bs[k + 1].at == End(bs[k]) && bs[k + 1].used
    ensures 0 < k ==> bs[k - 1].used
    ensures bs[k].at in h && h[bs[k].at] == Head(bs[k].size, true, false)
    ensures End(bs[k]) in h && !h[End(bs[k])].pinuse && k + 2 < |bs|
  {
    OneBlock(h, f, bs, base, k);
    OneBlock(h, f, bs, base, k + 1);
    if k > 0 { OneBlock(h, f, bs, base, k - 1); }
  }

  /** A free chunk is split: the front is put in use, the rest stays free. */
  lemma FreeSplit(h: Heads, f: Feet, bs: seq<Block>, base: nat, k: nat, nb: nat)
    requires Laid(h, f, bs, base) && k + 1 < |bs| && !bs[k].used
    requires MIN_CHUNK_SIZE <= nb && nb % ALIGNMENT == 0 && nb + MIN_CHUNK_SIZE <= bs[k].size
    ensures var a, r, s := bs[k].at, bs[k].at + nb, bs[k].size - nb;
            Laid(h[a := Head(nb, true, true)][r := Head(s, true, false)], f[r + s := s],
                 Splice(bs, k, k + 1, [Block(a, nb, true), Block(r, s, false)]), base)
  {
    hide Laid;
    FreeFacts(h, f, bs, base, k);
    var a, r, s := bs[k].at, bs[k].at + nb, bs[k].size - nb;
    var mid := [Block(a, nb, true), Block(r, s, false)];
    Spliced(h, f, bs, base, k, k + 1, mid, h[a := Head(nb, true, true)][r := Head(s, true, false)], f[r + s := s]);
  }

  lemma TopFacts(h: Heads, f: Feet, bs: seq<Block>, base: nat)
    requires Laid(h, f, bs, base)
    ensures var k := |bs| - 1;
            && bs != [] && !bs[k].used && bs[k].size % ALIGNMENT == 0 && bs[k].at in h
            && h[bs[k].at] == Head(bs[k].size, true, false)
            && (0 < k ==> bs[k - 1].used)
  {
    OneBlock(h, f, bs, base, |bs| - 1);
    if |bs| > 1 { OneBlock(h, f, bs, base, |bs| - 2); }
    hide Laid;
  }

  /** The top chunk is split. */
  lemma TopSplit(h: Heads, f: Feet, bs: seq<Block>, base: nat, nb: nat)
    requires Laid(h, f, bs, base) && bs != [] && MIN_CHUNK_SIZE <= nb && nb % ALIGNMENT == 0 && nb < bs[|bs| - 1].size
    ensures var k := |bs| - 1;
            var a, r, s := bs[k].at, bs[k].at + nb, bs[k].size - nb;
            Laid(h[r := Head(s, true, false)][a := Head(nb, true, true)], f,
                 Splice(bs, k, k + 1, [Block(a, nb, true), Block(r, s, false)]), base)
  {
    hide Laid;
    TopFacts(h, f, bs, base);
    var k := |bs| - 1;
    var a, r, s := bs[k].at, bs[k].at + nb, bs[k].size - nb;
    var mid := [Block(a, nb, true), Block(r, s, false)];
    Spliced(h, f, bs, base, k, k + 1, mid, h[r := Head(s, true, false)][a := Head(nb, true, true)], f);
  }

  /** The blocks that a freed block merges with: itself and its free neighbours. */
  ghost predicate Merges(bs: seq<Block>, k: nat, lo: nat, hi: nat)
    requires k < |bs|
  {
    && k + 1 < |bs| && bs[k].used
    && lo == (if 0 < k && !bs[k - 1].used then k - 1 else k)
    && hi == (if !bs[k + 1].used then k + 2 else k + 1)
  }

  lemma MergeFacts(h: Heads, f: Feet, bs: seq<Block>, base: nat, k: nat, lo: nat, hi: nat)
    requires Laid(h, f, bs, base) && k < |bs| && Merges(bs, k, lo, hi)
    ensures lo <= k < hi <= |bs| && (0 < lo ==> bs[lo - 1].used)
    ensures hi < |bs| ==> bs[hi].used && bs[hi].at == End(bs[hi - 1])
    ensures lo < k ==> End(bs[lo]) == bs[k].at
    ensures k + 1 < hi ==> End(bs[k]) == bs[k + 1].at
    ensures bs[lo].at <= bs[k].at && End(bs[k]) <= End(bs[hi - 1]) && MIN_CHUNK_SIZE <= End(bs[hi - 1]) - bs[lo].at
    ensures (End(bs[hi - 1]) - bs[lo].at) % ALIGNMENT == 0
    ensures bs[lo].at in h && h[bs[lo].at].pinuse == (lo == 0 || bs[lo - 1].used)
    ensures hi < |bs| ==> bs[hi].at in h && h[bs[hi].at].pinuse == bs[hi - 1].used
  {
    OneBlock(h, f, bs, base, k);
    OneBlock(h, f, bs, base, k + 1);
    if k > 0 { OneBlock(h, f, bs, base, k - 1); }
    if k > 1 { OneBlock(h, f, bs, base, k - 2); }
    if k + 2 < |bs| { OneBlock(h, f, bs, base, k + 2); }
    hide Laid;
  }

  /** A freed block and its free neighbours become one free block. */
  lemma Merged(h: Heads, f: Feet, bs: seq<Block>, base: nat, k: nat, lo: nat, hi: nat, h': Heads, f': Feet)
    requires Laid(h, f, bs, base) && k < |bs| && Merges(bs, k, lo, hi) && hi < |bs|
    requires var a, b := bs[lo].at, End(bs[hi - 1]);
             && a < b && b in h && f' == f[b := b - a]
             && h'.Keys == h.Keys + {a} && h'[a] == Head(b - a, true, false) && h'[b] == h[b].(pinuse := false)
             && forall x: nat :: x in h && x != a && x != b ==> h'[x] == h[x]
    ensures Laid(h', f', Splice(bs, lo, hi, [Block(bs[lo].at, End(bs[hi - 1]) - bs[lo].at, false)]), base)
  {
    hide Laid;
    MergeFacts(h, f, bs, base, k, lo, hi);
    Spliced(h, f, bs, base, lo, hi, [Block(bs[lo].at, End(bs[hi - 1]) - bs[lo].at, false)], h', f');
  }

  /** A freed block next to the top chunk, and its free predecessor, go into the top chunk. */
  lemma MergedIntoTop(h: Heads, f: Feet, bs: seq<Block>, base: nat, k: nat, lo: nat, hi: nat)
    requires Laid(h, f, bs, base) && k < |bs| && Merges(bs, k, lo, hi) && hi == |bs|
    ensures bs[lo].at < End(bs[hi - 1])
    ensures var a, b := bs[lo].at, End(bs[hi - 1]);
            Laid(h[a := Head(b - a, true, false)], f, Splice(bs, lo, hi, [Block(a, b - a, false)]), base)
  {
    hide Laid;
    MergeFacts(h, f, bs, base, k, lo, hi);
    var a, b := bs[lo].at, End(bs[hi - 1]);
    Spliced(h, f, bs, base, lo, hi, [Block(a, b - a, false)], h[a := Head(b - a, true, false)], f);
  }

  // ----- free and used chunks -----

  function Picked(bs: seq<Block>, used: bool): multiset<(nat, nat)>
  {
    if bs == [] then multiset{}
    else
      var b := bs[|bs| - 1];
      Picked(bs[..|bs| - 1], used) + (if b.used == used then multiset{(b.at, b.size)} else multiset{})
  }

  lemma {:induction false} PickedJoin(x: seq<Block>, y: seq<Block>, used: bool)
    ensures Picked(x + y, used) == Picked(x, used) + Picked(y, used)
    decreases |y|
  {
    if y == [] {
      assert x + y == x;
    } else {
      assert (x + y)[..|x + y| - 1] == x + y[..|y| - 1];
      PickedJoin(x, y[..|y| - 1], used);
    }
  }

  lemma PickedOne(b: Block, used: bool)
    ensures Picked([b], used) == if b.used == used then multiset{(b.at, b.size)} else multiset{}
  {
    assert [b][..0] == [];
  }

  lemma PickedTwo(a: Block, b: Block, used: bool)
    ensures Picked([a, b], used) == Picked([a], used) + Picked([b], used)
  {
    PickedJoin([a], [b], used);
    assert [a] + [b] == [a, b];
  }

  /** The free chunks below the top chunk. */
  function FreeBelow(bs: seq<Block>): multiset<(nat, nat)>
    requires bs != []
  {
    Picked(bs[..|bs| - 1], false)
  }

  lemma PickedSplice(bs: seq<Block>, lo: nat, hi: nat, mid: seq<Block>, used: bool)
    requires lo <= hi <= |bs|
    ensures Picked(Splice(bs, lo, hi, mid), used) + Picked(bs[lo..hi], used) == Picked(bs, used) + Picked(mid, used)
  {
    hide Picked;
    PickedJoin(bs[..lo], mid, used);
    PickedJoin(bs[..lo] + mid, bs[hi..], used);
    PickedJoin(bs[..lo], bs[lo..hi], used);
    PickedJoin(bs[..hi], bs[hi..], used);
    assert bs[..lo] + bs[lo..hi] == bs[..hi] && bs[..hi] + bs[hi..] == bs;
  }

  lemma FreeSplice(bs: seq<Block>, lo: nat, hi: nat, mid: seq<Block>)
    requires lo < hi < |bs|
    ensures Splice(bs, lo, hi, mid) != []
    ensures FreeBelow(Splice(bs, lo, hi, mid)) + Picked(bs[lo..hi], false) == FreeBelow(bs) + Picked(mid, false)
  {
    hide Picked;
    var n := |bs| - 1;
    PickedSplice(bs[..n], lo, hi, mid, false);
    var bs' := Splice(bs, lo, hi, mid);
    assert bs'[..|bs'| - 1] == Splice(bs[..n], lo, hi, mid) && bs[..n][lo..hi] == bs[lo..hi];
  }

  /** Where a picked chunk lies. */
  lemma {:induction false} PickedAt(bs: seq<Block>, used: bool, c: (nat, nat)) returns (k: nat)
    requires c in Picked(bs, used)
    ensures k < |bs| && bs[k] == Block(c.0, c.1, used)
  {
    var n := |bs| - 1;
    if c == (bs[n].at, bs[n].size) && bs[n].used == used { k := n; } else { k := PickedAt(bs[..n], used, c); }
  }

  lemma {:induction false} PickedHas(bs: seq<Block>, k: nat)
    requires k < |bs|
    ensures (bs[k].at, bs[k].size) in Picked(bs, bs[k].used)
  {
    if k < |bs| - 1 { PickedHas(bs[..|bs| - 1], k); }
  }

  /** An address is that of one chunk only, and that chunk is picked once. */
  lemma {:induction false} PickedOnce(h: Heads, f: Feet, bs: seq<Block>, base: nat, n: nat, used: bool, c: (nat, nat))
    requires Laid(h, f, bs, base) && n <= |bs|
    ensures Picked(bs[..n], used)[c] <= 1
  {
    hide Laid;
    if n > 0 {
      PickedOnce(h, f, bs, base, n - 1, used, c);
      assert bs[..n][..n - 1] == bs[..n - 1];
      if c in Picked(bs[..n - 1], used) {
        var k := PickedAt(bs[..n - 1], used, c);
        InOrder(h, f, bs, base, k, n - 1);
      }
    }
  }

  lemma SameChunk(h: Heads, f: Feet, bs: seq<Block>, base: nat, n: nat, used: bool, c: (nat, nat), j: nat)
    requires Laid(h, f, bs, base) && n <= |bs| && c in Picked(bs[..n], used) && j < |bs| && c.0 == bs[j].at
    ensures c.1 == bs[j].size && bs[j].used == used && j < n
  {
    var k := PickedAt(bs[..n], used, c);
    if k < j { InOrder(h, f, bs, base, k, j); }
    if j < k { InOrder(h, f, bs, base, j, k); }
  }

  /** Of two chunks in use, one lies wholly before the other. */
  lemma ChunksApart(h: Heads, f: Feet, bs: seq<Block>, base: nat, c: (nat, nat), d: (nat, nat))
    requires Laid(h, f, bs, base) && c in Picked(bs, true) && d in Picked(bs, true) && c != d
    ensures c.0 + c.1 <= d.0 || d.0 + d.1 <= c.0
  {
    hide Laid, Picked;
    var i := PickedAt(bs, true, c);
    var j := PickedAt(bs, true, d);
    if i < j { InOrder(h, f, bs, base, i, j); } else if j < i { InOrder(h, f, bs, base, j, i); }
  }

  /** Chunks in use do not share a payload byte: a payload reaches from 16 bytes after its chunk's address to 8
      bytes after its end, over the next chunk's unused foot. */
  lemma PayloadsDisjoint(h: Heads, f: Feet, bs: seq<Block>, base: nat, c: (nat, nat), d: (nat, nat), x: nat)
    requires Laid(h, f, bs, base) && c in Picked(bs, true) && d in Picked(bs, true) && c != d
    requires c.0 + 16 <= x < c.0 + c.1 + 8
    ensures !(d.0 + 16 <= x < d.0 + d.1 + 8)
  {
    hide Laid, Picked;
    ChunksApart(h, f, bs, base, c, d);
  }
}
