/** The small bins of the heap: one circular list per size, threaded through the bin's header. */
module SmallBins {
  import opened Trie
  import opened TreeMemory
  import opened TreeUnlink

  const NSMALLBINS: nat := 32

  predicate IsSmall(s: nat) { s / 8 < NSMALLBINS }

  function SmallIndex(s: nat): nat { s / 8 }

  function SmallIndex2Size(i: nat): nat { 8 * i }

  type Links = map<nat, nat>

  /** Each member of the ring points to the next one and back to the previous one. */
  ghost predicate LinkedAt(fd: Links, bk: Links, ring: seq<nat>, k: nat)
    requires k < |ring|
  {
    && ring[k] in fd && ring[k] in bk
    && fd[ring[k]] == ring[Next(k, |ring|)] && bk[ring[k]] == ring[Prev(k, |ring|)]
  }

  ghost predicate Linked(fd: Links, bk: Links, ring: seq<nat>)
  {
    ring != [] && forall k: nat :: k < |ring| ==> LinkedAt(fd, bk, ring, k)
  }

  /** Addresses below NSMALLBINS are those of the bin headers; chunks lie above them. */
  ghost predicate BinAt(fd: Links, bk: Links, list: seq<nat>, i: nat, marked: bool)
  {
    && (marked <==> list != []) && NoDup(list)
    && (forall k: nat :: k < |list| ==> NSMALLBINS <= list[k])
    && (marked ==> Linked(fd, bk, [i] + list))
  }

  /** The links of an unmarked bin's header are stale: nothing is said of them. */
  ghost predicate AllSmall(fd: Links, bk: Links, lists: seq<seq<nat>>, smallmap: set<nat>)
  {
    && |lists| == NSMALLBINS
    && (forall i: nat :: i < NSMALLBINS ==> BinAt(fd, bk, lists[i], i, i in smallmap))
    && (forall i: nat, j: nat :: i < j < NSMALLBINS ==> RingSet(lists[i]) !! RingSet(lists[j]))
    && forall i: nat :: i in smallmap ==> i < NSMALLBINS
  }

  /** All small chunks that are free. */
  function SmallChunks(lists: seq<seq<nat>>): multiset<ChunkId>
  {
    if lists == [] then multiset{}
    else SmallChunks(lists[..|lists| - 1]) + RingChunks(lists[|lists| - 1], SmallIndex2Size(|lists| - 1))
  }

  // ----- rings -----

  lemma RingJoined(fd: Links, bk: Links, ring: seq<nat>, x: nat)
    requires Linked(fd, bk, ring) && NoDup(ring) && x !in RingSet(ring)
    ensures ring[0] in fd
    ensures var b, f := ring[0], fd[ring[0]];
            Linked(fd[b := x][x := f], bk[f := x][x := b], RingWith(ring, x))
  {
    assert LinkedAt(fd, bk, ring, 0);
    var n := |ring|;
    var b, f := ring[0], ring[Next(0, n)];
    assert LinkedAt(fd, bk, ring, Next(0, n));
    var fd', bk', ring' := fd[b := x][x := f], bk[f := x][x := b], RingWith(ring, x);
    assert b in RingSet(ring) && f in RingSet(ring);
    forall k: nat | k < |ring'| ensures LinkedAt(fd', bk', ring', k) {
      if 2 <= k {
        assert LinkedAt(fd, bk, ring, k - 1);
        assert ring[k - 1] in RingSet(ring) && ring[k - 1] != b;
        assert ring'[k] == ring[k - 1];
        if k > 2 { assert ring[k - 1] != ring[1] && ring[k - 2] == ring'[k - 1]; }
        if k + 1 < |ring'| { assert ring'[k + 1] == ring[k]; }
      }
    }
  }

  lemma RingStarted(fd: Links, bk: Links, b: nat, x: nat)
    requires b != x
    ensures Linked(fd[b := x][x := b], bk[b := x][x := b], [b, x])
  {
  }

  lemma RingQuit(fd: Links, bk: Links, ring: seq<nat>, k: nat)
    requires Linked(fd, bk, ring) && NoDup(ring) && 0 < k < |ring|
    ensures ring[k] in fd && ring[k] in bk && (fd[ring[k]] == bk[ring[k]] <==> |ring| == 2)
    ensures k == 1 ==> bk[ring[k]] == ring[0]
    ensures var f, b := fd[ring[k]], bk[ring[k]]; 2 < |ring| ==> Linked(fd[b := f], bk[f := b], RingWithout(ring, k))
  {
    assert LinkedAt(fd, bk, ring, k);
    var n := |ring|;
    if 2 < n {
      var f, b, ring' := fd[ring[k]], bk[ring[k]], RingWithout(ring, k);
      var fd', bk' := fd[b := f], bk[f := b];
      forall j: nat | j < |ring'| ensures LinkedAt(fd', bk', ring', j) {
        var o := if j < k then j else j + 1;
        assert ring'[j] == ring[o];
        assert LinkedAt(fd, bk, ring, o);
        RingLeftNext(ring, k, j);
        RingLeftPrev(ring, k, j);
      }
    }
  }

  lemma RingElsewhere(fd: Links, bk: Links, ring: seq<nat>, fd': Links, bk': Links)
    requires Linked(fd, bk, ring)
    requires forall a: nat :: a in RingSet(ring) && a in fd && a in bk ==>
             a in fd' && a in bk' && fd'[a] == fd[a] && bk'[a] == bk[a]
    ensures Linked(fd', bk', ring)
  {
    forall k: nat | k < |ring| ensures LinkedAt(fd', bk', ring, k) {
      assert LinkedAt(fd, bk, ring, k);
      assert ring[k] in RingSet(ring);
    }
  }

  lemma HeadedSet(i: nat, list: seq<nat>)
    ensures RingSet([i] + list) == {i} + RingSet(list)
    ensures NoDup(list) && i !in RingSet(list) ==> NoDup([i] + list)
  {
    var r := [i] + list;
    forall a: nat | a in RingSet(r) ensures a in {i} + RingSet(list) {
      var k :| 0 <= k < |r| && r[k] == a;
      if k > 0 { assert list[k - 1] == a; }
    }
    forall a: nat | a in {i} + RingSet(list) ensures a in RingSet(r) {
      if a == i { assert r[0] == a; } else {
        var k :| 0 <= k < |list| && list[k] == a;
        assert r[k + 1] == a;
      }
    }
    if NoDup(list) && i !in RingSet(list) {
      forall k, l | 0 <= k < l < |r| ensures r[k] != r[l] { assert list[l - 1] in RingSet(list); }
    }
  }

  // ----- one bin changed -----

  lemma OneSmall(fd: Links, bk: Links, lists: seq<seq<nat>>, smallmap: set<nat>, i: nat)
    requires AllSmall(fd, bk, lists, smallmap) && i < NSMALLBINS
    ensures |lists| == NSMALLBINS && BinAt(fd, bk, lists[i], i, i in smallmap)
  {
    hide BinAt;
  }

  lemma BinElsewhere(fd: Links, bk: Links, list: seq<nat>, i: nat, marked: bool, fd': Links, bk': Links)
    requires BinAt(fd, bk, list, i, marked)
    requires forall a: nat :: a in RingSet(list) + {i} && a in fd && a in bk ==>
             a in fd' && a in bk' && fd'[a] == fd[a] && bk'[a] == bk[a]
    ensures BinAt(fd', bk', list, i, marked)
  {
    hide Linked, NoDup, RingSet;
    HeadedSet(i, list);
    if marked { RingElsewhere(fd, bk, [i] + list, fd', bk'); }
  }

  /** Bin j has nothing to do with a change elsewhere. */
  ghost predicate Untouched(lists: seq<seq<nat>>, j: nat, touched: set<nat>, list: seq<nat>)
  {
    j < |lists| && j !in touched && RingSet(lists[j]) !! touched && RingSet(lists[j]) !! RingSet(list)
  }

  lemma SmallChanged(fd: Links, bk: Links, lists: seq<seq<nat>>, smallmap: set<nat>, i: nat,
                     fd': Links, bk': Links, list: seq<nat>, smallmap': set<nat>, touched: set<nat>)
    requires AllSmall(fd, bk, lists, smallmap) && i < NSMALLBINS && BinAt(fd', bk', list, i, i in smallmap')
    requires forall j: nat :: j != i ==> (j in smallmap' <==> j in smallmap)
    requires forall a: nat :: a in fd && a in bk && a !in touched ==>
             a in fd' && a in bk' && fd'[a] == fd[a] && bk'[a] == bk[a]
    requires forall j: nat :: j < NSMALLBINS && j != i ==> Untouched(lists, j, touched, list)
    ensures |lists| == NSMALLBINS && AllSmall(fd', bk', lists[i := list], smallmap')
  {
    hide BinAt, RingSet;
    var lists' := lists[i := list];
    forall j: nat | j < NSMALLBINS ensures BinAt(fd', bk', lists'[j], j, j in smallmap') {
      if j != i {
        OneSmall(fd, bk, lists, smallmap, j);
        assert Untouched(lists, j, touched, list);
        BinElsewhere(fd, bk, lists[j], j, j in smallmap, fd', bk');
      }
    }
    forall j: nat, k: nat | j < k < NSMALLBINS ensures RingSet(lists'[j]) !! RingSet(lists'[k]) {
      assert j != i ==> Untouched(lists, j, touched, list);
      assert k != i ==> Untouched(lists, k, touched, list);
      assert RingSet(lists[j]) !! RingSet(lists[k]);
    }
  }

  lemma {:induction false} OneListChanged(lists: seq<seq<nat>>, i: nat, list: seq<nat>, m: multiset<ChunkId>)
    requires i < |lists|
    ensures RingChunks(list, SmallIndex2Size(i)) == RingChunks(lists[i], SmallIndex2Size(i)) + m ==>
              SmallChunks(lists[i := list]) == SmallChunks(lists) + m
    ensures RingChunks(lists[i], SmallIndex2Size(i)) == RingChunks(list, SmallIndex2Size(i)) + m ==>
              SmallChunks(lists) == SmallChunks(lists[i := list]) + m
  {
    hide RingChunks;
    var last := |lists| - 1;
    if i < last {
      OneListChanged(lists[..last], i, list, m);
      assert lists[i := list][..last] == lists[..last][i := list];
    } else {
      assert lists[i := list][..last] == lists[..last];
    }
  }

  /** Where a stored small chunk is. */
  ghost predicate SitsIn(lists: seq<seq<nat>>, i: nat, k: nat, x: nat, s: nat)
  {
    i < |lists| && k < |lists[i]| && lists[i][k] == x && s == SmallIndex2Size(i)
  }

  lemma {:induction false} InRingChunks(ring: seq<nat>, size: nat, x: nat, s: nat) returns (k: nat)
    requires (x, s) in RingChunks(ring, size)
    ensures s == size && k < |ring| && ring[k] == x
  {
    if x == ring[|ring| - 1] && s == size {
      k := |ring| - 1;
    } else {
      k := InRingChunks(ring[..|ring| - 1], size, x, s);
    }
  }

  lemma {:induction false} InSmall(lists: seq<seq<nat>>, x: nat, s: nat) returns (i: nat, k: nat)
    requires (x, s) in SmallChunks(lists)
    ensures SitsIn(lists, i, k, x, s)
  {
    hide RingChunks;
    var last := |lists| - 1;
    if (x, s) in RingChunks(lists[last], SmallIndex2Size(last)) {
      i := last;
      k := InRingChunks(lists[last], SmallIndex2Size(last), x, s);
    } else {
      i, k := InSmall(lists[..last], x, s);
    }
  }

  lemma {:induction false} SmallHas(lists: seq<seq<nat>>, i: nat, k: nat)
    requires i < |lists| && k < |lists[i]|
    ensures (lists[i][k], SmallIndex2Size(i)) in SmallChunks(lists)
  {
    hide RingChunks;
    if i < |lists| - 1 { SmallHas(lists[..|lists| - 1], i, k); } else { RingSplit(lists[i], k, SmallIndex2Size(i)); }
  }

  /** x is in no small bin. */
  ghost predicate NotSmall(lists: seq<seq<nat>>, x: nat)
  {
    NSMALLBINS <= x && forall i: nat :: i < |lists| ==> x !in RingSet(lists[i])
  }

  lemma ListApart(fd: Links, bk: Links, lists: seq<seq<nat>>, smallmap: set<nat>, i: nat, j: nat)
    requires AllSmall(fd, bk, lists, smallmap) && i < NSMALLBINS && j < NSMALLBINS && i != j
    ensures |lists| == NSMALLBINS && RingSet(lists[i]) !! RingSet(lists[j])
  {
    hide BinAt, RingSet;
    if i < j { assert RingSet(lists[i]) !! RingSet(lists[j]); } else { assert RingSet(lists[j]) !! RingSet(lists[i]); }
  }

  lemma HeaderOutside(fd: Links, bk: Links, lists: seq<seq<nat>>, smallmap: set<nat>, i: nat, j: nat)
    requires AllSmall(fd, bk, lists, smallmap) && i < NSMALLBINS && j < NSMALLBINS
    ensures |lists| == NSMALLBINS && i !in RingSet(lists[j])
  {
    OneSmall(fd, bk, lists, smallmap, j);
    hide Linked, NoDup;
  }

  // ----- insertion -----

  lemma InsertedSmall(fd: Links, bk: Links, lists: seq<seq<nat>>, smallmap: set<nat>, i: nat, x: nat)
    requires AllSmall(fd, bk, lists, smallmap) && i < NSMALLBINS && NotSmall(lists, x)
    ensures |lists| == NSMALLBINS && (i in smallmap ==> i in fd)
    ensures var f := if i in smallmap then fd[i] else i;
            AllSmall(fd[i := x][x := f], bk[f := x][x := i], lists[i := [x] + lists[i]], smallmap + {i})
  {
    hide AllSmall, BinAt, RingSet, Linked, NoDup;
    OneSmall(fd, bk, lists, smallmap, i);
    HeaderOutside(fd, bk, lists, smallmap, i, i);
    BinInserted(fd, bk, lists[i], i, i in smallmap, x);
    var f := if i in smallmap then fd[i] else i;
    forall j: nat | j < NSMALLBINS && j != i
      ensures Untouched(lists, j, {i, x, f}, [x] + lists[i])
    {
      ListApart(fd, bk, lists, smallmap, i, j);
      HeaderOutside(fd, bk, lists, smallmap, i, j);
      HeaderOutside(fd, bk, lists, smallmap, j, i);
      HeadedSet(x, lists[i]);
    }
    SmallChanged(fd, bk, lists, smallmap, i, fd[i := x][x := f], bk[f := x][x := i], [x] + lists[i], smallmap + {i},
                 {i, x, f});
  }

  lemma BinInserted(fd: Links, bk: Links, list: seq<nat>, i: nat, marked: bool, x: nat)
    requires BinAt(fd, bk, list, i, marked) && i < NSMALLBINS <= x && x !in RingSet(list) && i !in RingSet(list)
    ensures marked ==> i in fd && fd[i] in RingSet(list)
    ensures var f := if marked then fd[i] else i; BinAt(fd[i := x][x := f], bk[f := x][x := i], [x] + list, i, true)
  {
    HeadedSet(i, list);
    HeadedSet(x, list);
    if marked {
      var ring := [i] + list;
      assert LinkedAt(fd, bk, ring, 0);
      assert list[0] in RingSet(list) && ring[1] == list[0];
      RingJoined(fd, bk, ring, x);
      assert RingWith(ring, x) == [i] + ([x] + list);
    } else {
      RingStarted(fd, bk, i, x);
      assert [i] + ([x] + list) == [i, x];
    }
  }

  // ----- removal -----

  function Cut(list: seq<nat>, k: nat): seq<nat>
    requires k < |list|
  {
    list[..k] + list[k + 1..]
  }

  lemma CutSet(list: seq<nat>, k: nat)
    requires k < |list| && NoDup(list)
    ensures RingSet(Cut(list, k)) <= RingSet(list) && NoDup(Cut(list, k))
    ensures forall j: nat :: j < |Cut(list, k)| ==> Cut(list, k)[j] in RingSet(list)
  {
    forall j: nat | j < |Cut(list, k)| ensures Cut(list, k)[j] in RingSet(list) {
      assert Cut(list, k)[j] == list[if j < k then j else j + 1];
    }
  }

  lemma BinCut(fd: Links, bk: Links, list: seq<nat>, i: nat, k: nat)
    requires BinAt(fd, bk, list, i, true) && i < NSMALLBINS && i !in RingSet(list) && k < |list|
    ensures var x := list[k];
            && x in fd && x in bk && (fd[x] == bk[x] <==> |list| == 1)
            && fd[x] in RingSet(list) + {i} && bk[x] in RingSet(list) + {i} && (k == 0 ==> bk[x] == i)
            && (1 < |list| ==> BinAt(fd[bk[x] := fd[x]], bk[fd[x] := bk[x]], Cut(list, k), i, true))
    ensures i in fd && fd[i] == list[0]
  {
    hide Linked, RingSet, RingWithout, NoDup;
    HeadedSet(i, list);
    var ring := [i] + list;
    assert ring[k + 1] == list[k];
    RingLinks(fd, bk, ring, k + 1);
    RingLinks(fd, bk, ring, 0);
    RingQuit(fd, bk, ring, k + 1);
    CutSet(list, k);
    CutRing(list, i, k);
  }

  lemma RingLinks(fd: Links, bk: Links, ring: seq<nat>, k: nat)
    requires Linked(fd, bk, ring) && k < |ring|
    ensures ring[k] in fd && ring[k] in bk && fd[ring[k]] in RingSet(ring) && bk[ring[k]] in RingSet(ring)
    ensures fd[ring[k]] == ring[Next(k, |ring|)]
  {
    assert LinkedAt(fd, bk, ring, k);
  }

  lemma CutRing(list: seq<nat>, i: nat, k: nat)
    requires k < |list|
    ensures RingWithout([i] + list, k + 1) == [i] + Cut(list, k)
    ensures (forall j: nat :: j < |list| ==> NSMALLBINS <= list[j]) ==> forall j: nat :: j < |Cut(list, k)| ==>
            NSMALLBINS <= Cut(list, k)[j]
  {
  }

  lemma CutSmall(fd: Links, bk: Links, lists: seq<seq<nat>>, smallmap: set<nat>, i: nat, k: nat)
    requires AllSmall(fd, bk, lists, smallmap) && i < NSMALLBINS && i < |lists| && k < |lists[i]|
    ensures |lists| == NSMALLBINS && i in smallmap && i in fd && fd[i] == lists[i][0]
    ensures var x, list := lists[i][k], Cut(lists[i], k);
            && x in fd && x in bk && NSMALLBINS <= x && (k == 0 ==> bk[x] == i)
            && (if fd[x] == bk[x] then list == [] && AllSmall(fd, bk, lists[i := list], smallmap - {i})
                else AllSmall(fd[bk[x] := fd[x]], bk[fd[x] := bk[x]], lists[i := list], smallmap))
  {
    hide AllSmall, RingSet, Linked, NoDup;
    OneSmall(fd, bk, lists, smallmap, i);
    HeaderOutside(fd, bk, lists, smallmap, i, i);
    BinCut(fd, bk, lists[i], i, k);
    var x, list := lists[i][k], Cut(lists[i], k);
    CutSet(lists[i], k);
    forall j: nat | j < NSMALLBINS && j != i
      ensures Untouched(lists, j, {i, fd[x], bk[x]}, list)
    {
      ListApart(fd, bk, lists, smallmap, i, j);
      HeaderOutside(fd, bk, lists, smallmap, i, j);
      HeaderOutside(fd, bk, lists, smallmap, j, i);
    }
    hide BinAt;
    if fd[x] == bk[x] {
      EmptyBin(fd, bk, i);
      SmallChanged(fd, bk, lists, smallmap, i, fd, bk, list, smallmap - {i}, {i, fd[x], bk[x]});
    } else {
      SmallChanged(fd, bk, lists, smallmap, i, fd[bk[x] := fd[x]], bk[fd[x] := bk[x]], list, smallmap,
                   {i, fd[x], bk[x]});
    }
  }

  lemma EmptyBin(fd: Links, bk: Links, i: nat)
    ensures BinAt(fd, bk, [], i, false)
  {
  }

  lemma CutChunks(lists: seq<seq<nat>>, i: nat, k: nat)
    requires i < |lists| && k < |lists[i]|
    ensures SmallChunks(lists) ==
            SmallChunks(lists[i := Cut(lists[i], k)]) + multiset{(lists[i][k], SmallIndex2Size(i))}
  {
    hide SmallChunks, RingChunks;
    RingSplit(lists[i], k, SmallIndex2Size(i));
    OneListChanged(lists, i, Cut(lists[i], k), multiset{(lists[i][k], SmallIndex2Size(i))});
  }

  lemma JoinChunks(lists: seq<seq<nat>>, i: nat, x: nat)
    requires i < |lists|
    ensures SmallChunks(lists[i := [x] + lists[i]]) == SmallChunks(lists) + multiset{(x, SmallIndex2Size(i))}
  {
    hide SmallChunks, RingChunks;
    RingChunksJoin([x], lists[i], SmallIndex2Size(i));
    RingOfOne(x, SmallIndex2Size(i));
    OneListChanged(lists, i, [x] + lists[i], multiset{(x, SmallIndex2Size(i))});
  }

  class SmallBins {
    var fd: Links
    var bk: Links
    var smallmap: set<nat>               // the bitmap, as the set of its one bits
    ghost var lists: seq<seq<nat>>

    ghost predicate Valid()
      reads this
    {
      AllSmall(fd, bk, lists, smallmap)
    }

    constructor ()
      ensures Valid() && SmallChunks(lists) == multiset{} && smallmap == {}
    {
      fd, bk, smallmap := map[], map[], {};
      lists := seq(NSMALLBINS, _ => []);
      new;
      NoSmallChunks(lists);
    }

    method InsertSmallChunk(p: nat, s: nat)
      requires Valid() && IsSmall(s) && s % 8 == 0 && NotSmall(lists, p)
      modifies this
      ensures Valid() && SmallChunks(lists) == old(SmallChunks(lists)) + multiset{(p, s)}
      ensures var i := SmallIndex(s); i < |old(lists)| && lists == old(lists)[i := [p] + old(lists)[i]]
    {
      hide *;
      ValidHere();
      IndexOf(s);
      var i := SmallIndex(s);
      InsertedSmall(fd, bk, lists, smallmap, i, p);
      JoinChunks(lists, i, p);
      var f := i;
      if i !in smallmap { smallmap := smallmap + {i}; } else { f := fd[i]; }
      assert smallmap == old(smallmap) + {i};
      fd := fd[i := p];
      bk := bk[f := p];
      fd := fd[p := f];
      bk := bk[p := i];
      lists := lists[i := [p] + lists[i]];
      ValidIs();
    }

    method UnlinkSmallChunk(p: nat, s: nat)
      requires Valid() && (p, s) in SmallChunks(lists)
      modifies this
      ensures Valid() && old(SmallChunks(lists)) == SmallChunks(lists) + multiset{(p, s)}
      ensures exists i: nat, k: nat :: SitsIn(old(lists), i, k, p, s) && lists == old(lists)[i := Cut(old(lists)[i], k)]
    {
      hide *;
      ValidHere();
      ghost var j, k := InSmall(lists, p, s);
      SitsFacts(fd, bk, lists, smallmap, j, k, p, s);
      CutSmall(fd, bk, lists, smallmap, j, k);
      CutChunks(lists, j, k);
      var f, b, i := fd[p], bk[p], SmallIndex(s);
      if b == f {
        smallmap := smallmap - {i};
      } else {
        bk := bk[f := b];
        fd := fd[b := f];
      }
      lists := lists[j := Cut(lists[j], k)];
      ValidIs();
    }

    /** Take the first chunk of a bin that is not empty. */
    method UnlinkFirstSmallChunk(i: nat) returns (p: nat)
      requires Valid() && i in smallmap
      modifies this
      ensures Valid() && old(SmallChunks(lists)) == SmallChunks(lists) + multiset{(p, SmallIndex2Size(i))}
      ensures i < |old(lists)| && 0 < |old(lists)[i]| && p == old(lists)[i][0]
      ensures lists == old(lists)[i := old(lists)[i][1..]]
    {
      hide *;
      ValidHere();
      MarkedBin(fd, bk, lists, smallmap, i);
      CutSmall(fd, bk, lists, smallmap, i, 0);
      CutChunks(lists, i, 0);
      p := fd[i];
      var f := fd[p];
      if i == f {
        smallmap := smallmap - {i};
      } else {
        bk := bk[f := i];
        fd := fd[i := f];
      }
      CutFirst(lists[i]);
      lists := lists[i := Cut(lists[i], 0)];
      ValidIs();
    }

    /** An address that no stored chunk has can be inserted. */
    lemma FreeAddress(x: nat)
      requires NSMALLBINS <= x && forall s: nat :: (x, s) !in SmallChunks(lists)
      ensures NotSmall(lists, x)
    {
      forall i: nat | i < |lists| ensures x !in RingSet(lists[i]) {
        if x in RingSet(lists[i]) {
          var k :| 0 <= k < |lists[i]| && lists[i][k] == x;
          SmallHas(lists, i, k);
        }
      }
      hide SmallChunks;
    }

    lemma StoredIsSmall(x: nat, s: nat)
      requires Valid() && (x, s) in SmallChunks(lists)
      ensures IsSmall(s) && s % 8 == 0 && SmallIndex(s) in smallmap && SmallIndex(s) < NSMALLBINS
    {
      hide AllSmall, SmallChunks;
      ValidHere();
      ghost var i, k := InSmall(lists, x, s);
      SitsFacts(fd, bk, lists, smallmap, i, k, x, s);
    }

    lemma ValidHere()
      requires Valid()
      ensures AllSmall(fd, bk, lists, smallmap)
    {
      hide AllSmall;
    }

    lemma ValidIs()
      requires AllSmall(fd, bk, lists, smallmap)
      ensures Valid()
    {
      hide AllSmall;
    }
  }

  lemma CutFirst(list: seq<nat>)
    requires list != []
    ensures Cut(list, 0) == list[1..]
  {
  }

  lemma IndexOf(s: nat)
    requires IsSmall(s) && s % 8 == 0
    ensures SmallIndex(s) < NSMALLBINS && SmallIndex2Size(SmallIndex(s)) == s
  {
  }

  lemma SitsFacts(fd: Links, bk: Links, lists: seq<seq<nat>>, smallmap: set<nat>, i: nat, k: nat, x: nat, s: nat)
    requires AllSmall(fd, bk, lists, smallmap) && SitsIn(lists, i, k, x, s)
    ensures i < NSMALLBINS && i < |lists| && k < |lists[i]| && lists[i][k] == x && s == SmallIndex2Size(i)
    ensures SmallIndex(s) == i
    ensures IsSmall(s) && s % 8 == 0 && i in smallmap
  {
    OneSmall(fd, bk, lists, smallmap, i);
    hide Linked;
  }

  lemma MarkedBin(fd: Links, bk: Links, lists: seq<seq<nat>>, smallmap: set<nat>, i: nat)
    requires AllSmall(fd, bk, lists, smallmap) && i in smallmap
    ensures i < NSMALLBINS && i < |lists| && 0 < |lists[i]|
  {
    OneSmall(fd, bk, lists, smallmap, i);
    hide Linked;
  }

  lemma {:induction false} NoSmallChunks(lists: seq<seq<nat>>)
    requires forall i :: 0 <= i < |lists| ==> lists[i] == []
    ensures SmallChunks(lists) == multiset{}
  {
    if lists != [] { NoSmallChunks(lists[..|lists| - 1]); }
  }
}
