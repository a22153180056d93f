/** Client writes are gathered in a buffer and logged as one entry with a table of part sizes; the apply
    step cuts the entry apart again.  Gathering and cutting are inverse. */
module Coalescing {
  import opened Protocol

  const MAX_PARTS: nat := 100

  // ----- parts of an entry -----

  function Sum(sizes: seq<nat>): nat
  {
    if sizes == [] then 0 else Sum(sizes[..|sizes| - 1]) + sizes[|sizes| - 1]
  }

  /** Cut data into consecutive pieces of the given sizes. */
  function Split(data: seq<int>, sizes: seq<nat>): (parts: seq<seq<int>>)
    requires Sum(sizes) == |data|
    ensures |parts| == |sizes|
    decreases |sizes|
  {
    if sizes == [] then []
    else
      var front := sizes[..|sizes| - 1];
      Split(data[..Sum(front)], front) + [data[Sum(front)..]]
  }

  function Join(parts: seq<seq<int>>): seq<int>
  {
    if parts == [] then [] else Join(parts[..|parts| - 1]) + parts[|parts| - 1]
  }

  function Lengths(parts: seq<seq<int>>): (sizes: seq<nat>)
    ensures |sizes| == |parts|
  {
    seq(|parts|, i requires 0 <= i < |parts| => |parts[i]|)
  }

  lemma SplitOneMore(data: seq<int>, sizes: seq<nat>, x: seq<int>)
    requires Sum(sizes) == |data|
    ensures Sum(sizes + [|x|]) == |data + x|
    ensures Split(data + x, sizes + [|x|]) == Split(data, sizes) + [x]
  {
    assert (sizes + [|x|])[..|sizes|] == sizes;
    assert (data + x)[..|data|] == data && (data + x)[|data|..] == x;
  }

  /** Cutting what was joined gives the parts back. */
  lemma {:induction false} SplitJoined(parts: seq<seq<int>>)
    ensures Sum(Lengths(parts)) == |Join(parts)| && Split(Join(parts), Lengths(parts)) == parts
  {
    if parts != [] {
      var front, last := parts[..|parts| - 1], parts[|parts| - 1];
      SplitJoined(front);
      SplitOneMore(Join(front), Lengths(front), last);
      assert Lengths(parts) == Lengths(front) + [|last|];
    }
  }

  /** Joining what was cut gives the data back, and each part has its listed size. */
  lemma {:induction false} JoinSplit(data: seq<int>, sizes: seq<nat>)
    requires Sum(sizes) == |data|
    ensures Join(Split(data, sizes)) == data && Lengths(Split(data, sizes)) == sizes
    decreases |sizes|
  {
    if sizes != [] {
      var front := sizes[..|sizes| - 1];
      var n := Sum(front);
      JoinSplit(data[..n], front);
      JoinOneMore(Split(data[..n], front), data[n..]);
      assert data == data[..n] + data[n..];
      assert sizes == front + [|data[n..]|];
    }
  }

  lemma JoinOneMore(parts: seq<seq<int>>, x: seq<int>)
    ensures Join(parts + [x]) == Join(parts) + x && Lengths(parts + [x]) == Lengths(parts) + [|x|]
  {
    assert (parts + [x])[..|parts|] == parts;
  }

  /** Part i lies behind the parts before it: where the apply loop's running offset points. */
  lemma {:induction false} PartAt(data: seq<int>, sizes: seq<nat>, i: nat)
    requires Sum(sizes) == |data| && i < |sizes|
    ensures Sum(sizes[..i]) + sizes[i] <= |data|
    ensures Split(data, sizes)[i] == data[Sum(sizes[..i])..Sum(sizes[..i]) + sizes[i]]
    decreases |sizes|
  {
    var last := |sizes| - 1;
    var front := sizes[..last];
    if i < last {
      PartAt(data[..Sum(front)], front, i);
      assert front[..i] == sizes[..i];
    }
  }

  /** An entry holds its parts, between one and the limit, within the size limit. */
  predicate WellCut(e: Entry, maxData: nat)
  {
    !e.marker && Sum(e.sizes) == |e.data| <= maxData && 1 <= |e.sizes| <= MAX_PARTS
  }

  predicate AllWellCut(es: seq<Entry>, maxData: nat)
  {
    forall i :: 0 <= i < |es| ==> WellCut(es[i], maxData)
  }

  /** The parts of all entries, in order. */
  function PartsOf(es: seq<Entry>, maxData: nat): seq<seq<int>>
    requires AllWellCut(es, maxData)
  {
    if es == [] then []
    else PartsOf(es[..|es| - 1], maxData) + Split(es[|es| - 1].data, es[|es| - 1].sizes)
  }

  // ----- the coalescing buffer -----

  predicate Full(e: Entry, maxData: nat)
  {
    |e.sizes| == MAX_PARTS || |e.data| == maxData
  }

  /** The entry is full, or what was written next does not fit into it. */
  predicate PackedAt(es: seq<Entry>, pending: seq<nat>, maxData: nat, i: nat)
    requires i < |es|
  {
    var next := if i + 1 < |es| then es[i + 1].sizes else pending;
    Full(es[i], maxData) || (next != [] && maxData < |es[i].data| + next[0])
  }

  predicate AllPacked(es: seq<Entry>, pending: seq<nat>, maxData: nat)
  {
    forall i: nat :: i < |es| ==> PackedAt(es, pending, maxData, i)
  }

  lemma IsFull(e: Entry, maxData: nat)
    requires |e.sizes| == MAX_PARTS || |e.data| == maxData
    ensures Full(e, maxData)
  {
  }

  lemma PackedLogs(es: seq<Entry>, pending: seq<nat>, maxData: nat, e: Entry, next: seq<nat>)
    requires AllPacked(es, pending, maxData) && e.sizes == pending != []
    requires Full(e, maxData) || (next != [] && maxData < |e.data| + next[0])
    ensures AllPacked(es + [e], next, maxData)
  {
    forall i: nat | i < |es + [e]| ensures PackedAt(es + [e], next, maxData, i) {
      if i < |es| { assert PackedAt(es, pending, maxData, i); }
    }
  }

  lemma PackedAdds(es: seq<Entry>, pending: seq<nat>, maxData: nat, n: nat)
    requires AllPacked(es, pending, maxData)
    ensures AllPacked(es, pending + [n], maxData)
  {
    forall i: nat | i < |es| ensures PackedAt(es, pending + [n], maxData, i) {
      assert PackedAt(es, pending, maxData, i);
    }
  }

  class Coalescer {
    const maxData: nat
    const coalesce: bool
    const term: nat
    const buffer: array<int>
    const sizes: array<nat>
    var total: nat
    var nentries: nat
    var logged: seq<Entry>

    ghost predicate Valid()
      reads this, buffer, sizes
    {
      && buffer.Length == maxData && sizes.Length == MAX_PARTS && 0 < maxData
      && total < maxData && nentries < MAX_PARTS && Sum(sizes[..nentries]) == total
      && (nentries == 0 || coalesce)
      && AllWellCut(logged, maxData)
      && forall i :: 0 <= i < |logged| ==> logged[i].term == term && (coalesce || |logged[i].sizes| == 1)
    }

    ghost function Pending(): seq<seq<int>>
      reads this, buffer, sizes
      requires Valid()
    {
      Split(buffer[..total], sizes[..nentries])
    }

    /** Every client write so far: those logged, then those still in the buffer. */
    ghost function Accepted(): seq<seq<int>>
      reads this, buffer, sizes
      requires Valid()
    {
      PartsOf(logged, maxData) + Pending()
    }

    /** While coalescing, no entry was logged as long as the next write fitted into it. */
    ghost predicate Packed()
      reads this, sizes
      requires nentries <= sizes.Length
    {
      coalesce ==> AllPacked(logged, sizes[..nentries], maxData)
    }

    constructor (maxData: nat, coalesce: bool, term: nat)
      requires 0 < maxData
      ensures Valid() && fresh(buffer) && fresh(sizes) && Accepted() == [] && logged == [] && Packed()
      ensures this.maxData == maxData && this.coalesce == coalesce && this.term == term
    {
      this.maxData, this.coalesce, this.term := maxData, coalesce, term;
      buffer := new int[maxData](_ => 0);
      sizes := new nat[MAX_PARTS](_ => 0);
      total, nentries, logged := 0, 0, [];
    }

    /** Log what is in the buffer as one entry, if there is anything. */
    method WriteCoalescedEntries()
      requires buffer.Length == maxData && sizes.Length == MAX_PARTS && 0 < maxData
      requires total <= maxData && nentries <= MAX_PARTS && Sum(sizes[..nentries]) == total
      requires AllWellCut(logged, maxData)
      requires forall i :: 0 <= i < |logged| ==> logged[i].term == term && (coalesce || |logged[i].sizes| == 1)
      requires !coalesce ==> nentries <= 1
      modifies `total, `nentries, `logged
      ensures Valid() && nentries == 0 && total == 0
      ensures PartsOf(logged, maxData) == old(PartsOf(logged, maxData) + Split(buffer[..total], sizes[..nentries]))
      ensures old(nentries) == 0 ==> logged == old(logged)
      ensures old(nentries) != 0 ==>
                logged == old(logged) + [Entry(term, false, old(buffer[..total]), old(sizes[..nentries]))]
    {
      if nentries == 0 { return; }
      ghost var was := logged;
      logged := logged + [Entry(term, false, buffer[..total], sizes[..nentries])];
      assert logged[..|logged| - 1] == was;
      total, nentries := 0, 0;
    }

    /** Copy src to the free end of the buffer. */
    method CopyIn(src: seq<int>)
      requires total + |src| <= buffer.Length
      modifies `total, buffer
      ensures total == old(total) + |src|
      ensures buffer[..total] == old(buffer[..total]) + src
    {
      var i := 0;
      while i < |src|
        invariant 0 <= i <= |src| && total == old(total)
        invariant buffer[..total + i] == old(buffer[..total]) + src[..i]
      {
        buffer[total + i] := src[i];
        assert buffer[..total + i + 1] == buffer[..total + i] + [src[i]];
        i := i + 1;
      }
      total := total + |src|;
    }

    /** Put one write into the free slot. */
    method AddPart(data: seq<int>, appData: seq<int>)
      requires Valid() && total + |data| + |appData| <= maxData
      modifies `total, `nentries, buffer, sizes
      ensures nentries == old(nentries) + 1 && total <= maxData && Sum(sizes[..nentries]) == total
      ensures sizes[..nentries] == old(sizes[..nentries]) + [|data| + |appData|]
      ensures total == old(total) + |data| + |appData|
      ensures Split(buffer[..total], sizes[..nentries]) == old(Pending()) + [data + appData]
    {
      hide Sum, Split, AllWellCut;
      ghost var data0, sizes0 := buffer[..total], sizes[..nentries];
      CopyIn(data);
      CopyIn(appData);
      sizes[nentries] := |data| + |appData|;
      nentries := nentries + 1;
      assert buffer[..total] == data0 + (data + appData);
      assert sizes[..nentries] == sizes0 + [|data + appData|];
      SplitOneMore(data0, sizes0, data + appData);
    }

    /** Put a write that has room into the buffer; log the buffer when it is full, or nothing is to be gathered. */
    method WriteCoalesceEntry(data: seq<int>, appData: seq<int>)
      requires Valid() && total + |data| + |appData| <= maxData
      modifies this, buffer, sizes
      ensures Valid() && Accepted() == old(Accepted()) + [data + appData]
      ensures |old(logged)| <= |logged| && old(logged) == logged[..|old(logged)|]
      ensures !coalesce ==> nentries == 0
      ensures var parts := old(Pending()) + [data + appData];
              var full := !coalesce || |parts| == MAX_PARTS || |Join(parts)| == maxData;
              Pending() == (if full then [] else parts) && |logged| == |old(logged)| + (if full then 1 else 0)
      ensures coalesce && AllPacked(old(logged), old(sizes[..nentries]) + [|data| + |appData|], maxData) ==> Packed()
    {
      hide Sum, Split, AllWellCut, Join, AllPacked, Full;
      AddPart(data, appData);
      JoinSplit(buffer[..total], sizes[..nentries]);
      if !coalesce || nentries == MAX_PARTS || total == maxData {
        ghost var e := Entry(term, false, buffer[..total], sizes[..nentries]);
        if coalesce && AllPacked(logged, sizes[..nentries], maxData) {
          IsFull(e, maxData);
          PackedLogs(logged, sizes[..nentries], maxData, e, []);
        }
        WriteCoalescedEntries();
        NothingPending();
        assert sizes[..nentries] == [];
      }
    }

    /** A client write, with the application's suffix, that fits into an entry.  It joins the pending writes when
        it fits beside them, which are logged first when it does not; what is pending then is logged only when it
        is full, or nothing is to be gathered. */
    method ClientWrite(data: seq<int>, appData: seq<int>)
      requires Valid() && |data| + |appData| <= maxData
      modifies this, buffer, sizes
      ensures Valid() && Accepted() == old(Accepted()) + [data + appData]
      ensures |old(logged)| <= |logged| && old(logged) == logged[..|old(logged)|]
      ensures !coalesce ==> nentries == 0
      ensures var joins := |Join(old(Pending()))| + |data + appData| <= maxData;
              var parts := (if joins then old(Pending()) else []) + [data + appData];
              var full := !coalesce || |parts| == MAX_PARTS || |Join(parts)| == maxData;
              && Pending() == (if full then [] else parts)
              && |logged| == |old(logged)| + (if joins then 0 else 1) + (if full then 1 else 0)
      ensures old(Packed()) ==> Packed()
    {
      hide Sum, Split, AllWellCut, Join, AllPacked, Full;
      JoinSplit(buffer[..total], sizes[..nentries]);
      if |data| + |appData| + total > maxData {
        PendingSize();
        ghost var e := Entry(term, false, buffer[..total], sizes[..nentries]);
        if coalesce && Packed() { PackedLogs(logged, sizes[..nentries], maxData, e, [|data| + |appData|]); }
        WriteCoalescedEntries();
        NothingPending();
        assert sizes[..nentries] + [|data| + |appData|] == [|data| + |appData|];
      } else if coalesce && Packed() {
        PackedAdds(logged, sizes[..nentries], maxData, |data| + |appData|);
      }
      assert Accepted() == old(Accepted());
      WriteCoalesceEntry(data, appData);
    }

    lemma PendingSize()
      requires Valid()
      ensures nentries == 0 ==> total == 0
    {
      assert sizes[..0] == [];
    }

    lemma NothingPending()
      requires Valid() && nentries == 0
      ensures Pending() == [] && Accepted() == PartsOf(logged, maxData)
    {
    }
  }
}
