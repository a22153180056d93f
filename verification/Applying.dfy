/** Committed entries are applied part by part; the position, the checksum and the state machine's writes of
    one part are persisted in one batch.  Whatever crashes fall between parts, every part takes effect
    exactly once and in order. */
module Applying {
  import opened Protocol
  import opened Coalescing

  /** The last-applied record: entry, part, the entry's last part, XOR of the checksums of applied entries. */
  datatype Applied = Applied(idx: int, sub: nat, subMax: nat, crc: bv32)

  predicate Sliceable(e: Entry)
  {
    Sum(e.sizes) == |e.data| && 1 <= |e.sizes|
  }

  predicate AllSliceable(es: seq<Entry>)
  {
    forall i :: 0 <= i < |es| ==> Sliceable(es[i])
  }

  /** What each part of an entry does: a request for the state machine, or nothing when the entry is a
      marker or holds no data. */
  function StepsOf(e: Entry): (r: seq<Option<seq<int>>>)
    requires Sliceable(e)
    ensures |r| == |e.sizes|
  {
    if e.marker || e.data == [] then seq(|e.sizes|, _ => None)
    else seq(|e.sizes|, i requires 0 <= i < |e.sizes| => Some(Split(e.data, e.sizes)[i]))
  }

  /** The state machine sees every request of an entry exactly when they are not all empty. */
  lemma DeliversUnlessEmpty(e: Entry)
    requires Sliceable(e) && !e.marker
    ensures (forall i :: 0 <= i < |e.sizes| ==> StepsOf(e)[i] == Some(Split(e.data, e.sizes)[i])) <==> e.data != []
  {
    if e.data == [] {
      assert StepsOf(e)[0] == None;
    }
  }

  function AllSteps(es: seq<Entry>): seq<Option<seq<int>>>
    requires AllSliceable(es)
  {
    if es == [] then [] else AllSteps(es[..|es| - 1]) + StepsOf(es[|es| - 1])
  }

  function Do<K>(step: (K, seq<int>) -> K, k: K, x: Option<seq<int>>): K
  {
    if x.Some? then step(k, x.value) else k
  }

  /** One uninterrupted fold over the steps. */
  function Replay<K>(step: (K, seq<int>) -> K, k0: K, xs: seq<Option<seq<int>>>): K
  {
    if xs == [] then k0 else Do(step, Replay(step, k0, xs[..|xs| - 1]), xs[|xs| - 1])
  }

  function Mix(x: bv32, y: bv32): bv32 { x ^ y }

  function Xor(crcOf: Entry -> bv32, es: seq<Entry>): bv32
  {
    if es == [] then 0 else Mix(Xor(crcOf, es[..|es| - 1]), crcOf(es[|es| - 1]))
  }

  /** At least one bit of the mask is set in x. */
  predicate Has(x: bv32, mask: bv32) { x & mask != 0 }

  predicate OneBit(mask: bv32) { mask != 0 && mask & (mask - 1) == 0 }

  /** The entries whose checksum has the bit. */
  function Bearers(crcOf: Entry -> bv32, es: seq<Entry>, mask: bv32): set<nat>
  {
    set i: nat | i < |es| && Has(crcOf(es[i]), mask)
  }

  /** A bit is set in the cumulative checksum exactly when an odd number of the entries have it in theirs. */
  lemma {:induction false} XorIsParity(crcOf: Entry -> bv32, es: seq<Entry>, mask: bv32)
    requires OneBit(mask)
    ensures Has(Xor(crcOf, es), mask) <==> |Bearers(crcOf, es, mask)| % 2 == 1
  {
    hide Has, Mix, OneBit, Bearers;
    if es == [] {
      NoBits(mask);
      NoBearers(crcOf, mask);
    } else {
      var n := |es| - 1;
      XorIsParity(crcOf, es[..n], mask);
      MixBit(Xor(crcOf, es[..n]), crcOf(es[n]), mask);
      OneMoreBearer(crcOf, es, mask);
    }
  }

  lemma NoBearers(crcOf: Entry -> bv32, mask: bv32)
    ensures Bearers(crcOf, [], mask) == {}
  {
  }

  lemma OneMoreBearer(crcOf: Entry -> bv32, es: seq<Entry>, mask: bv32)
    requires es != []
    ensures var n := |es| - 1;
            |Bearers(crcOf, es, mask)| == |Bearers(crcOf, es[..n], mask)| + if Has(crcOf(es[n]), mask) then 1 else 0
  {
    hide Has;
    var n := |es| - 1;
    var all, front := Bearers(crcOf, es, mask), Bearers(crcOf, es[..n], mask);
    forall i: nat ensures i in all <==> i in front || (i == n && Has(crcOf(es[n]), mask)) {
      if i < n { assert es[..n][i] == es[i]; }
    }
    hide Bearers;
    assert n !in front ==> all == front + if n in all then {n} else {};
  }

  lemma NoBits(mask: bv32)
    ensures !Has(0, mask)
  {
  }

  lemma MixBit(x: bv32, y: bv32, mask: bv32)
    requires OneBit(mask)
    ensures Has(Mix(x, y), mask) <==> Has(x, mask) != Has(y, mask)
  {
    XorBit(x, y, mask);
  }

  lemma XorBit(x: bv32, y: bv32, mask: bv32)
    requires mask & (mask - 1) == 0
    ensures ((x ^ y) & mask != 0) == ((x & mask != 0) != (y & mask != 0))
  {
  }

  /** The requests among the steps. */
  function Requests(xs: seq<Option<seq<int>>>): seq<seq<int>>
  {
    if xs == [] then [] else (if xs[0].Some? then [xs[0].value] else []) + Requests(xs[1..])
  }

  /** The state machine's own view: it takes the requests one after the other, from the first. */
  function Serve<K>(step: (K, seq<int>) -> K, k: K, requests: seq<seq<int>>): K
  {
    if requests == [] then k else Serve(step, step(k, requests[0]), requests[1..])
  }

  lemma {:induction false} RequestsOn(xs: seq<Option<seq<int>>>, ys: seq<Option<seq<int>>>)
    ensures Requests(xs + ys) == Requests(xs) + Requests(ys)
  {
    if xs == [] {
      assert xs + ys == ys;
    } else {
      assert (xs + ys)[1..] == xs[1..] + ys;
      RequestsOn(xs[1..], ys);
    }
  }

  lemma {:induction false} ServeOn<K>(step: (K, seq<int>) -> K, k: K, a: seq<seq<int>>, b: seq<seq<int>>)
    ensures Serve(step, k, a + b) == Serve(step, Serve(step, k, a), b)
  {
    if a == [] {
      assert a + b == b;
    } else {
      assert (a + b)[1..] == a[1..] + b;
      ServeOn(step, step(k, a[0]), a[1..], b);
    }
  }

  /** Replaying steps is serving their requests. */
  lemma {:induction false} ReplayServes<K>(step: (K, seq<int>) -> K, k0: K, xs: seq<Option<seq<int>>>)
    ensures Replay(step, k0, xs) == Serve(step, k0, Requests(xs))
  {
    if xs != [] {
      var n := |xs| - 1;
      var front, last := xs[..n], [xs[n]];
      assert xs == front + last;
      ReplayServes(step, k0, front);
      RequestsOn(front, last);
      ServeOn(step, k0, Requests(front), Requests(last));
      assert Requests(last) == if xs[n].Some? then [xs[n].value] else [];
    }
  }

  /** The writes in an entry that reach the state machine. */
  function Delivered(e: Entry): seq<seq<int>>
    requires Sliceable(e)
  {
    if e.marker || e.data == [] then [] else Split(e.data, e.sizes)
  }

  lemma {:induction false} AllSome(xs: seq<Option<seq<int>>>, parts: seq<seq<int>>)
    requires |xs| == |parts| && forall i :: 0 <= i < |xs| ==> xs[i] == Some(parts[i])
    ensures Requests(xs) == parts
  {
    if xs != [] {
      AllSome(xs[1..], parts[1..]);
      assert parts == [parts[0]] + parts[1..];
    }
  }

  lemma {:induction false} AllNone(xs: seq<Option<seq<int>>>)
    requires forall i :: 0 <= i < |xs| ==> xs[i] == None
    ensures Requests(xs) == []
  {
    if xs != [] { AllNone(xs[1..]); }
  }

  lemma StepsDeliver(e: Entry)
    requires Sliceable(e)
    ensures Requests(StepsOf(e)) == Delivered(e)
  {
    if e.marker || e.data == [] { AllNone(StepsOf(e)); } else { AllSome(StepsOf(e), Split(e.data, e.sizes)); }
  }

  /** What the buffer took in comes out: where no entry is a marker or empty, the requests of a log of coalesced
      entries are the client's writes, in order. */
  lemma {:induction false} WritesComeOut(es: seq<Entry>, maxData: nat)
    requires AllWellCut(es, maxData) && forall i :: 0 <= i < |es| ==> es[i].data != []
    ensures AllSliceable(es) && Requests(AllSteps(es)) == PartsOf(es, maxData)
  {
    if es != [] {
      hide WellCut, Sliceable, Split, Sum, StepsOf;
      var n := |es| - 1;
      WritesComeOut(es[..n], maxData);
      Sliced(es, maxData);
      StepsDeliver(es[n]);
      RequestsOn(AllSteps(es[..n]), StepsOf(es[n]));
      AsParts(es[n], maxData);
    } else {
      assert AllSteps(es) == [];
    }
  }

  lemma Sliced(es: seq<Entry>, maxData: nat)
    requires AllWellCut(es, maxData)
    ensures AllSliceable(es)
  {
  }

  lemma AsParts(e: Entry, maxData: nat)
    requires WellCut(e, maxData) && e.data != []
    ensures Sliceable(e) && Delivered(e) == Split(e.data, e.sizes)
  {
  }

  /** How many entries are applied completely, and how many steps have been done. */
  function Whole(a: Applied): int
  {
    if a.idx < 0 then 0 else if a.sub == a.subMax then a.idx + 1 else a.idx
  }

  ghost predicate Shaped(es: seq<Entry>, a: Applied)
  {
    if a.idx < 0 then a.idx == -1 && a.sub == a.subMax == 0
    else a.idx < |es| && a.subMax == |es[a.idx].sizes| - 1 && a.sub <= a.subMax
  }

  /** All steps up to the recorded one. */
  ghost function StepsThrough(es: seq<Entry>, a: Applied): seq<Option<seq<int>>>
    requires AllSliceable(es) && Shaped(es, a)
  {
    if a.idx < 0 then [] else AllSteps(es[..a.idx]) + StepsOf(es[a.idx])[..a.sub + 1]
  }

  /** Record and state are those of the uninterrupted fold, stopped after the recorded part. */
  ghost predicate AtPoint<K>(step: (K, seq<int>) -> K, k0: K, crcOf: Entry -> bv32, es: seq<Entry>, a: Applied, kv: K)
  {
    && AllSliceable(es) && Shaped(es, a)
    && kv == Replay(step, k0, StepsThrough(es, a))
    && a.crc == Xor(crcOf, es[..Whole(a)])
  }

  // ----- lemmas about the fold -----

  lemma CompleteThrough(es: seq<Entry>, a: Applied)
    requires AllSliceable(es) && Shaped(es, a) && a.sub == a.subMax
    ensures StepsThrough(es, a) == AllSteps(es[..a.idx + 1])
  {
    if 0 <= a.idx {
      assert es[..a.idx + 1][..a.idx] == es[..a.idx];
      assert StepsOf(es[a.idx])[..a.sub + 1] == StepsOf(es[a.idx]);
    }
  }

  /** The record after a: the next part of the same entry, or the first of the next one. */
  function Successor(a: Applied, es: seq<Entry>): Applied
    requires 0 <= a.idx + 1
    requires if a.sub == a.subMax then a.idx + 1 < |es| else 0 <= a.idx < |es|
    requires AllSliceable(es)
  {
    if a.sub == a.subMax then Applied(a.idx + 1, 0, |es[a.idx + 1].sizes| - 1, a.crc)
    else a.(sub := a.sub + 1)
  }

  /** b records the step after a; the checksum takes in an entry with its last part. */
  ghost predicate Follows(crcOf: Entry -> bv32, es: seq<Entry>, a: Applied, b: Applied)
  {
    && AllSliceable(es) && Shaped(es, a)
    && (if a.sub == a.subMax then a.idx + 1 < |es| else 0 <= a.idx)
    && b == Successor(a, es).(crc := b.crc)
    && b.crc == if b.sub == b.subMax then Mix(a.crc, crcOf(es[b.idx])) else a.crc
  }

  lemma ReplayOneMore<K>(step: (K, seq<int>) -> K, k0: K, xs: seq<Option<seq<int>>>, x: Option<seq<int>>)
    ensures Replay(step, k0, xs + [x]) == Do(step, Replay(step, k0, xs), x)
  {
    assert (xs + [x])[..|xs|] == xs;
  }

  lemma XorOneMore(crcOf: Entry -> bv32, es: seq<Entry>, n: nat)
    requires n < |es|
    ensures Xor(crcOf, es[..n + 1]) == Mix(Xor(crcOf, es[..n]), crcOf(es[n]))
  {
    assert es[..n + 1][..n] == es[..n];
  }

  lemma CrcFollows(crcOf: Entry -> bv32, es: seq<Entry>, a: Applied, b: Applied)
    requires Follows(crcOf, es, a, b) && a.crc == Xor(crcOf, es[..Whole(a)])
    ensures Shaped(es, b) && b.crc == Xor(crcOf, es[..Whole(b)])
  {
    hide Sliceable, Mix, Xor;
    if b.sub == b.subMax { XorOneMore(crcOf, es, b.idx); }
  }

  lemma StepsFollow(crcOf: Entry -> bv32, es: seq<Entry>, a: Applied, b: Applied)
    requires Follows(crcOf, es, a, b)
    ensures Shaped(es, b) && StepsThrough(es, b) == StepsThrough(es, a) + [StepsOf(es[b.idx])[b.sub]]
  {
    assert Shaped(es, b);
    if a.sub == a.subMax { CompleteThrough(es, a); }
    hide Mix, AllSteps, Sliceable;
    var own := StepsOf(es[b.idx]);
    hide StepsOf;
    assert own[..b.sub + 1] == own[..b.sub] + [own[b.sub]];
  }

  /** Doing one more step from a point leads to the next point. */
  lemma OneStep<K>(step: (K, seq<int>) -> K, k0: K, crcOf: Entry -> bv32, es: seq<Entry>, a: Applied, kv: K, b: Applied)
    requires AtPoint(step, k0, crcOf, es, a, kv) && Follows(crcOf, es, a, b)
    ensures Shaped(es, b) && AtPoint(step, k0, crcOf, es, b, Do(step, kv, StepsOf(es[b.idx])[b.sub]))
    ensures |StepsThrough(es, b)| == |StepsThrough(es, a)| + 1
  {
    StepsFollow(crcOf, es, a, b);
    CrcFollows(crcOf, es, a, b);
    hide Mix, Xor, Do, AllSliceable, Replay, StepsOf, StepsThrough, Whole, Successor;
    ReplayOneMore(step, k0, StepsThrough(es, a), StepsOf(es[b.idx])[b.sub]);
  }

  /** A longer log does not disturb a point. */
  lemma PointStays<K>(step: (K, seq<int>) -> K, k0: K, crcOf: Entry -> bv32, es: seq<Entry>, es': seq<Entry>,
                      a: Applied, kv: K)
    requires AtPoint(step, k0, crcOf, es, a, kv)
    requires AllSliceable(es') && |es| <= |es'| && es == es'[..|es|]
    ensures AtPoint(step, k0, crcOf, es', a, kv)
  {
    hide AllSteps, StepsOf, Replay, Xor, AllSliceable;
    if 0 <= a.idx { assert es'[..a.idx] == es[..a.idx]; }
    assert es'[..Whole(a)] == es[..Whole(a)];
  }

  /** When the recorded entry is complete, state and checksum are the fold over whole entries. */
  lemma CompleteIsFold<K>(step: (K, seq<int>) -> K, k0: K, crcOf: Entry -> bv32, es: seq<Entry>, a: Applied, kv: K)
    requires AtPoint(step, k0, crcOf, es, a, kv) && a.sub == a.subMax
    ensures a.idx + 1 <= |es| && AllSliceable(es[..a.idx + 1])
    ensures kv == Replay(step, k0, AllSteps(es[..a.idx + 1])) && a.crc == Xor(crcOf, es[..a.idx + 1])
  {
    hide AllSteps, StepsOf, Replay, Xor, Sliceable;
    CompleteThrough(es, a);
  }

  /** Two points at the same record position hold the same state, however they were reached. */
  lemma SamePoint<K>(step: (K, seq<int>) -> K, k0: K, crcOf: Entry -> bv32, es: seq<Entry>, a: Applied, kv: K,
                     b: Applied, kv': K)
    requires AtPoint(step, k0, crcOf, es, a, kv) && AtPoint(step, k0, crcOf, es, b, kv')
    requires a.idx == b.idx && a.sub == b.sub
    ensures kv == kv' && a == b
  {
  }

  // ----- the apply loop -----

  datatype Batch<K> = Batch(last: Applied, kv: K)

  class Applier<K(!new)> {
    const step: (K, seq<int>) -> K
    const crcOf: Entry -> bv32
    const k0: K

    var log: seq<Entry>
    var commit: int
    var last: Applied
    var kv: K
    var batches: seq<Batch<K>>   // every batch written; a crash may lose the latest ones

    ghost predicate Valid()
      reads this
    {
      && AllSliceable(log) && -1 <= commit < |log|
      && AtPoint(step, k0, crcOf, log, last, kv)
      && batches != [] && batches[|batches| - 1] == Batch(last, kv)
      && forall b :: 0 <= b < |batches| ==> AtPoint(step, k0, crcOf, log, batches[b].last, batches[b].kv)
    }

    constructor (step: (K, seq<int>) -> K, crcOf: Entry -> bv32, k0: K)
      ensures Valid() && log == [] && last.idx == -1 && kv == k0 && commit == -1
    {
      this.step, this.crcOf, this.k0 := step, crcOf, k0;
      log, commit := [], -1;
      last, kv := Applied(-1, 0, 0, 0), k0;
      batches := [Batch(Applied(-1, 0, 0, 0), k0)];
    }

    /** The log grows and more of it is committed. */
    method Commits(more: seq<Entry>, idx: int)
      requires Valid() && AllSliceable(log + more) && commit <= idx < |log + more|
      modifies `log, `commit
      ensures Valid() && log == old(log) + more && commit == idx
    {
      hide AtPoint, AllSliceable;
      ghost var was := log;
      log, commit := log + more, idx;
      PointStays(step, k0, crcOf, was, log, last, kv);
      forall b | 0 <= b < |batches| ensures AtPoint(step, k0, crcOf, log, batches[b].last, batches[b].kv) {
        PointStays(step, k0, crcOf, was, log, batches[b].last, batches[b].kv);
      }
    }

    /** Restart: the latest batches may be gone, and the commit index is. */
    method Crash(kept: nat)
      requires Valid() && 1 <= kept <= |batches|
      modifies `commit, `last, `kv, `batches
      ensures Valid() && commit == -1 && batches == old(batches)[..kept]
    {
      hide AllSteps, StepsOf, Replay, Xor;
      batches := batches[..kept];
      last, kv, commit := batches[kept - 1].last, batches[kept - 1].kv, -1;
    }

    /** How many parts have been applied. */
    ghost function Progress(): nat
      reads this
      requires Valid()
    {
      |StepsThrough(log, last)|
    }

    predicate NeedsApply()
      reads this
    {
      last.idx < commit || (last.idx == commit && last.sub < last.subMax)
    }

    /** Record what next says; hand back the record for the part after it, in the same entry. */
    method SetLastApplied(next: Applied) returns (after: Applied)
      requires last.idx <= next.idx && next.sub <= next.subMax
      modifies `last
      ensures last == next.(crc := if next.sub == next.subMax then next.crc else old(last).crc)
      ensures after == if next.sub == next.subMax then next else next.(sub := next.sub + 1)
    {
      last := Applied(next.idx, next.sub, next.subMax, last.crc);
      after := next;
      if next.sub == next.subMax {
        last := last.(crc := next.crc);
      } else {
        after := next.(sub := next.sub + 1);
      }
    }

    /** next is the record of the part to apply next. */
    ghost predicate IsNext(next: Applied)
      reads this
    {
      && AllSliceable(log) && Shaped(log, last)
      && (if last.sub == last.subMax then last.idx + 1 < |log| else 0 <= last.idx)
      && 0 <= next.idx < |log| && next == Successor(last, log).(crc := Mix(last.crc, crcOf(log[next.idx])))
    }

    /** Position, checksum and the part's writes go into one batch. */
    method ApplyPart(next: Applied, kv': K) returns (after: Applied)
      requires Valid() && IsNext(next) && kv' == Do(step, kv, StepsOf(log[next.idx])[next.sub])
      modifies `last, `kv, `batches
      ensures Valid() && last.idx == next.idx && last.sub == next.sub && last.subMax == next.subMax
      ensures Progress() == old(Progress()) + 1
      ensures next.sub < next.subMax ==> IsNext(after) && after.idx == next.idx && after.sub == next.sub + 1
      ensures batches == old(batches) + [Batch(last, kv)]
    {
      hide AllSteps, StepsOf, Replay, Xor, Sum, Split, Mix;
      ghost var was, k := last, kv;
      after := SetLastApplied(next);
      kv := kv';
      OneStep(step, k0, crcOf, log, was, k, last);
      batches := batches + [Batch(last, kv)];
    }

    lemma PointFacts()
      requires Valid()
      ensures Shaped(log, last)
    {
    }

    /** The record and checksum the next part will have. */
    method NextToApply() returns (next: Applied)
      requires Valid() && NeedsApply() && last.idx <= commit
      ensures IsNext(next) && next.idx <= commit
    {
      hide AllSteps, StepsOf, Replay, Xor, Sum, Split, Mix;
      next := last;
      if next.sub == next.subMax {
        next := Applied(next.idx + 1, 0, 0, next.crc);
      } else {
        next := next.(sub := next.sub + 1);
      }
      next := next.(subMax := |log[next.idx].sizes| - 1, crc := Mix(last.crc, crcOf(log[next.idx])));
    }

    /** The request at the running offset is the part's. */
    lemma RequestIs(next: Applied, k: K, offset: nat)
      requires Valid() && IsNext(next) && !log[next.idx].marker && log[next.idx].data != []
      requires offset == Sum(log[next.idx].sizes[..next.sub])
      ensures var e := log[next.idx];
              && Sum(e.sizes) == |e.data| && next.sub < |e.sizes| && next.subMax == |e.sizes| - 1
              && offset + e.sizes[next.sub] <= |e.data|
              && Do(step, k, StepsOf(e)[next.sub]) == step(k, e.data[offset..offset + e.sizes[next.sub]])
    {
      hide AllSteps, Replay, Xor, AtPoint, Mix;
      PartAt(log[next.idx].data, log[next.idx].sizes, next.sub);
    }

    /** Walk the parts of an entry from the front, skip those already applied, apply the others, at most
        budget of them. */
    method ApplyParts(next: Applied, budget: nat)
      requires Valid() && IsNext(next) && !log[next.idx].marker && log[next.idx].data != []
      modifies `last, `kv, `batches
      ensures Valid() && old(batches) <= batches
      ensures budget == 0 ==> last == old(last)
      ensures last == old(last) || (last.idx == next.idx && next.sub <= last.sub)
      ensures next.subMax < budget ==> last.idx == next.idx && last.sub == last.subMax
      ensures Progress() >= old(Progress()) + (if budget == 0 then 0 else 1)
    {
      hide AllSteps, Replay, Xor, Split, AtPoint, Mix, Successor, StepsThrough, StepsOf;
      var e, nai := log[next.idx], next;
      var i, offset, left := 0, 0, budget;
      PointFacts();
      RequestIsShaped(next);
      while i < |e.sizes|
        invariant 0 <= i <= |e.sizes| && offset == Sum(e.sizes[..i]) && Valid() && old(batches) <= batches
        invariant i <= next.sub ==> last == old(last) && nai == next && left == budget
        invariant next.sub < i ==> last.idx == next.idx && last.sub == i - 1 && last.subMax == next.subMax
        invariant next.sub < i ==> left == budget - (i - next.sub) && 0 < budget
        invariant next.sub < i ==> Progress() > old(Progress())
        invariant i < |e.sizes| ==> IsNext(nai) && nai.idx == next.idx && nai.sub == Later(i, next.sub)
      {
        assert e.sizes[..i + 1][..i] == e.sizes[..i];
        if nai.sub <= i {
          if left == 0 { return; }
          left := left - 1;
          RequestIs(nai, kv, offset);
          nai := ApplyPart(nai, step(kv, e.data[offset..offset + e.sizes[i]]));
        }
        offset := offset + e.sizes[i];
        i := i + 1;
      }
    }

    lemma RequestIsShaped(next: Applied)
      requires Valid() && IsNext(next)
      ensures next.subMax == |log[next.idx].sizes| - 1 && next.sub <= next.subMax
    {
    }

    /** One pass of the apply step.  At most budget parts are applied: a crash may follow at that point.
        ok is false when the assertion on the commit index fails. */
    method StateMachineApply(budget: nat) returns (ok: bool)
      requires Valid()
      modifies `last, `kv, `batches
      ensures Valid() && ok == (old(last).idx <= commit) && old(batches) <= batches
      ensures !ok || !old(NeedsApply()) ==> last == old(last) && kv == old(kv)
      ensures last == old(last) || last.idx <= commit
      ensures ok && old(NeedsApply()) && 0 < budget ==> old(Progress()) < Progress()
    {
      hide AllSteps, Replay, Xor, Split, AtPoint, Mix, Successor, StepsThrough;
      PointFacts();
      ok := last.idx <= commit;
      if !ok || !NeedsApply() { return; }
      var next := NextToApply();
      var e := log[next.idx];
      if !e.marker && e.data != [] {
        ApplyParts(next, budget);
      } else if 0 < budget {
        RequestIsShaped(next);
        var _ := ApplyPart(next, kv);
      }
    }

    /** Any pattern of commits, passes cut short, and crashes: a record that names a complete entry stands
        for one uninterrupted fold over all entries up to it. */
    method Drive(events: seq<Event>)
      requires Valid()
      modifies this
      ensures Valid()
      ensures last.sub == last.subMax ==>
                && last.idx + 1 <= |log| && AllSliceable(log[..last.idx + 1])
                && kv == Replay(step, k0, AllSteps(log[..last.idx + 1]))
                && last.crc == Xor(crcOf, log[..last.idx + 1])
    {
      hide AllSteps, Replay, Xor, AtPoint, Sliceable;
      var i := 0;
      while i < |events|
        invariant 0 <= i <= |events| && Valid()
      {
        match events[i] {
          case Committed(more, idx) =>
            if AllSliceable(log + more) && commit <= idx < |log + more| { Commits(more, idx); }
          case Passed(budget) =>
            var _ := StateMachineApply(budget);
          case Crashed(kept) =>
            if 1 <= kept <= |batches| { Crash(kept); }
        }
        i := i + 1;
      }
      if last.sub == last.subMax { CompleteIsFold(step, k0, crcOf, log, last, kv); }
    }
  }

  datatype Event = Committed(more: seq<Entry>, idx: int) | Passed(budget: nat) | Crashed(kept: nat)

  function Later(i: nat, first: nat): nat { if i <= first then first else i }
}
