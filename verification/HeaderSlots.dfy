/** The POSIX store keeps the log header in two slots and alternates between them by sequence number, so
    that a write cut short by a crash leaves the previous header readable. */
module HeaderSlots {
  import opened Protocol
  import opened Cluster
  import Persistence

  const NUM_HEADERS: nat := 2

  datatype Header = Header(seqno: nat, term: nat, votedFor: Option<nat>)

  /** None is a slot whose checksum does not match. */
  type Slot = Option<Header>

  datatype Tear = Nothing | Garbage | Everything

  function Tag(slot: Slot): int
  {
    if slot.Some? then slot.value.seqno else -1
  }

  /** The newest header of a device, by sequence number; the first slot wins a tie. */
  function Newest(slots: seq<Slot>): Slot
    requires |slots| == NUM_HEADERS
  {
    if Tag(slots[0]) < Tag(slots[1]) then slots[1] else slots[0]
  }

  /** h was written whole, to its slot; the other slot is older or torn. */
  predicate Lasting(slots: seq<Slot>, h: Header)
  {
    && |slots| == NUM_HEADERS
    && slots[h.seqno % NUM_HEADERS] == Some(h)
    && Tag(slots[(h.seqno + 1) % NUM_HEADERS]) < h.seqno
  }

  /** What a write of h may leave behind when a crash cuts it short. */
  function Torn(slots: seq<Slot>, h: Header, tear: Tear): (r: seq<Slot>)
    requires |slots| == NUM_HEADERS
    ensures |r| == NUM_HEADERS
  {
    match tear
    case Nothing => slots
    case Garbage => slots[h.seqno % NUM_HEADERS := None]
    case Everything => slots[h.seqno % NUM_HEADERS := Some(h)]
  }

  /** A write never touches the slot of the header it follows: whatever a crash leaves of it, the device
      still has that header or the new one as its newest. */
  lemma TornIsAtomic(slots: seq<Slot>, last: Header, h: Header, tear: Tear)
    requires Lasting(slots, last) && h.seqno == last.seqno + 1
    ensures h.seqno % NUM_HEADERS != last.seqno % NUM_HEADERS
    ensures Tag(slots[h.seqno % NUM_HEADERS]) < Tag(slots[last.seqno % NUM_HEADERS])
    ensures var r := Torn(slots, h, tear);
            && Newest(r) == Some(if tear.Everything? then h else last)
            && Lasting(r, if tear.Everything? then h else last)
  {
  }

  class HeaderStore {
    const slots: array<Slot>
    var hdr: Header

    /** The header in memory is the newest on the device. */
    ghost predicate Valid()
      reads this, slots
    {
      slots.Length == NUM_HEADERS && Lasting(slots[..], hdr)
    }

    /** A new file: both slots are written, from sequence number 0. */
    constructor ()
      ensures Valid() && fresh(slots) && hdr.term == 0 && hdr.votedFor == None
    {
      hdr := Header(0, 0, None);
      slots := new Slot[NUM_HEADERS](_ => None);
      new;
      var i := 0;
      while i < NUM_HEADERS
        invariant 0 <= i <= NUM_HEADERS && hdr == Header(i, 0, None)
        invariant forall k :: 0 <= k < i ==> slots[k] == Some(Header(k, 0, None))
        modifies this, slots
      {
        HeaderWrite();
        hdr := hdr.(seqno := hdr.seqno + 1);
        i := i + 1;
      }
      var loaded := HeaderLoad();
    }

    method HeaderWrite()
      requires slots.Length == NUM_HEADERS
      modifies slots
      ensures slots[..] == old(slots[..])[hdr.seqno % NUM_HEADERS := Some(hdr)]
    {
      slots[hdr.seqno % NUM_HEADERS] := Some(hdr);
    }

    /** Read both slots, skip the bad ones, keep the one with the greatest sequence number. */
    method HeaderLoad() returns (found: bool)
      requires slots.Length == NUM_HEADERS
      modifies `hdr
      ensures found == Newest(slots[..]).Some?
      ensures hdr == if found then Newest(slots[..]).value else old(hdr)
    {
      var best: Slot := None;
      var i := 0;
      while i < NUM_HEADERS
        invariant 0 <= i <= NUM_HEADERS
        invariant i == 0 ==> best == None
        invariant i == 1 ==> best == slots[0]
        invariant i == 2 ==> best == Newest(slots[..])
      {
        if slots[i].Some? {
          if best.None? || best.value.seqno < slots[i].value.seqno { best := slots[i]; }
        }
        i := i + 1;
      }
      found := best.Some?;
      if found { hdr := best.value; }
    }

    /** Persist a term and a vote. */
    method Persist(term: nat, votedFor: Option<nat>)
      requires Valid()
      modifies this, slots
      ensures Valid() && hdr == Header(old(hdr).seqno + 1, term, votedFor)
    {
      ghost var was, last := slots[..], hdr;
      hdr := Header(hdr.seqno + 1, term, votedFor);
      TornIsAtomic(was, last, hdr, Everything);
      HeaderWrite();
    }

    /** The same write, cut short by a crash; then the restart reads the device. */
    method CrashWhilePersisting(term: nat, votedFor: Option<nat>, tear: Tear)
      requires Valid()
      modifies this, slots
      ensures Valid()
      ensures hdr == if tear.Everything? then Header(old(hdr).seqno + 1, term, votedFor) else old(hdr)
    {
      ghost var was, last := slots[..], hdr;
      var next := Header(hdr.seqno + 1, term, votedFor);
      TornIsAtomic(was, last, next, tear);
      if tear.Garbage? {
        slots[next.seqno % NUM_HEADERS] := None;
      } else if tear.Everything? {
        slots[next.seqno % NUM_HEADERS] := Some(next);
      }
      assert slots[..] == Torn(was, next, tear);
      var found := HeaderLoad();
      assert found;
    }

    /** Any number of writes, any of them torn and followed by a restart. */
    method Drive(events: seq<Event>)
      requires Valid()
      modifies this, slots
      ensures Valid() && hdr == After(old(hdr), events)
    {
      var i := 0;
      while i < |events|
        invariant 0 <= i <= |events| && Valid() && hdr == After(old(hdr), events[..i])
      {
        var e := events[i];
        assert events[..i + 1][..i] == events[..i];
        if e.tear.None? {
          Persist(e.term, e.votedFor);
        } else {
          CrashWhilePersisting(e.term, e.votedFor, e.tear.value);
        }
        i := i + 1;
      }
      assert events[..i] == events;
    }
  }

  /** A write request, and what a crash left of it, if one cut it short. */
  datatype Event = Event(term: nat, votedFor: Option<nat>, tear: Option<Tear>)

  /** Whether the write reached the device as a whole. */
  predicate Written(e: Event)
  {
    e.tear.None? || e.tear.value.Everything?
  }

  /** The header that counts after some writes: a write takes effect as a whole or not at all. */
  function After(h: Header, events: seq<Event>): Header
  {
    if events == [] then h
    else
      var e, before := events[|events| - 1], After(h, events[..|events| - 1]);
      if Written(e) then Header(before.seqno + 1, e.term, e.votedFor) else before
  }

  /** No write asks for a lower term than the device has. */
  predicate Ascending(h: Header, events: seq<Event>)
  {
    forall k :: 0 <= k < |events| ==> After(h, events[..k]).term <= events[k].term
  }

  lemma AscendingFront(h: Header, events: seq<Event>)
    requires Ascending(h, events) && events != []
    ensures Ascending(h, events[..|events| - 1])
    ensures After(h, events[..|events| - 1]).term <= events[|events| - 1].term
  {
    hide After;
    var front := events[..|events| - 1];
    forall k | 0 <= k < |front| ensures After(h, front[..k]).term <= front[k].term { assert front[..k] == events[..k]; }
  }

  /** Whatever is torn later, the term persisted by the first k writes is not lost. */
  lemma {:induction false} TermsSurvive(h: Header, events: seq<Event>, k: nat)
    requires Ascending(h, events) && k <= |events|
    ensures After(h, events[..k]).term <= After(h, events).term
    ensures After(h, events[..k]).seqno <= After(h, events).seqno
    decreases |events|
  {
    hide Ascending;
    if k < |events| {
      var front := events[..|events| - 1];
      assert front[..k] == events[..k];
      AscendingFront(h, events);
      TermsSurvive(h, front, k);
    } else {
      assert events[..k] == events;
    }
  }

  /** The header's term is that of an effective write, or the first one. */
  lemma {:induction false} AfterBound(h: Header, events: seq<Event>, bound: nat)
    requires h.term <= bound && forall k :: 0 <= k < |events| && Written(events[k]) ==> events[k].term <= bound
    ensures After(h, events).term <= bound
  {
    if events != [] { AfterBound(h, events[..|events| - 1], bound); }
  }

  /** The writes of one replica, each made at some point of a run: an effective write has the replica's term of
      then, a torn one may have asked for a higher term. */
  ghost predicate WritesOf(run: seq<Cluster>, i: nat, at: seq<nat>, events: seq<Event>)
  {
    && |at| == |events|
    && (forall k :: 0 <= k < |at| ==> at[k] < |run| && i < |run[at[k]].servers|)
    && (forall k, l :: 0 <= k < l < |at| ==> at[k] <= at[l])
    && forall k :: 0 <= k < |at| ==>
         && run[at[k]].servers[i].term <= events[k].term
         && (Written(events[k]) ==> events[k].term == run[at[k]].servers[i].term)
  }

  /** In every run, under any rules, the writes of a replica ascend. */
  lemma WritesAscend(rules: Rules, run: seq<Cluster>, i: nat, at: seq<nat>, events: seq<Event>, seqno: nat)
    requires Run(rules, run) && WritesOf(run, i, at, events)
    ensures Ascending(Header(seqno, 0, None), events)
  {
    hide Run;
    var h := Header(seqno, 0, None);
    forall k | 0 <= k < |events| ensures After(h, events[..k]).term <= events[k].term {
      var before := events[..k];
      forall l | 0 <= l < |before| && Written(before[l]) ensures before[l].term <= events[k].term {
        Persistence.VoteIsFinal(rules, run, at[l], at[k], i);
      }
      AfterBound(h, before, events[k].term);
    }
  }
}
