/** A leader caches, per peer, the term of the peer's next entry; the cache is refreshed only while the leader
    has an entry there, but its content goes out with every request.  Duplicated replies can carry the next
    index past the entry the term was read for, and a delayed heartbeat with the old term then makes a follower
    cut off an entry that is already committed: a run that ends with two different committed entries. */
module StaleCache {
  import opened Majority
  import opened Protocol
  import opened Cluster
  import opened Runs
  import opened Scenarios
  import Assertions

  const STALE := Rules(true, false, true)

  const LOG: seq<Entry> := [Marker(1), Marker(2)]
  const WRITTEN := Entry(2, false, [7], [1])

  /** A heartbeat that matches the follower's log up to its previous index leaves the log alone exactly when
      it carries no term for the next entry, or that entry's own. */
  lemma HeartbeatPrunesExactlyWhenStale(d: Server, self: nat, m: Msg)
    requires m.AppendReq? && m.entry.None? && d.role.Follower? && d.term == m.term
    requires 0 <= m.prevIdx && m.prevIdx + 1 < |d.log| && d.log[m.prevIdx].term == m.prevTerm
    requires Settled(d) <= m.prevIdx
    ensures HandleAppendReq(d, self, m).next.log ==
            (if m.logTerm <= 0 || m.logTerm == d.log[m.prevIdx + 1].term then d.log else d.log[..m.prevIdx + 1])
  {
    var d1 := AdoptLeader(d, self, m);
    assert d1.log == d.log;
    if 0 < m.logTerm && m.logTerm != d.log[m.prevIdx + 1].term {
      assert Prune(d1, m).log == d.log[..m.prevIdx + 1];
    }
  }

  // ----- the leader, reply by reply -----

  /** Replica 0 leads term 2 with two markers; p is what it keeps for replica 1. */
  ghost predicate Leads(s: Server, p: Peer)
  {
    && Calm(s) && s.role.Leader? && s.term == 2 && s.log == LOG && s.commit == -1 && s.initialIdx == 0
    && s.peers[1] == p && s.peers[2].ackdIdx == s.peers[2].syncedIdx == -1
  }

  /** Replica 1 follows in term 2. */
  ghost predicate Follows(d: Server, log: seq<Entry>)
  {
    Calm(d) && d.role.Follower? && d.term == 2 && d.log == log && d.commit == -1
  }

  /** The refusal of entry 1, once more. */
  lemma HearsRefusal(s: Server)
    requires Leads(s, Peer(1, 0, 0, 1, 2))
    ensures var o := HandleAppendReply(true, s, 0, Refusal(0, 1, 2, 1));
            o.Done? && o.out == {} && Leads(o.next, Peer(0, 0, 0, -1, 2))
  {
  }

  /** The acceptance of entry 0, once more: nothing new to count. */
  lemma HearsFirst(s: Server)
    requires Leads(s, Peer(0, 0, 0, 0, 1))
    ensures var o := HandleAppendReply(true, s, 0, Acceptance(0, 1, 2, 0));
            o.Done? && o.out == {} && Leads(o.next, Peer(1, 0, 0, -1, 1))
  {
    assert Durable(s) == s.log;
    var p := Advanced(s.peers[1], Acceptance(0, 1, 2, 0));
    assert Noted(p, 0) == p;
  }

  /** The answer of a follower that had entry 1 already. */
  function Known1(): Msg
  {
    AppendReply(1, 0, 2, 0, -1, false, false, false, false, 2)
  }

  lemma HearsSecond(s: Server)
    requires Leads(s, Peer(1, 0, 0, -1, 1))
    ensures var o := HandleAppendReply(true, s, 0, Known1());
            o.Done? && o.out == {} && Leads(o.next, Peer(2, 1, 0, -1, 1))
  {
    var p := Advanced(s.peers[1], Known1());
    var s1 := s.(peers := s.peers[1 := p]);
    var s2 := s.(peers := s.peers[1 := Noted(p, -1)]);
    assert Durable(s1) == s.log && Noted(p, -1) == Peer(2, 1, 0, -1, 1);
    assert s1.peers[1 := Noted(p, -1)] == s2.peers;
    Commits(true, s2, 0, 1, 1, 0);
    hide TryCommit;
    assert HandleAppendReply(true, s, 0, Known1()) == TryCommit(true, s2, 0);
  }

  function Heartbeat(prevIdx: int, prevTerm: int, logTerm: int): Msg
  {
    AppendReq(0, 1, 2, logTerm, prevTerm, prevIdx, -1, None)
  }

  /** A heartbeat reads the term of entry 0 into the cache. */
  lemma BeatsAtFirst(s: Server)
    requires Leads(s, Peer(0, 0, 0, -1, 2))
    ensures var o := HandleSend(s, 0, 1, true);
            o.Done? && Leads(o.next, Peer(0, 0, 0, 0, 1))
  {
  }

  /** A heartbeat past the last entry sends what is in the cache. */
  lemma BeatsAtEnd(s: Server)
    requires Leads(s, Peer(2, 1, 0, -1, 1))
    ensures var o := HandleSend(s, 0, 1, true);
            o.Done? && o.out == {Heartbeat(1, 2, 1)} && Leads(o.next, Peer(2, 1, 0, 2, 1))
  {
  }

  // ----- up to a stale cache, sending only current terms -----

  /** Replica 0 and its slot for replica 1; replica 1; replica 2, which has heard of nothing. */
  ghost predicate Stand(rules: Rules, run: seq<Cluster>, p: Peer, log: seq<Entry>)
  {
    && Calm3(rules, run) && Leads(Last(run).servers[0], p) && Follows(Last(run).servers[1], log)
    && Last(run).servers[2] == InitServer(3, true)
  }

  /** A reply that is on its way reaches the leader. */
  lemma Hear(rules: Rules, run: seq<Cluster>, p: Peer, log: seq<Entry>, r: Msg, p': Peer) returns (later: seq<Cluster>)
    requires Stand(rules, run, p, log) && r in Last(run).msgs
    requires r.AppendReply? && r.src == 1 && r.dst == 0 && r.reqTerm == 2
    requires var o := HandleAppendReply(rules.strict, Last(run).servers[0], 0, r); o.Done? && Leads(o.next, p')
    ensures Continues(rules, run, later) && Stand(rules, later, p', log)
  {
    assert run != [];
    hide Run, HandleAppendReply;
    later := Once(rules, run, 0, Deliver(r), HandleAppendReply(rules.strict, Last(run).servers[0], 0, r).next);
  }

  /** The leader sends replica 1 a heartbeat, which does not arrive yet. */
  lemma Beat(rules: Rules, run: seq<Cluster>, p: Peer, log: seq<Entry>, p': Peer) returns (later: seq<Cluster>)
    requires Stand(rules, run, p, log) && (rules.current ==> FreshTerm(Last(run).servers[0], 1))
    requires var o := HandleSend(Last(run).servers[0], 0, 1, true); o.Done? && Leads(o.next, p')
    ensures Continues(rules, run, later) && Stand(rules, later, p', log)
    ensures HandleSend(Last(run).servers[0], 0, 1, true).out <= Last(later).msgs
  {
    assert run != [];
    hide Run, HandleSend;
    later := Once(rules, run, 0, Send(1, true), HandleSend(Last(run).servers[0], 0, 1, true).next);
  }

  /** Replica 0 wins terms 1 and 2 with the vote of 1. */
  lemma TwoTerms() returns (run: seq<Cluster>)
    ensures Stand(SOUND, run, InitPeer([Marker(1)]), [])
  {
    var run0 := Begin(SOUND);
    hide Run;
    var run1 := Elect(SOUND, run0, 0, 1);
    assert [] + [Marker(1)] == [Marker(1)];
    run := Elect(SOUND, run1, 0, 1);
    assert [Marker(1)] + [Marker(2)] == LOG;
  }

  /** Replica 1 refuses entry 1, takes entry 0, and takes entry 1 without the leader hearing of it. */
  lemma Taken() returns (run: seq<Cluster>)
    ensures Stand(SOUND, run, Peer(1, 0, 0, 1, 2), LOG)
    ensures Refusal(0, 1, 2, 1) in Last(run).msgs && Acceptance(0, 1, 2, 0) in Last(run).msgs
    ensures AppendReq(0, 1, 2, 2, 1, 0, -1, Some(Marker(2))) in Last(run).msgs
  {
    var run1 := TwoTerms();
    hide Run;
    var run2 := RejectEmpty(SOUND, run1, 0, 1, 1);
    var run3 := Store(SOUND, run2, 0, 1, 0, -1, -1);
    assert LOG[..1] == [Marker(1)];
    run := TakesSecond(run3);
  }

  lemma TakesSecond(run: seq<Cluster>) returns (later: seq<Cluster>)
    requires Calm3(SOUND, run) && Last(run).servers[2] == InitServer(3, true)
    requires Follows(Last(run).servers[1], [Marker(1)])
    requires exists cur :: Leads(Last(run).servers[0], Peer(1, 0, 0, -1, cur))
    ensures Continues(SOUND, run, later) && Stand(SOUND, later, Peer(1, 0, 0, 1, 2), LOG)
    ensures AppendReq(0, 1, 2, 2, 1, 0, -1, Some(Marker(2))) in Last(later).msgs
  {
    var s, d := Last(run).servers[0], Last(run).servers[1];
    SentAt(s, 0, 1, 1);
    var m := SentBy(s, 0, 1);
    assert d.log[..1] == s.log[..1];
    var d', r := Stores(s, d, 0, 1, 1, m);
    assert s.log[..2] == LOG;
    hide Run, HandleAppendReq;
    later := Push(SOUND, run, 0, 1, d', {r});
  }

  /** The request for entry 1, once more: replica 1 has it. */
  lemma TakenAgain() returns (run: seq<Cluster>)
    ensures Stand(SOUND, run, Peer(1, 0, 0, 1, 2), LOG)
    ensures Refusal(0, 1, 2, 1) in Last(run).msgs && Acceptance(0, 1, 2, 0) in Last(run).msgs
    ensures Known1() in Last(run).msgs
  {
    var run1 := Taken();
    var d := Last(run1).servers[1];
    var m := AppendReq(0, 1, 2, 2, 1, 0, -1, Some(Marker(2)));
    var d' := d.(leader := Some(0));
    assert HandleAppendReq(d, 1, m) == Done(d', {Known1()});
    hide Run, HandleAppendReq;
    run := Once(SOUND, run1, 1, Deliver(m), d');
  }

  /** Though every send so far was current, the leader is left with the term of entry 0 cached for a peer that
      has everything. */
  lemma CacheGoesStale() returns (run: seq<Cluster>)
    ensures Stand(SOUND, run, Peer(2, 1, 0, -1, 1), LOG)
    ensures !FreshTerm(Last(run).servers[0], 1)
  {
    var run0 := TakenAgain();
    assert run0 != [];
    hide Run, HandleAppendReply, HandleSend;
    HearsRefusal(Last(run0).servers[0]);
    var run1 := Hear(SOUND, run0, Peer(1, 0, 0, 1, 2), LOG, Refusal(0, 1, 2, 1), Peer(0, 0, 0, -1, 2));
    BeatsAtFirst(Last(run1).servers[0]);
    var run2 := Beat(SOUND, run1, Peer(0, 0, 0, -1, 2), LOG, Peer(0, 0, 0, 0, 1));
    HearsFirst(Last(run2).servers[0]);
    var run3 := Hear(SOUND, run2, Peer(0, 0, 0, 0, 1), LOG, Acceptance(0, 1, 2, 0), Peer(1, 0, 0, -1, 1));
    HearsSecond(Last(run3).servers[0]);
    run := Hear(SOUND, run3, Peer(1, 0, 0, -1, 1), LOG, Known1(), Peer(2, 1, 0, -1, 1));
  }

  // ----- and on to a lost commit -----

  /** The stale heartbeat is on its way; the leader writes, replica 1 stores, the leader commits. */
  lemma WriteIsCommitted() returns (run: seq<Cluster>)
    ensures Calm3(STALE, run) && At(run, 0, 2, true, LOG + [WRITTEN], 2)
    ensures Follows(Last(run).servers[1], LOG + [WRITTEN])
    ensures Counted(Last(run).servers[0].peers[1]) == 2 && Last(run).servers[0].peers[1].nextIdx == 3
    ensures Last(run).servers[0].peers[1].prevTerm == -1
    ensures Last(run).servers[2] == InitServer(3, true) && Heartbeat(1, 2, 1) in Last(run).msgs
  {
    var run0 := CacheGoesStale();
    FewerRules(SOUND, run0, STALE);
    hide Run, HandleSend;
    BeatsAtEnd(Last(run0).servers[0]);
    var run1 := Beat(STALE, run0, Peer(2, 1, 0, -1, 1), LOG, Peer(2, 1, 0, 2, 1));
    var s := Last(run1).servers[0];
    var run2 := Once(STALE, run1, 0, Write(WRITTEN.data, WRITTEN.sizes), s.(log := LOG + [WRITTEN], synced := 3));
    assert (LOG + [WRITTEN])[..2] == LOG && (LOG + [WRITTEN])[..3] == LOG + [WRITTEN];
    run := Store(STALE, run2, 0, 1, 2, 1, 0);
  }

  /** The heartbeat arrives: replica 1 cuts off what is committed. */
  lemma CommittedIsCut() returns (run: seq<Cluster>)
    ensures Calm3(STALE, run) && At(run, 0, 2, true, LOG + [WRITTEN], 2) && Follows(Last(run).servers[1], LOG)
    ensures Counted(Last(run).servers[0].peers[1]) == 2
    ensures Last(run).servers[2] == InitServer(3, true)
  {
    var run1 := WriteIsCommitted();
    var d := Last(run1).servers[1];
    var m := Heartbeat(1, 2, 1);
    var d' := d.(leader := Some(0), log := LOG, synced := 2);
    assert (LOG + [WRITTEN])[..2] == LOG;
    assert HandleAppendReq(d, 1, m).Done? && HandleAppendReq(d, 1, m).next == d';
    hide Run, HandleAppendReq;
    run := Once(STALE, run1, 1, Deliver(m), d');
  }

  /** Replica 1 wins term 3 with the vote of 2, and commits its own marker where the lost entry was. */
  lemma CommittedIsLost() returns (run: seq<Cluster>)
    ensures Run(STALE, run) && |Last(run).servers| == 3 && forall k :: 0 <= k < 3 ==> Last(run).servers[k].applied == -1
    ensures At(run, 0, 2, true, LOG + [WRITTEN], 2)
    ensures At(run, 1, 3, true, LOG + [Marker(3)], 2)
  {
    var run1 := CommittedIsCut();
    hide Run;
    var run2 := Elect(STALE, run1, 1, 2);
    var run3 := RejectEmpty(STALE, run2, 1, 2, 2);
    var log := LOG + [Marker(3)];
    assert log[..0] == [] && log[..1] == [Marker(1)] && log[..2] == LOG && log[..3] == log;
    var run4 := Store(STALE, run3, 1, 2, 0, -1, -1);
    var run5 := Store(STALE, run4, 1, 2, 1, 0, 0);
    run := Store(STALE, run5, 1, 2, 2, 1, 1);
  }

  function AfterBeat(s: Server): Server
    requires |s.peers| == 3 && |s.log| == 3 && s.peers[1].nextIdx == 3
  {
    s.(peers := s.peers[1 := RefreshPeer(s.peers[1], s.log)])
  }

  function BeatOf(s: Server): Msg
    requires |s.peers| == 3 && |s.log| == 3 && s.peers[1].nextIdx == 3
  {
    RequestTo(s, 0, 1, RefreshPeer(s.peers[1], s.log), true)
  }

  /** Had replica 1 heard of the commit before, the heartbeat would have stopped it. */
  lemma CommittedIsRefused() returns (run: seq<Cluster>, a: Action)
    ensures Run(STALE, run) && run != [] && |Last(run).servers| == 3 && Shaped(Last(run))
    ensures !a.Crash? && Enabled(STALE, Last(run), 1, a) && Act(true, Last(run), 1, a).Panic?
    ensures !Assertions.Stops(Last(run).servers[1], a)
  {
    var run1 := WriteIsCommitted();
    var s, d := Last(run1).servers[0], Last(run1).servers[1];
    var s' := AfterBeat(s);
    var run2 := Once(STALE, run1, 0, Send(1, true), s');
    var m := BeatOf(s);
    var d' := d.(leader := Some(0), commit := 2);
    assert HandleAppendReq(d, 1, m).Done? && HandleAppendReq(d, 1, m).next == d';
    run := Once(STALE, run2, 1, Deliver(m), d');
    a := Deliver(Heartbeat(1, 2, 1));
    LastShaped(STALE, run);
    hide Run;
    assert (LOG + [WRITTEN])[2].term == 2;
  }
}
