/** Replication converges: a stable leader and one follower that exchange in order, with synchronous
    writes, end with equal logs after finitely many rounds, whatever the follower's log was, provided it
    was empty or had the leader's entry 0. */
module Convergence {
  import opened Majority
  import opened Protocol
  import opened Cluster
  import opened History
  import opened LocalSteps
  import opened Runs
  import Appending
  import Assertions
  import Coverage
  import Leading
  import Persistence
  import Safety

  /** Log x holds the leader's first n entries. */
  predicate Agreed(x: seq<Entry>, leaders: seq<Entry>, n: int)
  {
    0 <= n <= |x| && n <= |leaders| && x[..n] == leaders[..n]
  }

  /** How far the pair is from done.  Before the logs agree below the next index, it falls with the next
      index; from then on, it is the number of entries still to send. */
  function Rank(x: seq<Entry>, leaders: seq<Entry>, n: int): int
  {
    if Agreed(x, leaders, n) then |leaders| - n else |leaders| + n
  }

  /** The follower is empty, or shares entry 0 with the leader. */
  predicate SameStart(x: seq<Entry>, leaders: seq<Entry>)
  {
    x == [] || leaders == [] || x[0].term == leaders[0].term
  }

  // ----- what a round does to the follower -----

  /** The follower took the request: x became x', which has what was sent. */
  ghost predicate Accepts(x: seq<Entry>, x': seq<Entry>, leaders: seq<Entry>, m: Msg, r: Msg)
    requires m.AppendReq? && r.AppendReply?
  {
    && Agreed(x, leaders, m.prevIdx + 1)
    && !r.stale && !r.nonMatching && r.heartbeat == m.entry.None?
    && Agreed(x', leaders, if m.entry.Some? then m.prevIdx + 2 else m.prevIdx + 1)
    && (m.entry.None? ==> Prefix(x', leaders))
  }

  /** The follower's log is not the leader's below the next index; it is cut to that length and the
      reply discloses how long it now is. */
  ghost predicate Rejects(x: seq<Entry>, x': seq<Entry>, leaders: seq<Entry>, m: Msg, r: Msg)
    requires m.AppendReq? && r.AppendReply?
  {
    && 0 <= m.prevIdx && !Agreed(x, leaders, m.prevIdx + 1)
    && !r.stale && r.nonMatching && |x'| <= m.prevIdx + 1
    && r.newlyInit == (x' == []) && r.syncedIdx == |x'| - 1
  }

  ghost predicate Responds(d: Server, o: Outcome, leaders: seq<Entry>, j: nat, m: Msg, r: Msg)
    requires m.AppendReq?
  {
    && o.Done? && o.out == {r} && r.AppendReply?
    && r.src == j && r.dst == m.src && r.prevIdx == m.prevIdx && r.term == m.term == r.reqTerm
    && (Accepts(d.log, o.next.log, leaders, m, r) || Rejects(d.log, o.next.log, leaders, m, r))
    && (SameStart(d.log, leaders) ==> SameStart(o.next.log, leaders))
  }

  lemma TailResponds(h: History, c: Cluster, j: nat, m: Msg) returns (r: Msg)
    requires Appending.Handling(h, c, j, m) && -1 <= m.prevIdx && !IndexAhead(c.servers[j], m)
    requires c.servers[j].syncWrites && c.servers[j].synced == |c.servers[j].log|
    ensures m.term in h.reigns && Responds(c.servers[j], Proceed(c.servers[j], j, m), LogOf(h, m.term), j, m, r)
  {
    hide Inv, InReach, CommitOk, ServerOk, MsgOk;
    var d := c.servers[j];
    Appending.RequestOk(h, c, m);
    var L := LogOf(h, m.term);
    if CheckTail(d, m).NonMatching? {
      r := ReplyTo(d, j, m, false, NonMatching);
    } else {
      Appending.MatchingAgrees(h, c, j, m);
      if m.entry.Some? {
        Assertions.MatchedMayWrite(h, c, j, m);
        Appending.WrittenLog(h, c, j, m);
      }
      var d3 := if m.entry.Some? then WriteFromLeader(d, m) else d;
      r := ReplyTo(AdvanceCommit(d3, m.commit), j, m, false, Matches);
      assert Accepts(d.log, d3.log, L, m, r);
    }
  }

  lemma StoredResponds(h: History, c: Cluster, j: nat, m: Msg) returns (r: Msg)
    requires Appending.Handling(h, c, j, m) && -1 <= m.prevIdx
    requires IndexAhead(c.servers[j], m) && Stored(c.servers[j], m)
    ensures m.term in h.reigns && Responds(c.servers[j], Proceed(c.servers[j], j, m), LogOf(h, m.term), j, m, r)
  {
    hide Inv, InReach, CommitOk, ServerOk, MsgOk, CheckTail, LastTerm, Settled;
    var d := c.servers[j];
    Appending.RequestOk(h, c, m);
    Appending.AlreadyStoredAgrees(h, c, j, m);
    if 0 <= m.prevIdx { Assertions.StoredPrevMatches(h, c, j, m); }
    var L, n := LogOf(h, m.term), m.prevIdx + 1;
    assert d.log[..n] == L[..|d.log|][..n] == L[..n];
    assert d.log[..n + 1] == L[..|d.log|][..n + 1] == L[..n + 1];
    var d3 := AdvanceCommit(d, Min(m.commit, |Durable(d)| - 1));
    r := ReplyTo(d3, j, m, false, AlreadyStored);
  }

  lemma PruneResponds(h: History, c: Cluster, j: nat, m: Msg) returns (r: Msg)
    requires Appending.Handling(h, c, j, m) && 0 <= m.prevIdx
    requires IndexAhead(c.servers[j], m) && !Stored(c.servers[j], m) && c.servers[j].syncWrites
    ensures m.term in h.reigns && Responds(c.servers[j], Proceed(c.servers[j], j, m), LogOf(h, m.term), j, m, r)
  {
    hide Inv, InReach, CommitOk, ServerOk, MsgOk, Proceed;
    var d := c.servers[j];
    var d1 := Prune(d, m);
    Assertions.SettledIsNotPruned(h, c, j, m);
    Appending.PruneStep(h, c, j, m);
    Appending.ProceedAfterPrune(d, j, m);
    PutTwice(c, j, d1, d1, {});
    r := TailResponds(h, Put(c, j, d1, {}), j, m);
    assert d1.log == d.log[..m.prevIdx + 1];
    assert forall n :: 0 <= n <= m.prevIdx + 1 ==> d1.log[..n] == d.log[..n];
  }

  lemma FollowerResponds(h: History, c: Cluster, j: nat, m: Msg) returns (r: Msg)
    requires Appending.Handling(h, c, j, m) && -1 <= m.prevIdx && !Assertions.Diverged(c.servers[j], m)
    requires c.servers[j].syncWrites && c.servers[j].synced == |c.servers[j].log|
    ensures m.term in h.reigns && Responds(c.servers[j], Proceed(c.servers[j], j, m), LogOf(h, m.term), j, m, r)
  {
    hide Inv, Responds, Proceed;
    var d := c.servers[j];
    if !IndexAhead(d, m) { r := TailResponds(h, c, j, m); }
    else if Stored(d, m) { r := StoredResponds(h, c, j, m); }
    else { r := PruneResponds(h, c, j, m); }
  }

  // ----- what the reply does to the leader -----

  /** An exchange with j changes, at leader i, its slots for j and itself and the commit index, which does not
      fall; at follower j, it leaves alone what was applied. */
  ghost predicate Frame(s: Server, s': Server, i: nat, j: nat)
  {
    && s' == s.(peers := s'.peers, commit := s'.commit) && s.commit <= s'.commit && |s'.peers| == |s.peers|
    && forall k :: 0 <= k < |s.peers| && k != i && k != j ==> s'.peers[k] == s.peers[k]
  }

  lemma FrameOn(s: Server, s1: Server, s2: Server, i: nat, j: nat)
    requires Frame(s, s1, i, j) && Frame(s1, s2, i, j)
    ensures Frame(s, s2, i, j)
  {
  }

  /** Counting touches acknowledgements and the commit index, not where the next entry comes from. */
  lemma UpdateSyncKeeps(strict: bool, s: Server, i: nat, src: nat, term: int, syncedIdx: int)
    requires i < |s.peers| && src < |s.peers| && src != i
    ensures var s' := UpdateSync(strict, s, i, src, term, syncedIdx).next;
            && Frame(s, s', i, src)
            && s'.peers[src].nextIdx == s.peers[src].nextIdx && s'.peers[src].curTerm == s.peers[src].curTerm
    ensures var o := UpdateSync(strict, s, i, src, term, syncedIdx); o.Done? ==> o.out == {}
  {
    hide MajorityIndex, CountedAll;
  }

  lemma LeaderHears(s: Server, i: nat, j: nat, r: Msg)
    requires s.role.Leader? && i < |s.peers| && j < |s.peers| && i != j
    requires r.AppendReply? && r.src == j && !r.stale && r.prevIdx + 1 == s.peers[j].nextIdx
    requires r.nonMatching ==> 0 <= r.prevIdx && -1 <= r.syncedIdx <= r.prevIdx && r.newlyInit == (r.syncedIdx == -1)
    ensures var s' := HandleAppendReply(true, s, i, r).next;
            && Frame(s, s', i, j)
            && s'.peers[j].curTerm == s.peers[j].curTerm
            && s'.peers[j].nextIdx == (if r.nonMatching then (if r.syncedIdx == -1 then 0 else r.syncedIdx)
                                       else if r.heartbeat then r.prevIdx + 1 else r.prevIdx + 2)
    ensures var o := HandleAppendReply(true, s, i, r); o.Done? ==> o.out == {}
  {
    hide UpdateSync;
    UpdateSyncKeeps(true, s.(peers := s.peers[j := Advanced(s.peers[j], r)]), i, j, r.term, r.syncedIdx);
  }

  // ----- rounds -----

  /** i leads, j follows, and nobody else takes part. */
  ghost predicate Pair(run: seq<Cluster>, i: nat, j: nat)
  {
    && Run(SOUND, run) && i < |Last(run).servers| && j < |Last(run).servers| && i != j
    && var s, d := Last(run).servers[i], Last(run).servers[j];
       && CanSend(s, j) && d.term <= s.term && s.syncWrites && d.syncWrites
       && SameStart(d.log, s.log)
  }

  ghost predicate InFlight(run: seq<Cluster>, i: nat, j: nat, m: Msg)
  {
    && Run(SOUND, run) && i < |Last(run).servers| && j < |Last(run).servers| && i != j
    && m in Last(run).msgs && m.AppendReq? && m.src == i && m.dst == j && -1 <= m.prevIdx
    && var s, d := Last(run).servers[i], Last(run).servers[j];
       && s.role.Leader? && m.term == s.term && d.term <= s.term && d.syncWrites
       && SameStart(d.log, s.log) && s.log != [] && (m.prevIdx == -1 ==> m.logTerm == s.log[0].term)
  }

  lemma LeadersLog(h: History, c: Cluster, i: nat)
    requires Inv(h, c) && i < |c.servers| && c.servers[i].role.Leader?
    ensures c.servers[i].term in h.reigns && LogOf(h, c.servers[i].term) == c.servers[i].log
  {
    Leading.LeaderFacts(h, c, i);
  }

  lemma FollowerAnswers(run: seq<Cluster>, i: nat, j: nat, m: Msg) returns (r: Msg)
    requires InFlight(run, i, j, m)
    ensures var d := Last(run).servers[j];
            Responds(d, HandleAppendReq(d, j, m), Last(run).servers[i].log, j, m, r)
  {
    var c := Last(run);
    var d := c.servers[j];
    var h := Safety.HistoryAt(run, |run| - 1);
    Persistence.SteadyAt(SOUND, run, |run| - 1);
    hide Run, Inv, Proceed, Responds;
    var d1 := AdoptLeader(d, j, m);
    LeadersLog(h, c, i);
    Appending.AdoptLeaderStep(h, c, j, m);
    PutTwice(c, j, d1, d1, {});
    AdoptKeepsLog(h, c, j, m);
    r := FollowerResponds(h, Put(c, j, d1, {}), j, m);
    SameAnswer(d, j, m, Last(run).servers[i].log, r);
  }

  lemma AdoptKeepsLog(h: History, c: Cluster, j: nat, m: Msg)
    requires Inv(h, c) && j < |c.servers| && m.AppendReq? && m in c.msgs && m.dst == j && c.servers[j].term <= m.term
    ensures var d, d1 := c.servers[j], AdoptLeader(c.servers[j], j, m);
            d1.log == d.log && d1.syncWrites == d.syncWrites && (d.synced == |d.log| ==> d1.synced == |d1.log|)
  {
  }

  lemma SameAnswer(d: Server, j: nat, m: Msg, leaders: seq<Entry>, r: Msg)
    requires m.AppendReq? && -1 <= m.prevIdx && d.term <= m.term && AdoptLeader(d, j, m).log == d.log
    requires Responds(AdoptLeader(d, j, m), Proceed(AdoptLeader(d, j, m), j, m), leaders, j, m, r)
    ensures Responds(d, HandleAppendReq(d, j, m), leaders, j, m, r)
  {
    hide Proceed, AdoptLeader;
  }

  lemma AnswerShape(d: Server, j: nat, m: Msg)
    requires m.AppendReq? && -1 <= m.prevIdx && d.term <= m.term && m.src != j
    ensures var d' := HandleAppendReq(d, j, m).next;
            && d'.term == m.term && d'.syncWrites == d.syncWrites && |d'.peers| == |d.peers|
            && d'.applied == d.applied
  {
    hide Proceed;
    Persistence.ProceedKeeps(AdoptLeader(d, j, m), j, m);
  }

  lemma EndsInOwnTerm(run: seq<Cluster>, i: nat)
    requires Run(SOUND, run) && i < |Last(run).servers| && Last(run).servers[i].role.Leader?
    ensures LastTerm(Last(run).servers[i].log) == Last(run).servers[i].term
  {
    var c := Last(run);
    var h := Safety.HistoryAt(run, |run| - 1);
    Coverage.BackedAt(SOUND, run, |run| - 1);
    hide Run, Inv, MajorityIndex;
    OneServer(h, c, i);
    Leading.LeaderFacts(h, c, i);
  }

  /** The leader's next request is on its way. */
  lemma SendRound(run: seq<Cluster>, i: nat, j: nat) returns (later: seq<Cluster>)
    requires Pair(run, i, j)
    ensures Continues(SOUND, run, later) && |later| == |run| + 1
    ensures Last(later).servers == Last(run).servers[i := AfterSend(Last(run).servers[i], j)]
    ensures InFlight(later, i, j, SentBy(Last(run).servers[i], i, j))
  {
    var s := Last(run).servers[i];
    LastShaped(SOUND, run);
    assert HandleSend(s, i, j, false) == Done(AfterSend(s, j), {SentBy(s, i, j)});
    hide Run, Agreed;
    later := Go(SOUND, run, i, Send(j, false));
  }

  lemma AnswerRound(run: seq<Cluster>, i: nat, j: nat, m: Msg) returns (later: seq<Cluster>, r: Msg)
    requires InFlight(run, i, j, m)
    ensures Continues(SOUND, run, later) && |later| == |run| + 1
    ensures var d := Last(run).servers[j];
            && Last(later).servers == Last(run).servers[j := HandleAppendReq(d, j, m).next]
            && Responds(d, HandleAppendReq(d, j, m), Last(run).servers[i].log, j, m, r)
    ensures r in Last(later).msgs
  {
    r := FollowerAnswers(run, i, j, m);
    var d := Last(run).servers[j];
    LastShaped(SOUND, run);
    AnswerShape(d, j, m);
    hide Run, Accepts, Rejects, HandleAppendReq;
    later := Go(SOUND, run, j, Deliver(m));
  }

  lemma HearRound(run: seq<Cluster>, i: nat, r: Msg) returns (later: seq<Cluster>)
    requires Run(SOUND, run) && i < |Last(run).servers| && Last(run).servers[i].role.Leader?
    requires r in Last(run).msgs && r.AppendReply? && r.dst == i && r.src != i && r.src < |Last(run).servers|
    requires !r.stale && r.reqTerm == Last(run).servers[i].term
    requires i < |Last(run).servers[i].peers| && r.src < |Last(run).servers[i].peers|
    requires r.prevIdx + 1 == Last(run).servers[i].peers[r.src].nextIdx
    requires r.nonMatching ==> 0 <= r.prevIdx && -1 <= r.syncedIdx <= r.prevIdx && r.newlyInit == (r.syncedIdx == -1)
    ensures Continues(SOUND, run, later) && |later| == |run| + 1
    ensures Last(later).servers == Last(run).servers[i := HandleAppendReply(true, Last(run).servers[i], i, r).next]
  {
    var s := Last(run).servers[i];
    LastShaped(SOUND, run);
    Assertions.OnlyTheseStop(run, |run| - 1, i, Deliver(r));
    LeaderHears(s, i, r.src, r);
    hide Run, HandleAppendReply;
    later := Go(SOUND, run, i, Deliver(r));
  }

  /** What one round did to the pair. */
  ghost predicate Rounded(s: Server, d: Server, s': Server, d': Server, i: nat, j: nat)
  {
    && j < |s.peers| && j < |s'.peers| && Frame(s, s', i, j) && d'.applied == d.applied && d'.term == s.term
    && var n, n' := s.peers[j].nextIdx, s'.peers[j].nextIdx;
       && 0 <= n' <= |s.log|
       && (Agreed(d.log, s.log, n) || n' < n)
       && ((d'.log == s.log && n' == |s.log|) || Rank(d'.log, s.log, n') < Rank(d.log, s.log, n))
  }

  lemma AcceptLowersRank(x: seq<Entry>, x': seq<Entry>, leaders: seq<Entry>, m: Msg, r: Msg)
    requires m.AppendReq? && r.AppendReply? && Accepts(x, x', leaders, m, r)
    requires m.entry.Some? <==> m.prevIdx + 1 < |leaders|
    ensures var n := m.prevIdx + 1;
            if n < |leaders| then Rank(x', leaders, n + 1) < Rank(x, leaders, n) else x' == leaders
  {
    if m.entry.None? { assert x' == leaders[..|x'|] == leaders; }
  }

  lemma RejectLowersRank(x: seq<Entry>, x': seq<Entry>, leaders: seq<Entry>, m: Msg, r: Msg)
    requires m.AppendReq? && r.AppendReply? && Rejects(x, x', leaders, m, r) && m.prevIdx + 1 <= |leaders|
    ensures var n, n' := m.prevIdx + 1, if r.syncedIdx == -1 then 0 else r.syncedIdx;
            0 <= n' < n && Rank(x', leaders, n') < Rank(x, leaders, n)
  {
  }

  lemma RoundLowersRank(s: Server, i: nat, j: nat, d: Server, d': Server, r: Msg)
    requires CanSend(s, j) && i < |s.peers| && i != j
    requires Responds(d, Done(d', {r}), s.log, j, SentBy(s, i, j), r) && d'.applied == d.applied && d'.term == s.term
    ensures var s' := HandleAppendReply(true, AfterSend(s, j), i, r).next; Rounded(s, d, s', d', i, j)
  {
    var m := SentBy(s, i, j);
    LeaderHears(AfterSend(s, j), i, j, r);
    hide HandleAppendReply, Rank;
    if Accepts(d.log, d'.log, s.log, m, r) {
      AcceptLowersRank(d.log, d'.log, s.log, m, r);
    } else {
      RejectLowersRank(d.log, d'.log, s.log, m, r);
    }
  }

  /** Having sent its last entry, the leader has cached its own term. */
  lemma StaysFresh(s: Server, i: nat, j: nat, d: Server, d': Server, r: Msg)
    requires CanSend(s, j) && i < |s.peers| && i != j && LastTerm(s.log) == s.term
    requires Responds(d, Done(d', {r}), s.log, j, SentBy(s, i, j), r)
    ensures var s' := HandleAppendReply(true, AfterSend(s, j), i, r).next;
            CanSend(s', j) && s'.syncWrites == s.syncWrites
  {
    LeaderHears(AfterSend(s, j), i, j, r);
    hide HandleAppendReply;
  }

  /** One round in order: the next index falls until the logs agree below it, and then the follower
      gains an entry, or has the leader's log. */
  lemma Round(run: seq<Cluster>, i: nat, j: nat) returns (later: seq<Cluster>)
    requires Pair(run, i, j)
    ensures Continues(SOUND, run, later) && Pair(later, i, j) && |later| == |run| + 3
    ensures Rounded(Last(run).servers[i], Last(run).servers[j], Last(later).servers[i], Last(later).servers[j], i, j)
    ensures forall k :: 0 <= k < |Last(run).servers| && k != i && k != j ==>
            Last(later).servers[k] == Last(run).servers[k]
  {
    var s, d := Last(run).servers[i], Last(run).servers[j];
    LastShaped(SOUND, run);
    EndsInOwnTerm(run, i);
    var run1 := SendRound(run, i, j);
    var m := SentBy(s, i, j);
    var run2, r := AnswerRound(run1, i, j, m);
    var d' := HandleAppendReq(d, j, m).next;
    AnswerShape(d, j, m);
    hide Run, HandleAppendReq, HandleAppendReply, RefreshPeer, Agreed, LastTerm;
    RoundLowersRank(s, i, j, d, d', r);
    StaysFresh(s, i, j, d, d', r);
    hide Rounded;
    later := HearRound(run2, i, r);
    ContinuesOn(SOUND, run, run1, run2);
    ContinuesOn(SOUND, run, run2, later);
  }

  function RoundsLeft(s: Server, d: Server, j: nat): int
    requires j < |s.peers|
  {
    Rank(d.log, s.log, s.peers[j].nextIdx)
  }

  /** The pair reaches equal logs by exchanges alone, within Rank + 1 rounds of three steps. */
  lemma {:induction false} Converges(run: seq<Cluster>, i: nat, j: nat) returns (later: seq<Cluster>)
    requires Pair(run, i, j)
    ensures Continues(SOUND, run, later) && Pair(later, i, j)
    ensures var s, d := Last(run).servers[i], Last(run).servers[j];
            var s', d' := Last(later).servers[i], Last(later).servers[j];
            && s'.log == s.log == d'.log && s'.peers[j].nextIdx == |s.log|
            && |later| <= |run| + 3 * (RoundsLeft(s, d, j) + 1)
            && Frame(s, s', i, j) && d'.applied == d.applied && d'.term == s.term
    ensures forall k :: 0 <= k < |Last(run).servers| && k != i && k != j ==>
            Last(later).servers[k] == Last(run).servers[k]
    decreases RoundsLeft(Last(run).servers[i], Last(run).servers[j], j)
  {
    var s, d := Last(run).servers[i], Last(run).servers[j];
    hide Run, CanSend, Agreed;
    var run1 := Round(run, i, j);
    if !(Last(run1).servers[j].log == s.log && Last(run1).servers[i].peers[j].nextIdx == |s.log|) {
      later := Converges(run1, i, j);
      ContinuesOn(SOUND, run, run1, later);
      FrameOn(s, Last(run1).servers[i], Last(later).servers[i], i, j);
    } else {
      later := run1;
      assert 0 <= RoundsLeft(s, d, j);
    }
  }
}
