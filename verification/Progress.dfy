/** Nothing that can happen keeps the cluster from moving on: from every state of every run under the three rules,
    a member that a majority can be persuaded to elect can win the next term, replicate its log and a new write to
    that majority, commit it, and have it applied everywhere there.  With synchronous writes. */
module Progress {
  import opened Majority
  import opened Protocol
  import opened Cluster
  import opened History
  import opened LocalSteps
  import opened Runs
  import opened Effects
  import opened Convergence
  import Appending
  import Assertions
  import Coverage
  import Leading
  import Persistence
  import Polls
  import Safety

  // ----- one more exchange with a follower that has everything -----

  /** j has the leader's log, and the leader knows where to go on. */
  ghost predicate Caught(run: seq<Cluster>, i: nat, j: nat)
  {
    && Pair(run, i, j)
    && var s, d := Last(run).servers[i], Last(run).servers[j];
       d.log == s.log && s.peers[j].nextIdx == |s.log|
  }

  /** What holds of such a pair in every run. */
  lemma PairFacts(run: seq<Cluster>, i: nat, j: nat)
    requires Pair(run, i, j)
    ensures var s, d := Last(run).servers[i], Last(run).servers[j];
            && s.synced == |s.log| && d.synced == |d.log| && LastTerm(s.log) == s.term
            && s.initialIdx + 1 < |s.log| && -1 <= s.commit < |s.log| && i < |s.peers|
            && -1 <= d.commit < |d.log| && -1 <= d.applied < |d.log|
            && s.peers[j].syncedIdx < |s.log|
            && (0 < s.peers[j].nextIdx ==>
                  s.peers[j].prevTerm < 0 || s.peers[j].prevTerm == s.log[s.peers[j].nextIdx - 1].term)
            && (d.role.Leader? ==> d.term < s.term)
  {
    var c := Last(run);
    var h := Safety.HistoryAt(run, |run| - 1);
    Persistence.SteadyAt(SOUND, run, |run| - 1);
    EndsInOwnTerm(run, i);
    Coverage.BackedAt(SOUND, run, |run| - 1);
    hide Run, Inv, MajorityIndex, Rooted, CandidateOk, CommitOk, InReach;
    OneServer(h, c, i);
    OneServer(h, c, j);
    Leading.LeaderFacts(h, c, i);
    assert PeerOk(h, c, c.servers[i], j);
    assert BallotsOk(h, c.servers[j], j);
  }

  /** The last request of all: nothing to send, only the last term and the commit index. */
  lemma LastRequest(s: Server, i: nat, j: nat)
    requires CanSend(s, j) && s.peers[j].nextIdx == |s.log|
    requires s.peers[j].prevTerm < 0 || s.peers[j].prevTerm == s.log[|s.log| - 1].term
    ensures var m := SentBy(s, i, j);
            && m.AppendReq? && m.src == i && m.dst == j && m.term == s.term && m.entry == None && m.commit == s.commit
            && m.prevIdx == |s.log| - 1 && m.prevTerm == LastTerm(s.log)
    ensures var p, p' := s.peers[j], AfterSend(s, j).peers[j];
            p' == p.(prevTerm := p'.prevTerm, curTerm := p'.curTerm)
  {
  }

  /** The follower finds nothing missing, and its commit index goes to the leader's. */
  lemma LastAnswer(d: Server, j: nat, m: Msg)
    requires m.AppendReq? && d.term <= m.term && m.src != j && (d.role.Leader? ==> d.term < m.term)
    requires d.synced == |d.log| && d.log != [] && m.entry == None && m.prevIdx == |d.log| - 1
    requires m.prevTerm == LastTerm(d.log) && m.commit < |d.log| && HandleAppendReq(d, j, m).Done?
    requires d.syncWrites
    ensures var o := HandleAppendReq(d, j, m);
            && o.next.log == d.log && o.next.commit == Max(d.commit, m.commit) && o.next.applied == d.applied
            && o.out == {AppendReply(j, m.src, m.term, m.prevIdx, |d.log| - 1, true, false, false, false, m.term)}
  {
    AppendReqExactly(d, j, m);
    hide HandleAppendReq;
  }

  /** The leader then counts the whole log for this peer. */
  lemma LastReply(s: Server, i: nat, j: nat, r: Msg)
    requires s.role.Leader? && i < |s.peers| && j < |s.peers| && i != j && s.synced == |s.log| && s.log != []
    requires LastTerm(s.log) == s.term && s.peers[j].nextIdx == |s.log| && s.peers[j].syncedIdx < |s.log|
    requires r == AppendReply(j, i, s.term, |s.log| - 1, |s.log| - 1, true, false, false, false, s.term)
    ensures var s' := HandleAppendReply(true, s, i, r).next;
            && j < |s'.peers| && |s.log| - 1 <= s'.peers[j].ackdIdx && s'.peers[j].syncedIdx == |s.log| - 1
            && s'.peers[j].nextIdx == |s.log|
  {
    var p := s.peers[j];
    var t := Table(s.(peers := s.peers[j := Informed(p, r.syncedIdx)]), i);
    MajorityIndexCorrect(t, MajorityIndex(t));
    assert Durable(s) == s.log;
    hide MajorityIndex, Table, HandleAppendReply;
    AcceptanceExactly(true, s, i, r, p, MajorityIndex(t));
  }

  /** Replica j holds i's log, and i counts all of it for j. */
  ghost predicate Confirmed(run: seq<Cluster>, i: nat, j: nat)
  {
    Caught(run, i, j) && Counted(Last(run).servers[i].peers[j]) == |Last(run).servers[i].log| - 1
  }

  /** What a round with j may change: nobody but i and j; at i, what Frame allows; at j, nothing applied. */
  ghost predicate OnlyPair(run: seq<Cluster>, later: seq<Cluster>, i: nat, j: nat)
  {
    && run != [] && later != [] && |Last(later).servers| == |Last(run).servers|
    && i < |Last(run).servers| && j < |Last(run).servers|
    && Frame(Last(run).servers[i], Last(later).servers[i], i, j)
    && Last(later).servers[j].applied == Last(run).servers[j].applied
    && Last(later).servers[j].term == Last(run).servers[i].term
    && forall k :: 0 <= k < |Last(run).servers| && k != i && k != j ==> Last(later).servers[k] == Last(run).servers[k]
  }

  /** What PairFacts says of a pair with equal logs. */
  predicate LastFacts(s: Server, d: Server, i: nat, j: nat)
  {
    && CanSend(s, j) && i < |s.peers| && i != j && s.synced == |s.log| && d.synced == |d.log| && d.log == s.log
    && LastTerm(s.log) == s.term && s.peers[j].nextIdx == |s.log| && s.peers[j].syncedIdx < |s.log|
    && (s.peers[j].prevTerm < 0 || s.peers[j].prevTerm == s.log[|s.log| - 1].term)
    && d.term <= s.term && (d.role.Leader? ==> d.term < s.term) && s.commit < |s.log| && d.syncWrites
  }

  /** And what the last exchange makes of it. */
  ghost predicate LastDone(s: Server, d: Server, s': Server, d': Server, i: nat, j: nat)
  {
    && Frame(s, s', i, j) && CanSend(s', j) && s'.syncWrites == s.syncWrites && s'.peers[j].nextIdx == |s.log|
    && |s.log| - 1 <= s'.peers[j].ackdIdx && s'.peers[j].syncedIdx == |s.log| - 1
    && d'.log == d.log && d'.commit == Max(d.commit, s.commit) && d'.applied == d.applied && d'.term == s.term
    && d'.syncWrites && |d'.peers| == |d.peers|
  }

  lemma LastExchange(s: Server, d: Server, i: nat, j: nat, r: Msg)
    requires LastFacts(s, d, i, j)
    requires HandleAppendReq(d, j, SentBy(s, i, j)).Done? && HandleAppendReq(d, j, SentBy(s, i, j)).out == {r}
    ensures r == AppendReply(j, i, s.term, |s.log| - 1, |s.log| - 1, true, false, false, false, s.term)
    ensures var s' := HandleAppendReply(true, AfterSend(s, j), i, r).next;
            LastDone(s, d, s', HandleAppendReq(d, j, SentBy(s, i, j)).next, i, j)
  {
    LastRequest(s, i, j);
    var m, s1 := SentBy(s, i, j), AfterSend(s, j);
    LastAnswer(d, j, m);
    AnswerShape(d, j, m);
    assert r in {AppendReply(j, i, s.term, |s.log| - 1, |s.log| - 1, true, false, false, false, s.term)};
    LastReply(s1, i, j, r);
    LeaderHears(s1, i, j, r);
    KnowsOwnTerm(s, j);
    hide HandleAppendReq, HandleAppendReply, Max, SentBy, AfterSend;
  }

  /** A leader that has sent its last entry still has its own term cached, and its slots only differ there. */
  lemma KnowsOwnTerm(s: Server, j: nat)
    requires CanSend(s, j) && s.peers[j].nextIdx == |s.log|
    ensures var s1 := AfterSend(s, j);
            && s1 == s.(peers := s1.peers) && |s1.peers| == |s.peers| && s1.peers[j].curTerm == s.term
            && s1.peers[j].nextIdx == |s.log| && s1.peers[j].syncedIdx == s.peers[j].syncedIdx
            && forall k :: 0 <= k < |s.peers| && k != j ==> s1.peers[k] == s.peers[k]
  {
  }

  lemma Collect(run: seq<Cluster>, i: nat, j: nat)
    requires Caught(run, i, j)
    ensures run != [] && i < |Last(run).servers[i].peers|
    ensures LastFacts(Last(run).servers[i], Last(run).servers[j], i, j)
  {
    PairFacts(run, i, j);
    hide Run, LastTerm;
  }

  /** One more exchange: the leader counts everything for j, and j's commit index is the leader's. */
  lemma Confirm(run: seq<Cluster>, i: nat, j: nat) returns (later: seq<Cluster>)
    requires Caught(run, i, j)
    ensures Continues(SOUND, run, later) && Confirmed(later, i, j) && OnlyPair(run, later, i, j)
    ensures Last(later).servers[j].commit == Max(Last(run).servers[j].commit, Last(run).servers[i].commit)
  {
    hide Run, HandleAppendReq, HandleAppendReply, RefreshPeer, Agreed, LastTerm, Accepts, Rejects, Max, LastFacts;
    Collect(run, i, j);
    var run1 := SendRound(run, i, j);
    var s, d := Last(run).servers[i], Last(run).servers[j];
    var run2, r := AnswerRound(run1, i, j, SentBy(s, i, j));
    LastExchange(s, d, i, j, r);
    later := HearRound(run2, i, r);
    ContinuesOn(SOUND, run, run1, run2);
    ContinuesOn(SOUND, run, run2, later);
    CountsAll(later, i, j);
  }

  /** No peer is counted beyond the leader's log. */
  lemma CountsAll(run: seq<Cluster>, i: nat, j: nat)
    requires Run(SOUND, run) && i < |Last(run).servers| && j < |Last(run).servers|
    requires Last(run).servers[i].role.Leader? && j < |Last(run).servers[i].peers|
    ensures Counted(Last(run).servers[i].peers[j]) < |Last(run).servers[i].log|
  {
    assert run != [];
    hide Run;
    if 0 <= Counted(Last(run).servers[i].peers[j]) { Safety.CountedMeansDurable(run, |run| - 1, i, j); }
  }

  // ----- every follower of a team -----

  /** Leader i can exchange with every other member of q. */
  ghost predicate Team(run: seq<Cluster>, i: nat, q: set<nat>)
  {
    Run(SOUND, run) && i < |Last(run).servers| && forall j :: j in q && j != i ==> Pair(run, i, j)
  }

  /** Only members of todo and the leader took part: the leader's table and commit index may differ, and the
      members' state but for what they applied. */
  ghost predicate OnlyTeam(run: seq<Cluster>, later: seq<Cluster>, i: nat, todo: set<nat>)
  {
    && run != [] && later != [] && |Last(later).servers| == |Last(run).servers| && i < |Last(run).servers|
    && (var s, s' := Last(run).servers[i], Last(later).servers[i];
        s' == s.(peers := s'.peers, commit := s'.commit) && s.commit <= s'.commit)
    && (forall k: nat :: k < |Last(run).servers| && k != i && k !in todo ==>
          Last(later).servers[k] == Last(run).servers[k])
    && forall k: nat :: k < |Last(run).servers| && k in todo && k != i ==>
         Last(later).servers[k].applied == Last(run).servers[k].applied
  }

  lemma PairStays(run: seq<Cluster>, later: seq<Cluster>, i: nat, j: nat, k: nat)
    requires OnlyPair(run, later, i, j) && Run(SOUND, later) && Pair(run, i, k) && k != j
    ensures Pair(later, i, k)
  {
    hide Run;
  }

  lemma ConfirmedStays(run: seq<Cluster>, later: seq<Cluster>, i: nat, j: nat, k: nat)
    requires OnlyPair(run, later, i, j) && Run(SOUND, later) && Confirmed(run, i, k) && k != j
    ensures Confirmed(later, i, k)
  {
    PairStays(run, later, i, j, k);
    hide Run;
  }

  lemma OnlyPairs(run: seq<Cluster>, mid: seq<Cluster>, later: seq<Cluster>, i: nat, j: nat)
    requires OnlyPair(run, mid, i, j) && OnlyPair(mid, later, i, j)
    ensures OnlyPair(run, later, i, j)
  {
    FrameOn(Last(run).servers[i], Last(mid).servers[i], Last(later).servers[i], i, j);
  }

  /** Replica j is brought to the leader's log and to its commit index, and the leader knows of the log. */
  lemma Bring(run: seq<Cluster>, i: nat, j: nat) returns (later: seq<Cluster>)
    requires Pair(run, i, j)
    ensures Continues(SOUND, run, later) && Confirmed(later, i, j) && OnlyPair(run, later, i, j)
    ensures Last(run).servers[i].commit <= Last(later).servers[j].commit
  {
    var run1 := Converges(run, i, j);
    hide Run, CanSend;
    later := Confirm(run1, i, j);
    OnlyPairs(run, run1, later, i, j);
    ContinuesOn(SOUND, run, run1, later);
  }

  lemma TeamOn(run: seq<Cluster>, mid: seq<Cluster>, later: seq<Cluster>, i: nat, j: nat, todo: set<nat>)
    requires OnlyPair(run, mid, i, j) && OnlyTeam(mid, later, i, todo - {j}) && j in todo
    ensures OnlyTeam(run, later, i, todo)
  {
  }

  lemma {:induction false} BringAll(run: seq<Cluster>, i: nat, q: set<nat>, todo: set<nat>)
    returns (later: seq<Cluster>)
    requires Team(run, i, q) && todo <= q && i !in todo
    requires forall j :: j in q && j != i && j !in todo ==> Confirmed(run, i, j)
    ensures Continues(SOUND, run, later) && Team(later, i, q) && OnlyTeam(run, later, i, todo)
    ensures forall j :: j in q && j != i ==> Confirmed(later, i, j)
    decreases todo
  {
    assert run != [];
    if todo == {} {
      later := run;
      assert run == later[..|run|];
    } else {
      hide Run, Confirmed, Pair, OnlyPair, OnlyTeam;
      var j :| j in todo;
      var run1 := Bring(run, i, j);
      forall k | k in q && k != i && k != j ensures Pair(run1, i, k) { PairStays(run, run1, i, j, k); }
      forall k | k in q && k != i && k !in todo ensures Confirmed(run1, i, k) { ConfirmedStays(run, run1, i, j, k); }
      StillPair(run1, i, j);
      later := BringAll(run1, i, q, todo - {j});
      TeamOn(run, run1, later, i, j, todo);
      ContinuesOn(SOUND, run, run1, later);
    }
  }

  lemma StillPair(run: seq<Cluster>, i: nat, j: nat)
    requires Confirmed(run, i, j)
    ensures Pair(run, i, j)
  {
    hide Run;
  }

  // ----- commit, on the leader and then everywhere -----

  /** With a majority confirmed, the leader counts its whole log, and nothing beyond. */
  lemma WholeLogCounts(s: Server, i: nat, q: set<nat>)
    requires i < |s.peers| && s.synced == |s.log| && s.log != []
    requires IsMajority(q, |s.peers|) && forall j :: j in q ==> j < |s.peers|
    requires forall j :: j in q && j != i ==> Counted(s.peers[j]) == |s.log| - 1
    requires forall j :: 0 <= j < |s.peers| && j != i ==> Counted(s.peers[j]) < |s.log|
    ensures IsMajorityIndex(Table(s, i), |s.log| - 1)
  {
    var t, v := Table(s, i), |s.log| - 1;
    assert Durable(s) == s.log;
    MajorityGrows(q, Reached(t, v), |t|);
    forall y | v < y ensures !IsMajority(Reached(t, y), |t|) { assert Reached(t, y) == {}; }
  }

  /** A leader that may count its whole log. */
  ghost predicate MayDecide(s: Server, i: nat, q: set<nat>)
  {
    && i < |s.peers| && s.synced == |s.log| && s.log != [] && s.role.Leader?
    && s.initialIdx < |s.log| - 1 && s.commit < |s.log|
    && IsMajority(q, |s.peers|) && (forall j :: j in q ==> j < |s.peers|)
    && (forall j :: j in q && j != i ==> Counted(s.peers[j]) == |s.log| - 1)
    && (forall j :: 0 <= j < |s.peers| && j != i ==> Counted(s.peers[j]) < |s.log|)
  }

  lemma TeamMayDecide(run: seq<Cluster>, i: nat, q: set<nat>)
    requires Team(run, i, q) && i in q && q <= Peers(|Last(run).servers|) && IsMajority(q, |Last(run).servers|)
    requires forall j :: j in q && j != i ==> Confirmed(run, i, j)
    requires exists j :: j in q && j != i
    ensures run != [] && Shaped(Last(run)) && MayDecide(Last(run).servers[i], i, q)
  {
    var s := Last(run).servers[i];
    LastShaped(SOUND, run);
    var one :| one in q && one != i;
    PairFacts(run, i, one);
    forall j: nat | j < |s.peers| && j != i ensures Counted(s.peers[j]) < |s.log| { CountsAll(run, i, j); }
    hide Run, LastTerm, IsMajority, CanSend;
  }

  lemma Decided(s: Server, i: nat, q: set<nat>)
    requires MayDecide(s, i, q)
    ensures var o := TryCommit(true, s, i);
            && o.Done? && o.out == {} && OnlyCounting(s, o.next) && s.commit <= o.next.commit == |s.log| - 1
            && forall k :: 0 <= k < |s.peers| && k != i ==> o.next.peers[k] == s.peers[k]
  {
    WholeLogCounts(s, i, q);
    CommitExactly(true, s, i, |s.log| - 1);
    assert Durable(s) == s.log;
    hide TryCommit, Table, IsMajority;
  }

  lemma Decide(run: seq<Cluster>, i: nat, q: set<nat>) returns (later: seq<Cluster>)
    requires Team(run, i, q) && i in q && q <= Peers(|Last(run).servers|) && IsMajority(q, |Last(run).servers|)
    requires forall j :: j in q && j != i ==> Confirmed(run, i, j)
    requires exists j :: j in q && j != i
    ensures Continues(SOUND, run, later) && Team(later, i, q) && OnlyTeam(run, later, i, {})
    ensures forall j :: j in q && j != i ==> Confirmed(later, i, j)
    ensures Last(later).servers[i].commit == |Last(later).servers[i].log| - 1
  {
    hide Run, LastTerm, IsMajority, Confirmed, Pair, TryCommit, MayDecide;
    TeamMayDecide(run, i, q);
    var s := Last(run).servers[i];
    Decided(s, i, q);
    later := Advances(run, i, q);
    forall j | j in q && j != i ensures Pair(later, i, j) && Confirmed(later, i, j) { LeaderOnly(run, later, i, j); }
  }

  lemma Advances(run: seq<Cluster>, i: nat, q: set<nat>) returns (later: seq<Cluster>)
    requires Run(SOUND, run) && i < |Last(run).servers| && Shaped(Last(run)) && MayDecide(Last(run).servers[i], i, q)
    ensures Continues(SOUND, run, later)
    ensures Last(later).servers == Last(run).servers[i := TryCommit(true, Last(run).servers[i], i).next]
  {
    Decided(Last(run).servers[i], i, q);
    hide Run, TryCommit;
    later := Go(SOUND, run, i, Advance);
  }

  lemma LeaderOnly(run: seq<Cluster>, later: seq<Cluster>, i: nat, j: nat)
    requires Confirmed(run, i, j) && Run(SOUND, later) && |Last(later).servers| == |Last(run).servers|
    requires Last(later).servers == Last(run).servers[i := Last(later).servers[i]]
    requires var s, s' := Last(run).servers[i], Last(later).servers[i];
             OnlyCounting(s, s') && (j < |s.peers| ==> s'.peers[j] == s.peers[j])
    ensures Pair(later, i, j) && Confirmed(later, i, j)
  {
    CanStillSend(Last(run).servers[i], Last(later).servers[i], j);
    hide Run, CanSend;
  }

  lemma CanStillSend(s: Server, s': Server, j: nat)
    requires CanSend(s, j) && OnlyCounting(s, s') && s'.peers[j] == s.peers[j]
    ensures CanSend(s', j)
  {
  }

  /** The others learn of it, one exchange each. */
  lemma {:induction false} TellAll(run: seq<Cluster>, i: nat, q: set<nat>, todo: set<nat>) returns (later: seq<Cluster>)
    requires Team(run, i, q) && todo <= q && i !in todo
    requires forall j :: j in q && j != i ==> Confirmed(run, i, j)
    requires Last(run).servers[i].commit == |Last(run).servers[i].log| - 1
    ensures Continues(SOUND, run, later) && Team(later, i, q) && OnlyTeam(run, later, i, todo)
    ensures forall j :: j in q && j != i ==> Confirmed(later, i, j)
    ensures Last(later).servers[i].commit == |Last(later).servers[i].log| - 1
    ensures forall j :: j in todo ==> Last(later).servers[j].commit == |Last(later).servers[j].log| - 1
    decreases todo
  {
    assert run != [];
    if todo == {} {
      later := run;
      assert run == later[..|run|];
    } else {
      hide Run, Confirmed, Pair, OnlyTeam;
      var j :| j in todo;
      var run1 := Tell(run, i, j);
      forall k | k in q && k != i && k != j ensures Pair(run1, i, k) && Confirmed(run1, i, k) {
        ConfirmedStays(run, run1, i, j, k);
        StillPair(run1, i, k);
      }
      StillPair(run1, i, j);
      later := TellAll(run1, i, q, todo - {j});
      Told(run1, later, i, j, todo - {j});
      TeamOn(run, run1, later, i, j, todo);
      ContinuesOn(SOUND, run, run1, later);
    }
  }

  lemma Tell(run: seq<Cluster>, i: nat, j: nat) returns (later: seq<Cluster>)
    requires Confirmed(run, i, j) && Last(run).servers[i].commit == |Last(run).servers[i].log| - 1
    ensures Continues(SOUND, run, later) && Confirmed(later, i, j) && OnlyPair(run, later, i, j)
    ensures Last(later).servers[i].commit == |Last(later).servers[i].log| - 1
    ensures Last(later).servers[j].commit == |Last(later).servers[j].log| - 1
  {
    PairFacts(run, i, j);
    later := Confirm(run, i, j);
    PairFacts(later, i, j);
    hide Run, CanSend;
  }

  /** A later exchange with others leaves j as it is. */
  lemma Told(run: seq<Cluster>, later: seq<Cluster>, i: nat, j: nat, todo: set<nat>)
    requires OnlyTeam(run, later, i, todo) && j !in todo && j != i && j < |Last(run).servers|
    ensures Last(later).servers[j] == Last(run).servers[j]
  {
  }

  // ----- applying -----

  /** Replica k applies what it has committed, entry by entry. */
  lemma {:induction false} ApplyHere(run: seq<Cluster>, k: nat) returns (later: seq<Cluster>)
    requires Run(SOUND, run) && k < |Last(run).servers|
    requires var d := Last(run).servers[k]; d.applied <= d.commit && 0 <= d.commit
    ensures Continues(SOUND, run, later)
    ensures Last(later).servers == Last(run).servers[k := Last(run).servers[k].(applied := Last(run).servers[k].commit)]
    decreases Last(run).servers[k].commit - Last(run).servers[k].applied
  {
    assert run != [];
    var d := Last(run).servers[k];
    LastShaped(SOUND, run);
    if d.applied == d.commit {
      later := run;
      assert run == later[..|run|];
      assert Last(run).servers[k := d.(applied := d.commit)] == Last(run).servers;
    } else {
      ApplyExactly(d);
      hide Run, HandleApply;
      var run1 := Go(SOUND, run, k, Apply);
      later := ApplyHere(run1, k);
      ContinuesOn(SOUND, run, run1, later);
    }
  }

  lemma {:induction false} ApplyAll(run: seq<Cluster>, todo: set<nat>) returns (later: seq<Cluster>)
    requires Run(SOUND, run) && todo <= Peers(|Last(run).servers|)
    requires forall k :: k in todo ==>
               k < |Last(run).servers| &&
               var d := Last(run).servers[k]; d.applied <= d.commit && 0 <= d.commit
    ensures Continues(SOUND, run, later)
    ensures forall k: nat :: k < |Last(run).servers| ==>
              var d := Last(run).servers[k];
              Last(later).servers[k] == if k in todo then d.(applied := d.commit) else d
    decreases todo
  {
    assert run != [];
    hide Run;
    if todo == {} {
      later := run;
      assert run == later[..|run|];
    } else {
      var k :| k in todo;
      var run1 := ApplyHere(run, k);
      later := ApplyAll(run1, todo - {k});
      ContinuesOn(SOUND, run, run1, later);
    }
  }

  // ----- the whole way -----

  /** The electorate writes synchronously, and nobody there has another entry 0 than i. */
  ghost predicate Ready(c: Cluster, i: nat, q: set<nat>)
  {
    && Polls.Electorate(c, i, q)
    && forall j :: j in q ==> c.servers[j].syncWrites && SameStart(c.servers[j].log, c.servers[i].log)
  }

  /** i leads, and a new entry is at the end of its log. */
  lemma Takeover(run: seq<Cluster>, i: nat, q: set<nat>, data: seq<int>, sizes: seq<nat>) returns (later: seq<Cluster>)
    requires Run(SOUND, run) && Ready(Last(run), i, q)
    ensures Continues(SOUND, run, later) && Team(later, i, q)
    ensures var s, s' := Last(run).servers[i], Last(later).servers[i];
            && s'.role.Leader? && s'.term == s.term + 1
            && s'.log == s.log + [Marker(s.term + 1), Entry(s.term + 1, false, data, sizes)]
  {
    var s, n := Last(run).servers[i], |Last(run).servers|;
    Sound(run, i);
    var run1 := Polls.Elect(SOUND, run, i, q);
    var s1 := Last(run1).servers[i];
    var e := Entry(s1.term, false, data, sizes);
    assert HandleWrite(s1, data, sizes) == Done(AppendEntry(s1, e), {});
    assert s.log + [Marker(s.term + 1)] + [e] == s.log + [Marker(s.term + 1), e];
    hide Run, LastTerm;
    later := Go(SOUND, run1, i, Write(data, sizes));
    ContinuesOn(SOUND, run, run1, later);
    forall j | j in q && j != i ensures Pair(later, i, j) {
      MakesPair(s, s1, Last(later).servers[i], Last(run).servers[j], Last(run1).servers[j], i, j, n);
    }
  }

  lemma Sound(run: seq<Cluster>, i: nat)
    requires Run(SOUND, run) && i < |Last(run).servers|
    ensures var s := Last(run).servers[i]; s.synced <= |s.log| && LastTerm(s.log) <= s.term
  {
    var h := Safety.HistoryAt(run, |run| - 1);
    hide Run, Inv, BallotsOk, CandidateOk, LeaderOk;
    OneServer(h, Last(run), i);
  }

  lemma MakesPair(s: Server, s1: Server, s2: Server, d: Server, d1: Server, i: nat, j: nat, n: nat)
    requires Polls.Elected(s, s1, i, n) && Polls.Converted(d, d1, i, s.term + 1) && j < n
    requires |s2.log| == |s.log| + 2 && s2.log[..|s.log|] == s.log && s2 == AppendEntry(s1, s2.log[|s2.log| - 1])
    requires SameStart(d.log, s.log) && |d.log| <= |s.log|
    ensures CanSend(s2, j) && d1.term <= s2.term && SameStart(d1.log, s2.log)
    ensures s2.syncWrites == s.syncWrites && d1.syncWrites == d.syncWrites
  {
  }

  /** What q shares in the end: one log, all of it committed and applied. */
  ghost predicate Through(c: Cluster, i: nat, q: set<nat>, log: seq<Entry>)
  {
    && i < |c.servers| && c.servers[i].role.Leader?
    && forall j :: j in q ==>
         && j < |c.servers| && c.servers[j].log == log
         && c.servers[j].commit == c.servers[j].applied == |log| - 1
  }

  /** From every state of every run: i wins the next term, writes, and log and write reach the whole majority q, are
      committed there and applied. */
  lemma WriteGetsThrough(run: seq<Cluster>, i: nat, q: set<nat>, data: seq<int>, sizes: seq<nat>)
    returns (later: seq<Cluster>)
    requires Run(SOUND, run) && Ready(Last(run), i, q)
    ensures Continues(SOUND, run, later)
    ensures var s := Last(run).servers[i];
            && Last(later).servers[i].term == s.term + 1
            && Through(Last(later), i, q, s.log + [Marker(s.term + 1), Entry(s.term + 1, false, data, sizes)])
  {
    var run1 := Takeover(run, i, q, data, sizes);
    ReadyFacts(run, i, q);
    hide Run, Ready, Team, Confirmed, Polls.Electorate, IsMajority;
    var run2 := Settle(run1, i, q);
    later := ApplyAll(run2, q);
    ContinuesOn(SOUND, run, run1, run2);
    ContinuesOn(SOUND, run, run2, later);
  }

  lemma ReadyFacts(run: seq<Cluster>, i: nat, q: set<nat>)
    requires Run(SOUND, run) && Ready(Last(run), i, q)
    ensures run != [] && i in q && q <= Peers(|Last(run).servers|) && IsMajority(q, |Last(run).servers|)
    ensures exists j :: j in q && j != i
  {
    assert run != [];
    hide Run;
    Polls.Quorate(q, i, |Last(run).servers|);
    var j :| j in q - {i};
  }

  /** A leader's team agrees on its whole log, and commits it. */
  lemma Settle(run: seq<Cluster>, i: nat, q: set<nat>) returns (later: seq<Cluster>)
    requires Team(run, i, q) && i in q && q <= Peers(|Last(run).servers|) && IsMajority(q, |Last(run).servers|)
    requires exists j :: j in q && j != i
    ensures Continues(SOUND, run, later) && q <= Peers(|Last(later).servers|)
    ensures var s, s' := Last(run).servers[i], Last(later).servers[i];
            s'.log == s.log && s'.term == s.term && s'.role.Leader?
    ensures forall j :: j in q ==>
              && j < |Last(later).servers|
              && var d := Last(later).servers[j];
                 d.log == Last(run).servers[i].log && d.commit == |d.log| - 1 && d.applied <= d.commit && 0 <= d.commit
  {
    hide Run, Confirmed, Pair, IsMajority;
    LeadsTeam(run, i, q);
    var todo := q - {i};
    var run1 := BringAll(run, i, q, todo);
    var run2 := Decide(run1, i, q);
    later := TellAll(run2, i, q, todo);
    ContinuesOn(SOUND, run, run1, run2);
    ContinuesOn(SOUND, run, run2, later);
    forall j | j in q ensures j < |Last(later).servers| && SettledAt(later, i, j) {
      if j != i { FollowerSettled(later, i, j); } else { LeaderSettled(later, i); }
    }
  }

  lemma LeadsTeam(run: seq<Cluster>, i: nat, q: set<nat>)
    requires Team(run, i, q) && exists j :: j in q && j != i
    ensures Last(run).servers[i].role.Leader?
  {
    hide Run;
    var j :| j in q && j != i;
    assert Pair(run, i, j);
  }

  /** j holds i's log, committed, and has applied no more than that. */
  ghost predicate SettledAt(run: seq<Cluster>, i: nat, j: nat)
    requires run != [] && i < |Last(run).servers| && j < |Last(run).servers|
  {
    var d := Last(run).servers[j];
    d.log == Last(run).servers[i].log && d.commit == |d.log| - 1 && d.applied <= d.commit && 0 <= d.commit
  }

  lemma FollowerSettled(run: seq<Cluster>, i: nat, j: nat)
    requires Confirmed(run, i, j) && Last(run).servers[j].commit == |Last(run).servers[j].log| - 1
    ensures SettledAt(run, i, j)
  {
    PairFacts(run, i, j);
    hide Run;
  }

  lemma LeaderSettled(run: seq<Cluster>, i: nat)
    requires Run(SOUND, run) && i < |Last(run).servers| && Last(run).servers[i].role.Leader?
    requires Last(run).servers[i].commit == |Last(run).servers[i].log| - 1
    ensures SettledAt(run, i, i)
  {
    var h := Safety.HistoryAt(run, |run| - 1);
    EndsInOwnTerm(run, i);
    Coverage.BackedAt(SOUND, run, |run| - 1);
    hide Run, Inv, BallotsOk, CandidateOk, LeaderOk, Rooted, CommitOk, MajorityIndex;
    OneServer(h, Last(run), i);
  }

  // ----- without synchronous writes -----

  /** Leader i takes news from follower j, which writes asynchronously and has synced nothing beyond its log. */
  predicate Reporting(s: Server, d: Server, i: nat, j: nat, k: nat)
  {
    && s.role.Leader? && j < |s.peers| && i < |s.peers| && i != j && TakesNews(s, j, s.term)
    && d.role.Follower? && d.leader == Some(i) && !d.syncWrites
    && d.synced <= k <= |d.log| && LastTerm(d.log[..k]) == s.term
  }

  /** In every run with replies in tenure: the follower's device sync up to k and its report bring the leader to
      count min(nextIdx, k) - 1 for it, and to calculate its commit index if that is news. */
  lemma ReportCounts(rules: Rules, run: seq<Cluster>, i: nat, j: nat, k: nat, v: int) returns (later: seq<Cluster>)
    requires Run(rules, run) && rules.tenured && i < |Last(run).servers| && j < |Last(run).servers|
    requires Reporting(Last(run).servers[i], Last(run).servers[j], i, j, k)
    requires var s := Last(run).servers[i];
             IsMajorityIndex(Table(s.(peers := s.peers[j := Informed(s.peers[j], k - 1)]), i), v)
    ensures Continues(rules, run, later)
    ensures var s, d, s' := Last(run).servers[i], Last(run).servers[j], Last(later).servers[i];
            && Last(later).servers == Last(run).servers[j := d.(synced := k)][i := s']
            && NewsTaken(rules.strict, s, s.peers[j], s', i, j, k - 1, v)
            && Min(s.peers[j].nextIdx, k) - 1 <= Counted(s'.peers[j])
            && (s.peers[j].ackdIdx < s.peers[j].nextIdx && s.peers[j].syncedIdx < k ==>
                  Counted(s'.peers[j]) == Min(s.peers[j].nextIdx, k) - 1)
  {
    var s, d := Last(run).servers[i], Last(run).servers[j];
    var d1 := d.(synced := k);
    var m := SyncIdx(j, i, s.term, k - 1);
    LastShaped(rules, run);
    assert Durable(d1) == d.log[..k];
    assert HandleSendSync(d1, j) == Done(d1, {m});
    hide Run, HandleSendSync, HandleSyncIdx, LastTerm, NewsTaken, Informed;
    var run1 := Go(rules, run, j, Publish(k));
    LastShaped(rules, run1);
    var run2 := Go(rules, run1, j, SendSync);
    LastShaped(rules, run2);
    Coverage.CalculationHolds(rules, run2, |run2| - 1, i, Deliver(m));
    SyncIdxExactly(rules.strict, s, i, m, v);
    ContinuesOn(rules, run, run1, run2);
    later := Hears(rules, run2, i, m);
    ContinuesOn(rules, run, run2, later);
    CountsReport(rules.strict, s, s.peers[j], Last(later).servers[i], i, j, k, v);
  }

  lemma Hears(rules: Rules, run: seq<Cluster>, i: nat, m: Msg) returns (later: seq<Cluster>)
    requires Run(rules, run) && i < |Last(run).servers| && Shaped(Last(run)) && Enabled(rules, Last(run), i, Deliver(m))
    requires m.SyncIdx? && i < |Last(run).servers[i].peers| && m.src < |Last(run).servers[i].peers|
    requires var o := HandleSyncIdx(rules.strict, Last(run).servers[i], i, m);
             o.Done? && o.out == {} && |o.next.peers| == |Last(run).servers|
    ensures Continues(rules, run, later)
    ensures Last(later).servers == Last(run).servers[i := HandleSyncIdx(rules.strict, Last(run).servers[i], i, m).next]
  {
    hide Run, HandleSyncIdx;
    later := Go(rules, run, i, Deliver(m));
  }

  lemma CountsReport(strict: bool, s: Server, p: Peer, s': Server, i: nat, j: nat, k: nat, v: int)
    requires i < |s.peers| && j < |s.peers| && NewsTaken(strict, s, p, s', i, j, k - 1, v)
    ensures j < |s'.peers| && Min(p.nextIdx, k) - 1 <= Counted(s'.peers[j])
    ensures p.ackdIdx < p.nextIdx && p.syncedIdx < k ==> Counted(s'.peers[j]) == Min(p.nextIdx, k) - 1
  {
  }
}
