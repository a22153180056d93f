/** What a leader has committed stays covered by what it counts, where replies are counted only in the tenure
    that asked for them: the assertion in the commit calculation never fails. */
module Coverage {
  import opened Majority
  import opened Protocol
  import opened Cluster
  import opened Votes
  import Appending
  import Persistence

  /** Raising indices never lowers the majority index. */
  lemma MajorityIndexMonotone(v: seq<int>, w: seq<int>)
    requires |v| == |w| && v != [] && forall k :: 0 <= k < |v| ==> v[k] <= w[k]
    ensures MajorityIndex(v) <= MajorityIndex(w)
  {
    hide MajorityIndex;
    var x := MajorityIndex(v);
    MajorityIndexCorrect(v, x);
    MajorityIndexCorrect(w, MajorityIndex(w));
    MajorityGrows(Reached(v, x), Reached(w, x), |v|);
  }

  /** The leader's log goes past the one it started with, its own slot is within its synced log, and a
      commit index past the starting log is still covered by the majority index of the table. */
  ghost predicate Backed(s: Server, i: nat)
  {
    s.role.Leader? && i < |s.peers| ==>
      && s.initialIdx + 1 < |s.log|
      && s.peers[i].ackdIdx < s.synced && s.peers[i].syncedIdx < s.synced
      && (s.commit <= s.initialIdx || s.commit <= MajorityIndex(CountedAll(s.peers)))
  }

  /** As far as counting goes, peers' entries only went up from s to s'. */
  ghost predicate TableGrows(s: Server, s': Server)
  {
    && |s'.peers| == |s.peers| && |s.log| <= |s'.log| && s'.synced >= s.synced && s'.initialIdx == s.initialIdx
    && (s'.role.Leader? ==> s.role.Leader?)
    && forall j :: 0 <= j < |s.peers| ==>
         s.peers[j].ackdIdx <= s'.peers[j].ackdIdx && s.peers[j].syncedIdx <= s'.peers[j].syncedIdx
  }

  lemma BackedGrows(s: Server, s': Server, i: nat)
    requires Backed(s, i) && TableGrows(s, s') && s'.commit == s.commit
    requires s'.role.Leader? && i < |s'.peers| ==> s'.peers[i].ackdIdx < s'.synced && s'.peers[i].syncedIdx < s'.synced
    ensures Backed(s', i)
  {
    if s'.role.Leader? && i < |s.peers| {
      MajorityIndexMonotone(CountedAll(s.peers), CountedAll(s'.peers));
    }
  }

  /** The commit index is within the synced log. */
  predicate CommitInside(s: Server)
  {
    -1 <= s.commit < s.synced <= |s.log|
  }

  predicate NoRequest(out: set<Msg>)
  {
    forall m :: m in out ==> !m.AppendReq?
  }

  /** What a server has become is in order, and it sent no append request. */
  ghost predicate Fine(o: Outcome, i: nat)
  {
    o.Done? ==> CommitInside(o.next) && Backed(o.next, i) && NoRequest(o.out)
  }

  // ----- what a leader hears and does -----

  /** The commit calculation never finds the commit index ahead of a current majority. */
  lemma TryCommitFine(strict: bool, s: Server, i: nat)
    requires s.role.Leader? && CommitInside(s) && Backed(s, i) && i < |s.peers|
    ensures var o := TryCommit(strict, s, i); o.Done? && Fine(o, i)
  {
    hide MajorityIndex;
    var s1 := SelfPeer(s, i);
    BackedGrows(s, s1, i);
  }

  lemma UpdateSyncFine(strict: bool, s: Server, i: nat, src: nat, term: int, syncedIdx: int)
    requires s.role.Leader? && CommitInside(s) && Backed(s, i) && i < |s.peers| && src < |s.peers| && src != i
    ensures var o := UpdateSync(strict, s, i, src, term, syncedIdx); o.Done? && Fine(o, i)
  {
    hide MajorityIndex, TryCommit;
    var s1 := s.(peers := s.peers[src := Noted(s.peers[src], syncedIdx)]);
    BackedGrows(s, s1, i);
    TryCommitFine(strict, s1, i);
  }

  lemma AppendReplyFine(strict: bool, s: Server, i: nat, m: Msg)
    requires m.AppendReply? && CommitInside(s) && Backed(s, i) && i < |s.peers| && m.src < |s.peers| && m.src != i
    ensures var o := HandleAppendReply(strict, s, i, m); o.Done? && Fine(o, i)
  {
    hide MajorityIndex, UpdateSync;
    if s.role.Leader? && !m.stale {
      var p := s.peers[m.src];
      var s1 := s.(peers := s.peers[m.src := if m.nonMatching then BackOff(p, m) else Advanced(p, m)]);
      BackedGrows(s, s1, i);
      UpdateSyncFine(strict, s1, i, m.src, m.term, m.syncedIdx);
    }
  }

  lemma SyncIdxFine(strict: bool, s: Server, i: nat, m: Msg)
    requires m.SyncIdx? && CommitInside(s) && Backed(s, i) && i < |s.peers| && m.src < |s.peers| && m.src != i
    ensures var o := HandleSyncIdx(strict, s, i, m); o.Done? && Fine(o, i)
  {
    hide MajorityIndex, UpdateSync;
    if s.role.Leader? { UpdateSyncFine(strict, s, i, m.src, m.term, m.syncedIdx); }
  }

  lemma SendBacked(s: Server, i: nat, dst: nat, heartbeat: bool)
    requires CommitInside(s) && Backed(s, i) && dst < |s.peers|
    ensures var s' := HandleSend(s, i, dst, heartbeat).next; CommitInside(s') && Backed(s', i)
  {
    hide MajorityIndex;
    var o := HandleSend(s, i, dst, heartbeat);
    BackedGrows(s, o.next, i);
  }

  lemma WonFine(s: Server, i: nat, n: nat)
    requires CommitInside(s)
    ensures Fine(BecomeLeader(s, i, n), i)
  {
    hide MajorityIndex, CountedAll;
  }

  // ----- requests and votes -----

  lemma PrepareKept(s: Server, m: Msg)
    requires m.AppendReq? && -1 <= m.prevIdx && CommitInside(s)
    ensures var (s2, check) := PrepareLog(s, m); !check.Failed? ==> CommitInside(s2)
  {
    hide LastTerm, Stored;
  }

  lemma ProceedKept(s: Server, i: nat, m: Msg)
    requires m.AppendReq? && -1 <= m.prevIdx && CommitInside(s)
    ensures var o := Proceed(s, i, m); o.Done? ==> CommitInside(o.next)
  {
    hide LastTerm, MayWrite, PrepareLog;
    PrepareKept(s, m);
  }

  /** A request comes from its term's leader: whoever takes it is not a leader afterwards. */
  lemma AppendReqFine(c: Cluster, i: nat, m: Msg)
    requires VotesOk(c) && i < |c.servers| && RoleOk(c, i) && m.AppendReq? && m.src != i && Elected(c, m.src, m.term)
    requires CommitInside(c.servers[i]) && Backed(c.servers[i], i)
    ensures Fine(HandleAppendReq(c.servers[i], i, m), i)
  {
    hide VotesOk, Elected, Stood, Supports, MajorityIndex, Proceed, Backed;
    var s := c.servers[i];
    if -1 <= m.prevIdx && s.term <= m.term {
      if s.role.Leader? && s.term == m.term { Unique(c, i, m.src, m.term); }
      Appending.AdoptShape(s, i, m);
      Persistence.ProceedKeeps(AdoptLeader(s, i, m), i, m);
      ProceedKept(AdoptLeader(s, i, m), i, m);
      NotLeading(Proceed(AdoptLeader(s, i, m), i, m).next, i);
    }
  }

  lemma NotLeading(s: Server, i: nat)
    requires !s.role.Leader?
    ensures Backed(s, i)
  {
  }

  lemma VoteReplyFine(s: Server, i: nat, n: nat, m: Msg)
    requires m.VoteReply? && CommitInside(s) && Backed(s, i)
    ensures Fine(HandleVoteReply(s, i, n, m), i)
  {
    hide MajorityIndex, BecomeLeader, IsMajority, YesVotes;
    WonFine(RegisterVote(s, m.src, m.granted), i, n);
  }

  // ----- every action -----

  lemma DeliveredFine(strict: bool, c: Cluster, i: nat, m: Msg)
    requires Shaped(c) && VotesOk(c) && Sent(c) && i < |c.servers| && Possible(c, i, Deliver(m))
    requires RoleOk(c, i) && CommitInside(c.servers[i]) && Backed(c.servers[i], i)
    ensures Fine(HandleMessage(strict, c.servers[i], i, |c.servers|, m), i)
  {
    hide VotesOk, RoleOk, Elected, MajorityIndex, Backed;
    hide HandleAppendReq, HandleAppendReply, HandleSyncIdx, HandleVoteReply, IsMajority, YesVotes;
    var s := c.servers[i];
    match m
    case VoteReply(_, _, _, _, _, _) => VoteReplyFine(s, i, |c.servers|, m);
    case AppendReq(_, _, _, _, _, _, _, _) => AppendReqFine(c, i, m);
    case AppendReply(_, _, _, _, _, _, _, _, _, _) => AppendReplyFine(strict, s, i, m);
    case SyncIdx(_, _, _, _) => SyncIdxFine(strict, s, i, m);
    case VoteReq(_, _, _, _) => VoteReqFine(s, i, m);
    case PreVoteReq(_, _, _, _) => SyncedFine(s, i);
    case PreVoteReply(_, _, _) => PreVoteReplyFine(s, i, |c.servers|, m);
  }

  lemma SyncedFine(s: Server, i: nat)
    requires CommitInside(s) && Backed(s, i)
    ensures CommitInside(SyncAll(s)) && Backed(SyncAll(s), i)
  {
    hide MajorityIndex;
    BackedGrows(s, SyncAll(s), i);
  }

  lemma VoteReqFine(s: Server, i: nat, m: Msg)
    requires m.VoteReq? && CommitInside(s) && Backed(s, i) && m.src != i
    ensures Fine(HandleVoteReq(s, i, m), i)
  {
    hide MajorityIndex, LastTerm, Backed;
    SyncedFine(s, i);
    var o := HandleVoteReq(s, i, m);
    if VoteDecide(SyncAll(s), m.term, m.lastTerm, m.lastIdx) { NotLeading(o.next, i); }
  }

  lemma PreVoteReplyFine(s: Server, i: nat, n: nat, m: Msg)
    requires m.PreVoteReply? && CommitInside(s) && Backed(s, i)
    ensures Fine(HandlePreVoteReply(s, i, n, m), i)
  {
    hide MajorityIndex, LastTerm, IsMajority, YesVotes, Backed;
    var o := HandlePreVoteReply(s, i, n, m);
    if o.next != s { NotLeading(o.next, i); }
  }

  /** A replica of its own accord; only a send puts a request out, and only a leader's. */
  lemma LocalFine(strict: bool, c: Cluster, i: nat, a: Action)
    requires Shaped(c) && i < |c.servers| && Possible(c, i, a) && !a.Deliver?
    requires CommitInside(c.servers[i]) && Backed(c.servers[i], i)
    ensures var o := Act(strict, c, i, a);
            if a.Send? then o.Done? ==> CommitInside(o.next) && Backed(o.next, i) && SentBy(c.servers[i], i, o.out)
            else Fine(o, i)
  {
    hide MajorityIndex, TryCommit, LastTerm;
    var s := c.servers[i];
    match a
    case Advance => TryCommitFine(strict, s, i);
    case Send(dst, heartbeat) => SendBacked(s, i, dst, heartbeat);
    case Write(data, sizes) => BackedGrows(s, AppendEntry(s, Entry(s.term, false, data, sizes)), i);
    case Publish(k) => BackedGrows(s, PublishSync(s, k), i);
    case _ =>
  }

  /** Every request put out is of this server's term, in which it leads. */
  predicate SentBy(s: Server, i: nat, out: set<Msg>)
  {
    forall m :: m in out && m.AppendReq? ==> m.src == i && m.term == s.term && s.role.Leader?
  }

  // ----- runs -----

  /** Append requests come from elected servers. */
  ghost predicate Sent(c: Cluster)
  {
    forall m :: m in c.msgs && m.AppendReq? ==> Elected(c, m.src, m.term)
  }

  ghost predicate AllBacked(c: Cluster)
  {
    forall i: nat :: i < |c.servers| ==> CommitInside(c.servers[i]) && Backed(c.servers[i], i)
  }

  lemma SentOn(c: Cluster, i: nat, s': Server, out: set<Msg>)
    requires AllOk(c) && Sent(c) && i < |c.servers| && SentBy(c.servers[i], i, out)
    ensures Sent(Moved(c, i, s', out))
  {
    hide VotesOk, Elected, Supports, Stood;
    var c' := Moved(c, i, s', out);
    assert RoleOk(c, i);
    forall m | m in c'.msgs && m.AppendReq? ensures Elected(c', m.src, m.term) {
      ElectedKept(c, c', m.src, m.term);
    }
  }

  lemma ActCovered(strict: bool, c: Cluster, i: nat, a: Action)
    requires Shaped(c) && AllOk(c) && Sent(c) && AllBacked(c) && i < |c.servers| && Possible(c, i, a)
    ensures var o := Act(strict, c, i, a);
            o.Done? ==> CommitInside(o.next) && Backed(o.next, i) && SentBy(c.servers[i], i, o.out)
  {
    hide VotesOk, RoleOk, Elected, MajorityIndex, Backed, CommitInside, HandleMessage, HandleSend, TryCommit;
    assert RoleOk(c, i);
    if a.Deliver? { DeliveredFine(strict, c, i, a.m); } else { LocalFine(strict, c, i, a); }
  }

  lemma StepBacked(rules: Rules, c: Cluster, c': Cluster, step: Step)
    requires Shaped(c) && AllOk(c) && Sent(c) && AllBacked(c) && NextStep(rules, c, c', step)
    ensures Sent(c') && AllBacked(c')
  {
    var i, a := step.who, step.act;
    var o := Act(rules.strict, c, i, a);
    ActCovered(rules.strict, c, i, a);
    assert SentBy(c.servers[i], i, {});
    hide AllOk, Act, Possible, FreshTerm, InTenure, Backed, Sent, SentBy;
    if o.Panic? {
      var s' := Restart(o.next, |c.servers|, step.kept, step.applied);
      NotLeading(s', i);
      SentOn(c, i, s', {});
      assert c' == Moved(c, i, s', {});
    } else {
      SentOn(c, i, o.next, o.out);
      assert c' == Moved(c, i, o.next, o.out);
    }
  }

  lemma InitCovered(c: Cluster)
    requires Init(c)
    ensures Sent(c) && AllBacked(c)
  {
    forall i: nat | i < |c.servers| ensures CommitInside(c.servers[i]) && Backed(c.servers[i], i) {
      assert c.servers[i] == InitServer(|c.servers|, c.servers[i].syncWrites);
    }
  }

  lemma {:induction false} BackedAt(rules: Rules, run: seq<Cluster>, k: nat)
    requires Run(rules, run) && rules.tenured && k < |run|
    ensures Sent(run[k]) && AllBacked(run[k])
  {
    assert Init(run[0]);
    hide Run, Init, NextStep, Sent, AllBacked, AllOk;
    if k == 0 {
      InitCovered(run[0]);
    } else {
      BackedAt(rules, run, k - 1);
      VotesAt(rules, run, k - 1);
      NextBacked(rules, run, k - 1);
    }
  }

  lemma NextBacked(rules: Rules, run: seq<Cluster>, k: nat)
    requires Run(rules, run) && rules.tenured && k + 1 < |run| && AllOk(run[k]) && Sent(run[k]) && AllBacked(run[k])
    ensures Sent(run[k + 1]) && AllBacked(run[k + 1])
  {
    hide AllOk, NextStep, Sent, AllBacked;
    assert Next(rules, run[k], run[k + 1]);
    var step :| NextStep(rules, run[k], run[k + 1], step);
    StepBacked(rules, run[k], run[k + 1], step);
  }

  /** The actions on which a leader may calculate its commit index. */
  predicate Counts(a: Action)
  {
    a.Advance? || (a.Deliver? && (a.m.AppendReply? || a.m.SyncIdx?))
  }

  /** For either comparison and any sends: no commit calculation finds a majority behind the commit index. */
  lemma CalculationHolds(rules: Rules, run: seq<Cluster>, k: nat, i: nat, a: Action)
    requires Run(rules, run) && rules.tenured && k < |run| && i < |run[k].servers|
    requires Enabled(rules, run[k], i, a) && Counts(a)
    ensures Act(rules.strict, run[k], i, a).Done?
  {
    assert Shaped(run[k]);
    hide Run, MajorityIndex, HandleAppendReply, HandleSyncIdx, TryCommit, Sent;
    BackedAt(rules, run, k);
    var s := run[k].servers[i];
    match a
    case Advance => TryCommitFine(rules.strict, s, i);
    case Deliver(m) =>
      if m.AppendReply? { AppendReplyFine(rules.strict, s, i, m); } else { SyncIdxFine(rules.strict, s, i, m); }
  }
}
