/** Which of the code's assertions can stop a replica in a run, and what moves a commit index. */
module Assertions {
  import opened Majority
  import opened Protocol
  import opened Cluster
  import opened History
  import opened Stability
  import opened LocalSteps
  import opened Coverage
  import Elections
  import Appending
  import Leading
  import Persistence
  import Safety

  // ----- a follower's assertions -----

  /** The follower's entry 0 is not the leader's: the prune for previous index -1 cannot remove it. */
  predicate Diverged(s: Server, m: Msg)
    requires m.AppendReq?
  {
    m.prevIdx == -1 && 0 < m.logTerm && s.log != [] && s.log[0].term != m.logTerm
  }

  /** The leader's log holds everything the follower has settled. */
  lemma LeaderHasSettled(h: History, c: Cluster, i: nat, m: Msg)
    requires Appending.Handling(h, c, i, m) && 0 <= Settled(c.servers[i])
    ensures m.term in h.reigns && Settled(c.servers[i]) < |c.servers[i].log|
    ensures Prefix(c.servers[i].log[..Settled(c.servers[i]) + 1], LogOf(h, m.term))
  {
    hide Inv, BallotsOk, Rooted, CandidateOk, LeaderOk, InReach, Chosen;
    var s := c.servers[i];
    OneServer(h, c, i);
    Appending.RequestOk(h, c, m);
    var T, a := Safety.CommitOkWitness(h, s.log, s.term, Settled(s));
    ChosenIsInLater(h, c, T, a, m.term);
    Safety.PrefixOfPrefix(LogOf(h, T), LogOf(h, m.term), a, Settled(s) + 1);
  }

  lemma ChosenIsInLater(h: History, c: Cluster, T: nat, a: nat, U: nat)
    requires Inv(h, c) && Chosen(h, T, a) && U in h.reigns && T <= U
    ensures a <= |LogOf(h, T)| && Prefix(LogOf(h, T)[..a], LogOf(h, U))
  {
    hide ServerOk, MsgOk;
    if T < U {
      Safety.ChosenSurvives(h, c, T, a, U);
      assert ReignOk(h, c, U);
      assert LogOf(h, T)[..a] == InitLog(h, U)[..a] == LogOf(h, U)[..a];
    }
  }

  /** What is committed or applied is never asked to be pruned. */
  lemma SettledIsNotPruned(h: History, c: Cluster, i: nat, m: Msg)
    requires Appending.Handling(h, c, i, m) && -1 <= m.prevIdx
    requires IndexAhead(c.servers[i], m) && !Stored(c.servers[i], m)
    ensures Settled(c.servers[i]) < m.prevIdx + 1
  {
    hide Inv, InReach, CommitOk;
    var s := c.servers[i];
    Appending.RequestOk(h, c, m);
    if m.prevIdx + 1 <= Settled(s) {
      LeaderHasSettled(h, c, i, m);
    }
  }

  lemma StoredPrevMatches(h: History, c: Cluster, i: nat, m: Msg)
    requires Appending.Handling(h, c, i, m) && 0 <= m.prevIdx
    requires IndexAhead(c.servers[i], m) && Stored(c.servers[i], m)
    ensures c.servers[i].log[m.prevIdx].term == m.prevTerm
  {
    hide Inv, InReach, CommitOk;
    Appending.RequestOk(h, c, m);
    Appending.AlreadyStoredAgrees(h, c, i, m);
  }

  lemma MatchedMayWrite(h: History, c: Cluster, i: nat, m: Msg)
    requires Appending.Handling(h, c, i, m) && CheckTail(c.servers[i], m).Matches? && m.entry.Some?
    ensures MayWrite(c.servers[i], m)
  {
    hide InReach, CommitOk, ServerOk, MsgOk;
    Appending.RequestOk(h, c, m);
    var L, k := LogOf(h, m.term), m.prevIdx + 1;
    assert OriginAt(h, L, k);
    assert ReignOk(h, c, L[k].term);
    if 0 < k { TermsAscend(h, c, L, k - 1, k); }
  }

  lemma ProceedPanics(h: History, c: Cluster, i: nat, m: Msg)
    requires Appending.Handling(h, c, i, m) && -1 <= m.prevIdx
    ensures Proceed(c.servers[i], i, m).Panic? <==> Diverged(c.servers[i], m)
  {
    hide Inv, InReach, CommitOk, AppendReqOk;
    var s := c.servers[i];
    if !IndexAhead(s, m) {
      if CheckTail(s, m).Matches? && m.entry.Some? { MatchedMayWrite(h, c, i, m); }
    } else if Stored(s, m) {
      if 0 <= m.prevIdx { StoredPrevMatches(h, c, i, m); }
    } else {
      SettledIsNotPruned(h, c, i, m);
      if 0 <= m.prevIdx {
        Appending.PruneStep(h, c, i, m);
        Appending.ProceedAfterPrune(s, i, m);
        var c1 := Put(c, i, Prune(s, m), {});
        if CheckTail(Prune(s, m), m).Matches? && m.entry.Some? { MatchedMayWrite(h, c1, i, m); }
      }
    }
  }

  lemma AppendReqPanics(h: History, c: Cluster, i: nat, m: Msg)
    requires Inv(h, c) && i < |c.servers| && m.AppendReq? && m in c.msgs && m.dst == i
    ensures HandleAppendReq(c.servers[i], i, m).Panic? <==>
            c.servers[i].term <= m.term && Diverged(c.servers[i], m)
  {
    hide Inv, Proceed;
    var s := c.servers[i];
    Appending.RequestOk(h, c, m);
    if s.term <= m.term {
      var s1 := AdoptLeader(s, i, m);
      Appending.AdoptLeaderStep(h, c, i, m);
      PutTwice(c, i, s1, s1, {});
      ProceedPanics(h, Put(c, i, s1, {}), i, m);
      LeaderAdopts(h, c, i, m);
    }
  }

  lemma LeaderAdopts(h: History, c: Cluster, i: nat, m: Msg)
    requires Inv(h, c) && i < |c.servers| && m.AppendReq? && m in c.msgs && m.dst == i && c.servers[i].term <= m.term
    ensures AdoptLeader(c.servers[i], i, m).log == c.servers[i].log
  {
  }

  // ----- every assertion -----

  /** The two ways an assertion of the modelled handlers can stop a replica. */
  predicate Stops(s: Server, a: Action)
  {
    || (a.Apply? && s.commit < s.applied)
    || (a.Deliver? && a.m.AppendReq? && s.term <= a.m.term && Diverged(s, a.m))
  }

  lemma DeliveryPanics(h: History, c: Cluster, i: nat, m: Msg)
    requires Inv(h, c) && Shaped(c) && i < |c.servers| && Enabled(SOUND, c, i, Deliver(m))
    requires CommitInside(c.servers[i]) && Backed(c.servers[i], i)
    ensures Act(true, c, i, Deliver(m)).Panic? <==> Stops(c.servers[i], Deliver(m))
  {
    hide Inv, BallotsOk, CommitOk, Rooted, MajorityIndex, CandidateOk, LeaderOk, Put;
    hide HandleAppendReq, HandleAppendReply, HandleSyncIdx, HandleVoteReply, HandlePreVoteReply;
    OneServer(h, c, i);
    var s := c.servers[i];
    match m
    case PreVoteReply(_, _, _) => var _ := Elections.PreVoteReplyStep(h, c, i, m);
    case VoteReply(_, _, _, _, _, _) => var _ := Elections.VoteReplyStep(h, c, i, m);
    case AppendReq(_, _, _, _, _, _, _, _) => AppendReqPanics(h, c, i, m);
    case AppendReply(_, _, _, _, _, _, _, _, _, _) => AppendReplyFine(true, s, i, m);
    case SyncIdx(_, _, _, _) => SyncIdxFine(true, s, i, m);
    case _ =>
  }

  lemma ActionPanics(h: History, c: Cluster, i: nat, a: Action)
    requires Inv(h, c) && Shaped(c) && i < |c.servers| && Enabled(SOUND, c, i, a) && !a.Crash?
    requires CommitInside(c.servers[i]) && Backed(c.servers[i], i)
    ensures Act(true, c, i, a).Panic? <==> Stops(c.servers[i], a)
  {
    hide Inv, BallotsOk, CommitOk, Rooted, MajorityIndex, CandidateOk, LeaderOk, Put;
    hide HandleMessage, HandleWrite, HandleSend, TryCommit;
    OneServer(h, c, i);
    var s := c.servers[i];
    match a
    case Deliver(m) => DeliveryPanics(h, c, i, m);
    case Write(data, sizes) => var _ := Elections.WriteStep(h, c, i, data, sizes);
    case Send(dst, heartbeat) => Leading.SendStep(h, c, i, dst, heartbeat);
    case Advance => TryCommitFine(true, s, i);
    case _ =>
  }

  /** In every run, an assertion stops a replica exactly when it applies with a commit index behind
      what it applied before a restart, or hears from a leader with another entry 0. */
  lemma OnlyTheseStop(run: seq<Cluster>, k: nat, i: nat, a: Action)
    requires Run(SOUND, run) && k < |run| && i < |run[k].servers| && Enabled(SOUND, run[k], i, a) && !a.Crash?
    ensures Act(true, run[k], i, a).Panic? <==> Stops(run[k].servers[i], a)
  {
    hide Inv, Act, Stops, Enabled, NextStep, Backed, Sent;
    var h := Safety.HistoryAt(run, k);
    BackedAt(SOUND, run, k);
    ActionPanics(h, run[k], i, a);
  }

  // ----- the follower's commit index -----

  lemma AppendReqCommit(s: Server, i: nat, m: Msg)
    requires m.AppendReq?
    ensures var o := HandleAppendReq(s, i, m);
            && s.commit <= o.next.commit
            && (s.commit < o.next.commit ==> o.next.commit < o.next.synced && o.next.commit <= m.commit)
  {
    hide Proceed;
    if -1 <= m.prevIdx && s.term <= m.term { Persistence.ProceedKeeps(AdoptLeader(s, i, m), i, m); }
  }

  lemma AdvancedTerm(s: Server, i: nat, m: Msg)
    requires m.AppendReq? && m.src != i
    ensures var s' := HandleAppendReq(s, i, m).next; s.commit < s'.commit ==> s'.term == m.term
  {
    hide Proceed;
    if -1 <= m.prevIdx && s.term <= m.term { Persistence.ProceedKeeps(AdoptLeader(s, i, m), i, m); }
  }

  /** Step k of the run delivered append request m, and no assertion stopped the replica. */
  ghost predicate Answered(rules: Rules, run: seq<Cluster>, k: nat, step: Step, m: Msg)
  {
    && Run(rules, run) && k + 1 < |run| && NextStep(rules, run[k], run[k + 1], step)
    && step.act == Deliver(m) && m.AppendReq? && Act(rules.strict, run[k], step.who, step.act).Done?
  }

  /** For either comparison and any sends: a follower's commit index never falls, and moves only within its synced
      log and the leader's commit index. */
  lemma FollowerCommitAdvances(rules: Rules, run: seq<Cluster>, k: nat, step: Step, m: Msg)
    requires Answered(rules, run, k, step, m) && rules.tenured
    ensures step.who < |run[k + 1].servers|
    ensures var s, s' := run[k].servers[step.who], run[k + 1].servers[step.who];
            && s.commit <= s'.commit
            && (s.commit < s'.commit ==> 0 <= s'.commit < s'.synced && s'.commit <= m.commit && s'.term == m.term)
  {
    hide HandleAppendReq, Backed, Sent, Run;
    BackedAt(rules, run, k);
    AppendReqCommit(run[k].servers[step.who], step.who, m);
    AdvancedTerm(run[k].servers[step.who], step.who, m);
  }

  /** What it then covers is what the sending leader's log holds, whenever from then on that leader is
      looked at. */
  lemma FollowerCommitIsLeaders(run: seq<Cluster>, k: nat, step: Step, m: Msg, l: nat, j: nat)
    requires Answered(SOUND, run, k, step, m) && k < l < |run| && j < |run[l].servers|
    requires run[l].servers[j].role.Leader? && run[l].servers[j].term == m.term
    requires step.who < |run[k].servers| && step.who < |run[k + 1].servers|
    requires run[k].servers[step.who].commit < run[k + 1].servers[step.who].commit
    ensures var s' := run[k + 1].servers[step.who];
            0 <= s'.commit < |s'.log| && Prefix(s'.log[..s'.commit + 1], run[l].servers[j].log)
  {
    hide Run, NextStep, Inv, Act, Enabled, Durable;
    var s' := run[k + 1].servers[step.who];
    FollowerCommitAdvances(SOUND, run, k, step, m);
    Safety.LeaderCompleteness(run, k + 1, l, step.who, j);
    Safety.PrefixOfPrefix(s'.log, run[l].servers[j].log, Settled(s') + 1, s'.commit + 1);
  }
}
