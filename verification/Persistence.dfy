/** What the persisted (term, voted-for) pair guarantees, under any rules: terms never fall,
    a vote once cast in a term is final, and every granted vote is on record. */
module Persistence {
  import opened Majority
  import opened Protocol
  import opened Cluster

  /** The header only moves to a higher term; within a term the vote stays. */
  ghost predicate HeaderMoves(s: Server, s': Server)
  {
    s.term <= s'.term && (s'.term == s.term ==> s'.votedFor == s.votedFor)
  }

  /** With synchronous writes there is never an unsynced tail. */
  predicate Steady(s: Server)
  {
    s.syncWrites ==> s.synced == |s.log|
  }

  ghost predicate Moved(s: Server, s': Server)
  {
    HeaderMoves(s, s') && s'.syncWrites == s.syncWrites && (Steady(s) ==> Steady(s'))
  }

  /** A granted vote is either for a term its voter has left, or is what the voter's header says. */
  ghost predicate Recorded(c: Cluster, v: Msg)
  {
    v.VoteReply? && v.granted ==>
      v.src < |c.servers| &&
      (v.reqTerm < c.servers[v.src].term ||
       (v.reqTerm == c.servers[v.src].term && c.servers[v.src].votedFor == Some(v.dst)))
  }

  ghost predicate AllRecorded(c: Cluster)
  {
    forall v :: v in c.msgs ==> Recorded(c, v)
  }

  lemma TryCommitHeader(strict: bool, s: Server, i: nat)
    requires i < |s.peers|
    ensures Moved(s, TryCommit(strict, s, i).next)
    ensures var o := TryCommit(strict, s, i); o.Done? ==> o.out == {}
  {
    hide MajorityIndex, CountedAll;
  }

  lemma UpdateSyncHeader(strict: bool, s: Server, i: nat, src: nat, term: int, syncedIdx: int)
    requires i < |s.peers| && src < |s.peers|
    ensures Moved(s, UpdateSync(strict, s, i, src, term, syncedIdx).next)
    ensures var o := UpdateSync(strict, s, i, src, term, syncedIdx); o.Done? ==> o.out == {}
  {
    hide TryCommit;
    TryCommitHeader(strict, s.(peers := s.peers[src := Noted(s.peers[src], syncedIdx)]), i);
  }

  lemma LeaderInputHeader(strict: bool, s: Server, i: nat, m: Msg)
    requires i < |s.peers| && m.src < |s.peers| && (m.AppendReply? || m.SyncIdx?)
    ensures var o := HandleMessage(strict, s, i, |s.peers|, m);
            Moved(s, o.next) && (o.Done? ==> o.out == {})
  {
    hide UpdateSync;
    if m.AppendReply? {
      UpdateSyncHeader(strict, s.(peers := s.peers[m.src := Advanced(s.peers[m.src], m)]), i, m.src, m.term,
                       m.syncedIdx);
    } else {
      UpdateSyncHeader(strict, s, i, m.src, m.term, m.syncedIdx);
    }
  }

  /** Comparing and pruning touches the log alone. */
  lemma PrepareKeeps(s: Server, m: Msg)
    requires m.AppendReq? && -1 <= m.prevIdx
    ensures var s2 := PrepareLog(s, m).0; s2 == s.(log := s2.log, synced := s2.synced) && (Steady(s) ==> Steady(s2))
  {
    hide CheckTail, Stored, LastTerm, Settled;
  }

  lemma ProceedKeeps(s: Server, i: nat, m: Msg)
    requires m.AppendReq? && -1 <= m.prevIdx
    ensures var o := Proceed(s, i, m);
            && o.next == s.(log := o.next.log, synced := o.next.synced, commit := o.next.commit)
            && (Steady(s) ==> Steady(o.next))
            && s.commit <= o.next.commit
            && (s.commit < o.next.commit ==> o.next.commit < o.next.synced && o.next.commit <= m.commit)
            && (o.Done? ==> forall r :: r in o.out ==> r.AppendReply?)
  {
    hide PrepareLog, MayWrite;
    PrepareKeeps(s, m);
  }

  lemma AppendReqHeader(s: Server, i: nat, m: Msg)
    requires m.AppendReq?
    ensures var o := HandleAppendReq(s, i, m);
            Moved(s, o.next) && (o.Done? ==> forall r :: r in o.out ==> r.AppendReply?)
  {
    hide Proceed;
    if -1 <= m.prevIdx && s.term <= m.term { ProceedKeeps(AdoptLeader(s, i, m), i, m); }
  }

  lemma DeliverHeader(strict: bool, c: Cluster, i: nat, m: Msg)
    requires Shaped(c) && i < |c.servers| && Possible(c, i, Deliver(m)) && !m.VoteReq?
    ensures var o := Act(strict, c, i, Deliver(m));
            && Moved(c.servers[i], o.next)
            && (o.Done? ==> forall r :: r in o.out ==> !(r.VoteReply? && r.granted))
  {
    hide HandleAppendReq, HandleAppendReply, HandleSyncIdx, LastTerm, IsMajority, InTenure;
    var s := c.servers[i];
    if m.AppendReq? {
      AppendReqHeader(s, i, m);
    } else if m.AppendReply? || m.SyncIdx? {
      LeaderInputHeader(strict, s, i, m);
    }
  }

  lemma ActHeader(strict: bool, c: Cluster, i: nat, a: Action)
    requires Shaped(c) && i < |c.servers| && Possible(c, i, a) && !(a.Deliver? && a.m.VoteReq?)
    ensures var o := Act(strict, c, i, a);
            && Moved(c.servers[i], o.next)
            && (o.Done? ==> forall r :: r in o.out ==> !(r.VoteReply? && r.granted))
  {
    hide HandleMessage, TryCommit, LastTerm;
    match a
    case Deliver(m) => DeliverHeader(strict, c, i, m);
    case Advance => TryCommitHeader(strict, c.servers[i], i);
    case _ =>
  }

  /** The pre-vote that completes a majority. */
  predicate CompletesPreVote(s: Server, n: nat, a: Action)
  {
    && a.Deliver? && a.m.PreVoteReply? && a.m.granted && s.role.PreCandidate? && s.candTerm == s.term + 1
    && IsMajority(YesVotes(RegisterVote(s, a.m.src, true).results), n)
  }

  /** Timeouts, pre-vote requests and pre-vote replies leave the persisted term and vote alone; only the
      pre-vote that completes a majority makes the replica stand, for the next term and with its own vote. */
  lemma PreVoteKeepsHeader(strict: bool, c: Cluster, i: nat, a: Action)
    requires Shaped(c) && i < |c.servers| && Possible(c, i, a)
    requires a.Timeout? || (a.Deliver? && (a.m.PreVoteReq? || a.m.PreVoteReply?))
    ensures var s, s' := c.servers[i], Act(strict, c, i, a).next;
            if CompletesPreVote(s, |c.servers|, a) then
              s'.term == s.term + 1 && s'.votedFor == Some(i) && s'.role.Candidate?
            else s'.term == s.term && s'.votedFor == s.votedFor && !(s'.role.Candidate? && !s.role.Candidate?)
  {
    hide IsMajority, YesVotes, LastTerm;
  }

  /** A granted vote is persisted before the reply leaves. */
  lemma VoteReqHeader(c: Cluster, i: nat, m: Msg)
    requires i < |c.servers| && m.VoteReq? && m.src != i
    ensures var o := HandleVoteReq(c.servers[i], i, m);
            && o.Done? && Moved(c.servers[i], o.next)
            && forall r :: r in o.out && r.VoteReply? && r.granted ==>
                 r.src == i && r.reqTerm == o.next.term && o.next.votedFor == Some(r.dst)
  {
  }

  lemma StepHeader(rules: Rules, c: Cluster, c': Cluster, step: Step)
    requires Shaped(c) && NextStep(rules, c, c', step)
    ensures |c'.servers| == |c.servers|
    ensures forall j: nat :: j < |c.servers| ==> Moved(c.servers[j], c'.servers[j])
    ensures AllRecorded(c) ==> AllRecorded(c')
  {
    var i, a := step.who, step.act;
    if a.Deliver? && a.m.VoteReq? {
      VoteReqHeader(c, i, a.m);
    } else {
      ActHeader(rules.strict, c, i, a);
    }
    hide Act;
    forall v | AllRecorded(c) && v in c'.msgs ensures Recorded(c', v) {
      if v in c.msgs { assert Recorded(c, v); }
    }
  }

  lemma NextHeader(rules: Rules, run: seq<Cluster>, k: nat)
    requires Run(rules, run) && k + 1 < |run|
    ensures |run[k + 1].servers| == |run[k].servers|
    ensures forall j: nat :: j < |run[k].servers| ==> Moved(run[k].servers[j], run[k + 1].servers[j])
    ensures AllRecorded(run[k]) ==> AllRecorded(run[k + 1])
  {
    hide NextStep;
    assert Next(rules, run[k], run[k + 1]);
    var step :| NextStep(rules, run[k], run[k + 1], step);
    StepHeader(rules, run[k], run[k + 1], step);
  }

  /** Over a whole run, crashes included, a term never falls and a vote in a term never changes. */
  lemma {:induction false} VoteIsFinal(rules: Rules, run: seq<Cluster>, k: nat, l: nat, i: nat)
    requires Run(rules, run) && k <= l < |run| && i < |run[k].servers|
    ensures i < |run[l].servers| && HeaderMoves(run[k].servers[i], run[l].servers[i])
    decreases l
  {
    hide Run;
    if k < l {
      VoteIsFinal(rules, run, k, l - 1, i);
      NextHeader(rules, run, l - 1);
    }
  }

  /** Every granted vote in flight is covered by the voter's persisted header. */
  lemma {:induction false} VotesAreRecorded(rules: Rules, run: seq<Cluster>, k: nat)
    requires Run(rules, run) && k < |run|
    ensures AllRecorded(run[k])
  {
    assert Init(run[0]);
    hide Run, Recorded, Moved;
    if k > 0 {
      VotesAreRecorded(rules, run, k - 1);
      NextHeader(rules, run, k - 1);
    }
  }

  ghost predicate AllSteady(c: Cluster)
  {
    forall i :: 0 <= i < |c.servers| ==> Steady(c.servers[i])
  }

  lemma InitSteady(c: Cluster)
    requires Init(c)
    ensures AllSteady(c)
  {
  }

  lemma NextSteady(rules: Rules, run: seq<Cluster>, k: nat)
    requires Run(rules, run) && k + 1 < |run| && AllSteady(run[k])
    ensures AllSteady(run[k + 1])
  {
    hide Run, AllRecorded, Steady, HeaderMoves;
    NextHeader(rules, run, k);
    var c, c' := run[k], run[k + 1];
    forall i | 0 <= i < |c'.servers| ensures Steady(c'.servers[i]) {
      assert Moved(c.servers[i], c'.servers[i]) && Steady(c.servers[i]);
    }
  }

  lemma {:induction false} SteadyAt(rules: Rules, run: seq<Cluster>, k: nat)
    requires Run(rules, run) && k < |run|
    ensures AllSteady(run[k])
  {
    assert Init(run[0]);
    hide Run, Init, AllSteady;
    if k == 0 {
      InitSteady(run[0]);
    } else {
      SteadyAt(rules, run, k - 1);
      NextSteady(rules, run, k - 1);
    }
  }
}
