/** What votes guarantee: one vote per term under any rules, and one leader per term where replies are counted
    only in the candidacy that asked for them. */
module Votes {
  import opened Majority
  import opened Protocol
  import opened Cluster
  import Persistence

  /** The voter granted its vote in term to candidate dst. */
  ghost predicate HasGrant(c: Cluster, voter: nat, dst: nat, term: nat)
  {
    exists m :: m in c.msgs && m.VoteReply? && m.granted && m.src == voter && m.dst == dst && m.reqTerm == term
  }

  /** Server i asked for votes in term, and so gave itself its own. */
  ghost predicate Stood(c: Cluster, i: nat, term: nat)
  {
    exists m :: m in c.msgs && m.VoteReq? && m.src == i && m.term == term
  }

  ghost predicate Supports(c: Cluster, k: nat, i: nat, term: nat)
  {
    k == i || HasGrant(c, k, i, term)
  }

  /** A majority supports server i in term. */
  ghost predicate Elected(c: Cluster, i: nat, term: nat)
  {
    && Stood(c, i, term)
    && exists q: set<nat> :: Quorum(c, q, i, term)
  }

  ghost predicate Quorum(c: Cluster, q: set<nat>, i: nat, term: nat)
  {
    && IsMajority(q, |c.servers|) && q <= Peers(|c.servers|)
    && forall k :: k in q ==> Supports(c, k, i, term)
  }

  /** Votes are for terms their voters have reached, and a server votes once in a term, be it for itself. */
  ghost predicate VotesOk(c: Cluster)
  {
    && (forall k: nat, i: nat, t: nat :: HasGrant(c, k, i, t) ==>
        k < |c.servers| && t <= c.servers[k].term && !Stood(c, k, t))
    && (forall i: nat, t: nat :: Stood(c, i, t) ==> i < |c.servers| && t <= c.servers[i].term)
    && (forall k: nat, i: nat, j: nat, t: nat :: HasGrant(c, k, i, t) && HasGrant(c, k, j, t) ==> i == j)
  }

  ghost predicate RoleOk(c: Cluster, i: nat)
    requires i < |c.servers|
  {
    var s := c.servers[i];
    && |s.results| == |c.servers|
    && (s.role.Candidate? ==>
          && Stood(c, i, s.term)
          && forall k: nat :: k < |s.results| && s.results[k] == Yes ==> Supports(c, k, i, s.term))
    && (s.role.Leader? ==> Elected(c, i, s.term))
  }

  ghost predicate AllOk(c: Cluster)
  {
    VotesOk(c) && forall i: nat :: i < |c.servers| ==> RoleOk(c, i)
  }

  lemma Unique(c: Cluster, i: nat, j: nat, term: nat)
    requires VotesOk(c) && Elected(c, i, term) && Elected(c, j, term)
    ensures i == j
  {
    var p: set<nat> :| Quorum(c, p, i, term);
    var q: set<nat> :| Quorum(c, q, j, term);
    var k := MajoritiesIntersect(p, q, |c.servers|);
    hide HasGrant, Stood;
  }

  // ----- evidence is kept -----

  ghost predicate Keeps(c: Cluster, c': Cluster)
  {
    |c'.servers| == |c.servers| && c.msgs <= c'.msgs
  }

  lemma GrantKept(c: Cluster, c': Cluster, k: nat, i: nat, t: nat)
    requires Keeps(c, c')
    ensures HasGrant(c, k, i, t) ==> HasGrant(c', k, i, t)
    ensures Supports(c, k, i, t) ==> Supports(c', k, i, t)
  {
  }

  lemma StoodKept(c: Cluster, c': Cluster, i: nat, t: nat)
    requires Keeps(c, c')
    ensures Stood(c, i, t) ==> Stood(c', i, t)
  {
  }

  lemma ElectedKept(c: Cluster, c': Cluster, i: nat, t: nat)
    requires Keeps(c, c') && Elected(c, i, t)
    ensures Elected(c', i, t)
  {
    hide HasGrant, Stood;
    StoodKept(c, c', i, t);
    var q: set<nat> :| Quorum(c, q, i, t);
    forall k | k in q ensures Supports(c', k, i, t) { GrantKept(c, c', k, i, t); }
    assert Quorum(c', q, i, t);
  }

  lemma RoleKept(c: Cluster, c': Cluster, j: nat)
    requires Keeps(c, c') && j < |c.servers| && RoleOk(c, j)
    requires var s, s' := c.servers[j], c'.servers[j];
             && |s'.results| == |c.servers|
             && (s'.role.Leader? ==> s.role.Leader? && s'.term == s.term)
             && (s'.role.Candidate? ==> s.role.Candidate? && s'.term == s.term && s'.results == s.results)
    ensures RoleOk(c', j)
  {
    hide HasGrant, Stood, Elected;
    var s := c.servers[j];
    StoodKept(c, c', j, s.term);
    if s.role.Leader? { ElectedKept(c, c', j, s.term); }
    forall k: nat | k < |s.results| && Supports(c, k, j, s.term) ensures Supports(c', k, j, s.term) {
      GrantKept(c, c', k, j, s.term);
    }
  }

  // ----- steps -----

  /** Server i moves to s' and sends out. */
  function Moved(c: Cluster, i: nat, s': Server, out: set<Msg>): Cluster
    requires i < |c.servers|
  {
    Cluster(c.servers[i := s'], c.msgs + out)
  }

  predicate NoVote(out: set<Msg>)
  {
    forall m :: m in out ==> !m.VoteReq? && !(m.VoteReply? && m.granted)
  }

  /** The server goes on as it was, or gives up its office or candidacy. */
  predicate StepsDown(s: Server, s': Server)
  {
    && s.term <= s'.term && |s'.results| == |s.results|
    && (s'.role.Leader? ==> s.role.Leader? && s'.term == s.term)
    && (s'.role.Candidate? ==> s.role.Candidate? && s'.term == s.term && s'.results == s.results)
  }

  lemma QuietVotes(c: Cluster, i: nat, s': Server, out: set<Msg>)
    requires VotesOk(c) && i < |c.servers| && NoVote(out) && c.servers[i].term <= s'.term
    ensures VotesOk(Moved(c, i, s', out))
  {
    var c' := Moved(c, i, s', out);
    forall k: nat, d: nat, t: nat ensures HasGrant(c', k, d, t) == HasGrant(c, k, d, t) {}
    forall k: nat, t: nat ensures Stood(c', k, t) == Stood(c, k, t) {}
    hide HasGrant, Stood;
  }

  lemma QuietStep(c: Cluster, i: nat, s': Server, out: set<Msg>)
    requires AllOk(c) && i < |c.servers| && NoVote(out) && StepsDown(c.servers[i], s')
    ensures AllOk(Moved(c, i, s', out))
  {
    hide RoleOk, VotesOk, NoVote;
    QuietVotes(c, i, s', out);
    var c' := Moved(c, i, s', out);
    forall j: nat | j < |c.servers| ensures RoleOk(c', j) {
      assert RoleOk(c, j);
      ResultsSize(c, j);
      RoleKept(c, c', j);
    }
  }

  lemma ResultsSize(c: Cluster, i: nat)
    requires i < |c.servers| && RoleOk(c, i)
    ensures |c.servers[i].results| == |c.servers|
  {
    hide Stood, Supports, Elected;
  }

  /** A server enters a new term with one vote: for d, or for itself. */
  lemma OneNewVote(c: Cluster, i: nat, s': Server, m: Msg, d: nat)
    requires VotesOk(c) && i < |c.servers| && c.servers[i].term < s'.term && m.src == i
    requires (m.VoteReq? && m.term == s'.term) || (m.VoteReply? && m.granted && m.dst == d && m.reqTerm == s'.term)
    ensures VotesOk(Moved(c, i, s', {m}))
  {
    var c' := Moved(c, i, s', {m});
    forall k: nat, j: nat, t: nat | HasGrant(c', k, j, t) && !HasGrant(c, k, j, t)
      ensures m.VoteReply? && k == i && j == d && t == s'.term {}
    forall k: nat, t: nat | Stood(c', k, t) && !Stood(c, k, t) ensures m.VoteReq? && k == i && t == s'.term {}
    hide HasGrant, Stood;
    forall k: nat, j: nat, t: nat | HasGrant(c', k, j, t)
      ensures k < |c.servers| && t <= c'.servers[k].term && !Stood(c', k, t)
    {
      if HasGrant(c, k, j, t) { assert t <= c.servers[k].term; }
    }
    forall k: nat, j: nat, l: nat, t: nat | HasGrant(c', k, j, t) && HasGrant(c', k, l, t) ensures j == l {
      if HasGrant(c, k, j, t) || HasGrant(c, k, l, t) { assert t <= c.servers[k].term; }
    }
  }

  lemma NewVoteStep(c: Cluster, i: nat, s': Server, m: Msg, d: nat)
    requires AllOk(c) && i < |c.servers| && c.servers[i].term < s'.term && m.src == i
    requires (m.VoteReq? && m.term == s'.term) || (m.VoteReply? && m.granted && m.dst == d && m.reqTerm == s'.term)
    requires |s'.results| == |c.servers| && !s'.role.Leader?
    requires s'.role.Candidate? ==> m.VoteReq? && s'.results == FreshResults(i, |c.servers|)
    ensures AllOk(Moved(c, i, s', {m}))
  {
    OneNewVote(c, i, s', m, d);
    var c' := Moved(c, i, s', {m});
    assert m.VoteReq? ==> Stood(c', i, s'.term);
    hide VotesOk, Stood, HasGrant, Elected;
    forall j: nat | j < |c.servers| ensures RoleOk(c', j) {
      assert RoleOk(c, j);
      if j != i { RoleKept(c, c', j); }
    }
  }

  lemma VoteReqVotes(c: Cluster, i: nat, m: Msg)
    requires AllOk(c) && i < |c.servers| && m.VoteReq? && m.src != i
    ensures var o := HandleVoteReq(c.servers[i], i, m); o.Done? && AllOk(Moved(c, i, o.next, o.out))
  {
    var s := c.servers[i];
    var o := HandleVoteReq(s, i, m);
    ResultsSize2(c, i);
    hide AllOk, LastTerm;
    if VoteDecide(SyncAll(s), m.term, m.lastTerm, m.lastIdx) {
      NewVoteStep(c, i, o.next, VoteReply(i, m.src, true, s.term, None, m.term), m.src);
    } else {
      QuietStep(c, i, o.next, o.out);
    }
  }

  lemma ResultsSize2(c: Cluster, i: nat)
    requires AllOk(c) && i < |c.servers|
    ensures |c.servers[i].results| == |c.servers|
  {
    hide VotesOk, Stood, Supports, Elected;
    assert RoleOk(c, i);
  }

  lemma PreVoteReplyVotes(c: Cluster, i: nat, m: Msg)
    requires AllOk(c) && i < |c.servers| && m.PreVoteReply?
    ensures var o := HandlePreVoteReply(c.servers[i], i, |c.servers|, m);
            if o.Done? then AllOk(Moved(c, i, o.next, o.out)) else o.next == c.servers[i]
  {
    var s, n := c.servers[i], |c.servers|;
    var o := HandlePreVoteReply(s, i, n, m);
    ResultsSize2(c, i);
    hide AllOk, LastTerm, IsMajority, YesVotes;
    if s.role.PreCandidate? && s.candTerm == s.term + 1 && m.granted
       && IsMajority(YesVotes(RegisterVote(s, m.src, true).results), n) {
      NewVoteStep(c, i, o.next, VoteReqOf(o.next, i), i);
    } else if o.Done? {
      QuietStep(c, i, o.next, o.out);
    }
  }

  /** A counted vote is a vote for this candidate in this term. */
  lemma CountedVote(c: Cluster, i: nat, m: Msg)
    requires AllOk(c) && i < |c.servers| && m.VoteReply? && m in c.msgs && m.dst == i
    requires c.servers[i].role.Candidate? && m.reqTerm == c.servers[i].term
    ensures AllOk(Moved(c, i, RegisterVote(c.servers[i], m.src, m.granted), {}))
  {
    var s := c.servers[i];
    var s' := RegisterVote(s, m.src, m.granted);
    var c' := Moved(c, i, s', {});
    assert c'.msgs == c.msgs;
    assert m.granted ==> HasGrant(c, m.src, i, s.term);
    QuietVotes(c, i, s', {});
    hide VotesOk, HasGrant, Stood, Elected;
    forall j: nat | j < |c.servers| ensures RoleOk(c', j) {
      assert RoleOk(c, j);
      if j != i { RoleKept(c, c', j); }
      else {
        StoodKept(c, c', i, s.term);
        forall k: nat | k < |s'.results| && s'.results[k] == Yes ensures Supports(c', k, i, s.term) {
          GrantKept(c, c', k, i, s.term);
        }
      }
    }
  }

  /** A candidate that counts a majority has been elected. */
  lemma CountedMajority(c: Cluster, i: nat)
    requires AllOk(c) && i < |c.servers| && c.servers[i].role.Candidate?
    requires IsMajority(YesVotes(c.servers[i].results), |c.servers|)
    ensures Elected(c, i, c.servers[i].term)
  {
    hide VotesOk, HasGrant, Stood;
    assert RoleOk(c, i);
    assert Quorum(c, YesVotes(c.servers[i].results), i, c.servers[i].term);
  }

  lemma ElectedVotes(c: Cluster, i: nat, s': Server)
    requires AllOk(c) && i < |c.servers| && Elected(c, i, c.servers[i].term)
    requires s'.term == c.servers[i].term && s'.results == c.servers[i].results && s'.role.Leader?
    ensures AllOk(Moved(c, i, s', {}))
  {
    var c' := Moved(c, i, s', {});
    QuietVotes(c, i, s', {});
    ElectedKept(c, c', i, s'.term);
    hide VotesOk, HasGrant, Stood, Elected;
    forall j: nat | j < |c.servers| ensures RoleOk(c', j) {
      assert RoleOk(c, j);
      if j != i { RoleKept(c, c', j); }
    }
  }

  lemma VoteReplyVotes(c: Cluster, i: nat, m: Msg)
    requires AllOk(c) && i < |c.servers| && m.VoteReply? && m in c.msgs && m.dst == i && m.reqTerm == c.servers[i].term
    ensures var o := HandleVoteReply(c.servers[i], i, |c.servers|, m);
            if o.Done? then o.out == {} && AllOk(Moved(c, i, o.next, {}))
            else o.next.term == c.servers[i].term && AllOk(Moved(c, i, c.servers[i], {}))
  {
    var s, n := c.servers[i], |c.servers|;
    assert Moved(c, i, s, {}) == c;
    var o := HandleVoteReply(s, i, n, m);
    hide AllOk, LastTerm, IsMajority, YesVotes;
    if s.role.Candidate? && s.candTerm == s.term {
      CountedVote(c, i, m);
      var s1 := RegisterVote(s, m.src, m.granted);
      var c1 := Moved(c, i, s1, {});
      assert forall x: Server :: Moved(c1, i, x, {}) == Moved(c, i, x, {});
      if m.granted {
        if IsMajority(YesVotes(s1.results), n) && o.Done? {
          CountedMajority(c1, i);
          ElectedVotes(c1, i, o.next);
        }
      } else {
        QuietStep(c1, i, o.next, {});
      }
    }
  }

  // ----- every other action -----

  lemma TryCommitKeeps(strict: bool, s: Server, i: nat)
    requires i < |s.peers|
    ensures var o := TryCommit(strict, s, i);
            o.next == s.(peers := o.next.peers, commit := o.next.commit) && (o.Done? ==> o.out == {})
  {
    hide MajorityIndex, CountedAll;
  }

  lemma UpdateSyncKeeps(strict: bool, s: Server, i: nat, src: nat, term: int, syncedIdx: int)
    requires i < |s.peers| && src < |s.peers|
    ensures var o := UpdateSync(strict, s, i, src, term, syncedIdx);
            o.next == s.(peers := o.next.peers, commit := o.next.commit) && (o.Done? ==> o.out == {})
  {
    hide TryCommit;
    TryCommitKeeps(strict, s.(peers := s.peers[src := Noted(s.peers[src], syncedIdx)]), i);
  }

  lemma QuietReply(strict: bool, s: Server, i: nat, m: Msg)
    requires i < |s.peers| && m.src < |s.peers| && (m.AppendReply? || m.SyncIdx?)
    ensures var o := HandleMessage(strict, s, i, |s.peers|, m); StepsDown(s, o.next) && (o.Done? ==> NoVote(o.out))
  {
    hide UpdateSync;
    if m.AppendReply? {
      UpdateSyncKeeps(strict, s.(peers := s.peers[m.src := Advanced(s.peers[m.src], m)]), i, m.src, m.term,
                      m.syncedIdx);
    } else {
      UpdateSyncKeeps(strict, s, i, m.src, m.term, m.syncedIdx);
    }
  }

  lemma QuietRequest(s: Server, i: nat, m: Msg)
    requires m.AppendReq?
    ensures var o := HandleAppendReq(s, i, m); StepsDown(s, o.next) && (o.Done? ==> NoVote(o.out))
  {
    hide Proceed;
    if -1 <= m.prevIdx && s.term <= m.term { Persistence.ProceedKeeps(AdoptLeader(s, i, m), i, m); }
  }

  predicate Voting(a: Action)
  {
    a.Deliver? && (a.m.VoteReq? || a.m.VoteReply? || a.m.PreVoteReply?)
  }

  lemma QuietAct(strict: bool, c: Cluster, i: nat, a: Action)
    requires Shaped(c) && i < |c.servers| && Possible(c, i, a) && !Voting(a)
    ensures var s, o := c.servers[i], Act(strict, c, i, a);
            && s.term <= o.next.term && (o.Done? ==> NoVote(o.out))
            && (o.Done? && |s.results| == |c.servers| ==> StepsDown(s, o.next))
  {
    hide HandleAppendReq, HandleAppendReply, HandleSyncIdx, TryCommit, LastTerm;
    var s := c.servers[i];
    match a
    case Deliver(m) =>
      if m.AppendReq? { QuietRequest(s, i, m); }
      else if m.AppendReply? || m.SyncIdx? { QuietReply(strict, s, i, m); }
    case Advance => TryCommitKeeps(strict, s, i);
    case _ =>
  }

  // ----- what a step does to the votes, whatever replies are counted -----

  lemma VoteReqBallots(c: Cluster, i: nat, m: Msg)
    requires VotesOk(c) && i < |c.servers| && m.VoteReq? && m.src != i
    ensures var o := HandleVoteReq(c.servers[i], i, m); o.Done? && VotesOk(Moved(c, i, o.next, o.out))
  {
    var s := c.servers[i];
    var o := HandleVoteReq(s, i, m);
    hide VotesOk, LastTerm;
    if VoteDecide(SyncAll(s), m.term, m.lastTerm, m.lastIdx) {
      OneNewVote(c, i, o.next, VoteReply(i, m.src, true, s.term, None, m.term), m.src);
    } else {
      QuietVotes(c, i, o.next, o.out);
    }
  }

  lemma PreVoteReplyBallots(c: Cluster, i: nat, m: Msg)
    requires VotesOk(c) && i < |c.servers| && m.PreVoteReply?
    ensures var o := HandlePreVoteReply(c.servers[i], i, |c.servers|, m);
            if o.Done? then VotesOk(Moved(c, i, o.next, o.out)) else o.next == c.servers[i]
  {
    var s, n := c.servers[i], |c.servers|;
    var o := HandlePreVoteReply(s, i, n, m);
    hide VotesOk, LastTerm, IsMajority, YesVotes;
    if s.role.PreCandidate? && s.candTerm == s.term + 1 && m.granted
       && IsMajority(YesVotes(RegisterVote(s, m.src, true).results), n) {
      OneNewVote(c, i, o.next, VoteReqOf(o.next, i), i);
    } else if o.Done? {
      QuietVotes(c, i, o.next, o.out);
    }
  }

  lemma VoteReplyQuiet(s: Server, i: nat, n: nat, m: Msg)
    requires m.VoteReply?
    ensures var o := HandleVoteReply(s, i, n, m); s.term <= o.next.term && (o.Done? ==> o.out == {})
  {
    hide IsMajority, YesVotes, LastTerm;
  }

  lemma ActBallots(strict: bool, c: Cluster, i: nat, a: Action)
    requires Shaped(c) && VotesOk(c) && i < |c.servers| && Possible(c, i, a)
    ensures var o := Act(strict, c, i, a);
            if o.Done? then VotesOk(Moved(c, i, o.next, o.out)) else c.servers[i].term <= o.next.term
  {
    hide VotesOk, HandleVoteReq, HandleVoteReply, HandlePreVoteReply;
    var o := Act(strict, c, i, a);
    if Voting(a) {
      if a.m.VoteReq? {
        VoteReqBallots(c, i, a.m);
      } else if a.m.VoteReply? {
        VoteReplyQuiet(c.servers[i], i, |c.servers|, a.m);
        if o.Done? { QuietVotes(c, i, o.next, o.out); }
      } else {
        PreVoteReplyBallots(c, i, a.m);
      }
    } else {
      QuietAct(strict, c, i, a);
      hide Act;
      if o.Done? { QuietVotes(c, i, o.next, o.out); }
    }
  }

  /** Every step keeps the votes in order. */
  lemma StepBallots(rules: Rules, c: Cluster, c': Cluster, step: Step)
    requires Shaped(c) && VotesOk(c) && NextStep(rules, c, c', step)
    ensures VotesOk(c') && Keeps(c, c')
  {
    var i, a := step.who, step.act;
    var o := Act(rules.strict, c, i, a);
    ActBallots(rules.strict, c, i, a);
    hide VotesOk, Act, Possible, FreshTerm, InTenure;
    if o.Panic? {
      var s' := Restart(o.next, |c.servers|, step.kept, step.applied);
      QuietVotes(c, i, s', {});
      assert c' == Moved(c, i, s', {});
    } else {
      assert c' == Moved(c, i, o.next, o.out);
    }
  }

  /** Where replies are counted only in their candidacy, every step keeps candidates and leaders in order too. */
  lemma StepVotes(rules: Rules, c: Cluster, c': Cluster, step: Step)
    requires Shaped(c) && AllOk(c) && NextStep(rules, c, c', step) && rules.tenured
    ensures AllOk(c') && Keeps(c, c')
  {
    var i, a := step.who, step.act;
    var s, n := c.servers[i], |c.servers|;
    var o := Act(rules.strict, c, i, a);
    ResultsSize2(c, i);
    VotingAct(rules.strict, c, i, a);
    if !Voting(a) { QuietAct(rules.strict, c, i, a); }
    hide AllOk, Act, Possible, FreshTerm, InTenure;
    if o.Panic? {
      var s' := Restart(o.next, n, step.kept, step.applied);
      QuietStep(c, i, s', {});
      assert c' == Moved(c, i, s', {});
    } else {
      if !Voting(a) { QuietStep(c, i, o.next, o.out); }
      assert c' == Moved(c, i, o.next, o.out);
    }
  }

  lemma VotingAct(strict: bool, c: Cluster, i: nat, a: Action)
    requires Shaped(c) && AllOk(c) && i < |c.servers| && Possible(c, i, a)
    requires a.Deliver? ==> InTenure(c.servers[i], a.m)
    ensures Voting(a) ==>
              var o := Act(strict, c, i, a);
              if o.Done? then AllOk(Moved(c, i, o.next, o.out)) else c.servers[i].term <= o.next.term
  {
    hide AllOk, HandleVoteReq, HandleVoteReply, HandlePreVoteReply;
    if Voting(a) {
      if a.m.VoteReq? {
        VoteReqVotes(c, i, a.m);
      } else if a.m.VoteReply? {
        VoteReplyVotes(c, i, a.m);
      } else {
        PreVoteReplyVotes(c, i, a.m);
      }
    }
  }

  // ----- runs -----

  lemma InitVotes(c: Cluster)
    requires Init(c)
    ensures AllOk(c)
  {
    forall i: nat | i < |c.servers| ensures RoleOk(c, i) {
      assert c.servers[i] == InitServer(|c.servers|, c.servers[i].syncWrites);
    }
  }

  lemma NextBallots(rules: Rules, run: seq<Cluster>, k: nat)
    requires Run(rules, run) && k + 1 < |run| && VotesOk(run[k])
    ensures VotesOk(run[k + 1]) && Keeps(run[k], run[k + 1])
  {
    hide VotesOk, NextStep;
    assert Next(rules, run[k], run[k + 1]);
    var step :| NextStep(rules, run[k], run[k + 1], step);
    StepBallots(rules, run[k], run[k + 1], step);
  }

  /** In every state of every run, under any rules, the votes are in order. */
  lemma {:induction false} BallotsAt(rules: Rules, run: seq<Cluster>, k: nat)
    requires Run(rules, run) && k < |run|
    ensures VotesOk(run[k])
  {
    assert Init(run[0]);
    hide VotesOk, RoleOk, Run, Init;
    if k == 0 {
      InitVotes(run[0]);
    } else {
      BallotsAt(rules, run, k - 1);
      NextBallots(rules, run, k - 1);
    }
  }

  lemma {:induction false} KeptBetween(rules: Rules, run: seq<Cluster>, k: nat, l: nat)
    requires Run(rules, run) && k <= l < |run|
    ensures Keeps(run[k], run[l])
    decreases l
  {
    hide VotesOk, Run;
    if k < l {
      KeptBetween(rules, run, k, l - 1);
      BallotsAt(rules, run, l - 1);
      NextBallots(rules, run, l - 1);
    }
  }

  lemma NextVotes(rules: Rules, run: seq<Cluster>, k: nat)
    requires Run(rules, run) && rules.tenured && k + 1 < |run| && AllOk(run[k])
    ensures AllOk(run[k + 1])
  {
    hide AllOk, NextStep;
    assert Next(rules, run[k], run[k + 1]);
    var step :| NextStep(rules, run[k], run[k + 1], step);
    StepVotes(rules, run[k], run[k + 1], step);
  }

  /** And with the rule on replies, candidates and leaders have the votes they count. */
  lemma {:induction false} VotesAt(rules: Rules, run: seq<Cluster>, k: nat)
    requires Run(rules, run) && rules.tenured && k < |run|
    ensures AllOk(run[k])
  {
    assert Init(run[0]);
    hide AllOk, Run, Init;
    if k == 0 {
      InitVotes(run[0]);
    } else {
      VotesAt(rules, run, k - 1);
      NextVotes(rules, run, k - 1);
    }
  }

  /** In every run, under any rules: a server grants at most one vote per term, crashes or not. */
  lemma OneVotePerTerm(rules: Rules, run: seq<Cluster>, k: nat, l: nat, v: Msg, w: Msg)
    requires Run(rules, run) && k <= l < |run| && v in run[k].msgs && w in run[l].msgs
    requires v.VoteReply? && w.VoteReply? && v.granted && w.granted
    requires v.src == w.src && v.reqTerm == w.reqTerm
    ensures v.dst == w.dst
  {
    hide Run, Stood;
    KeptBetween(rules, run, k, l);
    BallotsAt(rules, run, l);
    assert HasGrant(run[l], v.src, v.dst, v.reqTerm) && HasGrant(run[l], w.src, w.dst, w.reqTerm);
  }

  /** Where replies are counted only in their candidacy, there is at most one leader per term. */
  lemma OneLeaderPerTerm(rules: Rules, run: seq<Cluster>, k: nat, l: nat, i: nat, j: nat)
    requires Run(rules, run) && rules.tenured
    requires k <= l < |run| && i < |run[k].servers| && j < |run[l].servers|
    requires run[k].servers[i].role.Leader? && run[l].servers[j].role.Leader?
    requires run[k].servers[i].term == run[l].servers[j].term
    ensures i == j
  {
    hide Run, Elected, Stood;
    KeptBetween(rules, run, k, l);
    VotesAt(rules, run, k);
    VotesAt(rules, run, l);
    assert RoleOk(run[k], i) && RoleOk(run[l], j);
    ElectedKept(run[k], run[l], i, run[k].servers[i].term);
    hide VotesOk, RoleOk;
    Unique(run[l], i, j, run[l].servers[j].term);
  }
}
