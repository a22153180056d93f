/** PreVote, votes and winning an election keep the invariants; one leader per term. */
module Elections {
  import opened Majority
  import opened Protocol
  import opened Cluster
  import opened History
  import opened Stability
  import opened LocalSteps

  lemma TimeoutStep(h: History, c: Cluster, i: nat)
    requires Inv(h, c) && i < |c.servers|
    ensures var o := HandleTimeout(c.servers[i], i, |c.servers|);
            Inv(h, Put(c, i, o.next, o.out))
  {
    assert ServerOk(h, c, i);
    var o := HandleTimeout(c.servers[i], i, |c.servers|);
    QuietStep(h, c, i, o.next, o.out);
  }

  lemma PreVoteReqStep(h: History, c: Cluster, i: nat, m: Msg)
    requires Inv(h, c) && i < |c.servers| && m.PreVoteReq? && m.src < |c.servers|
    ensures var o := HandlePreVoteReq(c.servers[i], i, m);
            Inv(h, Put(c, i, o.next, o.out))
  {
    assert ServerOk(h, c, i);
    var s := c.servers[i];
    var o := HandlePreVoteReq(s, i, m);
    MovesSame(h, c, i, o.next, o.out);
    if s.role.Leader? { LeaderOkKeeps(h, c, h, Put(c, i, o.next, o.out), i); }
    QuietStep(h, c, i, o.next, o.out);
  }

  // ----- ballots -----

  function WithBallot(h: History, i: nat, U: nat, b: Ballot): History
    requires i < |h.ballots|
  {
    var cast: map<nat, Ballot> := h.ballots[i][U := b];
    h.(ballots := h.ballots[i := cast])
  }

  lemma NewBallotKept(h: History, h': History, s: Server, T: nat, a: nat, U: nat)
    requires Grows(h, h') && T in h.reigns && a <= |LogOf(h, T)| && s.term < U && s.synced <= |s.log|
    requires KeptDurably(h, s, T, a)
    ensures T in h'.reigns && Kept(h', s.log, T, a, U)
  {
    KeptStable(h, h', Durable(s), T, a, s.term + 1, U);
    assert Prefix(Durable(s), s.log);
    KeptLonger(h', Durable(s), s.log, T, a, U);
  }

  /** A vote for a term not reached before: everything the voter acknowledged is in its ballot. */
  lemma BallotsOkWithBallot(h: History, h': History, s: Server, s': Server, i: nat, cand: nat)
    requires i < |h.ballots| && i < |h.acks| && Grows(h, h') && BallotsOk(h, s, i)
    requires s.term < s'.term && s'.log == s.log && s.synced <= |s.log| && s'.synced == |s.log| && Rooted(h, s.log)
    requires h' == WithBallot(h, i, s'.term, Ballot(cand, s'.log))
    ensures BallotsOk(h', s', i)
  {
    BallotsOkGrow(h, s, s', i);
    forall U | U in h'.ballots[i] ensures Rooted(h', h'.ballots[i][U].log) {
      RootedStable(h, h', if U == s'.term then s.log else h.ballots[i][U].log);
    }
    forall U, T, a: nat | U in h'.ballots[i] && T in h'.acks[i] && T < U && a <= h'.acks[i][T]
      ensures Kept(h', h'.ballots[i][U].log, T, a, U)
    {
      if U == s'.term {
        assert KeptDurably(h, s, T, a);
        NewBallotKept(h, h', s, T, a, U);
      } else {
        KeptStable(h, h', h.ballots[i][U].log, T, a, U, U);
      }
    }
    forall T, a: nat | T in h'.acks[i] && a <= h'.acks[i][T] ensures KeptDurably(h', s', T, a) {
      assert KeptDurably(h, s', T, a);
      KeptStable(h, h', Durable(s'), T, a, s'.term + 1, s'.term + 1);
    }
  }

  lemma CastBallot(h: History, c: Cluster, i: nat, s': Server, cand: nat) returns (h': History)
    requires Inv(h, c) && i < |c.servers|
    requires var s := c.servers[i];
             && s.term < s'.term && s'.log == s.log && s'.synced == |s.log|
    ensures h' == WithBallot(h, i, s'.term, Ballot(cand, s'.log))
    ensures Grows(h, h') && BallotsOk(h', s', i)
  {
    h' := WithBallot(h, i, s'.term, Ballot(cand, s'.log));
    assert ServerOk(h, c, i);
    GrowsSelf(h, c);
    BallotsOkWithBallot(h, h', c.servers[i], s', i, cand);
  }

  lemma KeptLonger(h: History, x: seq<Entry>, y: seq<Entry>, T: nat, a: nat, bound: nat)
    requires T in h.reigns && Kept(h, x, T, a, bound) && Prefix(x, y)
    ensures Kept(h, y, T, a, bound)
  {
    var p := Take(LogOf(h, T), a);
    if Prefix(p, x) {
      assert p == x[..|p|] == y[..|p|];
    }
  }

  // ----- becoming a full candidate -----

  lemma CandidacyStep(h: History, c: Cluster, i: nat) returns (h': History)
    requires Inv(h, c) && i < |c.servers| && c.servers[i].role.PreCandidate?
    ensures Grows(h, h')
    ensures var s' := BecomeCandidate(c.servers[i], i, |c.servers|);
            Inv(h', Put(c, i, s', {VoteReqOf(s', i)}))
  {
    var s, n := c.servers[i], |c.servers|;
    var s' := BecomeCandidate(s, i, n);
    assert ServerOk(h, c, i);
    h' := CastBallot(h, c, i, s', i);
    assert CandidateOk(h', s', i) by {
      if s'.term in h'.reigns { assert ReignOk(h, c, s'.term); }
    }
    RaiseTerm(h, c, h', i, s');
    var c1 := Put(c, i, s', {});
    assert c1.servers[i] == s';
    SendOnly(h', c1, i, {VoteReqOf(s', i)});
    assert Put(c1, i, s', {VoteReqOf(s', i)}) == Put(c, i, s', {VoteReqOf(s', i)});
  }

  lemma PreVoteReplyStep(h: History, c: Cluster, i: nat, m: Msg) returns (h': History)
    requires Inv(h, c) && i < |c.servers| && m.PreVoteReply? && m.src < |c.servers|
    ensures Grows(h, h')
    ensures var o := HandlePreVoteReply(c.servers[i], i, |c.servers|, m);
            o.Done? && Inv(h', Put(c, i, o.next, o.out))
  {
    var s, n := c.servers[i], |c.servers|;
    assert ServerOk(h, c, i);
    var o := HandlePreVoteReply(s, i, n, m);
    h' := h;
    GrowsSelf(h, c);
    if !s.role.PreCandidate? {
      SendOnly(h, c, i, {});
    } else {
      var s1 := RegisterVote(s, m.src, m.granted);
      QuietStep(h, c, i, s1, {});
      if m.granted && IsMajority(YesVotes(s1.results), n) {
        var c1 := Put(c, i, s1, {});
        h' := CandidacyStep(h, c1, i);
        assert Put(c1, i, o.next, o.out) == Put(c, i, o.next, o.out);
      }
    }
  }

  // ----- granting a vote -----

  lemma VoteReqStep(h: History, c: Cluster, i: nat, m: Msg) returns (h': History)
    requires Inv(h, c) && i < |c.servers| && m.VoteReq? && m in c.msgs && Destined(m, i)
    ensures Grows(h, h')
    ensures var o := HandleVoteReq(c.servers[i], i, m);
            Inv(h', Put(c, i, o.next, o.out))
  {
    hide Rooted, BallotsOk, CandidateOk, LeaderOk;
    var s := c.servers[i];
    assert ServerOk(h, c, i) && MsgOk(h, c, m);
    var o := HandleVoteReq(s, i, m);
    var s1 := SyncAll(s);
    SyncStep(h, c, i, |s.log|);
    var c1 := Put(c, i, s1, {});
    assert c1.servers[i] == s1;
    assert ServerOk(h, c1, i) && MsgOk(h, c1, m);
    if VoteDecide(s1, m.term, m.lastTerm, m.lastIdx) {
      h' := CastBallot(h, c1, i, o.next, m.src);
      RaiseTerm(h, c1, h', i, o.next);
      var c2 := Put(c1, i, o.next, {});
      assert c2.servers[i] == o.next;
      GrantIsOk(h', c2, i, m, s.term);
      SendOnly(h', c2, i, o.out);
      assert Put(c2, i, o.next, o.out) == Put(c, i, o.next, o.out);
    } else {
      h' := h;
      GrowsSelf(h, c);
      SendOnly(h, c1, i, o.out);
      assert Put(c1, i, o.next, o.out) == Put(c, i, o.next, o.out);
    }
  }

  lemma GrantIsOk(h: History, c: Cluster, i: nat, m: Msg, was: nat)
    requires Inv(h, c) && i < |c.servers| && m.VoteReq? && m in c.msgs
    requires m.term in h.ballots[i] && h.ballots[i][m.term] == Ballot(m.src, c.servers[i].log)
    requires LastTerm(c.servers[i].log) <= m.lastTerm && |c.servers[i].log| - 1 <= m.lastIdx
    ensures MsgOk(h, Put(c, i, c.servers[i], {VoteReply(i, m.src, true, was, None, m.term)}),
                  VoteReply(i, m.src, true, was, None, m.term))
  {
    assert MsgOk(h, c, m);
  }

  // ----- counting votes and winning -----

  lemma WithinPeers(results: seq<Vote>, n: nat)
    requires |results| == n
    ensures YesVotes(results) <= Peers(n)
  {
  }

  /** Election safety: whoever wins term T, T had no leader before. */
  lemma FirstOfItsTerm(h: History, c: Cluster, i: nat)
    requires Inv(h, c) && i < |c.servers| && c.servers[i].role.Candidate?
    requires IsMajority(YesVotes(c.servers[i].results), |c.servers|)
    ensures c.servers[i].term !in h.reigns
  {
    var s, n := c.servers[i], |c.servers|;
    assert ServerOk(h, c, i);
    if s.term in h.reigns {
      assert ReignOk(h, c, s.term);
      WithinPeers(s.results, n);
      var v := MajoritiesIntersect(YesVotes(s.results), h.reigns[s.term].voters, n);
      assert false;
    }
  }

  function WithReign(h: History, T: nat, r: Reign): History
  {
    var reigns: map<nat, Reign> := h.reigns[T := r];
    h.(reigns := reigns)
  }

  /** The history after candidate s won its term. */
  function Elected(h: History, s: Server, i: nat): History
  {
    WithReign(h, s.term, Reign(i, YesVotes(s.results), |s.log|, s.log))
  }

  lemma ElectedGrows(h: History, c: Cluster, i: nat)
    requires Inv(h, c) && i < |c.servers| && c.servers[i].term !in h.reigns
    ensures Grows(h, Elected(h, c.servers[i], i))
  {
    var h' := Elected(h, c.servers[i], i);
    forall U | U in h.reigns ensures U in h'.reigns && ReignGrows(h.reigns[U], h'.reigns[U]) {
      assert ReignOk(h, c, U);
    }
  }

  lemma ElectedReignOk(h: History, c: Cluster, i: nat, c': Cluster)
    requires Inv(h, c) && i < |c.servers| && c.servers[i].role.Candidate?
    requires IsMajority(YesVotes(c.servers[i].results), |c.servers|)
    requires Grows(h, Elected(h, c.servers[i], i))
    requires |c'.servers| == |c.servers| && c'.servers[i].term == c.servers[i].term
    ensures ReignOk(Elected(h, c.servers[i], i), c', c.servers[i].term)
  {
    var s := c.servers[i];
    assert ServerOk(h, c, i);
    WithinPeers(s.results, |c.servers|);
    RootedStable(h, Elected(h, s, i), s.log);
    forall k | 0 <= k < |s.log| ensures s.log[k].term < s.term { TermsAscend(h, c, s.log, k, |s.log| - 1); }
  }

  lemma ElectedServerOk(h: History, c: Cluster, i: nat, h': History, c': Cluster)
    requires Inv(h, c) && i < |c.servers| && c.servers[i].role.Candidate?
    requires h' == Elected(h, c.servers[i], i) && c' == Put(c, i, LeaderInit(c.servers[i], i, |c.servers|), {})
    requires Grows(h, h')
    ensures ServerOk(h', c', i)
  {
    var s, s' := c.servers[i], c'.servers[i];
    assert ServerOk(h, c, i);
    LogOkStable(h, h', s);
    BallotsStable(h, h', s, s', i);
    forall j: nat | j < |s'.peers| ensures PeerOk(h', c', s', j) {}
  }

  lemma ElectStep(h: History, c: Cluster, i: nat) returns (h': History)
    requires Inv(h, c) && i < |c.servers| && c.servers[i].role.Candidate?
    requires IsMajority(YesVotes(c.servers[i].results), |c.servers|)
    ensures Grows(h, h')
    ensures Inv(h', Put(c, i, LeaderInit(c.servers[i], i, |c.servers|), {}))
  {
    var c' := Put(c, i, LeaderInit(c.servers[i], i, |c.servers|), {});
    FirstOfItsTerm(h, c, i);
    h' := Elected(h, c.servers[i], i);
    ElectedGrows(h, c, i);
    ElectedReignOk(h, c, i, c');
    ElectedServerOk(h, c, i, h', c');
    StepKeepsInv(h, c, h', c', i);
  }

  // ----- appending as the leader -----

  function Extended(h: History, T: nat, e: Entry): History
    requires T in h.reigns
  {
    WithReign(h, T, h.reigns[T].(log := h.reigns[T].log + [e]))
  }

  lemma ExtendedGrows(h: History, c: Cluster, T: nat, e: Entry)
    requires Inv(h, c) && T in h.reigns
    ensures Grows(h, Extended(h, T, e))
  {
    var h' := Extended(h, T, e);
    forall U | U in h.reigns ensures U in h'.reigns && ReignGrows(h.reigns[U], h'.reigns[U]) {
      assert ReignOk(h, c, U);
    }
  }

  lemma ExtendedReignOk(h: History, c: Cluster, T: nat, e: Entry, c': Cluster)
    requires Inv(h, c) && T in h.reigns && e.term == T && Grows(h, Extended(h, T, e))
    requires |c'.servers| == |c.servers|
    requires forall j :: 0 <= j < |c.servers| ==> c'.servers[j].term == c.servers[j].term
    ensures ReignOk(Extended(h, T, e), c', T)
  {
    hide ServerOk, MsgOk;
    assert ReignOk(h, c, T);
    AppendRooted(h, Extended(h, T, e), LogOf(h, T), e);
  }

  lemma ExtendedPeersOk(h: History, c: Cluster, i: nat, h': History, c': Cluster)
    requires Moves(h, c, h', c', i) && ServerOk(h, c, i) && c.servers[i].role.Leader?
    requires h'.acks == h.acks
    requires var s, s' := c.servers[i], c'.servers[i];
             s'.term == s.term && s'.peers == s.peers && Prefix(s.log, s'.log)
    ensures forall j: nat :: j < |c'.servers[i].peers| ==> PeerOk(h', c', c'.servers[i], j)
  {
    var s, s' := c.servers[i], c'.servers[i];
    forall j: nat | j < |s'.peers| ensures PeerOk(h', c', s', j) {
      assert PeerOk(h, c, s, j);
      AllEvolve(h, c, h', c', i, j);
      InReachStable(h, h', c.servers[j], c'.servers[j], s.term, s.peers[j].nextIdx);
    }
  }

  lemma ExtendedLogOk(h: History, c: Cluster, i: nat, e: Entry, h': History)
    requires Inv(h, c) && i < |c.servers| && c.servers[i].role.Leader? && e.term == c.servers[i].term
    requires c.servers[i].term in h.reigns && h' == Extended(h, c.servers[i].term, e) && Grows(h, h')
    ensures LogOk(h', AppendEntry(c.servers[i], e)) && BallotsOk(h', AppendEntry(c.servers[i], e), i)
  {
    hide PeerOk, Inv, CandidateOk, BallotsOk, CommitOk, Rooted;
    var s, s' := c.servers[i], AppendEntry(c.servers[i], e);
    OneServer(h, c, i);
    OneReign(h, c, s.term);
    AppendRooted(h, h', s.log, e);
    BallotsOkGrow(h, s, s', i);
    BallotsStable(h, h', s', s', i);
    assert s'.log[..|s.log|] == s.log;
    CommitOkStable(h, h', s.log, s'.log, s.term, s.term, Settled(s));
  }

  lemma ExtendedServerOk(h: History, c: Cluster, i: nat, e: Entry, h': History, c': Cluster)
    requires Inv(h, c) && i < |c.servers| && c.servers[i].role.Leader? && e.term == c.servers[i].term
    requires c.servers[i].term in h.reigns && h' == Extended(h, c.servers[i].term, e)
    requires c' == Put(c, i, AppendEntry(c.servers[i], e), {})
    requires Moves(h, c, h', c', i)
    ensures ServerOk(h', c', i)
  {
    assert ServerOk(h, c, i);
    ExtendedLogOk(h, c, i, e, h');
    ExtendedPeersOk(h, c, i, h', c');
  }

  /** The leader appends an entry of its own term. */
  lemma LeaderAppendStep(h: History, c: Cluster, i: nat, e: Entry) returns (h': History)
    requires Inv(h, c) && i < |c.servers| && c.servers[i].role.Leader? && e.term == c.servers[i].term
    ensures Grows(h, h')
    ensures Inv(h', Put(c, i, AppendEntry(c.servers[i], e), {}))
  {
    hide Rooted, BallotsOk, Inv;
    var s := c.servers[i];
    var c' := Put(c, i, AppendEntry(s, e), {});
    OneServer(h, c, i);
    h' := Extended(h, s.term, e);
    ExtendedGrows(h, c, s.term, e);
    ExtendedReignOk(h, c, s.term, e, c');
    ExtendedServerOk(h, c, i, e, h', c');
    StepKeepsInv(h, c, h', c', i);
  }

  lemma AppendRooted(h: History, h': History, x: seq<Entry>, e: Entry)
    requires Grows(h, h') && Rooted(h, x)
    requires e.term in h'.reigns && h'.reigns[e.term].log == x + [e] && h'.reigns[e.term].initLen <= |x|
    ensures Rooted(h', x + [e])
  {
    RootedStable(h, h', x);
    forall k: nat | k < |x + [e]| ensures OriginAt(h', x + [e], k) {
      if k < |x| {
        assert OriginAt(h', x, k);
        assert (x + [e])[..k + 1] == x[..k + 1];
      }
    }
  }

  lemma WriteStep(h: History, c: Cluster, i: nat, data: seq<int>, sizes: seq<nat>) returns (h': History)
    requires Inv(h, c) && i < |c.servers| && c.servers[i].role.Leader?
    ensures Grows(h, h')
    ensures var o := HandleWrite(c.servers[i], data, sizes);
            o.Done? && Inv(h', Put(c, i, o.next, o.out))
  {
    assert ServerOk(h, c, i);
    h' := LeaderAppendStep(h, c, i, Entry(c.servers[i].term, false, data, sizes));
  }

  lemma WinStep(h: History, c: Cluster, i: nat) returns (h': History)
    requires Inv(h, c) && i < |c.servers| && c.servers[i].role.Candidate?
    requires IsMajority(YesVotes(c.servers[i].results), |c.servers|)
    ensures Grows(h, h')
    ensures var o := BecomeLeader(c.servers[i], i, |c.servers|);
            o.Done? && Inv(h', Put(c, i, o.next, {}))
  {
    var s, n := c.servers[i], |c.servers|;
    assert ServerOk(h, c, i);
    var h1 := ElectStep(h, c, i);
    var s1 := LeaderInit(s, i, n);
    var c1 := Put(c, i, s1, {});
    assert c1.servers[i] == s1;
    h' := LeaderAppendStep(h1, c1, i, Marker(s.term));
    GrowsTransitive(h, h1, h');
    assert Put(c1, i, AppendEntry(s1, Marker(s.term)), {}) == Put(c, i, BecomeLeader(s, i, n).next, {});
  }

  lemma VoteReplyStep(h: History, c: Cluster, i: nat, m: Msg) returns (h': History)
    requires Inv(h, c) && i < |c.servers| && m.VoteReply? && m in c.msgs && m.dst == i
    requires InTenure(c.servers[i], m)
    ensures Grows(h, h')
    ensures var o := HandleVoteReply(c.servers[i], i, |c.servers|, m);
            o.Done? && Inv(h', Put(c, i, o.next, o.out))
  {
    hide BallotsOk, CommitOk, Rooted, PeerOk;
    var s, n := c.servers[i], |c.servers|;
    assert ServerOk(h, c, i) && MsgOk(h, c, m);
    var o := HandleVoteReply(s, i, n, m);
    h' := h;
    GrowsSelf(h, c);
    if !s.role.Candidate? {
      SendOnly(h, c, i, {});
    } else {
      var s1 := RegisterVote(s, m.src, m.granted);
      QuietStep(h, c, i, s1, {});
      var c1 := Put(c, i, s1, {});
      assert c1.servers[i] == s1;
      if m.granted {
        if IsMajority(YesVotes(s1.results), n) {
          h' := WinStep(h, c1, i);
          assert Put(c1, i, o.next, {}) == Put(c, i, o.next, o.out);
        }
      } else if s1.term < m.term && m.hint.Some? && m.hint.value != i {
        AdoptTerm(h, c1, i, o.next);
        assert Put(c1, i, o.next, {}) == Put(c, i, o.next, o.out);
      }
    }
  }
}
