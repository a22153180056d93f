/** Steps of one replica that concern no other: syncing, restarting, changing role, appending. */
module LocalSteps {
  import opened Majority
  import opened Protocol
  import opened Cluster
  import opened History
  import opened Stability

  /** c with replica i replaced and some messages added. */
  function Put(c: Cluster, i: nat, s': Server, out: set<Msg>): (c': Cluster)
    requires i < |c.servers|
  {
    Cluster(c.servers[i := s'], c.msgs + out)
  }

  lemma PutTwice(c: Cluster, i: nat, s1: Server, s2: Server, out: set<Msg>)
    requires i < |c.servers|
    ensures Put(c, i, s1, {}).servers[i] == s1 && |Put(c, i, s1, {}).servers| == |c.servers|
    ensures Put(Put(c, i, s1, {}), i, s2, out) == Put(c, i, s2, out)
    ensures Put(c, i, c.servers[i], {}) == c
  {
  }

  /** What the invariant says of one replica. */
  lemma OneServer(h: History, c: Cluster, i: nat)
    requires Inv(h, c) && i < |c.servers|
    ensures Shape(h, |c.servers|) && ServerOk(h, c, i)
  {
  }

  lemma OneReign(h: History, c: Cluster, T: nat)
    requires Inv(h, c) && T in h.reigns
    ensures ReignOk(h, c, T)
  {
  }

  lemma GrowsSelf(h: History, c: Cluster)
    requires Inv(h, c)
    ensures Grows(h, h)
  {
    forall T | T in h.reigns ensures ReignGrows(h.reigns[T], h.reigns[T]) {
      assert ReignOk(h, c, T);
    }
  }

  lemma MovesSame(h: History, c: Cluster, i: nat, s': Server, out: set<Msg>)
    requires Inv(h, c) && i < |c.servers| && Evolves(h, h, c.servers[i], s')
    ensures Moves(h, c, h, Put(c, i, s', out), i)
  {
    GrowsSelf(h, c);
  }

  /** Terms never decrease along a log. */
  lemma TermsAscend(h: History, c: Cluster, x: seq<Entry>, j: nat, k: nat)
    requires Inv(h, c) && Rooted(h, x) && j <= k < |x|
    ensures x[j].term <= x[k].term
  {
    assert OriginAt(h, x, k);
    var r := h.reigns[x[k].term];
    assert ReignOk(h, c, x[k].term);
    assert x[j] == x[..k + 1][j] == r.log[..k + 1][j] == r.log[j];
  }

  /** Entries of equal term at one place have equal histories, whatever logs they are in. */
  lemma LogMatching(h: History, x: seq<Entry>, y: seq<Entry>, k: nat)
    requires Rooted(h, x) && Rooted(h, y) && k < |x| && k < |y| && x[k].term == y[k].term
    ensures x[..k + 1] == y[..k + 1]
  {
    assert OriginAt(h, x, k) && OriginAt(h, y, k);
  }

  lemma RootedPrefix(h: History, x: seq<Entry>, y: seq<Entry>)
    requires Rooted(h, y) && Prefix(x, y)
    ensures Rooted(h, x)
  {
    forall k: nat | k < |x| ensures OriginAt(h, x, k) {
      assert OriginAt(h, y, k);
      assert x[..k + 1] == y[..k + 1];
    }
  }

  /** The durable log grew: what was kept is kept. */
  lemma BallotsOkGrow(h: History, s: Server, s': Server, i: nat)
    requires i < |h.ballots| && i < |h.acks|
    requires BallotsOk(h, s, i) && s.term <= s'.term && Prefix(Durable(s), Durable(s'))
    ensures BallotsOk(h, s', i)
  {
    forall T, a: nat | T in h.acks[i] && a <= h.acks[i][T] ensures KeptDurably(h, s', T, a) {
      assert KeptDurably(h, s, T, a);
      var x := Take(LogOf(h, T), a);
      if Prefix(x, Durable(s)) {
        assert x == Durable(s)[..|x|] == Durable(s')[..|x|];
      }
    }
  }

  lemma LeaderOkKeeps(h: History, c: Cluster, h': History, c': Cluster, i: nat)
    requires Moves(h, c, h', c', i) && ServerOk(h, c, i) && c.servers[i].role.Leader?
    requires var s, s' := c.servers[i], c'.servers[i];
             && s'.role == s.role && s'.term == s.term && s'.log == s.log && s'.initialIdx == s.initialIdx
             && s'.leaderTerm == s.leaderTerm && s'.peers == s.peers
    requires c.servers[i].term in h'.reigns && h'.reigns[c.servers[i].term] == h.reigns[c.servers[i].term]
    ensures LeaderOk(h', c', c'.servers[i], i)
  {
    var s, s' := c.servers[i], c'.servers[i];
    forall j: nat | j < |s'.peers| ensures PeerOk(h', c', s', j) {
      PeerStable(h, c, h', c', i, s, j);
    }
  }

  /** Same term, same log; more of it may be durable, and role, candidate state or hint may change. */
  lemma QuietStep(h: History, c: Cluster, i: nat, s': Server, out: set<Msg>)
    requires Inv(h, c) && i < |c.servers|
    requires var s := c.servers[i];
             && s'.term == s.term && s'.log == s.log && s'.commit == s.commit
             && s.applied <= s'.applied && Settled(s') == Settled(s) && s.synced <= s'.synced <= |s.log|
             && |s'.results| == |s.results| && |s'.peers| == |c.servers|
             && (s'.role.Candidate? ==> s.role.Candidate?)
    requires CandidateOk(h, s', i)
    requires s'.role.PreCandidate? ==> s'.candTerm == s'.term + 1
    requires LeaderOk(h, Put(c, i, s', out), s', i)
    requires HintOk(c, s'.leader, s'.term)
    requires forall m :: m in out ==> MsgOk(h, Put(c, i, s', out), m)
    ensures Inv(h, Put(c, i, s', out))
  {
    var s, c' := c.servers[i], Put(c, i, s', out);
    assert ServerOk(h, c, i);
    BallotsOkGrow(h, s, s', i);
    assert ServerOk(h, c', i);
    SameHistory(h, c, c', i);
  }

  /** Publishing more of the log as synced, in any role. */
  lemma SyncStep(h: History, c: Cluster, i: nat, k: nat)
    requires Inv(h, c) && i < |c.servers| && c.servers[i].synced <= k <= |c.servers[i].log|
    ensures Inv(h, Put(c, i, PublishSync(c.servers[i], k), {}))
  {
    var s := c.servers[i];
    var s' := PublishSync(s, k);
    assert ServerOk(h, c, i);
    MovesSame(h, c, i, s', {});
    if s.role.Leader? { LeaderOkKeeps(h, c, h, Put(c, i, s', {}), i); }
    QuietStep(h, c, i, s', {});
  }

  /** Sending messages without moving. */
  lemma SendOnly(h: History, c: Cluster, i: nat, out: set<Msg>)
    requires Inv(h, c) && i < |c.servers|
    requires forall m :: m in out ==> MsgOk(h, Put(c, i, c.servers[i], out), m)
    ensures Inv(h, Put(c, i, c.servers[i], out))
  {
    var s := c.servers[i];
    assert ServerOk(h, c, i);
    MovesSame(h, c, i, s, out);
    if s.role.Leader? { LeaderOkKeeps(h, c, h, Put(c, i, s, out), i); }
    QuietStep(h, c, i, s, out);
  }

  /** Entering a higher term as a follower, everything synced; h' may record a ballot. */
  lemma RaiseTerm(h: History, c: Cluster, h': History, i: nat, s': Server)
    requires Inv(h, c) && i < |c.servers| && Grows(h, h') && Shape(h', |c.servers|)
    requires h'.reigns == h.reigns && h'.acks == h.acks
    requires forall j: nat :: j < |c.servers| && j != i ==> h'.ballots[j] == h.ballots[j]
    requires var s := c.servers[i];
             && s.term < s'.term && s'.log == s.log && s'.synced == |s.log| && s'.commit == s.commit
             && s'.applied == s.applied
             && |s'.results| == |s.results| && |s'.peers| == |s.peers|
    requires !s'.role.PreCandidate? && !s'.role.Leader?
    requires CandidateOk(h', s', i)
    requires BallotsOk(h', s', i)
    requires HintOk(Put(c, i, s', {}), s'.leader, s'.term)
    ensures Inv(h', Put(c, i, s', {}))
  {
    var s, c' := c.servers[i], Put(c, i, s', {});
    assert ServerOk(h, c, i);
    RootedStable(h, h', s.log);
    CommitOkStable(h, h', s.log, s.log, s.term, s'.term, Settled(s));
    assert ServerOk(h', c', i);
    StepKeepsInv(h, c, h', c', i);
  }

  /** Entering a higher term as a follower without voting. */
  lemma AdoptTerm(h: History, c: Cluster, i: nat, s': Server)
    requires Inv(h, c) && i < |c.servers|
    requires var s := c.servers[i];
             && s.term < s'.term && s'.log == s.log && s'.synced == |s.log| && s'.commit == s.commit
             && s'.applied == s.applied
             && |s'.results| == |s.results| && |s'.peers| == |s.peers|
    requires s'.role.Follower?
    requires HintOk(c, s'.leader, s'.term)
    ensures Inv(h, Put(c, i, s', {}))
  {
    assert ServerOk(h, c, i);
    GrowsSelf(h, c);
    BallotsOkGrow(h, c.servers[i], s', i);
    RaiseTerm(h, c, h, i, s');
  }

  lemma CommitOkCut(h: History, log: seq<Entry>, term: nat, commit: int, log': seq<Entry>, term': nat, commit': int)
    requires CommitOk(h, log, term, commit) && commit' <= commit && term <= term'
    requires commit' < |log'| && Prefix(log', log)
    ensures CommitOk(h, log', term', commit')
  {
    if 0 <= commit' {
      var T: nat, a: nat :| Chosen(h, T, a) && T <= term && commit < a &&
                            log[..commit + 1] == LogOf(h, T)[..commit + 1];
      assert log'[..commit' + 1] == log[..commit + 1][..commit' + 1] == LogOf(h, T)[..commit' + 1];
    }
  }

  /** s as it comes back from a crash: at least the durable prefix, a term no lower. */
  ghost predicate Revived(s: Server, s': Server, n: nat)
  {
    exists d: nat, term: nat, votedFor: Option<nat>, applied: int ::
      && s.synced <= d <= |s.log| && s.term <= term && -1 <= applied <= s.applied
      && s' == Restart(s.(term := term, votedFor := votedFor), n, d, applied)
  }

  lemma RestartedLogOk(h: History, c: Cluster, i: nat, s': Server)
    requires Inv(h, c) && i < |c.servers| && Revived(c.servers[i], s', |c.servers|)
    ensures LogOk(h, s')
  {
    var s := c.servers[i];
    assert ServerOk(h, c, i);
    assert Prefix(s'.log, s.log);
    RootedPrefix(h, s'.log, s.log);
    if s'.log != [] { TermsAscend(h, c, s.log, |s'.log| - 1, |s.log| - 1); }
    CommitOkCut(h, s.log, s.term, Settled(s), s'.log, s'.term, Settled(s'));
  }

  /** A restart keeps at least the durable prefix; the header may already carry a higher term. */
  lemma RestartStep(h: History, c: Cluster, i: nat, s': Server)
    requires Inv(h, c) && i < |c.servers| && Revived(c.servers[i], s', |c.servers|)
    ensures Inv(h, Put(c, i, s', {}))
  {
    RestartedLogOk(h, c, i, s');
    assert ServerOk(h, c, i);
    BallotsOkGrow(h, c.servers[i], s', i);
    assert ServerOk(h, Put(c, i, s', {}), i);
    SameHistory(h, c, Put(c, i, s', {}), i);
  }

  /** Applying a committed entry settles nothing new. */
  lemma ApplyStep(h: History, c: Cluster, i: nat)
    requires Inv(h, c) && i < |c.servers|
    ensures Inv(h, Put(c, i, HandleApply(c.servers[i]).next, {}))
  {
    hide Inv, BallotsOk, CommitOk, Rooted, PeerOk;
    var s := c.servers[i];
    var s' := HandleApply(s).next;
    OneServer(h, c, i);
    MovesSame(h, c, i, s', {});
    if s.role.Leader? { LeaderOkKeeps(h, c, h, Put(c, i, s', {}), i); }
    QuietStep(h, c, i, s', {});
  }

  // ----- acknowledgements -----

  function WithAck(h: History, i: nat, T: nat, a: nat): History
    requires i < |h.acks|
  {
    var best: nat := if T in h.acks[i] then Max(h.acks[i][T], a) else a;
    var acked: map<nat, nat> := h.acks[i][T := best];
    h.(acks := h.acks[i := acked])
  }

  lemma BallotsOkWithAck(h: History, h': History, s: Server, i: nat, a0: nat)
    requires i < |h.ballots| && i < |h.acks| && Grows(h, h') && BallotsOk(h, s, i)
    requires h' == WithAck(h, i, s.term, a0)
    requires s.term in h.reigns && a0 <= |LogOf(h, s.term)| && a0 <= |Durable(s)|
    requires Prefix(Durable(s), LogOf(h, s.term))
    ensures BallotsOk(h', s, i)
  {
    forall U | U in h'.ballots[i] ensures Rooted(h', h'.ballots[i][U].log) {
      RootedStable(h, h', h.ballots[i][U].log);
    }
    forall U, T, a: nat | U in h'.ballots[i] && T in h'.acks[i] && T < U && a <= h'.acks[i][T]
      ensures Kept(h', h'.ballots[i][U].log, T, a, U)
    {
      KeptStable(h, h', h.ballots[i][U].log, T, a, U, U);
    }
    forall T, a: nat | T in h'.acks[i] && a <= h'.acks[i][T] ensures KeptDurably(h', s, T, a) {
      if T in h.acks[i] && a <= h.acks[i][T] {
        assert KeptDurably(h, s, T, a);
        KeptStable(h, h', Durable(s), T, a, s.term + 1, s.term + 1);
      } else {
        assert Prefix(Take(LogOf(h', T), a), Durable(s));
      }
    }
  }

  lemma AckMoves(h: History, c: Cluster, i: nat, h': History)
    requires Inv(h, c) && i < |c.servers| && h' == WithAck(h, i, c.servers[i].term, c.servers[i].synced)
    ensures Moves(h, c, h', c, i)
  {
    GrowsSelf(h, c);
    UnmovedEvolves(h, h', c.servers[i]);
  }

  lemma AckServerOk(h: History, c: Cluster, i: nat, h': History)
    requires Inv(h, c) && i < |c.servers| && h' == WithAck(h, i, c.servers[i].term, c.servers[i].synced)
    requires c.servers[i].term in h.reigns && Prefix(Durable(c.servers[i]), LogOf(h, c.servers[i].term))
    requires Moves(h, c, h', c, i)
    ensures ServerOk(h', c, i)
  {
    var s := c.servers[i];
    assert ServerOk(h, c, i);
    LogOkStable(h, h', s);
    BallotsOkWithAck(h, h', s, i, s.synced);
    if s.role.Leader? { LeaderOkKeeps(h, c, h', c, i); }
  }

  /** Record that replica i durably holds a prefix of its current leader's log. */
  lemma RecordAck(h: History, c: Cluster, i: nat) returns (h': History)
    requires Inv(h, c) && i < |c.servers|
    requires c.servers[i].term in h.reigns && Prefix(Durable(c.servers[i]), LogOf(h, c.servers[i].term))
    ensures h' == WithAck(h, i, c.servers[i].term, c.servers[i].synced)
    ensures Grows(h, h') && Inv(h', c)
  {
    h' := WithAck(h, i, c.servers[i].term, c.servers[i].synced);
    AckMoves(h, c, i, h');
    AckServerOk(h, c, i, h');
    StepKeepsInv(h, c, h', c, i);
  }
}
