/** What stays true when one replica takes a step: histories only grow, and facts about the
    replicas that did not move, and about messages already sent, survive. */
module Stability {
  import opened Majority
  import opened Protocol
  import opened Cluster
  import opened History

  ghost predicate ReignGrows(r: Reign, r': Reign)
  {
    r'.id == r.id && r'.voters == r.voters && r'.initLen == r.initLen <= |r.log| && Prefix(r.log, r'.log)
  }

  ghost predicate Grows(h: History, h': History)
  {
    && |h'.ballots| == |h.ballots| && |h'.acks| == |h.acks|
    && (forall T :: T in h.reigns ==> T in h'.reigns && ReignGrows(h.reigns[T], h'.reigns[T]))
    && (forall i, U :: 0 <= i < |h.ballots| && U in h.ballots[i] ==>
          U in h'.ballots[i] && h'.ballots[i][U] == h.ballots[i][U])
    && (forall i, T :: 0 <= i < |h.acks| && T in h.acks[i] ==> T in h'.acks[i] && h.acks[i][T] <= h'.acks[i][T])
  }

  /** How one replica may move as far as the others and the messages can tell. */
  ghost predicate Evolves(h: History, h': History, s: Server, s': Server)
  {
    && s.term <= s'.term
    && (s'.term == s.term && s'.role.Candidate? ==> s.role.Candidate? && s'.log == s.log)
    && (s'.term == s.term && s.term in h.reigns && Conflicts(h', s') ==> Conflicts(h, s) && |s'.log| <= |s.log|)
  }

  lemma GrowsTransitive(h: History, h': History, h'': History)
    requires Grows(h, h') && Grows(h', h'')
    ensures Grows(h, h'')
  {
    forall T | T in h.reigns ensures T in h''.reigns && ReignGrows(h.reigns[T], h''.reigns[T]) {
      assert ReignGrows(h.reigns[T], h'.reigns[T]) && ReignGrows(h'.reigns[T], h''.reigns[T]);
    }
  }

  lemma RootedStable(h: History, h': History, x: seq<Entry>)
    requires Grows(h, h') && Rooted(h, x)
    ensures Rooted(h', x)
  {
    forall k: nat | k < |x| ensures OriginAt(h', x, k) {
      assert OriginAt(h, x, k);
      assert ReignGrows(h.reigns[x[k].term], h'.reigns[x[k].term]);
    }
  }

  lemma LogsStable(h: History, h': History, T: nat, a: nat)
    requires Grows(h, h') && T in h.reigns && a <= |LogOf(h, T)|
    ensures T in h'.reigns && Take(LogOf(h', T), a) == Take(LogOf(h, T), a) && InitLog(h', T) == InitLog(h, T)
  {
    assert ReignGrows(h.reigns[T], h'.reigns[T]);
  }

  lemma KeptStable(h: History, h': History, x: seq<Entry>, T: nat, a: nat, bound: nat, bound': nat)
    requires Grows(h, h') && T in h.reigns && a <= |LogOf(h, T)| && bound <= bound'
    requires Kept(h, x, T, a, bound)
    ensures T in h'.reigns && Kept(h', x, T, a, bound')
  {
    LogsStable(h, h', T, a);
    if !Prefix(Take(LogOf(h, T), a), x) {
      var W :| W in h.reigns && T < W < bound && Lacks(h, W, T, a);
      LogsStable(h, h', W, 0);
      assert Lacks(h', W, T, a);
    }
  }

  lemma ChosenStable(h: History, h': History, T: nat, a: nat)
    requires Grows(h, h') && Chosen(h, T, a)
    ensures Chosen(h', T, a) && LogOf(h', T)[..a] == LogOf(h, T)[..a]
  {
    assert ReignGrows(h.reigns[T], h'.reigns[T]);
    MajorityGrows(Ackers(h, T, a), Ackers(h', T, a), |h.acks|);
  }

  lemma CommitOkStable(h: History, h': History, log: seq<Entry>, log': seq<Entry>, term: nat, term': nat, commit: int)
    requires Grows(h, h') && CommitOk(h, log, term, commit) && term <= term'
    requires 0 <= commit < |log| ==> commit < |log'| && log'[..commit + 1] == log[..commit + 1]
    ensures CommitOk(h', log', term', commit)
  {
    if 0 <= commit {
      var T: nat, a: nat :| Chosen(h, T, a) && T <= term && commit < a &&
                            log[..commit + 1] == LogOf(h, T)[..commit + 1];
      ChosenStable(h, h', T, a);
      assert LogOf(h', T)[..commit + 1] == LogOf(h', T)[..a][..commit + 1];
      assert LogOf(h, T)[..commit + 1] == LogOf(h, T)[..a][..commit + 1];
    }
  }

  lemma InReachStable(h: History, h': History, s: Server, s': Server, T: nat, next: int)
    requires Grows(h, h') && Evolves(h, h', s, s') && T in h.reigns
    requires InReach(h, s, T, next)
    ensures T in h'.reigns && InReach(h', s', T, next)
  {
    assert ReignGrows(h.reigns[T], h'.reigns[T]);
  }

  lemma UnmovedEvolves(h: History, h': History, s: Server)
    requires Grows(h, h')
    ensures Evolves(h, h', s, s)
  {
    if s.term in h.reigns {
      assert ReignGrows(h.reigns[s.term], h'.reigns[s.term]);
    }
  }

  lemma TermAtStable(h: History, h': History, c': Cluster, T: nat, k: nat)
    requires Grows(h, h') && T in h.reigns && T in h'.reigns && ReignOk(h', c', T)
    ensures TermAt(h', T, k) == TermAt(h, T, k)
  {
    assert ReignGrows(h.reigns[T], h'.reigns[T]);
  }

  /** The shape of a step: replica i moved from s to s', the history and the messages grew. */
  ghost predicate Moves(h: History, c: Cluster, h': History, c': Cluster, i: nat)
  {
    && i < |c.servers| == |c'.servers|
    && Shape(h, |c.servers|) && Shape(h', |c.servers|)
    && Grows(h, h')
    && (forall j: nat :: j < |c.servers| && j != i ==> c'.servers[j] == c.servers[j])
    && (forall j: nat :: j < |c.servers| && j != i ==> h'.ballots[j] == h.ballots[j] && h'.acks[j] == h.acks[j])
    && Evolves(h, h', c.servers[i], c'.servers[i])
    && (forall T :: T in h'.reigns && (T in h.reigns ==> h'.reigns[T] != h.reigns[T]) ==> h'.reigns[T].id == i)
    && c.msgs <= c'.msgs
  }

  lemma AllEvolve(h: History, c: Cluster, h': History, c': Cluster, i: nat, j: nat)
    requires Moves(h, c, h', c', i) && j < |c.servers|
    ensures Evolves(h, h', c.servers[j], c'.servers[j])
  {
    if j != i { UnmovedEvolves(h, h', c.servers[j]); }
  }

  lemma MsgStable(h: History, c: Cluster, h': History, c': Cluster, i: nat, m: Msg)
    requires Moves(h, c, h', c', i) && MsgOk(h, c, m)
    requires m.AppendReq? && m.term in h'.reigns ==> ReignOk(h', c', m.term)
    ensures MsgOk(h', c', m)
  {
    AllEvolve(h, c, h', c', i, m.src);
    if !m.PreVoteReq? && !m.VoteReq? {
      AllEvolve(h, c, h', c', i, m.dst);
    }
    match m
    case PreVoteReq(_, _, _, _) =>
    case PreVoteReply(_, _, _) =>
    case VoteReq(_, _, _, _) =>
    case VoteReply(_, _, _, _, _, _) => HintStable(h, c, h', c', i, m.hint, m.term, m.term);
    case AppendReq(_, _, _, _, _, _, _, _) =>
      assert ReignGrows(h.reigns[m.term], h'.reigns[m.term]);
      InReachStable(h, h', c.servers[m.dst], c'.servers[m.dst], m.term, m.prevIdx + 1);
      TermAtStable(h, h', c', m.term, m.prevIdx + 1);
      CommitOkStable(h, h', LogOf(h, m.term), LogOf(h', m.term), m.term, m.term, m.commit);
    case AppendReply(_, _, _, _, _, _, _, _, _, _) =>
      if !m.stale {
        assert ReignGrows(h.reigns[m.term], h'.reigns[m.term]);
        if m.nonMatching {
          InReachStable(h, h', c.servers[m.src], c'.servers[m.src], m.term, NextAfter(m));
        }
      }
    case SyncIdx(_, _, _, _) =>
  }

  lemma HintStable(h: History, c: Cluster, h': History, c': Cluster, i: nat, hint: Option<nat>, term: nat, term': nat)
    requires Moves(h, c, h', c', i) && HintOk(c, hint, term) && term' <= term
    ensures HintOk(c', hint, term')
  {
    if hint.Some? { AllEvolve(h, c, h', c', i, hint.value); }
  }

  lemma BallotsStable(h: History, h': History, s: Server, s': Server, j: nat)
    requires Grows(h, h') && j < |h.ballots| && j < |h.acks|
    requires BallotsOk(h, s, j) && s.term <= s'.term && Durable(s') == Durable(s)
    requires h'.ballots[j] == h.ballots[j] && h'.acks[j] == h.acks[j]
    ensures BallotsOk(h', s', j)
  {
    forall U | U in h'.ballots[j] ensures Rooted(h', h'.ballots[j][U].log) {
      RootedStable(h, h', h.ballots[j][U].log);
    }
    forall T | T in h'.acks[j] ensures T in h'.reigns && h'.acks[j][T] <= |LogOf(h', T)| {
      assert ReignGrows(h.reigns[T], h'.reigns[T]);
    }
    forall U, T, a: nat | U in h'.ballots[j] && T in h'.acks[j] && T < U && a <= h'.acks[j][T]
      ensures Kept(h', h'.ballots[j][U].log, T, a, U)
    {
      KeptStable(h, h', h.ballots[j][U].log, T, a, U, U);
    }
    forall T, a: nat | T in h'.acks[j] && a <= h'.acks[j][T] ensures KeptDurably(h', s', T, a) {
      assert KeptDurably(h, s, T, a);
      KeptStable(h, h', Durable(s), T, a, s.term + 1, s'.term + 1);
    }
  }

  lemma LogOkStable(h: History, h': History, s: Server)
    requires Grows(h, h') && LogOk(h, s)
    ensures LogOk(h', s)
  {
    RootedStable(h, h', s.log);
    CommitOkStable(h, h', s.log, s.log, s.term, s.term, Settled(s));
    if s.term in h.reigns {
      assert ReignGrows(h.reigns[s.term], h'.reigns[s.term]);
    }
  }

  lemma PeerStable(h: History, c: Cluster, h': History, c': Cluster, i: nat, s: Server, j: nat)
    requires Moves(h, c, h', c', i)
    requires s.term in h.reigns && j < |s.peers| && j < |c.servers| && PeerOk(h, c, s, j)
    ensures s.term in h'.reigns && PeerOk(h', c', s, j)
  {
    AllEvolve(h, c, h', c', i, j);
    InReachStable(h, h', c.servers[j], c'.servers[j], s.term, s.peers[j].nextIdx);
  }

  lemma OtherStable(h: History, c: Cluster, h': History, c': Cluster, i: nat, j: nat)
    requires Moves(h, c, h', c', i) && j < |c.servers| && j != i && ServerOk(h, c, j)
    ensures ServerOk(h', c', j)
  {
    var s := c.servers[j];
    LogOkStable(h, h', s);
    BallotsStable(h, h', s, s, j);
    HintStable(h, c, h', c', i, s.leader, s.term, s.term);
    if s.role.Leader? {
      assert h'.reigns[s.term] == h.reigns[s.term];
      forall k: nat | k < |s.peers| ensures PeerOk(h', c', s, k) {
        PeerStable(h, c, h', c', i, s, k);
      }
    }
  }

  /** A reign that did not change is still in order. */
  lemma ReignStable(h: History, c: Cluster, h': History, c': Cluster, i: nat, T: nat)
    requires Moves(h, c, h', c', i)
    requires T in h.reigns && ReignOk(h, c, T) && h'.reigns[T] == h.reigns[T]
    ensures ReignOk(h', c', T)
  {
    AllEvolve(h, c, h', c', i, h.reigns[T].id);
    RootedStable(h, h', LogOf(h, T));
  }

  /** Everything a step has to establish. */
  lemma StepKeepsInv(h: History, c: Cluster, h': History, c': Cluster, i: nat)
    requires Inv(h, c) && Moves(h, c, h', c', i)
    requires forall T :: T in h'.reigns && (T in h.reigns ==> h'.reigns[T] != h.reigns[T]) ==> ReignOk(h', c', T)
    requires ServerOk(h', c', i)
    requires forall m :: m in c'.msgs && m !in c.msgs ==> MsgOk(h', c', m)
    ensures Inv(h', c')
  {
    forall T | T in h'.reigns ensures ReignOk(h', c', T) {
      if T in h.reigns && h'.reigns[T] == h.reigns[T] { ReignStable(h, c, h', c', i, T); }
    }
    forall j: nat | j < |c'.servers| ensures ServerOk(h', c', j) {
      if j != i { OtherStable(h, c, h', c', i, j); }
    }
    forall m | m in c'.msgs ensures MsgOk(h', c', m) {
      if m in c.msgs { MsgStable(h, c, h', c', i, m); }
    }
  }

  /** The common case: the history does not change. */
  lemma SameHistory(h: History, c: Cluster, c': Cluster, i: nat)
    requires Inv(h, c)
    requires i < |c.servers| == |c'.servers| && c.msgs <= c'.msgs
    requires forall j: nat :: j < |c.servers| && j != i ==> c'.servers[j] == c.servers[j]
    requires Evolves(h, h, c.servers[i], c'.servers[i])
    requires ServerOk(h, c', i)
    requires forall m :: m in c'.msgs && m !in c.msgs ==> MsgOk(h, c', m)
    ensures Inv(h, c')
  {
    assert Grows(h, h) by {
      forall T | T in h.reigns ensures ReignGrows(h.reigns[T], h.reigns[T]) {
        assert ReignOk(h, c, T);
      }
    }
    StepKeepsInv(h, c, h, c', i);
  }
}
