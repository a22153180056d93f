/** What logs guarantee where replies are counted only in the candidacy that asked for them: a leader only
    appends to its log, and two logs with the same term at an index are the same up to it. */
module Logs {
  import opened Majority
  import opened Protocol
  import opened Cluster
  import opened Votes
  import Persistence

  /** For each term with a leader so far, the leader's log when last in office. */
  type Offices = map<nat, seq<Entry>>

  /** Entry k of x, and all before it, are what the leader of its term had. */
  ghost predicate OriginAt(g: Offices, x: seq<Entry>, k: nat)
    requires k < |x|
  {
    x[k].term in g && k < |g[x[k].term]| && x[..k + 1] == g[x[k].term][..k + 1]
  }

  ghost predicate Rooted(g: Offices, x: seq<Entry>)
  {
    forall k: nat :: k < |x| ==> OriginAt(g, x, k)
  }

  ghost predicate GrowsTo(g: Offices, g': Offices)
  {
    forall t :: t in g ==> t in g' && Prefix(g[t], g'[t])
  }

  lemma Matching(g: Offices, x: seq<Entry>, y: seq<Entry>, k: nat)
    requires Rooted(g, x) && Rooted(g, y) && k < |x| && k < |y| && x[k].term == y[k].term
    ensures x[..k + 1] == y[..k + 1]
  {
    assert OriginAt(g, x, k) && OriginAt(g, y, k);
  }

  lemma RootedCut(g: Offices, x: seq<Entry>, n: nat)
    requires Rooted(g, x) && n <= |x|
    ensures Rooted(g, x[..n])
  {
    forall k: nat | k < n ensures OriginAt(g, x[..n], k) {
      assert OriginAt(g, x, k);
      assert x[..n][..k + 1] == x[..k + 1];
    }
  }

  lemma RootedGrows(g: Offices, g': Offices, x: seq<Entry>)
    requires GrowsTo(g, g') && Rooted(g, x)
    ensures Rooted(g', x)
  {
    forall k: nat | k < |x| ensures OriginAt(g', x, k) {
      assert OriginAt(g, x, k);
      var t := x[k].term;
      assert g'[t][..k + 1] == g'[t][..|g[t]|][..k + 1];
    }
  }

  lemma GrowsOn(g: Offices, g': Offices, g'': Offices)
    requires GrowsTo(g, g') && GrowsTo(g', g'')
    ensures GrowsTo(g, g'')
  {
    forall t | t in g ensures t in g'' && Prefix(g[t], g''[t]) {
      assert g''[t][..|g[t]|] == g''[t][..|g'[t]|][..|g[t]|];
    }
  }

  // ----- the invariant -----

  /** What a leader caches for a peer: the term of the entry before the next one, unless it is to be re-read. */
  predicate SlotOk(log: seq<Entry>, p: Peer)
  {
    0 <= p.nextIdx && (0 <= p.prevTerm && 0 < p.nextIdx ==> p.nextIdx <= |log| && p.prevTerm == log[p.nextIdx - 1].term)
  }

  ghost predicate LeaderOk(g: Offices, s: Server)
  {
    s.role.Leader? ==>
      s.term in g && g[s.term] == s.log && forall j :: 0 <= j < |s.peers| ==> SlotOk(s.log, s.peers[j])
  }

  /** A request with an entry carries the leader's entry, its term and the term before it. */
  ghost predicate RequestOk(g: Offices, m: Msg)
  {
    m.AppendReq? && m.entry.Some? ==>
      && m.term in g && -1 <= m.prevIdx && m.prevIdx + 1 < |g[m.term]|
      && m.entry.value == g[m.term][m.prevIdx + 1] && m.logTerm == m.entry.value.term
      && (0 <= m.prevIdx ==> m.prevTerm == g[m.term][m.prevIdx].term)
  }

  /** Server i was elected in term, and is not a candidate for it any more. */
  ghost predicate Holds(c: Cluster, i: nat, term: nat)
  {
    && i < |c.servers| && Elected(c, i, term) && term <= c.servers[i].term
    && (c.servers[i].term == term ==> !c.servers[i].role.Candidate?)
  }

  ghost predicate OfficeOk(g: Offices, c: Cluster, t: nat)
    requires t in g
  {
    Rooted(g, g[t]) && exists i: nat :: Holds(c, i, t)
  }

  ghost predicate LogsOk(g: Offices, c: Cluster)
  {
    && (forall t :: t in g ==> OfficeOk(g, c, t))
    && (forall i: nat :: i < |c.servers| ==> Rooted(g, c.servers[i].log) && LeaderOk(g, c.servers[i]))
    && forall m :: m in c.msgs ==> RequestOk(g, m)
  }

  // ----- steps that leave the offices alone -----

  ghost predicate QuietLog(g: Offices, s: Server, s': Server, out: set<Msg>)
  {
    && Rooted(g, s'.log) && s.term <= s'.term && LeaderOk(g, s')
    && (s'.role.Candidate? ==> (s.role.Candidate? && s'.term == s.term) || s.term < s'.term)
    && forall m :: m in out ==> RequestOk(g, m)
  }

  lemma HoldsOn(c: Cluster, i: nat, s': Server, out: set<Msg>, j: nat, t: nat)
    requires i < |c.servers| && Holds(c, j, t) && c.servers[i].term <= s'.term
    requires var s := c.servers[i]; s'.role.Candidate? ==> (s.role.Candidate? && s'.term == s.term) || s.term < s'.term
    ensures Holds(Moved(c, i, s', out), j, t)
  {
    hide Elected;
    ElectedKept(c, Moved(c, i, s', out), j, t);
  }

  lemma QuietLogStep(g: Offices, c: Cluster, i: nat, s': Server, out: set<Msg>)
    requires LogsOk(g, c) && i < |c.servers| && QuietLog(g, c.servers[i], s', out)
    ensures LogsOk(g, Moved(c, i, s', out))
  {
    hide Rooted, LeaderOk, RequestOk, Holds, Elected;
    var c' := Moved(c, i, s', out);
    forall t | t in g ensures OfficeOk(g, c', t) {
      assert OfficeOk(g, c, t);
      var j: nat :| Holds(c, j, t);
      HoldsOn(c, i, s', out, j, t);
    }
  }

  // ----- a leader's log grows, or a new leader's begins -----

  /** The log of term t after the leader's log was x. */
  function Extended(g: Offices, t: nat, x: seq<Entry>, e: Entry): Offices
  {
    g[t := x + [e]]
  }

  lemma ExtendedGrows(g: Offices, t: nat, x: seq<Entry>, e: Entry)
    requires Rooted(g, x) && e.term == t && (t in g ==> g[t] == x)
    ensures var g' := Extended(g, t, x, e); GrowsTo(g, g') && Rooted(g', x + [e])
  {
    var g' := Extended(g, t, x, e);
    assert GrowsTo(g, g');
    RootedGrows(g, g', x);
    forall k: nat | k < |x + [e]| ensures OriginAt(g', x + [e], k) {
      if k < |x| {
        assert OriginAt(g', x, k);
        assert (x + [e])[..k + 1] == x[..k + 1];
      }
    }
  }

  lemma RequestGrows(g: Offices, g': Offices, m: Msg)
    requires GrowsTo(g, g') && RequestOk(g, m)
    ensures RequestOk(g', m)
  {
    if m.AppendReq? && m.entry.Some? {
      var t, n := m.term, m.prevIdx + 1;
      assert g'[t][n] == g'[t][..|g[t]|][n];
      if 0 < n { assert g'[t][n - 1] == g'[t][..|g[t]|][n - 1]; }
    }
  }

  lemma GrowsKeeps(g: Offices, g': Offices, c: Cluster, t: nat)
    requires LogsOk(g, c) && GrowsTo(g, g') && t in g && g'[t] == g[t]
    ensures OfficeOk(g', c, t)
  {
    hide Rooted, Holds, RequestOk, GrowsTo;
    assert OfficeOk(g, c, t);
    RootedGrows(g, g', g[t]);
  }

  /** Leader s' has one more entry than it had, or than it began with. */
  lemma ExtendStep(g: Offices, c: Cluster, i: nat, s': Server, x: seq<Entry>, e: Entry)
    requires LogsOk(g, c) && i < |c.servers| && Rooted(g, x) && e.term == s'.term && s'.log == x + [e]
    requires s'.role.Leader? && s'.term == c.servers[i].term && Elected(c, i, s'.term)
    requires s'.term in g ==> g[s'.term] == x
    requires forall j: nat :: j < |c.servers| && j != i && c.servers[j].role.Leader? ==> c.servers[j].term != s'.term
    requires forall j :: 0 <= j < |s'.peers| ==> SlotOk(s'.log, s'.peers[j])
    ensures LogsOk(Extended(g, s'.term, x, e), Moved(c, i, s', {})) && GrowsTo(g, Extended(g, s'.term, x, e))
  {
    var g', c' := Extended(g, s'.term, x, e), Moved(c, i, s', {});
    ExtendedGrows(g, s'.term, x, e);
    ElectedKept(c, c', i, s'.term);
    assert Holds(c', i, s'.term) by { hide Elected; }
    hide Rooted, RequestOk, Elected, GrowsTo, SlotOk;
    forall t | t in g' ensures OfficeOk(g', c', t) {
      if t != s'.term {
        GrowsKeeps(g, g', c, t);
        var j: nat :| Holds(c, j, t);
        HoldsOn(c, i, s', {}, j, t);
      }
    }
    forall j: nat | j < |c.servers| ensures Rooted(g', c'.servers[j].log) && LeaderOk(g', c'.servers[j]) {
      if j != i { RootedGrows(g, g', c.servers[j].log); }
    }
    forall m | m in c'.msgs ensures RequestOk(g', m) { RequestGrows(g, g', m); }
  }

  // ----- a follower's log -----

  /** Only a follower's log is cut or appended to. */
  lemma PreparedLog(s: Server, m: Msg)
    requires m.AppendReq? && -1 <= m.prevIdx
    ensures var s2 := PrepareLog(s, m).0;
            && s2 == s.(log := s2.log, synced := s2.synced)
            && |s2.log| <= |s.log| && s2.log == s.log[..|s2.log|] && (!s.role.Follower? ==> s2.log == s.log)
  {
    hide CheckTail, Stored, LastTerm, Settled;
  }

  lemma MatchedLog(g: Offices, x: seq<Entry>, m: Msg)
    requires m.AppendReq? && m.entry.Some? && RequestOk(g, m) && Rooted(g, x) && Rooted(g, g[m.term])
    requires |x| == m.prevIdx + 1 && LastTerm(x) == m.prevTerm
    ensures Rooted(g, x + [m.entry.value.(term := m.logTerm)])
  {
    var y, n := g[m.term], m.prevIdx + 1;
    if 0 < n { Matching(g, x, y, n - 1); }
    assert x == y[..n];
    assert x + [y[n]] == y[..n + 1];
    RootedCut(g, y, n + 1);
  }

  lemma ProceedLog(g: Offices, s: Server, i: nat, m: Msg)
    requires m.AppendReq? && -1 <= m.prevIdx && RequestOk(g, m) && Rooted(g, s.log)
    requires m.term in g ==> Rooted(g, g[m.term])
    ensures var o := Proceed(s, i, m);
            && Rooted(g, o.next.log) && (!s.role.Follower? ==> o.next.log == s.log)
            && o.next == s.(log := o.next.log, synced := o.next.synced, commit := o.next.commit)
            && (o.Done? ==> forall r :: r in o.out ==> r.AppendReply?)
  {
    PreparedLog(s, m);
    var s2, check := PrepareLog(s, m).0, PrepareLog(s, m).1;
    RootedCut(g, s.log, |s2.log|);
    PreparedMatch(s, m);
    hide PrepareLog, Rooted, LastTerm;
    if check.Matches? && m.entry.Some? { MatchedLog(g, s2.log, m); }
  }

  lemma PreparedMatch(s: Server, m: Msg)
    requires m.AppendReq? && -1 <= m.prevIdx
    ensures var (s2, check) := PrepareLog(s, m);
            check.Matches? ==> |s2.log| == m.prevIdx + 1 && LastTerm(s2.log) == m.prevTerm
  {
    hide Settled, Stored;
  }

  lemma RequestLog(g: Offices, s: Server, i: nat, m: Msg)
    requires m.AppendReq? && m.src != i && RequestOk(g, m) && Rooted(g, s.log) && LeaderOk(g, s)
    requires m.term in g ==> Rooted(g, g[m.term])
    ensures var o := HandleAppendReq(s, i, m);
            Rooted(g, o.next.log) && s.term <= o.next.term && (o.Done? ==> QuietLog(g, s, o.next, o.out))
  {
    hide Proceed, Rooted;
    if -1 <= m.prevIdx && s.term <= m.term {
      var s1 := AdoptLeader(s, i, m);
      ProceedLog(g, s1, i, m);
    }
  }

  // ----- a leader's table and its messages -----

  lemma SlotsKept(log: seq<Entry>, log': seq<Entry>, p: Peer)
    requires SlotOk(log, p) && Prefix(log, log')
    ensures SlotOk(log', p)
  {
    if 0 <= p.prevTerm && 0 < p.nextIdx { assert log'[..|log|][p.nextIdx - 1] == log[p.nextIdx - 1]; }
  }

  lemma TryCommitSlots(strict: bool, s: Server, i: nat)
    requires i < |s.peers| && forall j :: 0 <= j < |s.peers| ==> SlotOk(s.log, s.peers[j])
    ensures var o := TryCommit(strict, s, i);
            |o.next.peers| == |s.peers| && forall j :: 0 <= j < |s.peers| ==> SlotOk(s.log, o.next.peers[j])
  {
    hide MajorityIndex, CountedAll;
    var d := Durable(s);
    assert d == s.log[..|d|];
  }

  lemma UpdateSyncSlots(strict: bool, s: Server, i: nat, src: nat, term: int, syncedIdx: int)
    requires i < |s.peers| && src < |s.peers| && forall j :: 0 <= j < |s.peers| ==> SlotOk(s.log, s.peers[j])
    ensures var o := UpdateSync(strict, s, i, src, term, syncedIdx);
            |o.next.peers| == |s.peers| && forall j :: 0 <= j < |s.peers| ==> SlotOk(s.log, o.next.peers[j])
  {
    hide TryCommit;
    TryCommitSlots(strict, s.(peers := s.peers[src := Noted(s.peers[src], syncedIdx)]), i);
  }

  lemma ReplyLog(strict: bool, g: Offices, s: Server, i: nat, m: Msg)
    requires i < |s.peers| && m.src < |s.peers| && (m.AppendReply? || m.SyncIdx?) && Rooted(g, s.log) && LeaderOk(g, s)
    ensures var o := HandleMessage(strict, s, i, |s.peers|, m);
            Rooted(g, o.next.log) && s.term <= o.next.term && (o.Done? ==> QuietLog(g, s, o.next, o.out))
  {
    hide UpdateSync, Rooted;
    if s.role.Leader? && m.AppendReply? && !m.stale {
      var s1 := s.(peers := s.peers[m.src := Advanced(s.peers[m.src], m)]);
      UpdateSyncKeeps(strict, s1, i, m.src, m.term, m.syncedIdx);
      UpdateSyncSlots(strict, s1, i, m.src, m.term, m.syncedIdx);
    } else if s.role.Leader? && m.SyncIdx? {
      UpdateSyncKeeps(strict, s, i, m.src, m.term, m.syncedIdx);
      UpdateSyncSlots(strict, s, i, m.src, m.term, m.syncedIdx);
    }
  }

  lemma SendLog(g: Offices, s: Server, i: nat, dst: nat, heartbeat: bool)
    requires dst < |s.peers| && Rooted(g, s.log) && LeaderOk(g, s)
    ensures var o := HandleSend(s, i, dst, heartbeat);
            Rooted(g, o.next.log) && s.term <= o.next.term && (o.Done? ==> QuietLog(g, s, o.next, o.out))
  {
    hide Rooted;
    if s.role.Leader? { assert SlotOk(s.log, s.peers[dst]); }
  }

  // ----- actions -----

  /** The steps in which a leader's log changes, or begins. */
  predicate Extends(strict: bool, c: Cluster, i: nat, a: Action)
    requires Shaped(c) && i < |c.servers| && Possible(c, i, a)
  {
    a.Write? || (a.Deliver? && a.m.VoteReply? && Act(strict, c, i, a).next.role.Leader? && !c.servers[i].role.Leader?)
  }

  lemma PreVotingLog(g: Offices, s: Server, i: nat, n: nat, m: Msg)
    requires m.PreVoteReq? || m.PreVoteReply? || m.VoteReq?
    requires Rooted(g, s.log) && LeaderOk(g, s) && i < n == |s.peers| && m.src < n
    ensures var o := HandleMessage(true, s, i, n, m);
            Rooted(g, o.next.log) && s.term <= o.next.term && (o.Done? ==> QuietLog(g, s, o.next, o.out))
  {
    hide Rooted, LastTerm, IsMajority, YesVotes, SlotOk;
  }

  /** A vote that does not make a leader. */
  lemma VoteLog(g: Offices, s: Server, i: nat, n: nat, m: Msg)
    requires m.VoteReply? && Rooted(g, s.log) && LeaderOk(g, s)
    ensures var o := HandleVoteReply(s, i, n, m);
            && (o.Panic? ==> Rooted(g, o.next.log) && s.term <= o.next.term)
            && (o.Done? && (s.role.Leader? || !o.next.role.Leader?) ==> QuietLog(g, s, o.next, o.out))
  {
    hide Rooted, LastTerm, IsMajority, YesVotes, SlotOk;
  }

  lemma DeliverLog(strict: bool, g: Offices, c: Cluster, i: nat, m: Msg)
    requires Shaped(c) && LogsOk(g, c) && i < |c.servers| && Possible(c, i, Deliver(m))
    ensures var o := Act(strict, c, i, Deliver(m));
            && (o.Panic? ==> Rooted(g, o.next.log) && c.servers[i].term <= o.next.term)
            && (o.Done? && !Extends(strict, c, i, Deliver(m)) ==> QuietLog(g, c.servers[i], o.next, o.out))
  {
    LeadersLog(g, c, if m.AppendReq? then m.term else 0);
    var s := c.servers[i];
    hide Rooted, QuietLog, HandleAppendReq, HandleAppendReply, HandleSyncIdx, HandleVoteReq, HandleVoteReply;
    hide HandlePreVoteReq, HandlePreVoteReply, OfficeOk, LeaderOk, RequestOk;
    if m.AppendReq? {
      RequestLog(g, s, i, m);
    } else if m.AppendReply? || m.SyncIdx? {
      ReplyLog(strict, g, s, i, m);
    } else if m.VoteReply? {
      VoteLog(g, s, i, |c.servers|, m);
    } else {
      PreVotingLog(g, s, i, |c.servers|, m);
    }
  }

  lemma LocalLog(strict: bool, g: Offices, c: Cluster, i: nat, a: Action)
    requires Shaped(c) && LogsOk(g, c) && i < |c.servers| && Possible(c, i, a) && !a.Deliver?
    ensures var o := Act(strict, c, i, a);
            && (o.Panic? ==> Rooted(g, o.next.log) && c.servers[i].term <= o.next.term)
            && (o.Done? && !a.Write? ==> QuietLog(g, c.servers[i], o.next, o.out))
  {
    hide Rooted, HandleSend, TryCommit, LastTerm, OfficeOk, SlotOk;
    var s := c.servers[i];
    if a.Send? { SendLog(g, s, i, a.dst, a.heartbeat); }
    else if a.Advance? {
      TryCommitKeeps(strict, s, i);
      TryCommitSlots(strict, s, i);
    }
  }

  lemma LeadersLog(g: Offices, c: Cluster, t: nat)
    requires LogsOk(g, c)
    ensures t in g ==> Rooted(g, g[t])
  {
    hide Rooted, Holds, LeaderOk, RequestOk;
    if t in g { assert OfficeOk(g, c, t); }
  }

  /** No other server leads the term of an elected one. */
  lemma AloneInTerm(c: Cluster, i: nat, t: nat)
    requires AllOk(c) && Elected(c, i, t)
    ensures forall j: nat :: j < |c.servers| && j != i && c.servers[j].role.Leader? ==> c.servers[j].term != t
  {
    forall j: nat | j < |c.servers| && j != i && c.servers[j].role.Leader? ensures c.servers[j].term != t {
      assert RoleOk(c, j);
      if c.servers[j].term == t { Unique(c, i, j, t); }
    }
    hide Elected, VotesOk, RoleOk;
  }

  lemma WriteLog(g: Offices, c: Cluster, i: nat, data: seq<int>, sizes: seq<nat>)
    requires LogsOk(g, c) && AllOk(c) && i < |c.servers| && c.servers[i].role.Leader?
    requires HandleWrite(c.servers[i], data, sizes).Done?
    ensures var s, o := c.servers[i], HandleWrite(c.servers[i], data, sizes);
            var g' := Extended(g, s.term, s.log, Entry(s.term, false, data, sizes));
            o.out == {} && LogsOk(g', Moved(c, i, o.next, {})) && GrowsTo(g, g')
  {
    var s, e := c.servers[i], Entry(c.servers[i].term, false, data, sizes);
    var s' := AppendEntry(s, e);
    assert RoleOk(c, i);
    AloneInTerm(c, i, s.term);
    assert LeaderOk(g, s);
    forall j | 0 <= j < |s.peers| ensures SlotOk(s'.log, s.peers[j]) { SlotsKept(s.log, s'.log, s.peers[j]); }
    hide SlotOk, Elected, Stood, VotesOk;
    ExtendStep(g, c, i, s', s.log, e);
  }

  lemma NotYetHeld(g: Offices, c: Cluster, i: nat)
    requires LogsOk(g, c) && AllOk(c) && i < |c.servers| && c.servers[i].role.Candidate?
    requires Elected(c, i, c.servers[i].term)
    ensures c.servers[i].term !in g
  {
    hide Rooted, LeaderOk, RequestOk, VotesOk, RoleOk, Elected;
    var t := c.servers[i].term;
    if t in g {
      assert OfficeOk(g, c, t);
      var j: nat :| Holds(c, j, t);
      Unique(c, i, j, t);
    }
  }

  lemma WinLog(g: Offices, c: Cluster, i: nat)
    requires LogsOk(g, c) && AllOk(c) && i < |c.servers| && c.servers[i].role.Candidate?
    requires Elected(c, i, c.servers[i].term)
    requires BecomeLeader(c.servers[i], i, |c.servers|).Done?
    ensures var s, o := c.servers[i], BecomeLeader(c.servers[i], i, |c.servers|);
            var g' := Extended(g, s.term, s.log, Marker(s.term));
            o.out == {} && LogsOk(g', Moved(c, i, o.next, {})) && GrowsTo(g, g')
  {
    var s := c.servers[i];
    var s' := BecomeLeader(s, i, |c.servers|).next;
    assert Durable(s) == s.log;
    NotYetHeld(g, c, i);
    AloneInTerm(c, i, s.term);
    assert forall j :: 0 <= j < |s'.peers| ==> s'.peers[j] == InitPeer(s.log);
    hide Elected, VotesOk, RoleOk;
    ExtendStep(g, c, i, s', s.log, Marker(s.term));
  }

  lemma MovedTwice(c: Cluster, i: nat, s1: Server, s2: Server)
    requires i < |c.servers|
    ensures Moved(Moved(c, i, s1, {}), i, s2, {}) == Moved(c, i, s2, {})
  {
  }

  /** The vote that makes a leader. */
  lemma WonLog(g: Offices, c: Cluster, i: nat, m: Msg) returns (g': Offices)
    requires LogsOk(g, c) && AllOk(c) && i < |c.servers| && m.VoteReply? && m in c.msgs && m.dst == i
    requires m.reqTerm == c.servers[i].term && !c.servers[i].role.Leader?
    requires var o := HandleVoteReply(c.servers[i], i, |c.servers|, m); o.Done? && o.next.role.Leader?
    ensures GrowsTo(g, g')
    ensures var o := HandleVoteReply(c.servers[i], i, |c.servers|, m);
            o.out == {} && LogsOk(g', Moved(c, i, o.next, {}))
  {
    var s, n := c.servers[i], |c.servers|;
    var s1 := RegisterVote(s, m.src, true);
    assert m.granted && s.role.Candidate? && IsMajority(YesVotes(s1.results), n)
           && HandleVoteReply(s, i, n, m) == BecomeLeader(s1, i, n) by { hide LastTerm, IsMajority, YesVotes; }
    var c1 := Moved(c, i, s1, {});
    CountedVote(c, i, m);
    assert LeaderOk(g, s1) && s1.log == s.log;
    assert Rooted(g, s.log);
    hide AllOk, Rooted, IsMajority, YesVotes, BecomeLeader, LastTerm;
    QuietLogStep(g, c, i, s1, {});
    CountedMajority(c1, i);
    WinLog(g, c1, i);
    g' := Extended(g, s1.term, s1.log, Marker(s1.term));
    MovedTwice(c, i, s1, BecomeLeader(s1, i, n).next);
  }

  /** Every step of every replica keeps the logs in order. */
  lemma StepLogs(rules: Rules, g: Offices, c: Cluster, c': Cluster, step: Step) returns (g': Offices)
    requires Shaped(c) && AllOk(c) && LogsOk(g, c) && NextStep(rules, c, c', step) && rules.tenured
    ensures LogsOk(g', c') && GrowsTo(g, g')
  {
    var i, a := step.who, step.act;
    var o := Act(rules.strict, c, i, a);
    g' := g;
    assert GrowsTo(g, g);
    if a.Deliver? { DeliverLog(rules.strict, g, c, i, a.m); } else { LocalLog(rules.strict, g, c, i, a); }
    if o.Panic? {
      var s' := Restart(o.next, |c.servers|, step.kept, step.applied);
      RootedCut(g, o.next.log, step.kept);
      QuietLogStep(g, c, i, s', {});
      assert c' == Moved(c, i, s', {});
    } else {
      assert c' == Moved(c, i, o.next, o.out);
      if a.Write? {
        WriteLog(g, c, i, a.data, a.sizes);
        g' := Extended(g, c.servers[i].term, c.servers[i].log, Entry(c.servers[i].term, false, a.data, a.sizes));
      } else if Extends(rules.strict, c, i, a) {
        g' := WonLog(g, c, i, a.m);
      } else {
        QuietLogStep(g, c, i, o.next, o.out);
      }
    }
  }

  // ----- runs -----

  lemma InitLogs(c: Cluster)
    requires Init(c)
    ensures LogsOk(map[], c)
  {
    forall i: nat | i < |c.servers| ensures Rooted(map[], c.servers[i].log) && LeaderOk(map[], c.servers[i]) {
      assert c.servers[i] == InitServer(|c.servers|, c.servers[i].syncWrites);
    }
  }

  lemma NextLogs(rules: Rules, run: seq<Cluster>, k: nat, g: Offices) returns (g': Offices)
    requires Run(rules, run) && rules.tenured && k + 1 < |run| && LogsOk(g, run[k])
    ensures LogsOk(g', run[k + 1]) && GrowsTo(g, g')
  {
    hide AllOk, LogsOk, GrowsTo, NextStep;
    VotesAt(rules, run, k);
    assert Next(rules, run[k], run[k + 1]);
    var step :| NextStep(rules, run[k], run[k + 1], step);
    g' := StepLogs(rules, g, run[k], run[k + 1], step);
  }

  lemma {:induction false} LogsAt(rules: Rules, run: seq<Cluster>, k: nat) returns (g: Offices)
    requires Run(rules, run) && rules.tenured && k < |run|
    ensures LogsOk(g, run[k])
  {
    assert Init(run[0]);
    hide LogsOk, Run, Init, GrowsTo;
    if k == 0 {
      InitLogs(run[0]);
      g := map[];
    } else {
      var h := LogsAt(rules, run, k - 1);
      g := NextLogs(rules, run, k - 1, h);
    }
  }

  /** The offices of two states of a run. */
  lemma {:induction false} LogsBetween(rules: Rules, run: seq<Cluster>, k: nat, l: nat)
    returns (gk: Offices, gl: Offices)
    requires Run(rules, run) && rules.tenured && k <= l < |run|
    ensures LogsOk(gk, run[k]) && LogsOk(gl, run[l]) && GrowsTo(gk, gl)
    decreases l
  {
    hide LogsOk, Run;
    if k == l {
      gk := LogsAt(rules, run, k);
      gl := gk;
    } else {
      var gm;
      gk, gm := LogsBetween(rules, run, k, l - 1);
      gl := NextLogs(rules, run, l - 1, gm);
      GrowsOn(gk, gm, gl);
    }
  }

  /** Two logs with the same term at an index are the same up to it, whichever servers' they are, at whichever
      times of whichever run. */
  lemma LogMatching(rules: Rules, run: seq<Cluster>, k: nat, l: nat, i: nat, j: nat, x: nat)
    requires Run(rules, run) && rules.tenured
    requires k <= l < |run| && i < |run[k].servers| && j < |run[l].servers|
    requires x < |run[k].servers[i].log| && x < |run[l].servers[j].log|
    requires run[k].servers[i].log[x].term == run[l].servers[j].log[x].term
    ensures run[k].servers[i].log[..x + 1] == run[l].servers[j].log[..x + 1]
  {
    hide Run, Rooted, GrowsTo, LeaderOk, RequestOk, OfficeOk;
    var gk, gl := LogsBetween(rules, run, k, l);
    RootedGrows(gk, gl, run[k].servers[i].log);
    Matching(gl, run[k].servers[i].log, run[l].servers[j].log, x);
  }

  /** There is at most one leader per term, and it only appends to its log. */
  lemma ElectionSafety(rules: Rules, run: seq<Cluster>, k: nat, l: nat, i: nat, j: nat)
    requires Run(rules, run) && rules.tenured
    requires k <= l < |run| && i < |run[k].servers| && j < |run[l].servers|
    requires run[k].servers[i].role.Leader? && run[l].servers[j].role.Leader?
    requires run[k].servers[i].term == run[l].servers[j].term
    ensures i == j && Prefix(run[k].servers[i].log, run[l].servers[j].log)
  {
    OneLeaderPerTerm(rules, run, k, l, i, j);
    hide Run, Rooted, RequestOk, OfficeOk, Prefix;
    var gk, gl := LogsBetween(rules, run, k, l);
    assert LeaderOk(gk, run[k].servers[i]) && LeaderOk(gl, run[l].servers[j]);
  }
}
