/** A follower handles an append request: adopting the leader, the already-stored test, pruning,
    writing, advancing its commit index, and what its reply promises. */
module Appending {
  import opened Majority
  import opened Protocol
  import opened Cluster
  import opened History
  import opened Stability
  import opened LocalSteps

  /** Replica i is about to work on append request m of its own term's leader. */
  ghost predicate Handling(h: History, c: Cluster, i: nat, m: Msg)
  {
    && Inv(h, c) && i < |c.servers| && m.AppendReq? && m in c.msgs && m.dst == i
    && c.servers[i].term == m.term && c.servers[i].role.Follower?
  }

  lemma RequestOk(h: History, c: Cluster, m: Msg)
    requires Inv(h, c) && m.AppendReq? && m in c.msgs
    ensures m.src < |c.servers| && m.dst < |c.servers| && AppendReqOk(h, c, m) && ReignOk(h, c, m.term)
  {
    assert MsgOk(h, c, m);
  }

  lemma AdoptShape(s: Server, i: nat, m: Msg)
    requires m.AppendReq? && s.term <= m.term && m.src != i && (s.role.Leader? ==> s.term < m.term)
    ensures var s' := AdoptLeader(s, i, m);
            && s'.term == m.term && s'.role.Follower? && s'.leader == Some(m.src)
            && s'.log == s.log && s'.commit == s.commit && s'.applied == s.applied && s'.results == s.results
            && s'.peers == s.peers
            && s'.synced == (if s.term < m.term then |s.log| else s.synced)
  {
  }

  lemma AdoptLeaderStep(h: History, c: Cluster, i: nat, m: Msg)
    requires Inv(h, c) && i < |c.servers| && m.AppendReq? && m in c.msgs && m.dst == i
    requires c.servers[i].term <= m.term
    ensures Handling(h, Put(c, i, AdoptLeader(c.servers[i], i, m), {}), i, m)
  {
    var s := c.servers[i];
    var s' := AdoptLeader(s, i, m);
    assert ServerOk(h, c, i);
    RequestOk(h, c, m);
    AdoptShape(s, i, m);
    if s.term < m.term {
      AdoptTerm(h, c, i, s');
    } else {
      QuietStep(h, c, i, s', {});
    }
  }

  /** A log whose last entry has the leader's term is part of that leader's log. */
  lemma OwnTermIsPrefix(h: History, s: Server)
    requires Rooted(h, s.log) && s.log != [] && LastTerm(s.log) == s.term
    ensures s.term in h.reigns && Prefix(s.log, LogOf(h, s.term))
  {
    assert OriginAt(h, s.log, |s.log| - 1);
    assert s.log[..|s.log|] == s.log;
  }

  /** The already-stored test succeeds only when the whole log agrees with the leader's,
      not just the entry it looked at. */
  lemma AlreadyStoredAgrees(h: History, c: Cluster, i: nat, m: Msg)
    requires Handling(h, c, i, m) && IndexAhead(c.servers[i], m) && Stored(c.servers[i], m)
    ensures Prefix(c.servers[i].log, LogOf(h, m.term))
  {
    hide BallotsOk, PeerOk, CommitOk, MsgOk;
    RequestOk(h, c, m);
    var s, k, L := c.servers[i], m.prevIdx + 1, LogOf(h, m.term);
    assert ServerOk(h, c, i);
    assert OriginAt(h, s.log, k);
    if k < |L| { assert OriginAt(h, L, k) && ReignOk(h, c, L[k].term); }
    assert s.log[k].term == TermAt(h, m.term, k);
    if k + 1 == |s.log| {
      LogMatching(h, s.log, L, k);
      assert s.log[..k + 1] == s.log;
    } else if Conflicts(h, s) {
      assert s.log[k].term == m.term;
      TermsAscend(h, c, s.log, k, |s.log| - 1);
      OwnTermIsPrefix(h, s);
      assert false;
    }
  }

  /** Equal index and term at the end: the log is the leader's up to there. */
  lemma MatchingAgrees(h: History, c: Cluster, i: nat, m: Msg)
    requires Handling(h, c, i, m) && CheckTail(c.servers[i], m).Matches?
    ensures c.servers[i].log == LogOf(h, m.term)[..m.prevIdx + 1]
  {
    RequestOk(h, c, m);
    var s := c.servers[i];
    assert ServerOk(h, c, i);
    if 0 <= m.prevIdx {
      LogMatching(h, s.log, LogOf(h, m.term), m.prevIdx);
      assert s.log[..m.prevIdx + 1] == s.log;
    }
  }

  // ----- pruning -----

  /** A log that holds T's entry at k, where U's log has another term, was not U's starting log. */
  lemma DisagreementIsLacking(h: History, x: seq<Entry>, T: nat, a: nat, U: nat, k: nat)
    requires T in h.reigns && U in h.reigns && T <= U && k < a <= |LogOf(h, T)|
    requires Prefix(Take(LogOf(h, T), a), x) && x[k].term != TermAt(h, U, k)
    requires h.reigns[U].initLen <= |LogOf(h, U)|
    ensures T < U && Lacks(h, U, T, a)
  {
    var p := Take(LogOf(h, T), a);
    assert x[k] == p[k] == LogOf(h, T)[k];
    if k < h.reigns[U].initLen {
      assert InitLog(h, U)[k] == LogOf(h, U)[k];
    }
  }

  /** An acknowledged entry is pruned only by a leader that never had it. */
  lemma PruneKeeps(h: History, s: Server, m: Msg, T: nat, a: nat)
    requires m.AppendReq? && IndexAhead(s, m) && 0 <= m.prevIdx && s.term == m.term && m.term in h.reigns
    requires h.reigns[m.term].initLen <= |LogOf(h, m.term)|
    requires s.log[m.prevIdx + 1].term != TermAt(h, m.term, m.prevIdx + 1)
    requires T in h.reigns && T <= s.term && a <= |LogOf(h, T)|
    requires KeptDurably(h, s, T, a)
    ensures KeptDurably(h, Prune(s, m), T, a)
  {
    var s', k := Prune(s, m), m.prevIdx + 1;
    var x := Take(LogOf(h, T), a);
    if Prefix(x, Durable(s)) {
      assert Prefix(x, s.log);
      if a <= k {
        assert Durable(s') == s.log[..k];
      } else {
        DisagreementIsLacking(h, s.log, T, a, m.term, k);
      }
    }
  }

  lemma PrunedBallotsOk(h: History, c: Cluster, i: nat, m: Msg)
    requires Handling(h, c, i, m) && IndexAhead(c.servers[i], m) && !Stored(c.servers[i], m) && 0 <= m.prevIdx
    ensures BallotsOk(h, Prune(c.servers[i], m), i)
  {
    var s := c.servers[i];
    assert ServerOk(h, c, i);
    RequestOk(h, c, m);
    forall T, a: nat | T in h.acks[i] && a <= h.acks[i][T] ensures KeptDurably(h, Prune(s, m), T, a) {
      assert KeptDurably(h, s, T, a);
      PruneKeeps(h, s, m, T, a);
    }
  }

  lemma PrunedLogOk(h: History, c: Cluster, i: nat, m: Msg)
    requires Handling(h, c, i, m) && IndexAhead(c.servers[i], m) && 0 <= m.prevIdx
    requires Settled(c.servers[i]) < m.prevIdx + 1
    ensures LogOk(h, Prune(c.servers[i], m))
  {
    hide Inv, BallotsOk, PeerOk, InReach;
    var s := c.servers[i];
    var s' := Prune(s, m);
    OneServer(h, c, i);
    assert Prefix(s'.log, s.log);
    RootedPrefix(h, s'.log, s.log);
    TermsAscend(h, c, s.log, m.prevIdx, |s.log| - 1);
    GrowsSelf(h, c);
    CommitOkStable(h, h, s.log, s'.log, s.term, s.term, Settled(s));
  }

  lemma PruneStep(h: History, c: Cluster, i: nat, m: Msg)
    requires Handling(h, c, i, m) && IndexAhead(c.servers[i], m) && !Stored(c.servers[i], m) && 0 <= m.prevIdx
    requires Settled(c.servers[i]) < m.prevIdx + 1
    ensures Handling(h, Put(c, i, Prune(c.servers[i], m), {}), i, m)
  {
    var c' := Put(c, i, Prune(c.servers[i], m), {});
    PrunedBallotsOk(h, c, i, m);
    PrunedLogOk(h, c, i, m);
    assert ServerOk(h, c, i);
    assert ServerOk(h, c', i);
    SameHistory(h, c, c', i);
  }

  // ----- writing -----

  lemma WrittenLog(h: History, c: Cluster, i: nat, m: Msg)
    requires Handling(h, c, i, m) && CheckTail(c.servers[i], m).Matches? && m.entry.Some? && MayWrite(c.servers[i], m)
    ensures m.prevIdx + 1 < |LogOf(h, m.term)|
    ensures WriteFromLeader(c.servers[i], m).log == LogOf(h, m.term)[..m.prevIdx + 2]
  {
    RequestOk(h, c, m);
    MatchingAgrees(h, c, i, m);
    var L := LogOf(h, m.term);
    assert L[..m.prevIdx + 1] + [L[m.prevIdx + 1]] == L[..m.prevIdx + 2];
  }

  lemma WrittenLogOk(h: History, c: Cluster, i: nat, m: Msg)
    requires Handling(h, c, i, m) && CheckTail(c.servers[i], m).Matches? && m.entry.Some? && MayWrite(c.servers[i], m)
    ensures LogOk(h, WriteFromLeader(c.servers[i], m))
  {
    hide Inv, InReach, BallotsOk;
    OneServer(h, c, i);
    RequestOk(h, c, m);
    var s := c.servers[i];
    var s', L := WriteFromLeader(s, m), LogOf(h, m.term);
    WrittenLog(h, c, i, m);
    RootedPrefix(h, s'.log, L);
    GrowsSelf(h, c);
    assert s'.log[..|s.log|] == s.log;
    CommitOkStable(h, h, s.log, s'.log, s.term, s.term, Settled(s));
  }

  lemma WrittenServerOk(h: History, c: Cluster, i: nat, m: Msg)
    requires Handling(h, c, i, m) && CheckTail(c.servers[i], m).Matches? && m.entry.Some? && MayWrite(c.servers[i], m)
    ensures ServerOk(h, Put(c, i, WriteFromLeader(c.servers[i], m), {}), i)
  {
    hide Inv, BallotsOk, LogOk, PeerOk;
    OneServer(h, c, i);
    WrittenLogOk(h, c, i, m);
    BallotsOkGrow(h, c.servers[i], WriteFromLeader(c.servers[i], m), i);
  }

  lemma FollowerWriteStep(h: History, c: Cluster, i: nat, m: Msg)
    requires Handling(h, c, i, m) && CheckTail(c.servers[i], m).Matches? && m.entry.Some? && MayWrite(c.servers[i], m)
    ensures Handling(h, Put(c, i, WriteFromLeader(c.servers[i], m), {}), i, m)
  {
    WrittenServerOk(h, c, i, m);
    WrittenLog(h, c, i, m);
    SameHistory(h, c, Put(c, i, WriteFromLeader(c.servers[i], m), {}), i);
  }

  // ----- commit -----

  lemma CommittedServerOk(h: History, c: Cluster, i: nat, idx: int)
    requires Inv(h, c) && i < |c.servers| && CommitOk(h, c.servers[i].log, c.servers[i].term, idx)
    ensures ServerOk(h, Put(c, i, AdvanceCommit(c.servers[i], idx), {}), i)
  {
    hide Rooted, PeerOk, Inv, BallotsOk, CommitOk, UpToDate;
    OneServer(h, c, i);
    var s, s' := c.servers[i], AdvanceCommit(c.servers[i], idx);
    MovesSame(h, c, i, s', {});
    if s.role.Leader? { LeaderOkKeeps(h, c, h, Put(c, i, s', {}), i); }
    BallotsOkGrow(h, s, s', i);
  }

  /** Any replica may move its commit index to an index that is durable and chosen. */
  lemma CommitStep(h: History, c: Cluster, i: nat, idx: int)
    requires Inv(h, c) && i < |c.servers| && CommitOk(h, c.servers[i].log, c.servers[i].term, idx)
    ensures Inv(h, Put(c, i, AdvanceCommit(c.servers[i], idx), {}))
  {
    CommittedServerOk(h, c, i, idx);
    SameHistory(h, c, Put(c, i, AdvanceCommit(c.servers[i], idx), {}), i);
  }

  /** The leader's commit index, cut to what the follower holds of the leader's log, is safe for it. */
  lemma LeadersCommitIsOk(h: History, c: Cluster, i: nat, m: Msg, idx: int)
    requires Handling(h, c, i, m) && Prefix(c.servers[i].log, LogOf(h, m.term))
    requires idx <= m.commit && idx < |c.servers[i].log|
    ensures CommitOk(h, c.servers[i].log, m.term, idx)
  {
    hide Rooted, Inv, InReach;
    RequestOk(h, c, m);
    var s, L := c.servers[i], LogOf(h, m.term);
    if 0 <= idx {
      var T: nat, a: nat :| Chosen(h, T, a) && T <= m.term && m.commit < a &&
                            L[..m.commit + 1] == LogOf(h, T)[..m.commit + 1];
      assert s.log[..idx + 1] == L[..m.commit + 1][..idx + 1] == LogOf(h, T)[..idx + 1];
    }
  }

  lemma FollowerCommitStep(h: History, c: Cluster, i: nat, m: Msg, idx: int)
    requires Handling(h, c, i, m) && Prefix(c.servers[i].log, LogOf(h, m.term)) && idx <= m.commit
    ensures Handling(h, Put(c, i, AdvanceCommit(c.servers[i], idx), {}), i, m)
  {
    var s := c.servers[i];
    assert ServerOk(h, c, i);
    if idx < |s.log| {
      LeadersCommitIsOk(h, c, i, m, idx);
      CommitStep(h, c, i, idx);
    } else {
      SendOnly(h, c, i, {});
    }
  }

  // ----- the reply -----

  /** A rejection tells the leader where to go next without skipping the conflicting tail. */
  lemma RejectionReplyOk(h: History, c: Cluster, i: nat, m: Msg)
    requires Handling(h, c, i, m) && CheckTail(c.servers[i], m).NonMatching?
    ensures var r := ReplyTo(c.servers[i], i, m, false, NonMatching);
            MsgOk(h, Put(c, i, c.servers[i], {r}), r)
  {
    RequestOk(h, c, m);
    assert ServerOk(h, c, i);
  }

  lemma RejectStep(h: History, c: Cluster, i: nat, m: Msg)
    requires Handling(h, c, i, m) && CheckTail(c.servers[i], m).NonMatching?
    ensures Inv(h, Put(c, i, c.servers[i], {ReplyTo(c.servers[i], i, m, false, NonMatching)}))
  {
    RejectionReplyOk(h, c, i, m);
    SendOnly(h, c, i, {ReplyTo(c.servers[i], i, m, false, NonMatching)});
  }

  /** An acceptance promises that the reported synced prefix is the leader's. */
  lemma AcceptStep(h: History, c: Cluster, i: nat, m: Msg, check: Check) returns (h': History)
    requires Handling(h, c, i, m) && Prefix(c.servers[i].log, LogOf(h, m.term))
    requires check.Matches? || check.AlreadyStored?
    ensures Grows(h, h')
    ensures Inv(h', Put(c, i, c.servers[i], {ReplyTo(c.servers[i], i, m, false, check)}))
  {
    hide Inv, Rooted, BallotsOk;
    var s := c.servers[i];
    var r := ReplyTo(s, i, m, false, check);
    OneServer(h, c, i);
    RequestOk(h, c, m);
    assert Prefix(Durable(s), LogOf(h, m.term)) by {
      assert Durable(s) == LogOf(h, m.term)[..|s.log|][..s.synced];
    }
    h' := RecordAck(h, c, i);
    RequestOk(h', c, m);
    assert MsgOk(h', Put(c, i, s, {r}), r);
    SendOnly(h', c, i, {r});
  }

  // ----- the whole handler -----

  function Sent(o: Outcome): set<Msg>
  {
    if o.Done? then o.out else {}
  }

  lemma StaleRequestStep(h: History, c: Cluster, i: nat, m: Msg)
    requires Inv(h, c) && i < |c.servers| && m.AppendReq? && m in c.msgs && m.dst == i
    requires m.term < c.servers[i].term
    ensures Inv(h, Put(c, i, c.servers[i], {ReplyTo(c.servers[i], i, m, true, Failed)}))
  {
    RequestOk(h, c, m);
    SendOnly(h, c, i, {ReplyTo(c.servers[i], i, m, true, Failed)});
  }

  lemma MatchedStep(h: History, c: Cluster, i: nat, m: Msg) returns (h': History)
    requires Handling(h, c, i, m) && Prefix(c.servers[i].log, LogOf(h, m.term))
    ensures Grows(h, h')
    ensures var s4 := AdvanceCommit(c.servers[i], m.commit);
            Inv(h', Put(c, i, s4, {ReplyTo(s4, i, m, false, Matches)}))
  {
    var s4 := AdvanceCommit(c.servers[i], m.commit);
    FollowerCommitStep(h, c, i, m, m.commit);
    PutTwice(c, i, s4, s4, {ReplyTo(s4, i, m, false, Matches)});
    h' := AcceptStep(h, Put(c, i, s4, {}), i, m, Matches);
  }

  lemma StoredStep(h: History, c: Cluster, i: nat, m: Msg) returns (h': History)
    requires Handling(h, c, i, m) && Prefix(c.servers[i].log, LogOf(h, m.term))
    ensures Grows(h, h')
    ensures var s := c.servers[i];
            var s3 := AdvanceCommit(s, Min(m.commit, |Durable(s)| - 1));
            Inv(h', Put(c, i, s3, {ReplyTo(s3, i, m, false, AlreadyStored)}))
  {
    var s := c.servers[i];
    var idx := Min(m.commit, |Durable(s)| - 1);
    var s3 := AdvanceCommit(s, idx);
    FollowerCommitStep(h, c, i, m, idx);
    PutTwice(c, i, s3, s3, {ReplyTo(s3, i, m, false, AlreadyStored)});
    h' := AcceptStep(h, Put(c, i, s3, {}), i, m, AlreadyStored);
  }

  lemma WriteAndAcceptStep(h: History, c: Cluster, i: nat, m: Msg) returns (h': History)
    requires Handling(h, c, i, m) && CheckTail(c.servers[i], m).Matches? && m.entry.Some? && MayWrite(c.servers[i], m)
    ensures Grows(h, h')
    ensures var s4 := AdvanceCommit(WriteFromLeader(c.servers[i], m), m.commit);
            Inv(h', Put(c, i, s4, {ReplyTo(s4, i, m, false, Matches)}))
  {
    var s3 := WriteFromLeader(c.servers[i], m);
    var s4 := AdvanceCommit(s3, m.commit);
    FollowerWriteStep(h, c, i, m);
    WrittenLog(h, c, i, m);
    PutTwice(c, i, s3, s4, {ReplyTo(s4, i, m, false, Matches)});
    h' := MatchedStep(h, Put(c, i, s3, {}), i, m);
  }

  /** After the comparison: reply to a log that needs no pruning any more. */
  lemma TailStep(h: History, c: Cluster, i: nat, m: Msg) returns (h': History)
    requires Handling(h, c, i, m) && -1 <= m.prevIdx && !IndexAhead(c.servers[i], m)
    ensures Grows(h, h')
    ensures var o := Proceed(c.servers[i], i, m); Inv(h', Put(c, i, o.next, Sent(o)))
  {
    hide Inv;
    var s := c.servers[i];
    h' := h;
    GrowsSelf(h, c);
    PutTwice(c, i, s, s, {});
    if CheckTail(s, m).NonMatching? {
      RejectStep(h, c, i, m);
    } else if m.entry.None? {
      RequestOk(h, c, m);
      MatchingAgrees(h, c, i, m);
      h' := MatchedStep(h, c, i, m);
    } else if MayWrite(s, m) {
      h' := WriteAndAcceptStep(h, c, i, m);
    }
  }

  lemma AlreadyStoredStep(h: History, c: Cluster, i: nat, m: Msg) returns (h': History)
    requires Handling(h, c, i, m) && -1 <= m.prevIdx && IndexAhead(c.servers[i], m) && Stored(c.servers[i], m)
    ensures Grows(h, h')
    ensures var o := Proceed(c.servers[i], i, m); Inv(h', Put(c, i, o.next, Sent(o)))
  {
    hide Inv, Prefix;
    var s := c.servers[i];
    PutTwice(c, i, s, s, {});
    if m.prevIdx < 0 || s.log[m.prevIdx].term == m.prevTerm {
      AlreadyStoredAgrees(h, c, i, m);
      h' := StoredStep(h, c, i, m);
    } else {
      h' := h;
      GrowsSelf(h, c);
    }
  }

  /** An assertion stops the follower before it prunes anything. */
  lemma RefusedPruneStep(h: History, c: Cluster, i: nat, m: Msg)
    requires Handling(h, c, i, m) && -1 <= m.prevIdx && IndexAhead(c.servers[i], m) && !Stored(c.servers[i], m)
    requires m.prevIdx + 1 <= Settled(c.servers[i]) || m.prevIdx < 0
    ensures var o := Proceed(c.servers[i], i, m); Inv(h, Put(c, i, o.next, Sent(o)))
  {
    var s := c.servers[i];
    assert ServerOk(h, c, i);
    assert Proceed(s, i, m) == Panic(SyncAll(s));
    SyncStep(h, c, i, |s.log|);
  }

  lemma ProceedAfterPrune(s: Server, i: nat, m: Msg)
    requires m.AppendReq? && 0 <= m.prevIdx && IndexAhead(s, m) && s.role.Follower?
    requires !Stored(s, m) && Settled(s) < m.prevIdx + 1
    ensures !IndexAhead(Prune(s, m), m) && Proceed(Prune(s, m), i, m) == Proceed(s, i, m)
  {
  }

  lemma PruneAndTailStep(h: History, c: Cluster, i: nat, m: Msg) returns (h': History)
    requires Handling(h, c, i, m) && 0 <= m.prevIdx && IndexAhead(c.servers[i], m)
    requires !Stored(c.servers[i], m) && Settled(c.servers[i]) < m.prevIdx + 1
    ensures Grows(h, h')
    ensures var o := Proceed(c.servers[i], i, m); Inv(h', Put(c, i, o.next, Sent(o)))
  {
    var s1 := Prune(c.servers[i], m);
    var o := Proceed(c.servers[i], i, m);
    PruneStep(h, c, i, m);
    ProceedAfterPrune(c.servers[i], i, m);
    PutTwice(c, i, s1, o.next, Sent(o));
    h' := TailStep(h, Put(c, i, s1, {}), i, m);
  }

  lemma ProceedStep(h: History, c: Cluster, i: nat, m: Msg) returns (h': History)
    requires Handling(h, c, i, m) && -1 <= m.prevIdx
    ensures Grows(h, h')
    ensures var o := Proceed(c.servers[i], i, m); Inv(h', Put(c, i, o.next, Sent(o)))
  {
    var s := c.servers[i];
    if !IndexAhead(s, m) {
      h' := TailStep(h, c, i, m);
    } else if Stored(s, m) {
      h' := AlreadyStoredStep(h, c, i, m);
    } else if m.prevIdx + 1 <= Settled(s) || m.prevIdx < 0 {
      h' := h;
      GrowsSelf(h, c);
      RefusedPruneStep(h, c, i, m);
    } else {
      h' := PruneAndTailStep(h, c, i, m);
    }
  }

  lemma AppendReqStep(h: History, c: Cluster, i: nat, m: Msg) returns (h': History)
    requires Inv(h, c) && i < |c.servers| && m.AppendReq? && m in c.msgs && m.dst == i
    ensures Grows(h, h')
    ensures var o := HandleAppendReq(c.servers[i], i, m); Inv(h', Put(c, i, o.next, Sent(o)))
  {
    var s := c.servers[i];
    RequestOk(h, c, m);
    if m.term < s.term {
      h' := h;
      GrowsSelf(h, c);
      StaleRequestStep(h, c, i, m);
    } else {
      var s1 := AdoptLeader(s, i, m);
      var o := Proceed(s1, i, m);
      AdoptLeaderStep(h, c, i, m);
      PutTwice(c, i, s1, o.next, Sent(o));
      h' := ProceedStep(h, Put(c, i, s1, {}), i, m);
    }
  }
}
