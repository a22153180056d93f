/** A leader sends entries, digests replies and sync updates, and advances its commit index. */
module Leading {
  import opened Majority
  import opened Protocol
  import opened Cluster
  import opened History
  import opened Stability
  import opened LocalSteps
  import Appending

  ghost predicate Leads(h: History, c: Cluster, i: nat)
  {
    Inv(h, c) && i < |c.servers| && c.servers[i].role.Leader?
  }

  lemma LeaderFacts(h: History, c: Cluster, i: nat)
    requires Leads(h, c, i)
    ensures ServerOk(h, c, i) && LeaderOk(h, c, c.servers[i], i)
    ensures c.servers[i].term in h.reigns && ReignOk(h, c, c.servers[i].term)
  {
    assert ServerOk(h, c, i);
  }

  /** The leader rewrites its per-peer table. */
  lemma PeersStep(h: History, c: Cluster, i: nat, s': Server, out: set<Msg>)
    requires Leads(h, c, i)
    requires s' == c.servers[i].(peers := s'.peers) && |s'.peers| == |c.servers|
    requires Shape(h, |c.servers|) && s'.term in h.reigns
    requires forall j: nat :: j < |s'.peers| ==> PeerOk(h, c, s', j)
    requires forall m :: m in out ==> MsgOk(h, Put(c, i, s', out), m)
    ensures Inv(h, Put(c, i, s', out))
  {
    var c' := Put(c, i, s', out);
    LeaderFacts(h, c, i);
    assert LeaderOk(h, c', s', i) by {
      forall j: nat | j < |s'.peers| ensures PeerOk(h, c', s', j) { assert PeerOk(h, c, s', j); }
    }
    QuietStep(h, c, i, s', out);
  }

  lemma UntouchedPeerOk(h: History, c: Cluster, s: Server, s': Server, k: nat)
    requires s.term in h.reigns && k < |s.peers| && k < |h.acks| && k < |c.servers| && PeerOk(h, c, s, k)
    requires s' == s.(peers := s'.peers) && |s'.peers| == |s.peers| && s'.peers[k] == s.peers[k]
    ensures PeerOk(h, c, s', k)
  {
  }

  /** The same, one slot. */
  lemma PeerStep(h: History, c: Cluster, i: nat, j: nat, p: Peer, out: set<Msg>)
    requires Leads(h, c, i) && j < |c.servers[i].peers|
    requires var s' := c.servers[i].(peers := c.servers[i].peers[j := p]);
             && c.servers[i].term in h.reigns && j < |c.servers| && j < |h.acks|
             && PeerOk(h, c, s', j)
             && forall m :: m in out ==> MsgOk(h, Put(c, i, s', out), m)
    ensures Inv(h, Put(c, i, c.servers[i].(peers := c.servers[i].peers[j := p]), out))
  {
    var s := c.servers[i];
    var s' := s.(peers := s.peers[j := p]);
    LeaderFacts(h, c, i);
    forall k: nat | k < |s'.peers| ensures PeerOk(h, c, s', k) {
      if k != j {
        assert PeerOk(h, c, s, k);
        UntouchedPeerOk(h, c, s, s', k);
      }
    }
    PeersStep(h, c, i, s', out);
  }

  // ----- sending -----

  lemma RefreshedPeerOk(h: History, c: Cluster, s: Server, j: nat)
    requires s.term in h.reigns && j < |s.peers| && j < |h.acks| && j < |c.servers| && PeerOk(h, c, s, j)
    ensures PeerOk(h, c, s.(peers := s.peers[j := RefreshPeer(s.peers[j], s.log)]), j)
  {
  }

  lemma SentRequestOk(h: History, c: Cluster, i: nat, dst: nat, heartbeat: bool)
    requires Leads(h, c, i) && dst < |c.servers| && dst != i && dst < |h.acks| && dst < |c.servers[i].peers|
    requires FreshTerm(c.servers[i], dst) && c.servers[i].log != []
    ensures var o := HandleSend(c.servers[i], i, dst, heartbeat);
            o.Done? && forall m :: m in o.out ==> m.AppendReq? && m.src == i && m.dst == dst && AppendReqOk(h, c, m)
  {
    hide Rooted, BallotsOk, CandidateOk, InReach, Inv;
    LeaderFacts(h, c, i);
    assert PeerOk(h, c, c.servers[i], dst);
  }

  lemma SendStep(h: History, c: Cluster, i: nat, dst: nat, heartbeat: bool)
    requires Inv(h, c) && i < |c.servers| && dst < |c.servers| && dst != i
    requires |c.servers[i].peers| == |c.servers| && FreshTerm(c.servers[i], dst)
    ensures var o := HandleSend(c.servers[i], i, dst, heartbeat);
            o.Done? && Inv(h, Put(c, i, o.next, o.out))
  {
    hide Rooted, BallotsOk, Inv;
    var s := c.servers[i];
    PutTwice(c, i, s, s, {});
    OneServer(h, c, i);
    if s.role.Leader? && s.log != [] {
      LeaderFacts(h, c, i);
      assert PeerOk(h, c, s, dst);
      var o := HandleSend(s, i, dst, heartbeat);
      RefreshedPeerOk(h, c, s, dst);
      SentRequestOk(h, c, i, dst, heartbeat);
      PeerStep(h, c, i, dst, RefreshPeer(s.peers[dst], s.log), o.out);
    }
  }

  lemma SendSyncStep(h: History, c: Cluster, i: nat) returns (h': History)
    requires Inv(h, c) && i < |c.servers|
    ensures Grows(h, h')
    ensures var o := HandleSendSync(c.servers[i], i); Inv(h', Put(c, i, o.next, o.out))
  {
    hide CommitOk, PeerOk, UpToDate;
    var s := c.servers[i];
    var d := Durable(s);
    assert ServerOk(h, c, i);
    h' := h;
    GrowsSelf(h, c);
    if d != [] && LastTerm(d) == s.term {
      assert Prefix(d, s.log);
      RootedPrefix(h, d, s.log);
      Appending.OwnTermIsPrefix(h, s.(log := d));
      h' := RecordAck(h, c, i);
    }
    if d != [] { TermsAscend(h, c, s.log, |d| - 1, |s.log| - 1); }
    assert ServerOk(h', c, i);
    SendOnly(h', c, i, HandleSendSync(s, i).out);
  }

  // ----- commit -----

  /** What every counted index stands for: the peer acknowledged that much of this leader's log. */
  lemma CountedIsAcked(h: History, c: Cluster, i: nat, j: nat)
    requires Leads(h, c, i) && j < |c.servers| && j < |c.servers[i].peers|
    requires 0 <= Counted(c.servers[i].peers[j])
    ensures j < |h.acks| && c.servers[i].term in h.acks[j]
    ensures Counted(c.servers[i].peers[j]) < h.acks[j][c.servers[i].term] <= |c.servers[i].log|
  {
    LeaderFacts(h, c, i);
    assert PeerOk(h, c, c.servers[i], j);
    assert ServerOk(h, c, j);
  }

  lemma ReachedAreAckers(h: History, c: Cluster, i: nat, idx: nat)
    requires Leads(h, c, i) && |c.servers[i].peers| == |c.servers|
    ensures Reached(CountedAll(c.servers[i].peers), idx) <= Ackers(h, c.servers[i].term, idx + 1)
  {
    forall j | j in Reached(CountedAll(c.servers[i].peers), idx) ensures j in Ackers(h, c.servers[i].term, idx + 1) {
      CountedIsAcked(h, c, i, j);
    }
  }

  /** The strict rule: what it commits is chosen. */
  lemma MajorityIndexIsChosen(h: History, c: Cluster, i: nat)
    requires Leads(h, c, i) && |c.servers[i].peers| == |c.servers|
    requires -1 <= c.servers[i].initialIdx < MajorityIndex(CountedAll(c.servers[i].peers))
    ensures Chosen(h, c.servers[i].term, MajorityIndex(CountedAll(c.servers[i].peers)) + 1)
  {
    hide Rooted, PeerOk, Inv, MajorityIndex;
    var s := c.servers[i];
    var idx := MajorityIndex(CountedAll(s.peers));
    OneServer(h, c, i);
    LeaderFacts(h, c, i);
    MajorityIndexCorrect(CountedAll(s.peers), idx);
    ReachedAreAckers(h, c, i, idx);
    MajorityGrows(Reached(CountedAll(s.peers), idx), Ackers(h, s.term, idx + 1), |c.servers|);
    var j :| j in Reached(CountedAll(s.peers), idx);
    CountedIsAcked(h, c, i, j);
  }

  lemma SelfPeerStep(h: History, c: Cluster, i: nat) returns (h': History)
    requires Leads(h, c, i) && i < |c.servers[i].peers|
    ensures Grows(h, h')
    ensures Inv(h', Put(c, i, SelfPeer(c.servers[i], i), {}))
  {
    hide Inv, BallotsOk, CommitOk;
    var s := c.servers[i];
    LeaderFacts(h, c, i);
    h' := RecordAck(h, c, i);
    LeaderFacts(h', c, i);
    OneServer(h', c, i);
    var s' := SelfPeer(s, i);
    assert PeerOk(h', c, s', i);
    PeerStep(h', c, i, i, s'.peers[i], {});
  }

  lemma TryCommitStep(h: History, c: Cluster, i: nat) returns (h': History)
    requires Leads(h, c, i) && |c.servers[i].peers| == |c.servers|
    ensures Grows(h, h')
    ensures var o := TryCommit(true, c.servers[i], i);
            Inv(h', Put(c, i, o.next, {})) && (o.Done? ==> o.out == {})
  {
    var s := c.servers[i];
    var s1 := SelfPeer(s, i);
    var c1 := Put(c, i, s1, {});
    h' := SelfPeerStep(h, c, i);
    var idx := MajorityIndex(CountedAll(s1.peers));
    PutTwice(c, i, s1, TryCommit(true, s, i).next, {});
    if s1.initialIdx < idx && s1.commit < idx {
      LeaderFacts(h', c1, i);
      MajorityIndexIsChosen(h', c1, i);
      assert CommitOk(h', s1.log, s1.term, idx);
      Appending.CommitStep(h', c1, i, idx);
    }
  }

  // ----- replies -----

  lemma NotedStep(h: History, c: Cluster, i: nat, src: nat, syncedIdx: int)
    requires Leads(h, c, i) && |c.servers[i].peers| == |c.servers| && src < |c.servers| && src < |h.acks|
    requires 0 <= syncedIdx ==> c.servers[i].term in h.acks[src] && syncedIdx < h.acks[src][c.servers[i].term]
    ensures var s := c.servers[i];
            Inv(h, Put(c, i, s.(peers := s.peers[src := Noted(s.peers[src], syncedIdx)]), {}))
  {
    hide Inv, BallotsOk, CommitOk, Rooted;
    var s := c.servers[i];
    LeaderFacts(h, c, i);
    assert PeerOk(h, c, s, src);
    PeerStep(h, c, i, src, Noted(s.peers[src], syncedIdx), {});
  }

  lemma UpdateSyncStep(h: History, c: Cluster, i: nat, src: nat, term: int, syncedIdx: int) returns (h': History)
    requires Leads(h, c, i) && |c.servers[i].peers| == |c.servers| && src < |c.servers| && src < |h.acks|
    requires 0 <= syncedIdx ==> c.servers[i].term in h.acks[src] && syncedIdx < h.acks[src][c.servers[i].term]
    ensures Grows(h, h')
    ensures var o := UpdateSync(true, c.servers[i], i, src, term, syncedIdx);
            Inv(h', Put(c, i, o.next, {})) && (o.Done? ==> o.out == {})
  {
    var s := c.servers[i];
    var p := s.peers[src];
    h' := h;
    GrowsSelf(h, c);
    PutTwice(c, i, s, s, {});
    if !(term != LastTerm(Durable(s)) || p.nextIdx < p.syncedIdx) {
      var s1 := s.(peers := s.peers[src := Noted(p, syncedIdx)]);
      NotedStep(h, c, i, src, syncedIdx);
      if Noted(p, syncedIdx) != p {
        PutTwice(c, i, s1, TryCommit(true, s1, i).next, {});
        h' := TryCommitStep(h, Put(c, i, s1, {}), i);
      }
    }
  }

  /** The facts a reply of this tenure carries. */
  lemma ReplyFacts(h: History, c: Cluster, i: nat, m: Msg)
    requires Leads(h, c, i) && m.AppendReply? && m in c.msgs && m.dst == i && InTenure(c.servers[i], m)
    ensures m.src < |c.servers| && |c.servers[i].peers| == |c.servers| && Shape(h, |c.servers|)
    ensures AppendReplyOk(h, c, m) && (!m.stale ==> m.term == c.servers[i].term)
    ensures c.servers[i].term in h.reigns && PeerOk(h, c, c.servers[i], m.src)
  {
    assert MsgOk(h, c, m);
    LeaderFacts(h, c, i);
  }

  lemma RejectedStep(h: History, c: Cluster, i: nat, m: Msg)
    requires Leads(h, c, i) && m.AppendReply? && m in c.msgs && m.dst == i && InTenure(c.servers[i], m)
    requires !m.stale && m.nonMatching && m.src < |c.servers[i].peers|
    requires m.prevIdx + 1 == c.servers[i].peers[m.src].nextIdx
    ensures Inv(h,
                Put(c, i, c.servers[i].(peers := c.servers[i].peers[m.src := BackOff(c.servers[i].peers[m.src], m)]),
                    {}))
  {
    ReplyFacts(h, c, i, m);
    LeaderFacts(h, c, i);
    PeerStep(h, c, i, m.src, BackOff(c.servers[i].peers[m.src], m), {});
  }

  lemma AdvancedStep(h: History, c: Cluster, i: nat, m: Msg)
    requires Leads(h, c, i) && m.AppendReply? && m in c.msgs && m.dst == i && InTenure(c.servers[i], m)
    requires !m.stale && !m.nonMatching && m.src < |c.servers[i].peers|
    requires m.prevIdx + 1 == c.servers[i].peers[m.src].nextIdx
    ensures var s := c.servers[i];
            Inv(h, Put(c, i, s.(peers := s.peers[m.src := Advanced(s.peers[m.src], m)]), {}))
  {
    hide Inv, BallotsOk, CommitOk, Rooted;
    ReplyFacts(h, c, i, m);
    LeaderFacts(h, c, i);
    PeerStep(h, c, i, m.src, Advanced(c.servers[i].peers[m.src], m), {});
  }

  lemma AcceptedStep(h: History, c: Cluster, i: nat, m: Msg) returns (h': History)
    requires Leads(h, c, i) && m.AppendReply? && m in c.msgs && m.dst == i && InTenure(c.servers[i], m)
    requires !m.stale && !m.nonMatching && m.src < |c.servers[i].peers| && i < |c.servers[i].peers|
    requires m.prevIdx + 1 == c.servers[i].peers[m.src].nextIdx
    ensures Grows(h, h')
    ensures var o := HandleAppendReply(true, c.servers[i], i, m);
            Inv(h', Put(c, i, o.next, {})) && (o.Done? ==> o.out == {})
  {
    hide Inv, BallotsOk, CommitOk, Rooted;
    var s := c.servers[i];
    ReplyFacts(h, c, i, m);
    var s1 := s.(peers := s.peers[m.src := Advanced(s.peers[m.src], m)]);
    AdvancedStep(h, c, i, m);
    PutTwice(c, i, s1, UpdateSync(true, s1, i, m.src, m.term, m.syncedIdx).next, {});
    h' := UpdateSyncStep(h, Put(c, i, s1, {}), i, m.src, m.term, m.syncedIdx);
  }

  lemma AppendReplyStep(h: History, c: Cluster, i: nat, m: Msg) returns (h': History)
    requires Inv(h, c) && i < |c.servers| && m.AppendReply? && m in c.msgs && m.dst == i && InTenure(c.servers[i], m)
    requires m.src < |c.servers[i].peers| && i < |c.servers[i].peers|
    ensures Grows(h, h')
    ensures var o := HandleAppendReply(true, c.servers[i], i, m);
            Inv(h', Put(c, i, o.next, {})) && (o.Done? ==> o.out == {})
  {
    var s := c.servers[i];
    h' := h;
    GrowsSelf(h, c);
    PutTwice(c, i, s, s, {});
    if s.role.Leader? {
      ReplyFacts(h, c, i, m);
      if m.stale {
        if s.term < m.term && m.src != i {
          LeaderFacts(h, c, i);
          AdoptTerm(h, c, i, HandleAppendReply(true, s, i, m).next);
        }
      } else if m.prevIdx + 1 == s.peers[m.src].nextIdx {
        if m.nonMatching { RejectedStep(h, c, i, m); } else { h' := AcceptedStep(h, c, i, m); }
      }
    }
  }

  lemma SyncIdxStep(h: History, c: Cluster, i: nat, m: Msg) returns (h': History)
    requires Inv(h, c) && i < |c.servers| && m.SyncIdx? && m in c.msgs && m.dst == i
    requires m.src < |c.servers[i].peers| && i < |c.servers[i].peers|
    ensures Grows(h, h')
    ensures var o := HandleSyncIdx(true, c.servers[i], i, m);
            Inv(h', Put(c, i, o.next, {})) && (o.Done? ==> o.out == {})
  {
    var s := c.servers[i];
    h' := h;
    GrowsSelf(h, c);
    PutTwice(c, i, s, s, {});
    if s.role.Leader? && m.term == s.term {
      LeaderFacts(h, c, i);
      assert MsgOk(h, c, m);
      h' := UpdateSyncStep(h, c, i, m.src, m.term, m.syncedIdx);
    }
  }
}
