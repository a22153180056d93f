/** One replica as the code keeps it: fields and per-peer tables updated in place by message handlers.
    Every handler does to the state, and sends, exactly what its function in Protocol says; where an
    assertion of the code fails it returns ok == false with the state as the assertion left it. */
module Replica {
  import opened Majority
  import opened Protocol

  function Just(m: Option<Msg>): set<Msg>
  {
    if m.Some? then {m.value} else {}
  }

  class Replica {
    const self: nat
    const n: nat
    const syncWrites: bool

    // the log header, the log, and how much of it the SYNC header covers
    var term: nat
    var votedFor: Option<nat>
    var log: seq<Entry>
    var synced: nat

    var role: Role
    var leader: Option<nat>
    var commit: int
    var applied: int

    // candidate state
    var candTerm: nat
    const results: array<Vote>

    // leader state
    var initialIdx: int
    var leaderTerm: nat
    const peers: array<Peer>

    ghost predicate Valid()
      reads this
    {
      self < n && results.Length == n && peers.Length == n && synced <= |log|
    }

    ghost function Abs(): (s: Server)
      reads this, results, peers
    {
      Server(term, votedFor, log, synced, role, leader, commit, applied, candTerm, results[..],
             initialIdx, leaderTerm, peers[..], syncWrites)
    }

    /** The state and the messages are those of the outcome. */
    ghost predicate Is(o: Outcome, ok: bool, sent: Option<Msg>)
      reads this, results, peers
    {
      ok == o.Done? && Abs() == o.next && (o.Done? ==> Just(sent) == o.out)
    }

    constructor (self: nat, n: nat, syncWrites: bool)
      requires self < n
      ensures Valid() && fresh(results) && fresh(peers)
      ensures this.self == self && this.n == n && Abs() == InitServer(n, syncWrites)
    {
      this.self, this.n, this.syncWrites := self, n, syncWrites;
      term, votedFor, log, synced := 0, None, [], 0;
      role, leader, commit, applied := Follower, None, -1, -1;
      candTerm, initialIdx, leaderTerm := 0, -1, 0;
      results := new Vote[n](_ => Unknown);
      peers := new Peer[n](_ => InitPeer([]));
      new;
      assert results[..] == seq(n, _ => Unknown);
      assert peers[..] == seq(n, _ => InitPeer([]));
    }

    // ----- headers -----

    /** The log as the SYNC header describes it. */
    function SyncedLog(): seq<Entry>
      requires synced <= |log|
      reads this
      ensures SyncedLog() == Durable(Abs())
    {
      log[..synced]
    }

    method SyncPending()
      requires Valid()
      modifies `synced
      ensures Valid() && Abs() == SyncAll(old(Abs()))
    {
      synced := |log|;
    }

    method UpdateLogHeader(newTerm: nat, vote: Option<nat>)
      requires Valid()
      modifies `term, `votedFor, `synced
      ensures Valid() && Abs() == WriteHeader(old(Abs()), vote, newTerm)
    {
      term, votedFor := newTerm, vote;
      SyncPending();
    }

    method WriteNextEntry(e: Entry)
      requires Valid()
      modifies `log, `synced
      ensures Valid() && Abs() == AppendEntry(old(Abs()), e)
    {
      log := log + [e];
      if syncWrites { synced := |log|; }
    }

    // ----- elections -----

    method BecomesFollower(newTerm: nat, peer: Option<nat>, voted: bool)
      requires Valid()
      modifies `role, `leader, `term, `votedFor, `synced
      ensures Valid() && Abs() == BecomeFollower(old(Abs()), self, newTerm, peer, voted)
    {
      if peer == None || peer == Some(self) { return; }
      role := Follower;
      leader := peer;
      if newTerm == term { return; }
      UpdateLogHeader(newTerm, if voted then peer else None);
    }

    /** Forget old votes and vote for oneself. */
    method ResetVotes()
      requires Valid()
      modifies results
      ensures results[..] == FreshResults(self, n)
    {
      var i := 0;
      while i < n
        invariant 0 <= i <= n && Valid()
        invariant forall k :: 0 <= k < i ==> results[k] == (if k == self then Yes else Unknown)
      {
        results[i] := if i == self then Yes else Unknown;
        i := i + 1;
      }
    }

    method TimesOut() returns (sent: Option<Msg>)
      requires Valid()
      modifies `leader, `role, `candTerm, results
      ensures Valid() && Is(HandleTimeout(old(Abs()), self, n), true, sent)
    {
      leader := None;
      role := PreCandidate;
      candTerm := term + 1;
      ResetVotes();
      sent := Some(PreVoteReq(self, term + 1, LastTerm(SyncedLog()), |SyncedLog()| - 1));
    }

    method StandForElection() returns (sent: Option<Msg>)
      requires Valid()
      modifies `leader, `role, `candTerm, `term, `votedFor, `synced, results
      ensures Valid() && Abs() == BecomeCandidate(old(Abs()), self, n)
      ensures sent == Some(VoteReqOf(Abs(), self))
    {
      leader := None;
      role := Candidate;
      candTerm := term + 1;
      ResetVotes();
      UpdateLogHeader(term + 1, Some(self));
      sent := Some(VoteReq(self, term, LastTerm(SyncedLog()), |SyncedLog()| - 1));
    }

    method ProcessPreVoteRequest(m: Msg) returns (sent: Option<Msg>)
      requires Valid() && m.PreVoteReq?
      modifies `synced
      ensures Valid() && Is(HandlePreVoteReq(old(Abs()), self, m), true, sent)
    {
      SyncPending();
      var grant :=
        && !(m.term <= term || m.lastTerm < LastTerm(SyncedLog()) || m.lastIdx < |SyncedLog()| - 1)
        && (term + 1 < m.term || leader.None? || role.Candidate? || role.PreCandidate?);
      sent := Some(PreVoteReply(self, m.src, grant));
    }

    method ProcessVoteRequest(m: Msg) returns (sent: Option<Msg>)
      requires Valid() && m.VoteReq?
      modifies `role, `leader, `term, `votedFor, `synced
      ensures Valid() && Is(HandleVoteReq(old(Abs()), self, m), true, sent)
    {
      SyncPending();
      var grant := !(m.term <= term || m.lastTerm < LastTerm(SyncedLog()) || m.lastIdx < |SyncedLog()| - 1);
      sent := Some(VoteReply(self, m.src, grant, term, if grant then None else leader, m.term));
      if grant { BecomesFollower(m.term, Some(m.src), true); }
    }

    method RegisterVoteResult(voter: nat, granted: bool)
      requires Valid()
      modifies results
      ensures Valid() && Abs() == RegisterVote(old(Abs()), voter, granted)
    {
      if voter < n { results[voter] := if granted then Yes else No; }
    }

    /** Count the yes votes, one slot at a time. */
    method HasMajority() returns (yes: bool)
      requires Valid()
      ensures yes == IsMajority(YesVotes(results[..]), n)
    {
      var count, i := 0, 0;
      ghost var seen: set<nat> := {};
      while i < n
        invariant 0 <= i <= n && Valid() && count == |seen|
        invariant forall k: nat :: k in seen <==> k < i && results[k] == Yes
      {
        if results[i] == Yes {
          count := count + 1;
          seen := seen + {i};
        }
        i := i + 1;
      }
      assert seen == YesVotes(results[..]);
      yes := n / 2 + 1 <= count;
    }

    method ProcessPreVoteReply(m: Msg) returns (ok: bool, sent: Option<Msg>)
      requires Valid() && m.PreVoteReply?
      modifies `leader, `role, `candTerm, `term, `votedFor, `synced, results
      ensures Valid() && Is(HandlePreVoteReply(old(Abs()), self, n, m), ok, sent)
    {
      ok, sent := true, None;
      if role != PreCandidate { return; }
      if candTerm != term + 1 { return false, None; }
      RegisterVoteResult(m.src, m.granted);
      if m.granted {
        var enough := HasMajority();
        if enough { sent := StandForElection(); }
      }
    }

    method LeaderInitState()
      requires Valid()
      modifies `role, `leaderTerm, `leader, `initialIdx, peers
      ensures Valid() && Abs() == LeaderInit(old(Abs()), self, n)
    {
      role := Leader;
      leaderTerm := term;
      leader := Some(self);
      initialIdx := |SyncedLog()| - 1;
      var d := SyncedLog();
      var i := 0;
      while i < n
        invariant 0 <= i <= n && Valid()
        invariant forall k :: 0 <= k < i ==> peers[k] == InitPeer(d)
        modifies peers
      {
        peers[i] := InitPeer(d);
        i := i + 1;
      }
      assert peers[..] == seq(n, _ => InitPeer(d));
    }

    method CandidateBecomesLeader() returns (ok: bool)
      requires Valid()
      modifies `role, `leaderTerm, `leader, `initialIdx, `log, `synced, peers
      ensures Valid() && Is(BecomeLeader(old(Abs()), self, n), ok, None)
    {
      if synced != |log| { return false; }
      LeaderInitState();
      if term < LastTerm(log) { return false; }
      WriteNextEntry(Marker(term));
      ok := true;
    }

    method ProcessVoteReply(m: Msg) returns (ok: bool)
      requires Valid() && m.VoteReply?
      modifies this, results, peers
      ensures Valid() && Is(HandleVoteReply(old(Abs()), self, n, m), ok, None)
    {
      if role != Candidate { return true; }
      if candTerm != term { return false; }
      RegisterVoteResult(m.src, m.granted);
      ok := true;
      if m.granted {
        var enough := HasMajority();
        if enough { ok := CandidateBecomesLeader(); }
      } else if term < m.term {
        BecomesFollower(m.term, m.hint, false);
      }
    }

    // ----- leader: writes and sends -----

    method LeaderWrite(data: seq<int>, sizes: seq<nat>) returns (ok: bool)
      requires Valid()
      modifies `log, `synced
      ensures Valid() && Is(HandleWrite(old(Abs()), data, sizes), ok, None)
    {
      if role != Leader || term < LastTerm(log) { return false; }
      WriteNextEntry(Entry(term, false, data, sizes));
      ok := true;
    }

    method RefreshFollower(dst: nat)
      requires Valid() && dst < n && 0 <= peers[dst].nextIdx <= |log|
      modifies peers
      ensures Valid() && peers[..] == old(peers[..])[dst := RefreshPeer(old(peers[dst]), log)]
    {
      if peers[dst].nextIdx == 0 {
        peers[dst] := peers[dst].(prevTerm := 0, curTerm := -1);
      }
      if peers[dst].prevTerm < 0 && 0 < peers[dst].nextIdx {
        peers[dst] := peers[dst].(prevTerm := log[peers[dst].nextIdx - 1].term);
      }
      if peers[dst].nextIdx < |log| {
        peers[dst] := peers[dst].(curTerm := log[peers[dst].nextIdx].term);
      }
    }

    method SendAppendEntry(dst: nat, heartbeat: bool) returns (ok: bool, sent: Option<Msg>)
      requires Valid() && dst < n
      modifies peers
      ensures Valid() && Is(HandleSend(old(Abs()), self, dst, heartbeat), ok, sent)
    {
      ok, sent := true, None;
      if role != Leader || log == [] { return; }
      if !(0 <= peers[dst].nextIdx <= |log|) { return false, None; }
      RefreshFollower(dst);
      var p := peers[dst];
      var entry := if !heartbeat && p.nextIdx < |log| then Some(log[p.nextIdx]) else None;
      sent := Some(AppendReq(self, dst, term, p.curTerm, p.prevTerm, p.nextIdx - 1, commit, entry));
    }

    // ----- follower: append requests -----

    /** Step down, or adopt the term, and follow the sender. */
    method TermCheckOps(m: Msg) returns (ok: bool)
      requires Valid() && m.AppendReq?
      modifies `role, `leader, `term, `votedFor, `synced
      ensures Valid() && ok == (term <= m.term || old(term) <= m.term) && ok == (old(term) <= m.term)
      ensures Abs() == if ok then AdoptLeader(old(Abs()), self, m) else old(Abs())
    {
      if m.term < term { return false; }
      if role == Candidate || role == PreCandidate {
        BecomesFollower(m.term, Some(m.src), false);
      } else if term < m.term && role == Leader {
        BecomesFollower(m.term, Some(m.src), false);
      } else if term < m.term {
        UpdateLogHeader(m.term, None);
      }
      leader := Some(m.src);
      ok := true;
    }

    /** Cut the log after the leader's previous index; for index -1 only the sync happens. */
    method PruneLog(m: Msg)
      requires Valid() && m.AppendReq? && -1 <= m.prevIdx && IndexAhead(Abs(), m)
      modifies `log, `synced
      ensures Valid() && Abs() == Prune(old(Abs()), m)
    {
      SyncPending();
      if 0 <= m.prevIdx {
        log := log[..m.prevIdx + 1];
        synced := |log|;
      }
    }

    method PrepareAndCheck(m: Msg) returns (check: Check)
      requires Valid() && m.AppendReq? && -1 <= m.prevIdx
      modifies `log, `synced
      ensures Valid() && (Abs(), check) == PrepareLog(old(Abs()), m)
    {
      if m.prevIdx < |log| - 1 {
        if role != Follower { return Failed; }
        if m.logTerm <= 0 || log[m.prevIdx + 1].term == m.logTerm {
          return if 0 <= m.prevIdx && log[m.prevIdx].term != m.prevTerm then Failed else AlreadyStored;
        }
        if m.prevIdx + 1 <= commit || m.prevIdx + 1 <= applied {
          SyncPending();
          return Failed;
        }
        PruneLog(m);
      }
      if m.prevIdx < |log| - 1 { return Failed; }
      if |log| - 1 < m.prevIdx { return NonMatching; }
      return if LastTerm(log) != m.prevTerm then NonMatching else Matches;
    }

    method AdvanceCommitIdx(idx: int)
      requires Valid()
      modifies `commit
      ensures Valid() && Abs() == AdvanceCommit(old(Abs()), idx)
    {
      if commit < idx && idx <= |SyncedLog()| - 1 { commit := idx; }
    }

    method PrepReply(m: Msg, stale: bool, check: Check) returns (sent: Option<Msg>)
      requires Valid() && m.AppendReq?
      ensures sent == Some(ReplyTo(Abs(), self, m, stale, check))
    {
      var nonMatching := !stale && check == NonMatching;
      var syncedIdx := if !stale && (check == Matches || nonMatching) then |SyncedLog()| - 1 else -1;
      sent := Some(AppendReply(self, m.src, term, m.prevIdx, syncedIdx, m.entry.None?, stale, nonMatching,
                               |SyncedLog()| == 0, m.term));
    }

    method WriteNewEntryFromLeader(m: Msg) returns (ok: bool)
      requires Valid() && m.AppendReq?
      modifies `log, `synced
      ensures Valid() && ok == (m.entry.None? || MayWrite(old(Abs()), m))
      ensures Abs() == if ok && m.entry.Some? then WriteFromLeader(old(Abs()), m) else old(Abs())
    {
      if m.entry.None? { return true; }
      if !(role == Follower && 0 < m.logTerm && m.prevTerm <= m.logTerm && LastTerm(log) <= m.logTerm) {
        return false;
      }
      WriteNextEntry(m.entry.value.(term := m.logTerm));
      ok := true;
    }

    method ProcessAppendEntriesRequest(m: Msg) returns (ok: bool, sent: Option<Msg>)
      requires Valid() && m.AppendReq?
      modifies `role, `leader, `term, `votedFor, `log, `synced, `commit
      ensures Valid() && Is(HandleAppendReq(old(Abs()), self, m), ok, sent)
    {
      ok, sent := true, None;
      if m.prevIdx < -1 { return; }
      var current := TermCheckOps(m);
      var check := Failed;
      if current {
        check := PrepareAndCheck(m);
        if check == Failed { return false, None; }
        if check == Matches {
          ok := WriteNewEntryFromLeader(m);
          if !ok { return; }
          AdvanceCommitIdx(m.commit);
        } else if check == AlreadyStored {
          AdvanceCommitIdx(Min(m.commit, |SyncedLog()| - 1));
        }
      }
      sent := PrepReply(m, !current, check);
    }

    // ----- leader: replies and commit -----

    method SetupSelf()
      requires Valid()
      modifies peers
      ensures Valid() && Abs() == SelfPeer(old(Abs()), self)
    {
      var d := SyncedLog();
      peers[self] := peers[self].(nextIdx := |d|, ackdIdx := |d| - 1, syncedIdx := |d| - 1, prevTerm := LastTerm(d));
    }

    /** Gather what each peer counts for in a scratch array, sort it, read the majority slot. */
    method CalculateCommittedIdx() returns (idx: int)
      requires Valid()
      modifies peers
      ensures Valid() && Abs() == SelfPeer(old(Abs()), self)
      ensures idx == MajorityIndex(CountedAll(Abs().peers))
    {
      SetupSelf();
      var indexes := new int[n];
      var i := 0;
      while i < n
        invariant 0 <= i <= n && Valid() && Abs() == SelfPeer(old(Abs()), self)
        invariant forall k :: 0 <= k < i ==> indexes[k] == Counted(peers[k])
      {
        indexes[i] := Min(peers[i].ackdIdx, peers[i].syncedIdx);
        i := i + 1;
      }
      assert indexes[..] == CountedAll(peers[..]);
      idx := MajorityEntryIndex(indexes);
    }

    method TryAdvanceCommitIdx(strict: bool) returns (ok: bool)
      requires Valid()
      modifies `commit, peers
      ensures Valid() && Is(TryCommit(strict, old(Abs()), self), ok, None)
    {
      var idx := CalculateCommittedIdx();
      if idx < commit && initialIdx <= idx { return false; }
      if (if strict then initialIdx < idx else initialIdx <= idx) && commit < idx {
        AdvanceCommitIdx(idx);
      }
      ok := true;
    }

    method TryUpdateFollowerSyncIdx(strict: bool, src: nat, ofTerm: int, syncedIdx: int) returns (ok: bool)
      requires Valid() && src < n
      modifies `commit, peers
      ensures Valid() && Is(UpdateSync(strict, old(Abs()), self, src, ofTerm, syncedIdx), ok, None)
    {
      ok := true;
      if ofTerm != LastTerm(SyncedLog()) || peers[src].nextIdx < peers[src].syncedIdx { return; }
      var advanced := false;
      if peers[src].ackdIdx < peers[src].nextIdx - 1 {
        peers[src] := peers[src].(ackdIdx := peers[src].nextIdx - 1);
        advanced := true;
      }
      if peers[src].syncedIdx < syncedIdx {
        peers[src] := peers[src].(syncedIdx := syncedIdx);
        advanced := true;
      }
      assert Abs() == old(Abs()).(peers := old(peers[..])[src := Noted(old(peers[src]), syncedIdx)]);
      if advanced { ok := TryAdvanceCommitIdx(strict); }
    }

    method ApplyReplyResult(strict: bool, m: Msg) returns (ok: bool)
      requires Valid() && m.AppendReply? && m.src < n && role.Leader? && !m.stale
      modifies `commit, peers
      ensures Valid() && Is(HandleAppendReply(strict, old(Abs()), self, m), ok, None)
    {
      ok := true;
      var p := peers[m.src];
      hide UpdateSync;
      if m.prevIdx + 1 != p.nextIdx { return; }
      if m.nonMatching {
        if 0 < p.nextIdx {
          var back := if m.newlyInit then 0
                      else if 0 <= m.syncedIdx < p.nextIdx then m.syncedIdx
                      else p.nextIdx - 1;
          peers[m.src] := p.(nextIdx := back, prevTerm := -1);
        }
        assert peers[..] == old(peers[..])[m.src := BackOff(p, m)];
      } else {
        if !m.heartbeat { peers[m.src] := p.(prevTerm := -1, nextIdx := p.nextIdx + 1); }
        assert peers[..] == old(peers[..])[m.src := Advanced(p, m)];
        ok := TryUpdateFollowerSyncIdx(strict, m.src, m.term, m.syncedIdx);
      }
    }

    method ProcessAppendEntriesReply(strict: bool, m: Msg) returns (ok: bool)
      requires Valid() && m.AppendReply? && m.src < n
      modifies `role, `leader, `term, `votedFor, `synced, `commit, peers
      ensures Valid() && Is(HandleAppendReply(strict, old(Abs()), self, m), ok, None)
    {
      ok := true;
      if role != Leader { return; }
      if m.stale {
        if term < m.term { BecomesFollower(m.term, Some(m.src), false); }
      } else {
        ok := ApplyReplyResult(strict, m);
      }
    }

    method ProcessSyncIdxUpdate(strict: bool, m: Msg) returns (ok: bool)
      requires Valid() && m.SyncIdx? && m.src < n
      modifies `commit, peers
      ensures Valid() && Is(HandleSyncIdx(strict, old(Abs()), self, m), ok, None)
    {
      ok := true;
      if role != Leader || m.term != term { return; }
      ok := TryUpdateFollowerSyncIdx(strict, m.src, m.term, m.syncedIdx);
    }

    method SendSyncIdx() returns (sent: Option<Msg>)
      requires Valid()
      ensures Is(HandleSendSync(Abs(), self), true, sent)
    {
      sent := None;
      if role != Follower || syncWrites { return; }
      if leader == None || leader == Some(self) { return; }
      sent := Some(SyncIdx(self, leader.value, LastTerm(SyncedLog()), |SyncedLog()| - 1));
    }
  }
}
