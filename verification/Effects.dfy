/** What every message does to the replica that takes it, said without the handlers' own steps: when a vote is
    given, where commit indices end, what a leader notes about a peer. */
module Effects {
  import opened Majority
  import opened Protocol

  // ----- votes -----

  /** The candidate's log is not behind this one, compared part by part. */
  predicate NotBehind(log: seq<Entry>, lastTerm: int, lastIdx: int)
  {
    LastTerm(log) <= lastTerm && |log| - 1 <= lastIdx
  }

  /** A vote is given exactly to a request for a later term from a candidate whose log is not behind the whole
      log, unsynced tail included; role and known leader do not matter.  Giving it means following the candidate
      in its term, with the vote on record; refusing it changes nothing but that the log is now synced, and tells
      the known leader. */
  lemma VoteExactly(s: Server, self: nat, m: Msg)
    requires m.VoteReq? && m.src != self
    ensures var o := HandleVoteReq(s, self, m);
            var yes := s.term < m.term && NotBehind(s.log, m.lastTerm, m.lastIdx);
            && o.Done?
            && o.out == {VoteReply(self, m.src, yes, s.term, if yes then None else s.leader, m.term)}
            && o.next == if yes then s.(synced := |s.log|, term := m.term, votedFor := Some(m.src), role := Follower,
                                        leader := Some(m.src))
                         else s.(synced := |s.log|)
  {
    assert Durable(SyncAll(s)) == s.log;
  }

  /** A pre-vote needs what a vote needs, and besides a term beyond the next one or a leader in doubt: none
      known, or the replica itself standing.  It changes nothing but that the log is now synced. */
  lemma PreVoteExactly(s: Server, self: nat, m: Msg)
    requires m.PreVoteReq?
    ensures var o := HandlePreVoteReq(s, self, m);
            && o == Done(s.(synced := |s.log|), o.out)
            && (o.out == {PreVoteReply(self, m.src, true)} <==>
                  && s.term < m.term && NotBehind(s.log, m.lastTerm, m.lastIdx)
                  && (m.term == s.term + 1 && s.leader.Some? ==> s.role.Candidate? || s.role.PreCandidate?))
            && (o.out == {PreVoteReply(self, m.src, true)} || o.out == {PreVoteReply(self, m.src, false)})
  {
    assert Durable(SyncAll(s)) == s.log;
    assert PreVoteReply(self, m.src, true) in {PreVoteReply(self, m.src, true)};
    assert PreVoteReply(self, m.src, true) !in {PreVoteReply(self, m.src, false)};
  }

  /** Those who have voted for the candidate when this vote counts too. */
  function Supporters(s: Server, voter: nat): set<nat>
  {
    set k: nat | k < |s.results| && (k == voter || s.results[k] == Yes)
  }

  lemma SupportersAre(s: Server, voter: nat)
    requires voter < |s.results|
    ensures YesVotes(RegisterVote(s, voter, true).results) == Supporters(s, voter)
  {
  }

  /** A vote makes a leader exactly when it completes a majority. */
  lemma VoteCounts(s: Server, self: nat, n: nat, m: Msg)
    requires m.VoteReply? && m.granted && s.role.Candidate? && s.candTerm == s.term && m.src < |s.results|
    requires s.synced == |s.log| && LastTerm(s.log) <= s.term
    ensures var o := HandleVoteReply(s, self, n, m);
            && o.Done? && o.out == {} && o.next.results == s.results[m.src := Yes]
            && (o.next.role.Leader? <==> IsMajority(Supporters(s, m.src), n))
            && if o.next.role.Leader? then Inaugurated(s, o.next, self, n) else o.next == s.(results := o.next.results)
  {
    assert Durable(s) == s.log;
    SupportersAre(s, m.src);
  }

  /** A new leader: its log has one marker of its term more; it expects every peer to have all before that, counts
      nothing yet, and will not commit by count what was there before. */
  ghost predicate Inaugurated(s: Server, s': Server, self: nat, n: nat)
  {
    && s'.role.Leader? && s'.leader == Some(self) && s'.term == s'.leaderTerm == s.term && s'.votedFor == s.votedFor
    && s'.log == s.log + [Marker(s.term)] && s'.synced == (if s.syncWrites then |s'.log| else s.synced)
    && s'.initialIdx == |s.log| - 1 && s'.commit == s.commit && s'.applied == s.applied
    && s'.syncWrites == s.syncWrites && |s'.peers| == n
    && forall k :: 0 <= k < n ==> s'.peers[k] == Peer(|s.log|, -1, -1, LastTerm(s.log), -1)
  }

  /** A refusal ends a candidacy exactly when it comes from a later term and names another replica to follow. */
  lemma RefusalCounts(s: Server, self: nat, n: nat, m: Msg)
    requires m.VoteReply? && !m.granted && s.role.Candidate? && s.candTerm == s.term && m.src < |s.results|
    ensures var o := HandleVoteReply(s, self, n, m);
            && o.Done? && o.out == {} && o.next.results == s.results[m.src := No]
            && (o.next.role.Follower? <==> s.term < m.term && m.hint.Some? && m.hint.value != self)
            && o.next == if o.next.role.Follower?
                         then s.(results := o.next.results, role := Follower, leader := m.hint, term := m.term,
                                 votedFor := None, synced := |s.log|)
                         else s.(results := o.next.results)
  {
  }

  /** A pre-vote makes a candidate of the next term exactly when it completes a majority. */
  lemma PreVoteCounts(s: Server, self: nat, n: nat, m: Msg)
    requires m.PreVoteReply? && s.role.PreCandidate? && s.candTerm == s.term + 1 && m.src < |s.results|
    ensures var o := HandlePreVoteReply(s, self, n, m);
            && o.Done?
            && (o.next.role.Candidate? <==> m.granted && IsMajority(Supporters(s, m.src), n))
            && if o.next.role.Candidate? then
                 && o.out == {VoteReq(self, s.term + 1, LastTerm(s.log), |s.log| - 1)}
                 && o.next.term == o.next.candTerm == s.term + 1 && o.next.votedFor == Some(self)
                 && o.next.log == s.log && o.next.synced == |s.log| && o.next.leader == None
                 && YesVotes(o.next.results) == (if self < n then {self} else {})
               else
                 && o.out == {}
                 && o.next == s.(results := s.results[m.src := if m.granted then Yes else No])
  {
    SupportersAre(s, m.src);
    OwnVote(self, n);
    var s1 := RegisterVote(s, m.src, m.granted);
    var s2 := BecomeCandidate(s1, self, n);
    assert Durable(s2) == s.log;
  }

  lemma OwnVote(self: nat, n: nat)
    ensures YesVotes(FreshResults(self, n)) == if self < n then {self} else {}
  {
  }

  // ----- a leader's commit index -----

  /** What a leader counts for each peer: for itself its synced log, for others the lower of what was acknowledged
      and what was reported synced. */
  function Table(s: Server, self: nat): (t: seq<int>)
    ensures |t| == |s.peers|
  {
    seq(|s.peers|, k requires 0 <= k < |s.peers| =>
      if k == self then |Durable(s)| - 1 else Min(s.peers[k].ackdIdx, s.peers[k].syncedIdx))
  }

  lemma TableIs(s: Server, self: nat)
    requires self < |s.peers|
    ensures CountedAll(SelfPeer(s, self).peers) == Table(s, self)
  {
  }

  /** An index is past the gate when it is past the log the leader started with; the loose comparison admits the
      last index of that log. */
  predicate PastGate(strict: bool, s: Server, v: int)
  {
    s.initialIdx < v || (!strict && v == s.initialIdx)
  }

  /** The commit index moves exactly when a majority has reached an index past the gate, beyond the commit index
      and within the synced log, and then to the greatest such; the leader stops exactly when that index is behind
      what it has committed, though not behind the log it started with. */
  lemma CommitExactly(strict: bool, s: Server, self: nat, v: int)
    requires self < |s.peers| && IsMajorityIndex(Table(s, self), v)
    ensures var o := TryCommit(strict, s, self);
            && (o.Panic? <==> s.initialIdx <= v < s.commit)
            && o.next.commit == (if PastGate(strict, s, v) && s.commit < v < |Durable(s)| then v else s.commit)
            && (o.Done? ==> o.out == {})
            && OnlyCounting(s, o.next)
            && (forall k :: 0 <= k < |s.peers| && k != self ==> o.next.peers[k] == s.peers[k])
            && Min(o.next.peers[self].ackdIdx, o.next.peers[self].syncedIdx) == |Durable(s)| - 1
  {
    TableIs(s, self);
    MajorityIndexCorrect(Table(s, self), v);
    hide MajorityIndex, CountedAll;
  }

  /** Nothing but the table and the commit index differs. */
  predicate OnlyCounting(s: Server, s': Server)
  {
    s' == s.(peers := s'.peers, commit := s'.commit) && |s'.peers| == |s.peers|
  }

  // ----- what a leader notes about a peer -----

  /** News that a peer has synced up to an index: it has acknowledged all before its next entry, and synced what
      it says, unless more was known. */
  function Informed(p: Peer, syncedIdx: int): Peer
  {
    p.(ackdIdx := Max(p.ackdIdx, p.nextIdx - 1), syncedIdx := Max(p.syncedIdx, syncedIdx))
  }

  /** The leader's log on disk ends in the term of the news, and the slot is not ahead of itself. */
  predicate TakesNews(s: Server, src: nat, term: int)
    requires src < |s.peers|
  {
    LastTerm(Durable(s)) == term && s.peers[src].syncedIdx <= s.peers[src].nextIdx
  }

  lemma InformedIs(p: Peer, syncedIdx: int)
    ensures Noted(p, syncedIdx) == Informed(p, syncedIdx)
  {
  }

  /** From s, where p is the slot of src, to s': the slot is informed, and if that changed it, the commit index
      goes to the majority index v as CommitExactly says. */
  ghost predicate NewsTaken(strict: bool, s: Server, p: Peer, s': Server, self: nat, src: nat, syncedIdx: int, v: int)
    requires self < |s.peers| && src < |s.peers|
  {
    && OnlyCounting(s, s') && s'.peers[src] == Informed(p, syncedIdx)
    && (forall k :: 0 <= k < |s.peers| && k != self && k != src ==> s'.peers[k] == s.peers[k])
    && s'.commit == (if Informed(p, syncedIdx) != p && PastGate(strict, s, v) && s.commit < v < |Durable(s)| then v
                     else s.commit)
  }

  lemma NewsExactly(strict: bool, s: Server, self: nat, src: nat, term: int, syncedIdx: int, v: int)
    requires self < |s.peers| && src < |s.peers| && src != self
    requires IsMajorityIndex(Table(s.(peers := s.peers[src := Informed(s.peers[src], syncedIdx)]), self), v)
    ensures var o := UpdateSync(strict, s, self, src, term, syncedIdx);
            if TakesNews(s, src, term) then
              && (o.Done? ==> o.out == {})
              && (o.Panic? <==> Informed(s.peers[src], syncedIdx) != s.peers[src] && s.initialIdx <= v < s.commit)
              && NewsTaken(strict, s, s.peers[src], o.next, self, src, syncedIdx, v)
            else o == Done(s, {})
  {
    InformedIs(s.peers[src], syncedIdx);
    var s1 := s.(peers := s.peers[src := Informed(s.peers[src], syncedIdx)]);
    CommitExactly(strict, s1, self, v);
    assert Durable(s1) == Durable(s);
    hide TryCommit, Informed, Noted;
  }

  /** A sync-index update is taken in exactly by a leader of its term whose own log on disk ends in that term. */
  lemma SyncIdxExactly(strict: bool, s: Server, self: nat, m: Msg, v: int)
    requires m.SyncIdx? && self < |s.peers| && m.src < |s.peers| && m.src != self
    requires IsMajorityIndex(Table(s.(peers := s.peers[m.src := Informed(s.peers[m.src], m.syncedIdx)]), self), v)
    ensures var o := HandleSyncIdx(strict, s, self, m);
            if s.role.Leader? && m.term == s.term && TakesNews(s, m.src, s.term) then
              && (o.Done? ==> o.out == {})
              && NewsTaken(strict, s, s.peers[m.src], o.next, self, m.src, m.syncedIdx, v)
            else o == Done(s, {})
  {
    NewsExactly(strict, s, self, m.src, m.term, m.syncedIdx, v);
    hide UpdateSync;
  }

  /** A reply that takes a leader out of office, or tells it nothing. */
  lemma StaleReplyExactly(strict: bool, s: Server, self: nat, m: Msg)
    requires m.AppendReply? && self < |s.peers| && m.src < |s.peers| && m.src != self
    requires !s.role.Leader? || m.stale || m.prevIdx + 1 != s.peers[m.src].nextIdx
    ensures var o := HandleAppendReply(strict, s, self, m);
            o == Done(if s.role.Leader? && m.stale && s.term < m.term
                      then s.(role := Follower, leader := Some(m.src), term := m.term, votedFor := None,
                              synced := |s.log|)
                      else s, {})
  {
  }

  /** A rejection lowers the next index: to 0 for an empty log, to the length disclosed, else by one. */
  lemma RejectionExactly(strict: bool, s: Server, self: nat, m: Msg)
    requires m.AppendReply? && self < |s.peers| && m.src < |s.peers| && m.src != self
    requires s.role.Leader? && !m.stale && m.nonMatching && m.prevIdx + 1 == s.peers[m.src].nextIdx
    ensures var o := HandleAppendReply(strict, s, self, m);
            var p, p' := s.peers[m.src], o.next.peers[m.src];
            && o == Done(s.(peers := s.peers[m.src := p']), {})
            && p' == p.(nextIdx := p'.nextIdx, prevTerm := p'.prevTerm)
            && (0 < p.nextIdx ==>
                  && 0 <= p'.nextIdx < p.nextIdx && p'.prevTerm == -1
                  && (m.newlyInit ==> p'.nextIdx == 0)
                  && (!m.newlyInit && 0 <= m.syncedIdx < p.nextIdx ==> p'.nextIdx == m.syncedIdx)
                  && (!m.newlyInit && !(0 <= m.syncedIdx < p.nextIdx) ==> p'.nextIdx == p.nextIdx - 1))
            && (p.nextIdx <= 0 ==> p' == p)
  {
  }

  /** An acceptance moves the next index past what was sent; then the news in it is taken in. */
  lemma AcceptanceExactly(strict: bool, s: Server, self: nat, m: Msg, p: Peer, v: int)
    requires m.AppendReply? && self < |s.peers| && m.src < |s.peers| && m.src != self
    requires s.role.Leader? && !m.stale && !m.nonMatching && m.prevIdx + 1 == s.peers[m.src].nextIdx
    requires p.nextIdx == (if m.heartbeat then m.prevIdx + 1 else m.prevIdx + 2)
    requires p == s.peers[m.src].(nextIdx := p.nextIdx, prevTerm := if m.heartbeat then s.peers[m.src].prevTerm else -1)
    requires IsMajorityIndex(Table(s.(peers := s.peers[m.src := Informed(p, m.syncedIdx)]), self), v)
    ensures var o := HandleAppendReply(strict, s, self, m);
            if LastTerm(Durable(s)) == m.term && p.syncedIdx <= p.nextIdx then
              && (o.Done? ==> o.out == {})
              && NewsTaken(strict, s, p, o.next, self, m.src, m.syncedIdx, v)
            else o == Done(s.(peers := s.peers[m.src := p]), {})
  {
    var s1 := s.(peers := s.peers[m.src := p]);
    assert s1.peers[m.src := Informed(p, m.syncedIdx)] == s.peers[m.src := Informed(p, m.syncedIdx)];
    assert Durable(s1) == Durable(s);
    assert p == Advanced(s.peers[m.src], m);
    NewsExactly(strict, s1, self, m.src, m.term, m.syncedIdx, v);
    hide UpdateSync, Advanced, Informed;
  }

  // ----- a follower and an append request -----

  /** The log holds what was asked for at the place after the previous index, or was asked for nothing there. */
  predicate Holding(log: seq<Entry>, m: Msg)
    requires m.AppendReq? && -1 <= m.prevIdx
  {
    m.prevIdx + 1 < |log| && (m.logTerm <= 0 || log[m.prevIdx + 1].term == m.logTerm)
  }

  /** The log up to and including the previous index. */
  function Cut(log: seq<Entry>, m: Msg): seq<Entry>
    requires m.AppendReq? && -1 <= m.prevIdx
  {
    if 0 <= m.prevIdx && m.prevIdx + 1 < |log| then log[..m.prevIdx + 1] else log
  }

  /** The cut log ends at the previous index, in the previous term. */
  predicate Fits(log: seq<Entry>, m: Msg)
    requires m.AppendReq? && -1 <= m.prevIdx
  {
    |Cut(log, m)| == m.prevIdx + 1 && LastTerm(Cut(log, m)) == m.prevTerm
  }

  /** The log afterwards. */
  function Afterwards(log: seq<Entry>, m: Msg): seq<Entry>
    requires m.AppendReq? && -1 <= m.prevIdx
  {
    if Holding(log, m) then log
    else if Fits(log, m) && m.entry.Some? then
      Cut(log, m) + [m.entry.value.(term := if 0 <= m.logTerm then m.logTerm else 0)]
    else Cut(log, m)
  }

  /** How much of it is synced: all, when an entry was written synchronously; all that was left, when the term rose
      or the log was cut; else as much as before. */
  function SyncedAfter(s: Server, m: Msg): nat
    requires m.AppendReq? && -1 <= m.prevIdx
  {
    if s.syncWrites && Afterwards(s.log, m) != Cut(s.log, m) && !Holding(s.log, m) then |Afterwards(s.log, m)|
    else if Cut(s.log, m) != s.log && !Holding(s.log, m) then |Cut(s.log, m)|
    else if s.term < m.term then |s.log|
    else s.synced
  }

  /** Where the commit index ends: at the leader's, if that is higher and synced here; at what is synced here, if
      the request shows no more than that the log was already there; where it was, if the log did not fit. */
  function CommitAfter(s: Server, m: Msg, synced: nat): int
    requires m.AppendReq? && -1 <= m.prevIdx
  {
    if Holding(s.log, m) then Max(s.commit, Min(m.commit, synced - 1))
    else if Fits(s.log, m) && m.commit < synced then Max(s.commit, m.commit)
    else s.commit
  }

  /** A request of a current term that stops nobody: term, leader, log and commit index afterwards, and the answer. */
  lemma AppendReqExactly(s: Server, self: nat, m: Msg)
    requires m.AppendReq? && -1 <= m.prevIdx && s.term <= m.term && m.src != self && s.synced <= |s.log|
    requires s.role.Leader? ==> s.term < m.term
    requires HandleAppendReq(s, self, m).Done?
    ensures var o := HandleAppendReq(s, self, m);
            var stored, fits := Holding(s.log, m), Fits(s.log, m);
            && o.next.role.Follower? && o.next.leader == Some(m.src) && o.next.term == m.term
            && o.next.log == Afterwards(s.log, m) && s.commit <= o.next.commit
            && o.next.commit == CommitAfter(s, m, o.next.synced)
            && o.out == {AppendReply(self, m.src, m.term, m.prevIdx, if stored then -1 else o.next.synced - 1,
                                     m.entry.None?, false, !stored && !fits, o.next.synced == 0, m.term)}
            && o.next.synced == SyncedAfter(s, m)
            && o.next == s.(role := o.next.role, leader := o.next.leader, term := o.next.term, log := o.next.log,
                            votedFor := if s.term < m.term then None else s.votedFor, synced := o.next.synced,
                            commit := o.next.commit)
  {
    var s1 := AdoptLeader(s, self, m);
    assert s1.role.Follower? && s1.log == s.log && s1.commit == s.commit && s1.synced <= |s1.log|;
    ProceedExactly(s1, self, m);
    hide Proceed, Holding, Fits, Afterwards, CommitAfter, Cut;
  }

  lemma ProceedExactly(s: Server, self: nat, m: Msg)
    requires m.AppendReq? && -1 <= m.prevIdx && s.role.Follower? && s.synced <= |s.log| && s.term == m.term
    requires Proceed(s, self, m).Done?
    ensures var o := Proceed(s, self, m);
            var stored, fits := Holding(s.log, m), Fits(s.log, m);
            && o.next.log == Afterwards(s.log, m) && s.commit <= o.next.commit
            && o.next.commit == CommitAfter(s, m, o.next.synced) && o.next.synced <= |o.next.log|
            && o.out == {AppendReply(self, m.src, m.term, m.prevIdx, if stored then -1 else o.next.synced - 1,
                                     m.entry.None?, false, !stored && !fits, o.next.synced == 0, m.term)}
            && o.next.synced == SyncedAfter(s, m)
            && o.next == s.(log := o.next.log, synced := o.next.synced, commit := o.next.commit)
  {
    PreparedExactly(s, m);
    hide PrepareLog, Holding, Fits, Cut, LastTerm;
  }

  lemma PreparedExactly(s: Server, m: Msg)
    requires m.AppendReq? && -1 <= m.prevIdx && s.role.Follower? && s.synced <= |s.log| && !PrepareLog(s, m).1.Failed?
    ensures var (s2, check) := PrepareLog(s, m);
            && s2 == s.(log := s2.log, synced := s2.synced) && s2.synced <= |s2.log|
            && s2.synced == (if Cut(s.log, m) != s.log && !Holding(s.log, m) then |s2.log| else s.synced)
            && (check.AlreadyStored? <==> Holding(s.log, m))
            && (!check.AlreadyStored? ==> s2.log == Cut(s.log, m) && (check.Matches? <==> Fits(s.log, m)))
            && (check.AlreadyStored? ==> s2 == s)
  {
    hide Settled, LastTerm;
  }

  /** A request of an older term is refused without a trace. */
  lemma OldRequestExactly(s: Server, self: nat, m: Msg)
    requires m.AppendReq? && -1 <= m.prevIdx && m.term < s.term
    ensures HandleAppendReq(s, self, m) ==
            Done(s, {AppendReply(self, m.src, s.term, m.prevIdx, -1, m.entry.None?, true, false, Durable(s) == [],
                                 m.term)})
  {
  }

  /** What stops a follower: a term before the entry it holds that is not the one claimed; a conflict that reaches
      back to what is committed or applied, or to entry 0; an entry to write with a term that does not follow. */
  predicate Impossible(s: Server, m: Msg)
    requires m.AppendReq? && -1 <= m.prevIdx
  {
    if Holding(s.log, m) then 0 <= m.prevIdx && s.log[m.prevIdx].term != m.prevTerm
    else
      || (m.prevIdx + 1 < |s.log| && (m.prevIdx == -1 || m.prevIdx < s.commit || m.prevIdx < s.applied))
      || (Fits(s.log, m) && m.entry.Some? && !Follows(Cut(s.log, m), m))
  }

  /** The term of the entry sent is a proper one, and not before that of the last entry. */
  predicate Follows(log: seq<Entry>, m: Msg)
    requires m.AppendReq?
  {
    0 < m.logTerm && m.prevTerm <= m.logTerm && LastTerm(log) <= m.logTerm
  }

  lemma AppendReqStops(s: Server, self: nat, m: Msg)
    requires m.AppendReq? && -1 <= m.prevIdx && s.term <= m.term && m.src != self && s.synced <= |s.log|
    requires s.role.Leader? ==> s.term < m.term
    ensures HandleAppendReq(s, self, m).Panic? <==> Impossible(s, m)
  {
    var s1 := AdoptLeader(s, self, m);
    assert s1.role.Follower? && s1.log == s.log && s1.commit == s.commit && s1.applied == s.applied;
    ProceedStops(s1, self, m);
    hide Proceed, Holding, Fits, LastTerm;
  }

  lemma ProceedStops(s: Server, self: nat, m: Msg)
    requires m.AppendReq? && -1 <= m.prevIdx && s.role.Follower?
    ensures Proceed(s, self, m).Panic? <==> Impossible(s, m)
  {
    hide AdvanceCommit, WriteFromLeader, ReplyTo;
  }

  // ----- a leader's requests and writes -----

  /** A request carries what the leader's log has after the peer's next index, or for heartbeats only its term; the
      terms before and there are read from the log unless cached, and what was sent is cached. */
  lemma SendExactly(s: Server, self: nat, dst: nat, heartbeat: bool)
    requires dst < |s.peers| && s.role.Leader? && s.log != [] && 0 <= s.peers[dst].nextIdx <= |s.log|
    ensures var o := HandleSend(s, self, dst, heartbeat);
            var p, n := s.peers[dst], s.peers[dst].nextIdx;
            var prevTerm := if n == 0 then 0 else if p.prevTerm < 0 then s.log[n - 1].term else p.prevTerm;
            var logTerm := if n < |s.log| then s.log[n].term else p.curTerm;
            && o.Done? && o.next == s.(peers := s.peers[dst := p.(prevTerm := prevTerm, curTerm := logTerm)])
            && o.out == {AppendReq(self, dst, s.term, logTerm, prevTerm, n - 1, s.commit,
                                   if heartbeat || n == |s.log| then None else Some(s.log[n]))}
  {
  }

  /** A write appends one entry of the leader's term, synced at once with synchronous writes; it stops a replica that
      does not lead, or whose log is ahead of its term. */
  lemma WriteExactly(s: Server, data: seq<int>, sizes: seq<nat>)
    ensures var o := HandleWrite(s, data, sizes);
            && (o.Done? <==> s.role.Leader? && LastTerm(s.log) <= s.term)
            && (o.Done? ==>
                  && o.out == {} && |o.next.log| == |s.log| + 1 && o.next.log[..|s.log|] == s.log
                  && o.next.log[|s.log|] == Entry(s.term, false, data, sizes)
                  && o.next == s.(log := o.next.log, synced := if s.syncWrites then |s.log| + 1 else s.synced))
  {
  }

  /** After a crash, header, the log found and the record found are there, all durable; office, leader and commit
      index are forgotten. */
  lemma RestartExactly(s: Server, n: nat, d: nat, applied: int)
    requires d <= |s.log|
    ensures var r := Restart(s, n, d, applied);
            && r.term == s.term && r.votedFor == s.votedFor && r.log == s.log[..d] && Durable(r) == r.log
            && r.applied == applied && r.commit == -1 && r.role.Follower? && r.leader == None
            && r.syncWrites == s.syncWrites && |r.peers| == |r.results| == n
  {
  }

  // ----- reports and the state machine -----

  /** With asynchronous writes, a follower reports to a known other leader how far it has synced, and the term
      there; nobody else reports. */
  lemma ReportExactly(s: Server, self: nat)
    requires s.synced <= |s.log|
    ensures var o := HandleSendSync(s, self);
            && o == Done(s, o.out)
            && (o.out != {} <==> s.role.Follower? && !s.syncWrites && s.leader.Some? && s.leader.value != self)
            && (forall m :: m in o.out ==>
                  m == SyncIdx(self, s.leader.value, if s.synced == 0 then 0
                               else s.log[s.synced - 1].term, s.synced - 1))
  {
  }

  /** One entry at a time, up to the commit index; a record ahead of it stops the replica. */
  lemma ApplyExactly(s: Server)
    ensures var o := HandleApply(s);
            && (o.Panic? <==> s.commit < s.applied)
            && o.next == s.(applied := o.next.applied)
            && (o.Done? ==> o.out == {} && o.next.applied == Min(s.applied + 1, s.commit))
  {
  }
}
