/** The protocol state of one replica, its messages, and what every handler does to them.
    Each handler is a total function: the replica before and the message give the replica
    after and the messages it sends, or the state in which an assertion stopped it. */
module Protocol {
  import opened Majority

  datatype Option<+T> = None | Some(value: T)

  /** One log entry: the part sizes index into data. */
  datatype Entry = Entry(term: nat, marker: bool, data: seq<int>, sizes: seq<nat>)

  datatype Role = Follower | PreCandidate | Candidate | Leader

  datatype Vote = Unknown | Yes | No

  /** What a leader keeps per peer.  prevTerm and curTerm cache terms of the leader's own log;
      a negative prevTerm asks for a re-read. */
  datatype Peer = Peer(nextIdx: int, ackdIdx: int, syncedIdx: int, prevTerm: int, curTerm: int)

  /** term, votedFor and log[..synced] are durable; applied is durable when the store says so, and may
      have fallen back after a crash; everything else is lost in a crash. */
  datatype Server = Server(
    term: nat, votedFor: Option<nat>, log: seq<Entry>, synced: nat,
    role: Role, leader: Option<nat>, commit: int, applied: int,
    candTerm: nat, results: seq<Vote>,
    initialIdx: int, leaderTerm: nat, peers: seq<Peer>,
    syncWrites: bool)

  /** reqTerm repeats the term of the request being answered; the wire format has no such field.
      It is read only by the reply hypothesis of the cluster model. */
  datatype Msg =
    | PreVoteReq(src: nat, term: nat, lastTerm: int, lastIdx: int)
    | PreVoteReply(src: nat, dst: nat, granted: bool)
    | VoteReq(src: nat, term: nat, lastTerm: int, lastIdx: int)
    | VoteReply(src: nat, dst: nat, granted: bool, term: nat, hint: Option<nat>, reqTerm: nat)
    | AppendReq(src: nat, dst: nat, term: nat, logTerm: int, prevTerm: int, prevIdx: int,
                commit: int, entry: Option<Entry>)
    | AppendReply(src: nat, dst: nat, term: nat, prevIdx: int, syncedIdx: int, heartbeat: bool,
                  stale: bool, nonMatching: bool, newlyInit: bool, reqTerm: nat)
    | SyncIdx(src: nat, dst: nat, term: nat, syncedIdx: int)

  datatype Outcome = Done(next: Server, out: set<Msg>) | Panic(next: Server)

  // ----- logs -----

  /** The term in the newest header; a log without entries has the null header, whose term is 0. */
  function LastTerm(log: seq<Entry>): nat
  {
    if log == [] then 0 else log[|log| - 1].term
  }

  predicate Prefix(a: seq<Entry>, b: seq<Entry>)
  {
    |a| <= |b| && a == b[..|a|]
  }

  /** The durable log: what the SYNC header describes. */
  function Durable(s: Server): seq<Entry>
  {
    if s.synced <= |s.log| then s.log[..s.synced] else s.log
  }

  /** The last index that must never change again: it is committed, or was applied before a restart. */
  function Settled(s: Server): int
  {
    if s.commit <= s.applied then s.applied else s.commit
  }

  function SyncAll(s: Server): Server
  {
    s.(synced := |s.log|)
  }

  /** A header write persists term and vote, and is followed by a sync of the log. */
  function WriteHeader(s: Server, votedFor: Option<nat>, term: nat): Server
  {
    SyncAll(s).(term := term, votedFor := votedFor)
  }

  function AppendEntry(s: Server, e: Entry): Server
  {
    var s1 := s.(log := s.log + [e]);
    if s.syncWrites then SyncAll(s1) else s1
  }

  function InitPeer(log: seq<Entry>): Peer
  {
    Peer(|log|, -1, -1, LastTerm(log), -1)
  }

  function InitServer(n: nat, syncWrites: bool): Server
  {
    Server(0, None, [], 0, Follower, None, -1, -1, 0, seq(n, _ => Unknown), -1, 0,
           seq(n, _ => InitPeer([])), syncWrites)
  }

  // ----- elections -----

  function FreshResults(self: nat, n: nat): seq<Vote>
  {
    seq(n, i => if i == self then Yes else Unknown)
  }

  function YesVotes(results: seq<Vote>): (r: set<nat>)
  {
    set i: nat | i < |results| && results[i] == Yes
  }

  /** The election timer fired, or a leader lost its quorum. */
  function BecomePreCandidate(s: Server, self: nat, n: nat): Server
  {
    s.(leader := None, role := PreCandidate, candTerm := s.term + 1, results := FreshResults(self, n))
  }

  function HandleTimeout(s: Server, self: nat, n: nat): Outcome
  {
    var s1 := BecomePreCandidate(s, self, n);
    Done(s1, {PreVoteReq(self, s.term + 1, LastTerm(Durable(s1)), |Durable(s1)| - 1)})
  }

  /** A full candidate persists the new term and a vote for itself before it asks for votes. */
  function BecomeCandidate(s: Server, self: nat, n: nat): Server
  {
    WriteHeader(s.(leader := None, role := Candidate, candTerm := s.term + 1, results := FreshResults(self, n)),
                Some(self), s.term + 1)
  }

  function VoteReqOf(s: Server, self: nat): Msg
  {
    VoteReq(self, s.term, LastTerm(Durable(s)), |Durable(s)| - 1)
  }

  predicate VoteDecide(s: Server, term: nat, lastTerm: int, lastIdx: int)
  {
    !(term <= s.term || lastTerm < LastTerm(Durable(s)) || lastIdx < |Durable(s)| - 1)
  }

  predicate PreVoteDecide(s: Server, term: nat, lastTerm: int, lastIdx: int)
  {
    && VoteDecide(s, term, lastTerm, lastIdx)
    && (s.term + 1 < term || s.leader.None? || s.role.Candidate? || s.role.PreCandidate?)
  }

  /** Step down towards peer.  Nothing happens when no known other peer was named. */
  function BecomeFollower(s: Server, self: nat, term: nat, peer: Option<nat>, voted: bool): Server
  {
    if peer.None? || peer.value == self then s
    else
      var s1 := s.(role := Follower, leader := peer);
      if term == s.term then s1
      else WriteHeader(s1, if voted then peer else None, term)
  }

  function HandlePreVoteReq(s: Server, self: nat, m: Msg): Outcome
    requires m.PreVoteReq?
  {
    var s1 := SyncAll(s);
    Done(s1, {PreVoteReply(self, m.src, PreVoteDecide(s1, m.term, m.lastTerm, m.lastIdx))})
  }

  function HandleVoteReq(s: Server, self: nat, m: Msg): Outcome
    requires m.VoteReq?
  {
    var s1 := SyncAll(s);
    var grant := VoteDecide(s1, m.term, m.lastTerm, m.lastIdx);
    var s2 := if grant then BecomeFollower(s1, self, m.term, Some(m.src), true) else s1;
    Done(s2, {VoteReply(self, m.src, grant, s.term, if grant then None else s1.leader, m.term)})
  }

  function RegisterVote(s: Server, voter: nat, granted: bool): Server
  {
    if voter < |s.results| then s.(results := s.results[voter := if granted then Yes else No]) else s
  }

  function HandlePreVoteReply(s: Server, self: nat, n: nat, m: Msg): Outcome
    requires m.PreVoteReply?
  {
    if !s.role.PreCandidate? then Done(s, {})
    else if s.candTerm != s.term + 1 then Panic(s)
    else
      var s1 := RegisterVote(s, m.src, m.granted);
      if m.granted && IsMajority(YesVotes(s1.results), n) then
        var s2 := BecomeCandidate(s1, self, n);
        Done(s2, {VoteReqOf(s2, self)})
      else Done(s1, {})
  }

  /** First half of winning an election; the second half appends the change marker. */
  function LeaderInit(s: Server, self: nat, n: nat): Server
  {
    s.(role := Leader, leaderTerm := s.term, leader := Some(self), initialIdx := |Durable(s)| - 1,
       peers := seq(n, _ => InitPeer(Durable(s))))
  }

  function Marker(term: nat): Entry
  {
    Entry(term, true, [], [0])
  }

  function BecomeLeader(s: Server, self: nat, n: nat): Outcome
  {
    if s.synced != |s.log| then Panic(s)
    else
      var s1 := LeaderInit(s, self, n);
      if s1.term < LastTerm(s1.log) then Panic(s1)
      else Done(AppendEntry(s1, Marker(s1.term)), {})
  }

  function HandleVoteReply(s: Server, self: nat, n: nat, m: Msg): Outcome
    requires m.VoteReply?
  {
    if !s.role.Candidate? then Done(s, {})
    else if s.candTerm != s.term then Panic(s)
    else
      var s1 := RegisterVote(s, m.src, m.granted);
      if m.granted then
        if IsMajority(YesVotes(s1.results), n) then BecomeLeader(s1, self, n) else Done(s1, {})
      else if s1.term < m.term then Done(BecomeFollower(s1, self, m.term, m.hint, false), {})
      else Done(s1, {})
  }

  // ----- leader: writes and sends -----

  function HandleWrite(s: Server, data: seq<int>, sizes: seq<nat>): Outcome
  {
    if !s.role.Leader? || s.term < LastTerm(s.log) then Panic(s)
    else Done(AppendEntry(s, Entry(s.term, false, data, sizes)), {})
  }

  /** Refresh the cached terms for one peer from the leader's log. */
  function RefreshPeer(p: Peer, log: seq<Entry>): Peer
    requires 0 <= p.nextIdx <= |log|
  {
    var p1 := if p.nextIdx == 0 then p.(prevTerm := 0, curTerm := -1) else p;
    var p2 := if p1.prevTerm < 0 && 0 < p1.nextIdx then p1.(prevTerm := log[p1.nextIdx - 1].term) else p1;
    if p2.nextIdx < |log| then p2.(curTerm := log[p2.nextIdx].term) else p2
  }

  function RequestTo(s: Server, self: nat, dst: nat, p: Peer, heartbeat: bool): Msg
    requires 0 <= p.nextIdx <= |s.log|
  {
    AppendReq(self, dst, s.term, p.curTerm, p.prevTerm, p.nextIdx - 1, s.commit,
              if !heartbeat && p.nextIdx < |s.log| then Some(s.log[p.nextIdx]) else None)
  }

  /** Send the next entry to dst, or a heartbeat when asked to or when there is none. */
  function HandleSend(s: Server, self: nat, dst: nat, heartbeat: bool): Outcome
    requires dst < |s.peers|
  {
    if !s.role.Leader? || s.log == [] then Done(s, {})
    else if !(0 <= s.peers[dst].nextIdx <= |s.log|) then Panic(s)
    else
      var p := RefreshPeer(s.peers[dst], s.log);
      Done(s.(peers := s.peers[dst := p]), {RequestTo(s, self, dst, p, heartbeat)})
  }

  // ----- follower: append requests -----

  /** A request from a leader whose term is not behind: adopt the term and the leader. */
  function AdoptLeader(s: Server, self: nat, m: Msg): Server
    requires m.AppendReq? && s.term <= m.term
  {
    var s1 :=
      if s.role.Candidate? || s.role.PreCandidate? then BecomeFollower(s, self, m.term, Some(m.src), false)
      else if s.term < m.term && s.role.Leader? then BecomeFollower(s, self, m.term, Some(m.src), false)
      else if s.term < m.term then WriteHeader(s, None, m.term)
      else s;
    s1.(leader := Some(m.src))
  }

  datatype Check = Matches | AlreadyStored | NonMatching | Failed

  predicate IndexAhead(s: Server, m: Msg)
    requires m.AppendReq?
  {
    m.prevIdx < |s.log| - 1
  }

  /** The entry after prevIdx has the requested term. */
  predicate Stored(s: Server, m: Msg)
    requires m.AppendReq? && -1 <= m.prevIdx && IndexAhead(s, m)
  {
    0 < m.logTerm ==> s.log[m.prevIdx + 1].term == m.logTerm
  }

  function Prune(s: Server, m: Msg): Server
    requires m.AppendReq? && -1 <= m.prevIdx && IndexAhead(s, m)
  {
    if m.prevIdx < 0 then SyncAll(s)
    else SyncAll(s.(log := s.log[..m.prevIdx + 1]))
  }

  function CheckTail(s: Server, m: Msg): Check
    requires m.AppendReq?
  {
    if m.prevIdx < |s.log| - 1 then Failed
    else if |s.log| - 1 < m.prevIdx then NonMatching
    else if LastTerm(s.log) != m.prevTerm then NonMatching
    else Matches
  }

  /** Compare the log with the request, pruning a conflicting tail. */
  function PrepareLog(s: Server, m: Msg): (Server, Check)
    requires m.AppendReq? && -1 <= m.prevIdx
  {
    if !IndexAhead(s, m) then (s, CheckTail(s, m))
    else if !s.role.Follower? then (s, Failed)
    else if Stored(s, m) then
      if 0 <= m.prevIdx && s.log[m.prevIdx].term != m.prevTerm then (s, Failed) else (s, AlreadyStored)
    else if m.prevIdx + 1 <= Settled(s) then (SyncAll(s), Failed)
    else
      var s1 := Prune(s, m);
      (s1, CheckTail(s1, m))
  }

  function AdvanceCommit(s: Server, commit: int): Server
  {
    if s.commit < commit && commit <= |Durable(s)| - 1 then s.(commit := commit) else s
  }

  function Min(a: int, b: int): int { if a <= b then a else b }

  function Max(a: int, b: int): int { if a <= b then b else a }

  predicate MayWrite(s: Server, m: Msg)
    requires m.AppendReq?
  {
    && s.role.Follower?
    && 0 < m.logTerm && m.prevTerm <= m.logTerm && LastTerm(s.log) <= m.logTerm
  }

  function WriteFromLeader(s: Server, m: Msg): Server
    requires m.AppendReq? && m.entry.Some? && MayWrite(s, m)
  {
    AppendEntry(s, m.entry.value.(term := m.logTerm))
  }

  function ReplyTo(s: Server, self: nat, m: Msg, stale: bool, check: Check): Msg
    requires m.AppendReq?
  {
    AppendReply(self, m.src, s.term, m.prevIdx,
                if !stale && (check.Matches? || check.NonMatching?) then |Durable(s)| - 1 else -1,
                m.entry.None?, stale, !stale && check.NonMatching?, |Durable(s)| == 0, m.term)
  }

  /** Work on a request of the term the follower is in. */
  function Proceed(s: Server, self: nat, m: Msg): Outcome
    requires m.AppendReq? && -1 <= m.prevIdx
  {
    var (s2, check) := PrepareLog(s, m);
    match check
    case Failed => Panic(s2)
    case NonMatching => Done(s2, {ReplyTo(s2, self, m, false, check)})
    case AlreadyStored =>
      var s3 := AdvanceCommit(s2, Min(m.commit, |Durable(s2)| - 1));
      Done(s3, {ReplyTo(s3, self, m, false, check)})
    case Matches =>
      if m.entry.Some? && !MayWrite(s2, m) then Panic(s2)
      else
        var s3 := if m.entry.Some? then WriteFromLeader(s2, m) else s2;
        var s4 := AdvanceCommit(s3, m.commit);
        Done(s4, {ReplyTo(s4, self, m, false, check)})
  }

  function HandleAppendReq(s: Server, self: nat, m: Msg): Outcome
    requires m.AppendReq?
  {
    if m.prevIdx < -1 then Done(s, {})
    else if m.term < s.term then Done(s, {ReplyTo(s, self, m, true, Failed)})
    else Proceed(AdoptLeader(s, self, m), self, m)
  }

  // ----- leader: replies and commit -----

  /** The leader's own slot mirrors its SYNC header. */
  function SelfPeer(s: Server, self: nat): Server
    requires self < |s.peers|
  {
    var d := Durable(s);
    s.(peers := s.peers[self := s.peers[self].(nextIdx := |d|, ackdIdx := |d| - 1, syncedIdx := |d| - 1,
                                               prevTerm := LastTerm(d))])
  }

  function Counted(p: Peer): int { Min(p.ackdIdx, p.syncedIdx) }

  function CountedAll(peers: seq<Peer>): (r: seq<int>)
    ensures |r| == |peers|
  {
    seq(|peers|, i requires 0 <= i < |peers| => Counted(peers[i]))
  }

  /** The index a leader may commit to must exceed the last index before its own term;
      the loose comparison also admits that index itself. */
  predicate CommitGate(strict: bool, idx: int, initialIdx: int)
  {
    if strict then initialIdx < idx else initialIdx <= idx
  }

  function TryCommit(strict: bool, s: Server, self: nat): Outcome
    requires self < |s.peers|
  {
    var s1 := SelfPeer(s, self);
    var idx := MajorityIndex(CountedAll(s1.peers));
    if idx < s1.commit && s1.initialIdx <= idx then Panic(s1)
    else if CommitGate(strict, idx, s1.initialIdx) && s1.commit < idx then Done(AdvanceCommit(s1, idx), {})
    else Done(s1, {})
  }

  /** The peer's slot after news of its synced index. */
  function Noted(p: Peer, syncedIdx: int): Peer
  {
    var p1 := if p.ackdIdx < p.nextIdx - 1 then p.(ackdIdx := p.nextIdx - 1) else p;
    if p1.syncedIdx < syncedIdx then p1.(syncedIdx := syncedIdx) else p1
  }

  function UpdateSync(strict: bool, s: Server, self: nat, src: nat, term: int, syncedIdx: int): Outcome
    requires self < |s.peers| && src < |s.peers|
  {
    var p := s.peers[src];
    if term != LastTerm(Durable(s)) || p.nextIdx < p.syncedIdx then Done(s, {})
    else
      var s1 := s.(peers := s.peers[src := Noted(p, syncedIdx)]);
      if Noted(p, syncedIdx) != p then TryCommit(strict, s1, self) else Done(s1, {})
  }

  /** Back off: to the index the follower disclosed, or by one. */
  function BackOff(p: Peer, m: Msg): Peer
    requires m.AppendReply?
  {
    if p.nextIdx <= 0 then p
    else
      p.(prevTerm := -1,
         nextIdx := if m.newlyInit then 0
                    else if 0 <= m.syncedIdx < p.nextIdx then m.syncedIdx
                    else p.nextIdx - 1)
  }

  /** The peer's slot after an acceptance: a stored entry moves the next index by one. */
  function Advanced(p: Peer, m: Msg): Peer
    requires m.AppendReply?
  {
    if m.heartbeat then p else p.(prevTerm := -1, nextIdx := p.nextIdx + 1)
  }

  function HandleAppendReply(strict: bool, s: Server, self: nat, m: Msg): Outcome
    requires m.AppendReply? && self < |s.peers| && m.src < |s.peers|
  {
    if !s.role.Leader? then Done(s, {})
    else if m.stale then
      if s.term < m.term then Done(BecomeFollower(s, self, m.term, Some(m.src), false), {}) else Done(s, {})
    else
      var p := s.peers[m.src];
      if m.prevIdx + 1 != p.nextIdx then Done(s, {})
      else if m.nonMatching then Done(s.(peers := s.peers[m.src := BackOff(p, m)]), {})
      else
        UpdateSync(strict, s.(peers := s.peers[m.src := Advanced(p, m)]), self, m.src, m.term, m.syncedIdx)
  }

  function HandleSyncIdx(strict: bool, s: Server, self: nat, m: Msg): Outcome
    requires m.SyncIdx? && self < |s.peers| && m.src < |s.peers|
  {
    if !s.role.Leader? || m.term != s.term then Done(s, {})
    else UpdateSync(strict, s, self, m.src, m.term, m.syncedIdx)
  }

  /** A follower tells its leader how far it has synced; the term is that of the synced entry. */
  function HandleSendSync(s: Server, self: nat): Outcome
  {
    if s.role.Follower? && !s.syncWrites && s.leader.Some? && s.leader.value != self then
      Done(s, {SyncIdx(self, s.leader.value, LastTerm(Durable(s)), |Durable(s)| - 1)})
    else Done(s, {})
  }

  // ----- durability -----

  /** The sync thread publishes the header it captured; entries written since stay unsynced. */
  function PublishSync(s: Server, k: nat): Server
    requires s.synced <= k <= |s.log|
  {
    s.(synced := k)
  }

  /** Feed the next committed entry to the state machine.  The commit index is not durable, so after a
      restart it may be behind what was applied; the apply step then stops on its assertion. */
  function HandleApply(s: Server): Outcome
  {
    if s.commit < s.applied then Panic(s)
    else if s.applied < s.commit then Done(s.(applied := s.applied + 1), {})
    else Done(s, {})
  }

  /** Restart after a crash: log[..d] was found on the device, with the header and the last-applied
      record that made it to disk. */
  function Restart(s: Server, n: nat, d: nat, applied: int): Server
    requires d <= |s.log|
  {
    InitServer(n, s.syncWrites).(term := s.term, votedFor := s.votedFor, log := s.log[..d], synced := d,
                                 applied := applied)
  }
}
