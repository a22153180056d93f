/** Facts about a run that no single replica stores.  They exist only in proofs: every lemma that
    takes a step returns the history after it. */
module History {
  import opened Majority
  import opened Protocol
  import opened Cluster

  /** One leadership: who won term T, with whose votes, with which log, and what it appended. */
  datatype Reign = Reign(id: nat, voters: set<nat>, initLen: nat, log: seq<Entry>)

  /** A vote: for whom, and the voter's log when it voted. */
  datatype Ballot = Ballot(cand: nat, log: seq<Entry>)

  /** reigns by term; per server: ballots by term, and by term how much of that term's leader log
      the server has held on durable storage while in that term. */
  datatype History = History(reigns: map<nat, Reign>, ballots: seq<map<nat, Ballot>>, acks: seq<map<nat, nat>>)

  ghost predicate Shape(h: History, n: nat)
  {
    0 < n && |h.ballots| == n && |h.acks| == n
  }

  // ----- logs and prefixes -----

  function Take(a: seq<Entry>, k: int): seq<Entry>
  {
    if 0 <= k <= |a| then a[..k] else a
  }

  /** The log T's leader started with. */
  function InitLog(h: History, T: nat): seq<Entry>
    requires T in h.reigns
  {
    Take(h.reigns[T].log, h.reigns[T].initLen)
  }

  function LogOf(h: History, T: nat): seq<Entry>
    requires T in h.reigns
  {
    h.reigns[T].log
  }

  /** Entry k of log x was created by the leader of its term, at that place, after that history. */
  ghost predicate OriginAt(h: History, x: seq<Entry>, k: nat)
    requires k < |x|
  {
    var t := x[k].term;
    && t in h.reigns
    && h.reigns[t].initLen <= k < |h.reigns[t].log|
    && x[..k + 1] == h.reigns[t].log[..k + 1]
  }

  ghost predicate Rooted(h: History, x: seq<Entry>)
  {
    forall k: nat :: k < |x| ==> OriginAt(h, x, k)
  }

  predicate UpToDate(a: seq<Entry>, b: seq<Entry>)
  {
    LastTerm(b) <= LastTerm(a) && |b| <= |a|
  }

  // ----- survival of acknowledged entries -----

  /** Leader W started without T's first a entries. */
  predicate Lacks(h: History, W: nat, T: nat, a: nat)
    requires W in h.reigns && T in h.reigns
  {
    !Prefix(Take(LogOf(h, T), a), InitLog(h, W))
  }

  /** x still holds T's first a entries, or a leader of a term in (T, bound) lacked them. */
  ghost predicate Kept(h: History, x: seq<Entry>, T: nat, a: nat, bound: nat)
    requires T in h.reigns
  {
    || Prefix(Take(LogOf(h, T), a), x)
    || exists W :: W in h.reigns && T < W < bound && Lacks(h, W, T, a)
  }

  ghost predicate KeptDurably(h: History, s: Server, T: nat, a: nat)
    requires T in h.reigns
  {
    Kept(h, Durable(s), T, a, s.term + 1)
  }

  /** T's first a entries are durable at a majority and end in an entry of T itself. */
  ghost predicate Chosen(h: History, T: nat, a: nat)
  {
    && T in h.reigns
    && h.reigns[T].initLen < a <= |h.reigns[T].log|
    && IsMajority(Ackers(h, T, a), |h.acks|)
  }

  function Ackers(h: History, T: nat, a: nat): (r: set<nat>)
  {
    set i: nat | i < |h.acks| && T in h.acks[i] && a <= h.acks[i][T]
  }

  /** log[..commit + 1] is part of something chosen no later than term. */
  ghost predicate CommitOk(h: History, log: seq<Entry>, term: nat, commit: int)
  {
    commit < 0 ||
    (commit < |log| &&
     exists T: nat, a: nat ::
       Chosen(h, T, a) && T <= term && commit < a && log[..commit + 1] == LogOf(h, T)[..commit + 1])
  }

  // ----- how far behind a follower can be -----

  predicate Conflicts(h: History, s: Server)
  {
    s.term in h.reigns && !Prefix(s.log, LogOf(h, s.term))
  }

  /** next is a possible next index of T's leader for s: at first contact it is where T began, and while
      s still has a conflicting tail it is not below the last entry of that tail. */
  predicate InReach(h: History, s: Server, T: nat, next: int)
    requires T in h.reigns
  {
    && (s.term < T ==> next == h.reigns[T].initLen)
    && (s.term == T && Conflicts(h, s) ==> Min(|s.log| - 1, h.reigns[T].initLen) <= next)
  }

  // ----- invariants -----

  /** The term of the entry at k of T's log, now or when it comes to exist. */
  function TermAt(h: History, T: nat, k: nat): nat
    requires T in h.reigns
  {
    if k < |LogOf(h, T)| then LogOf(h, T)[k].term else T
  }

  ghost predicate ReignOk(h: History, c: Cluster, T: nat)
    requires T in h.reigns
  {
    var r := h.reigns[T];
    && 0 < T && r.id < |c.servers| && T <= c.servers[r.id].term
    && r.voters <= Peers(|c.servers|) && IsMajority(r.voters, |c.servers|)
    && (forall v :: v in r.voters && v < |h.ballots| ==>
          T in h.ballots[v] && h.ballots[v][T].cand == r.id && UpToDate(InitLog(h, T), h.ballots[v][T].log))
    && r.initLen <= |r.log|
    && (forall k :: 0 <= k < r.initLen ==> r.log[k].term < T)
    && (forall k :: r.initLen <= k < |r.log| ==> r.log[k].term == T)
    && Rooted(h, r.log)
  }

  ghost predicate BallotsOk(h: History, s: Server, i: nat)
    requires i < |h.ballots| && i < |h.acks|
  {
    && (forall U :: U in h.ballots[i] ==> U <= s.term && Rooted(h, h.ballots[i][U].log))
    && (forall T :: T in h.acks[i] ==> T in h.reigns && T <= s.term && h.acks[i][T] <= |LogOf(h, T)|)
    && (forall U, T, a: nat :: U in h.ballots[i] && T in h.acks[i] && T < U && a <= h.acks[i][T] ==>
          Kept(h, h.ballots[i][U].log, T, a, U))
    && (forall T, a: nat :: T in h.acks[i] && a <= h.acks[i][T] ==> KeptDurably(h, s, T, a))
  }

  ghost predicate LogOk(h: History, s: Server)
  {
    && s.synced <= |s.log|
    && Rooted(h, s.log) && LastTerm(s.log) <= s.term
    && (s.synced < |s.log| ==> s.term in h.reigns && Prefix(s.log, LogOf(h, s.term)))
    && -1 <= s.commit && -1 <= s.applied && Settled(s) < s.synced
    && CommitOk(h, s.log, s.term, Settled(s))
  }

  ghost predicate CandidateOk(h: History, s: Server, i: nat)
  {
    s.role.Candidate? ==>
      && s.candTerm == s.term && s.synced == |s.log| && LastTerm(s.log) < s.term
      && (s.term in h.reigns ==> h.reigns[s.term].id != i)
      && (forall v: nat :: v < |s.results| && v < |h.ballots| && s.results[v] == Yes ==>
            s.term in h.ballots[v] && h.ballots[v][s.term].cand == i && UpToDate(s.log, h.ballots[v][s.term].log))
  }

  ghost predicate PeerOk(h: History, c: Cluster, s: Server, j: nat)
    requires s.term in h.reigns && j < |s.peers| && j < |h.acks| && j < |c.servers|
  {
    var p := s.peers[j];
    && 0 <= p.nextIdx <= |s.log|
    && (0 < p.nextIdx ==> p.prevTerm < 0 || p.prevTerm == s.log[p.nextIdx - 1].term)
    && (0 <= p.syncedIdx ==> s.term in h.acks[j] && p.syncedIdx < h.acks[j][s.term])
    && InReach(h, c.servers[j], s.term, p.nextIdx)
  }

  ghost predicate LeaderOk(h: History, c: Cluster, s: Server, i: nat)
    requires |h.acks| == |c.servers| == |s.peers|
  {
    s.role.Leader? ==>
      && s.term in h.reigns && h.reigns[s.term].id == i && s.log == LogOf(h, s.term)
      && h.reigns[s.term].initLen == s.initialIdx + 1 && s.leaderTerm == s.term
      && forall j: nat :: j < |s.peers| ==> PeerOk(h, c, s, j)
  }

  ghost predicate ServerOk(h: History, c: Cluster, i: nat)
    requires i < |c.servers| && Shape(h, |c.servers|)
  {
    var s := c.servers[i];
    && |s.results| == |c.servers| && |s.peers| == |c.servers|
    && LogOk(h, s)
    && BallotsOk(h, s, i)
    && CandidateOk(h, s, i)
    && (s.role.PreCandidate? ==> s.candTerm == s.term + 1)
    && LeaderOk(h, c, s, i)
    && HintOk(c, s.leader, s.term)
  }

  /** Whoever is believed to lead has reached that term. */
  ghost predicate HintOk(c: Cluster, hint: Option<nat>, term: nat)
  {
    hint.Some? ==> hint.value < |c.servers| && term <= c.servers[hint.value].term
  }

  ghost predicate VoteReqOk(c: Cluster, m: Msg)
    requires m.VoteReq? && m.src < |c.servers|
  {
    var s := c.servers[m.src];
    && m.term <= s.term
    && (s.term == m.term && s.role.Candidate? ==> m.lastTerm == LastTerm(s.log) && m.lastIdx == |s.log| - 1)
  }

  ghost predicate VoteReplyOk(h: History, c: Cluster, m: Msg)
    requires m.VoteReply? && m.src < |c.servers| && m.dst < |c.servers| && Shape(h, |c.servers|)
  {
    var s := c.servers[m.dst];
    && HintOk(c, m.hint, m.term)
    && (m.granted ==>
          && m.reqTerm in h.ballots[m.src] && h.ballots[m.src][m.reqTerm].cand == m.dst && m.reqTerm <= s.term
          && (s.term == m.reqTerm && s.role.Candidate? ==> UpToDate(s.log, h.ballots[m.src][m.reqTerm].log)))
  }

  ghost predicate AppendReqOk(h: History, c: Cluster, m: Msg)
    requires m.AppendReq? && m.src < |c.servers| && m.dst < |c.servers|
  {
    && m.term in h.reigns && h.reigns[m.term].id == m.src && m.dst != m.src
    && -1 <= m.prevIdx < |LogOf(h, m.term)|
    && m.prevTerm == (if m.prevIdx < 0 then 0 else LogOf(h, m.term)[m.prevIdx].term)
    && m.logTerm == TermAt(h, m.term, m.prevIdx + 1)
    && (m.entry.Some? ==> m.prevIdx + 1 < |LogOf(h, m.term)| && m.entry.value == LogOf(h, m.term)[m.prevIdx + 1])
    && CommitOk(h, LogOf(h, m.term), m.term, m.commit)
    && InReach(h, c.servers[m.dst], m.term, m.prevIdx + 1)
  }

  /** Where a leader's next index goes when it processes this rejection. */
  function NextAfter(m: Msg): int
    requires m.AppendReply?
  {
    if m.newlyInit then 0 else if 0 <= m.syncedIdx <= m.prevIdx then m.syncedIdx else m.prevIdx
  }

  ghost predicate AppendReplyOk(h: History, c: Cluster, m: Msg)
    requires m.AppendReply? && m.src < |c.servers| && m.dst < |c.servers| && Shape(h, |c.servers|)
  {
    var s := c.servers[m.src];
    && m.term <= s.term
    && (!m.stale ==>
          && m.term == m.reqTerm && m.term in h.reigns && -1 <= m.prevIdx < |LogOf(h, m.term)|
          && (m.nonMatching ==> 0 <= m.prevIdx && InReach(h, s, m.term, NextAfter(m)))
          && (!m.nonMatching && !m.heartbeat ==> m.prevIdx + 1 < |LogOf(h, m.term)|)
          && (!m.nonMatching && 0 <= m.syncedIdx ==>
                m.term in h.acks[m.src] && m.syncedIdx < h.acks[m.src][m.term]))
  }

  ghost predicate SyncIdxOk(h: History, c: Cluster, m: Msg)
    requires m.SyncIdx? && m.src < |c.servers| && m.dst < |c.servers| && Shape(h, |c.servers|)
  {
    0 <= m.syncedIdx && c.servers[m.dst].term <= m.term ==>
      m.term in h.acks[m.src] && m.syncedIdx < h.acks[m.src][m.term]
  }

  ghost predicate MsgOk(h: History, c: Cluster, m: Msg)
    requires Shape(h, |c.servers|)
  {
    m.src < |c.servers| &&
    match m
    case PreVoteReq(_, _, _, _) => true
    case PreVoteReply(_, dst, _) => dst < |c.servers|
    case VoteReq(_, _, _, _) => VoteReqOk(c, m)
    case VoteReply(_, dst, _, _, _, _) => dst < |c.servers| && VoteReplyOk(h, c, m)
    case AppendReq(_, dst, _, _, _, _, _, _) => dst < |c.servers| && AppendReqOk(h, c, m)
    case AppendReply(_, dst, _, _, _, _, _, _, _, _) => dst < |c.servers| && AppendReplyOk(h, c, m)
    case SyncIdx(_, dst, _, _) => dst < |c.servers| && SyncIdxOk(h, c, m)
  }

  ghost predicate Inv(h: History, c: Cluster)
  {
    && Shape(h, |c.servers|)
    && (forall T :: T in h.reigns ==> ReignOk(h, c, T))
    && (forall i: nat :: i < |c.servers| ==> ServerOk(h, c, i))
    && (forall m :: m in c.msgs ==> MsgOk(h, c, m))
  }
}
