/** A cluster: the replicas and every message ever sent.  A message that was sent may be
    delivered any number of times, in any order, at any later time, or never. */
module Cluster {
  import opened Majority
  import opened Protocol

  datatype Cluster = Cluster(servers: seq<Server>, msgs: set<Msg>)

  datatype Action =
    | Timeout                                        // election timer, or quorum loss of a leader
    | Deliver(m: Msg)
    | Write(data: seq<int>, sizes: seq<nat>)         // a client write reaches the leader's log
    | Send(dst: nat, heartbeat: bool)
    | SendSync
    | Publish(upTo: nat)                             // the sync thread publishes a captured header
    | Advance                                        // commit calculation asked for by the sync thread
    | Apply                                          // the state machine takes the next committed entry
    | Crash(term: nat, votedFor: Option<nat>)

  /** The rules that safety turns on: whether the commit comparison is the strict one, whether what a leader
      sends to a peer that has everything carries the leader's own term, and whether a reply is processed only
      in the candidacy or leadership that asked for it. */
  datatype Rules = Rules(strict: bool, current: bool, tenured: bool)

  const SOUND := Rules(true, true, true)

  /** When the step ends in a restart, kept is the length of the log found on the device and applied the
      last-applied index found there. */
  datatype Step = Step(who: nat, act: Action, kept: nat, applied: int)

  function Destined(m: Msg, i: nat): bool
  {
    match m
    case PreVoteReq(src, _, _, _) => src != i
    case VoteReq(src, _, _, _) => src != i
    case _ => m.dst == i && m.src != i
  }

  /** The reply is to a request of this candidacy or leadership. */
  predicate InTenure(s: Server, m: Msg)
  {
    (m.VoteReply? || m.AppendReply?) ==> m.reqTerm == s.term
  }

  /** For a peer that has everything, the cached term of the "current" entry is the leader's own. */
  predicate FreshTerm(s: Server, dst: nat)
  {
    s.role.Leader? && dst < |s.peers| && s.peers[dst].nextIdx == |s.log| ==> s.peers[dst].curTerm == s.term
  }

  /** A crash may interrupt a header write: the term may be a higher one, voted for nobody or for itself. */
  predicate HeaderSurvives(s: Server, i: nat, term: nat, votedFor: Option<nat>)
  {
    || (term == s.term && votedFor == s.votedFor)
    || (s.term < term && votedFor in {None, Some(i)})
  }

  predicate Possible(c: Cluster, i: nat, a: Action)
    requires i < |c.servers|
  {
    var s := c.servers[i];
    match a
    case Deliver(m) => m in c.msgs && Destined(m, i) && m.src < |c.servers|
    case Send(dst, _) => dst < |c.servers| && dst != i
    case Write(_, _) => s.role.Leader?
    case Publish(k) => s.synced <= k <= |s.log|
    case Advance => s.role.Leader?
    case Apply => 0 <= s.commit
    case Crash(term, v) => HeaderSurvives(s, i, term, v)
    case _ => true
  }

  predicate Enabled(rules: Rules, c: Cluster, i: nat, a: Action)
    requires i < |c.servers|
  {
    && Possible(c, i, a)
    && (rules.current && a.Send? ==> FreshTerm(c.servers[i], a.dst))
    && (rules.tenured && a.Deliver? ==> InTenure(c.servers[i], a.m))
  }

  predicate Shaped(c: Cluster)
  {
    forall i :: 0 <= i < |c.servers| ==> |c.servers[i].peers| == |c.servers|
  }

  function HandleMessage(strict: bool, s: Server, self: nat, n: nat, m: Msg): Outcome
    requires self < n == |s.peers| && m.src < n
  {
    match m
    case PreVoteReq(_, _, _, _) => HandlePreVoteReq(s, self, m)
    case PreVoteReply(_, _, _) => HandlePreVoteReply(s, self, n, m)
    case VoteReq(_, _, _, _) => HandleVoteReq(s, self, m)
    case VoteReply(_, _, _, _, _, _) => HandleVoteReply(s, self, n, m)
    case AppendReq(_, _, _, _, _, _, _, _) => HandleAppendReq(s, self, m)
    case AppendReply(_, _, _, _, _, _, _, _, _, _) => HandleAppendReply(strict, s, self, m)
    case SyncIdx(_, _, _, _) => HandleSyncIdx(strict, s, self, m)
  }

  function Act(strict: bool, c: Cluster, i: nat, a: Action): Outcome
    requires Shaped(c) && i < |c.servers| && Possible(c, i, a)
  {
    var s, n := c.servers[i], |c.servers|;
    match a
    case Timeout => HandleTimeout(s, i, n)
    case Deliver(m) => HandleMessage(strict, s, i, n, m)
    case Write(data, sizes) => HandleWrite(s, data, sizes)
    case Send(dst, heartbeat) => HandleSend(s, i, dst, heartbeat)
    case SendSync => HandleSendSync(s, i)
    case Publish(k) => Done(PublishSync(s, k), {})
    case Advance => TryCommit(strict, s, i)
    case Apply => HandleApply(s)
    case Crash(term, v) => Panic(s.(term := term, votedFor := v))
  }

  /** A panicking replica restarts from what its device holds. */
  ghost predicate Resolves(c: Cluster, i: nat, o: Outcome, kept: nat, applied: int, c': Cluster)
    requires i < |c.servers|
  {
    match o
    case Done(s', out) => c' == Cluster(c.servers[i := s'], c.msgs + out)
    case Panic(s') =>
      && s'.synced <= kept <= |s'.log| && -1 <= applied <= s'.applied
      && c' == c.(servers := c.servers[i := Restart(s', |c.servers|, kept, applied)])
  }

  ghost predicate NextStep(rules: Rules, c: Cluster, c': Cluster, step: Step)
    requires Shaped(c)
  {
    && step.who < |c.servers|
    && Enabled(rules, c, step.who, step.act)
    && Resolves(c, step.who, Act(rules.strict, c, step.who, step.act), step.kept, step.applied, c')
  }

  ghost predicate Next(rules: Rules, c: Cluster, c': Cluster)
    requires Shaped(c)
  {
    exists step :: NextStep(rules, c, c', step)
  }

  ghost predicate Init(c: Cluster)
  {
    && 0 < |c.servers|
    && (forall i :: 0 <= i < |c.servers| ==> c.servers[i] == InitServer(|c.servers|, c.servers[i].syncWrites))
    && c.msgs == {}
  }

  /** A run is any finite sequence of steps from an initial cluster. */
  ghost predicate Run(rules: Rules, run: seq<Cluster>)
  {
    && run != [] && Init(run[0])
    && (forall k :: 0 <= k < |run| ==> Shaped(run[k]))
    && forall k :: 0 <= k < |run| - 1 ==> Next(rules, run[k], run[k + 1])
  }
}
