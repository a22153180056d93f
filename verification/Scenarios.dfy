/** Building runs of a cluster of three with synchronous writes: elections, and replication entry by entry. */
module Scenarios {
  import opened Majority
  import opened Protocol
  import opened Cluster
  import opened Runs

  /** Everything synced, synchronous writes, three members. */
  predicate Calm(s: Server)
  {
    s.synced == |s.log| && s.syncWrites && |s.results| == 3 && |s.peers| == 3 && s.applied == -1
  }

  ghost predicate Calm3(rules: Rules, run: seq<Cluster>)
  {
    Run(rules, run) && |Last(run).servers| == 3 && forall k :: 0 <= k < 3 ==> Calm(Last(run).servers[k])
  }

  /** Replica i takes action a and stays calm. */
  lemma Once(rules: Rules, run: seq<Cluster>, i: nat, a: Action, s': Server) returns (later: seq<Cluster>)
    requires Calm3(rules, run) && i < 3 && Enabled(rules, Last(run), i, a)
    requires var o := Act(rules.strict, Last(run), i, a); o.Done? && o.next == s' && Calm(s')
    ensures Continues(rules, run, later) && Calm3(rules, later)
    ensures Last(later).servers == Last(run).servers[i := s']
    ensures Act(rules.strict, Last(run), i, a).out <= Last(later).msgs
  {
    LastShaped(rules, run);
    hide Run, Act, Enabled, Calm;
    later := Go(rules, run, i, a);
  }

  lemma TwoOfThree(results: seq<Vote>, i: nat, j: nat)
    requires |results| == 3 && i < 3 && j < 3 && i != j && results[i] == Yes && results[j] == Yes
    ensures IsMajority(YesVotes(results), 3)
  {
    assert {i, j} <= YesVotes(results);
    SubsetSize({i, j}, YesVotes(results));
  }

  // ----- one election -----

  /** s can win the next term with d's vote. */
  predicate CanWin(s: Server, d: Server)
  {
    d.term <= s.term && LastTerm(d.log) <= LastTerm(s.log) <= s.term && |d.log| <= |s.log|
  }

  /** i has become a full candidate and its vote request is on the way; j has no leader. */
  ghost predicate Campaigns(rules: Rules, run: seq<Cluster>, i: nat, j: nat, s: Server, d: Server)
  {
    && Calm3(rules, run) && i < 3 && j < 3 && i != j
    && Last(run).servers[i] == BecomeCandidate(RegisterVote(BecomePreCandidate(s, i, 3), j, true), i, 3)
    && Last(run).servers[j] == BecomePreCandidate(d, j, 3)
    && VoteReqOf(Last(run).servers[i], i) in Last(run).msgs
  }

  lemma TimesOut(rules: Rules, run: seq<Cluster>, i: nat) returns (later: seq<Cluster>)
    requires Calm3(rules, run) && i < 3
    ensures Continues(rules, run, later) && Calm3(rules, later)
    ensures Last(later).servers == Last(run).servers[i := BecomePreCandidate(Last(run).servers[i], i, 3)]
    ensures var s := Last(run).servers[i];
            PreVoteReq(i, s.term + 1, LastTerm(s.log), |s.log| - 1) in Last(later).msgs
  {
    var s := Last(run).servers[i];
    assert Durable(s) == s.log;
    LastShaped(rules, run);
    hide Run, LastTerm, HandleMessage, HandleSend, HandleWrite, HandleApply, TryCommit;
    later := Go(rules, run, i, Timeout);
  }

  lemma GetsPreVote(rules: Rules, run: seq<Cluster>, i: nat, j: nat, s: Server, d: Server) returns (later: seq<Cluster>)
    requires Calm3(rules, run) && i < 3 && j < 3 && i != j && Calm(s) && Calm(d) && CanWin(s, d)
    requires Last(run).servers[i] == BecomePreCandidate(s, i, 3)
    requires Last(run).servers[j] == BecomePreCandidate(d, j, 3)
    requires PreVoteReq(i, s.term + 1, LastTerm(s.log), |s.log| - 1) in Last(run).msgs
    ensures Continues(rules, run, later) && Calm3(rules, later) && Last(later).servers == Last(run).servers
    ensures PreVoteReply(j, i, true) in Last(later).msgs
  {
    var m := PreVoteReq(i, s.term + 1, LastTerm(s.log), |s.log| - 1);
    assert Durable(d) == d.log;
    LastShaped(rules, run);
    assert SyncAll(Last(run).servers[j]) == Last(run).servers[j];
    hide Run, LastTerm;
    later := Go(rules, run, j, Deliver(m));
  }

  lemma Stands(rules: Rules, run: seq<Cluster>, i: nat, j: nat, s: Server, d: Server) returns (later: seq<Cluster>)
    requires Calm3(rules, run) && i < 3 && j < 3 && i != j && Calm(s)
    requires Last(run).servers[i] == BecomePreCandidate(s, i, 3)
    requires Last(run).servers[j] == BecomePreCandidate(d, j, 3)
    requires PreVoteReply(j, i, true) in Last(run).msgs
    ensures Continues(rules, run, later) && Campaigns(rules, later, i, j, s, d)
    ensures forall k :: 0 <= k < 3 && k != i ==> Last(later).servers[k] == Last(run).servers[k]
  {
    LastShaped(rules, run);
    var s1 := RegisterVote(Last(run).servers[i], j, true);
    TwoOfThree(s1.results, i, j);
    hide Run, LastTerm, IsMajority;
    later := Go(rules, run, i, Deliver(PreVoteReply(j, i, true)));
  }

  lemma Campaign(rules: Rules, run: seq<Cluster>, i: nat, j: nat) returns (later: seq<Cluster>)
    requires Calm3(rules, run) && i < 3 && j < 3 && i != j && CanWin(Last(run).servers[i], Last(run).servers[j])
    ensures Continues(rules, run, later) && Campaigns(rules, later, i, j, Last(run).servers[i], Last(run).servers[j])
    ensures forall k :: 0 <= k < 3 && k != i && k != j ==> Last(later).servers[k] == Last(run).servers[k]
  {
    var s, d := Last(run).servers[i], Last(run).servers[j];
    hide Run, CanWin, BecomePreCandidate, LastTerm;
    var run1 := TimesOut(rules, run, j);
    var run2 := TimesOut(rules, run1, i);
    var run3 := GetsPreVote(rules, run2, i, j, s, d);
    later := Stands(rules, run3, i, j, s, d);
    ContinuesOn(rules, run, run1, run2);
    ContinuesOn(rules, run, run2, run3);
    ContinuesOn(rules, run, run3, later);
  }

  /** s with its term won. */
  ghost predicate Won(s: Server, s': Server, i: nat)
  {
    && s'.role.Leader? && s'.term == s.term + 1 && s'.log == s.log + [Marker(s.term + 1)]
    && s'.commit == s.commit && s'.initialIdx == |s.log| - 1 && s'.peers == seq(3, _ => InitPeer(s.log))
  }

  ghost predicate Voted(d: Server, d': Server, term: nat)
  {
    d'.role.Follower? && d'.term == term && d'.log == d.log && d'.commit == d.commit
  }

  lemma Grants(s: Server, d: Server, i: nat, j: nat)
    requires i < 3 && j < 3 && i != j && Calm(s) && Calm(d) && CanWin(s, d)
    ensures var o := HandleVoteReq(BecomePreCandidate(d, j, 3), j,
                                   VoteReq(i, s.term + 1, LastTerm(s.log), |s.log| - 1));
            o.Done? && o.out == {VoteReply(j, i, true, d.term, None, s.term + 1)} && Calm(o.next) &&
              Voted(d, o.next, s.term + 1)
  {
    var d1 := BecomePreCandidate(d, j, 3);
    assert Durable(d1) == d1.log && SyncAll(d1) == d1;
  }

  lemma GetsVote(rules: Rules, run: seq<Cluster>, i: nat, j: nat, s: Server, d: Server) returns (later: seq<Cluster>)
    requires Campaigns(rules, run, i, j, s, d) && Calm(s) && Calm(d) && CanWin(s, d)
    ensures Continues(rules, run, later) && Calm3(rules, later)
    ensures Voted(d, Last(later).servers[j], s.term + 1)
    ensures forall k :: 0 <= k < 3 && k != j ==> Last(later).servers[k] == Last(run).servers[k]
    ensures VoteReply(j, i, true, d.term, None, s.term + 1) in Last(later).msgs
  {
    var s1 := Last(run).servers[i];
    assert Durable(s1) == s.log && s1.log == s.log;
    assert VoteReqOf(s1, i) == VoteReq(i, s.term + 1, LastTerm(s.log), |s.log| - 1);
    LastShaped(rules, run);
    Grants(s, d, i, j);
    hide Run, LastTerm, BecomeCandidate, BecomePreCandidate, Durable, HandleVoteReq, Voted, CanWin;
    later := Go(rules, run, j, Deliver(VoteReqOf(s1, i)));
  }

  /** The last vote a candidate needs. */
  lemma Wins(s: Server, i: nat, j: nat, m: Msg)
    requires i < 3 && j < 3 && i != j && Calm(s) && LastTerm(s.log) <= s.term
    requires m.VoteReply? && m.src == j && m.granted
    ensures var o := HandleVoteReply(BecomeCandidate(RegisterVote(BecomePreCandidate(s, i, 3), j, true), i, 3), i, 3,
                                     m);
            o.Done? && o.out == {} && Calm(o.next) && Won(s, o.next, i)
  {
    var s1 := BecomeCandidate(RegisterVote(BecomePreCandidate(s, i, 3), j, true), i, 3);
    assert s1.log == s.log && Durable(s1) == s.log;
    var s2 := RegisterVote(s1, j, true);
    TwoOfThree(s2.results, i, j);
    assert Durable(s2) == s.log;
  }

  /** The vote may be one of an earlier term, where late replies are counted. */
  lemma TakesOffice(rules: Rules, run: seq<Cluster>, i: nat, j: nat, s: Server, t: nat, asked: nat)
    returns (later: seq<Cluster>)
    requires Calm3(rules, run) && i < 3 && j < 3 && i != j && Calm(s) && LastTerm(s.log) <= s.term
    requires Last(run).servers[i] == BecomeCandidate(RegisterVote(BecomePreCandidate(s, i, 3), j, true), i, 3)
    requires VoteReply(j, i, true, t, None, asked) in Last(run).msgs && (rules.tenured ==> asked == s.term + 1)
    ensures Continues(rules, run, later) && Calm3(rules, later)
    ensures Won(s, Last(later).servers[i], i)
    ensures forall k :: 0 <= k < 3 && k != i ==> Last(later).servers[k] == Last(run).servers[k]
  {
    var m := VoteReply(j, i, true, t, None, asked);
    LastShaped(rules, run);
    Wins(s, i, j, m);
    hide Run, LastTerm, IsMajority, Durable, HandleVoteReply, Won;
    later := Go(rules, run, i, Deliver(m));
  }

  /** i wins the next term with j's vote. */
  lemma Elect(rules: Rules, run: seq<Cluster>, i: nat, j: nat) returns (later: seq<Cluster>)
    requires Calm3(rules, run) && i < 3 && j < 3 && i != j && CanWin(Last(run).servers[i], Last(run).servers[j])
    ensures Continues(rules, run, later) && Calm3(rules, later)
    ensures Won(Last(run).servers[i], Last(later).servers[i], i)
    ensures Voted(Last(run).servers[j], Last(later).servers[j], Last(run).servers[i].term + 1)
    ensures VoteReply(j, i, true, Last(run).servers[j].term, None, Last(run).servers[i].term + 1) in Last(later).msgs
    ensures forall k :: 0 <= k < 3 && k != i && k != j ==> Last(later).servers[k] == Last(run).servers[k]
  {
    var s, d := Last(run).servers[i], Last(run).servers[j];
    hide Run, BecomePreCandidate, BecomeCandidate, LastTerm, Won, Voted;
    var run1 := Campaign(rules, run, i, j);
    var run2 := GetsVote(rules, run1, i, j, s, d);
    later := TakesOffice(rules, run2, i, j, s, d.term, s.term + 1);
    ContinuesOn(rules, run, run1, run2);
    ContinuesOn(rules, run, run2, later);
  }

  // ----- a deposed leader -----

  /** A leader of an older term learns of d's term from the reply to its heartbeat. */
  lemma Depose(rules: Rules, run: seq<Cluster>, i: nat, j: nat) returns (later: seq<Cluster>)
    requires Calm3(rules, run) && i < 3 && j < 3 && i != j
    requires var s, d := Last(run).servers[i], Last(run).servers[j];
             && s.role.Leader? && s.log != [] && 0 <= s.peers[j].nextIdx < |s.log| && s.term < d.term
    ensures Continues(rules, run, later) && Calm3(rules, later)
    ensures Voted(Last(run).servers[i], Last(later).servers[i], Last(run).servers[j].term)
    ensures forall k :: 0 <= k < 3 && k != i ==> Last(later).servers[k] == Last(run).servers[k]
  {
    var s, d := Last(run).servers[i], Last(run).servers[j];
    var m := SentBy(s, i, j);
    var r := ReplyTo(d, j, m, true, Failed);
    var s1 := AfterSend(s, j);
    var s' := BecomeFollower(s1, i, d.term, Some(j), false);
    assert HandleAppendReq(d, j, m) == Done(d, {r});
    assert HandleAppendReply(rules.strict, s1, i, r) == Done(s', {});
    hide Run, RefreshPeer, HandleAppendReq, HandleAppendReply, Durable;
    later := Exchange(rules, run, i, j, d, r, s');
  }

  // ----- replication -----

  /** Leader s is about to send the entry at next to j, whose log matches up to there. */
  predicate AtNext(s: Server, j: nat, next: nat)
  {
    s.role.Leader? && j < |s.peers| && next < |s.log| && s.peers[j].nextIdx == next
    && (0 < next ==> s.peers[j].prevTerm < 0 || s.peers[j].prevTerm == s.log[next - 1].term)
  }

  lemma SentAt(s: Server, i: nat, j: nat, next: nat)
    requires AtNext(s, j, next)
    ensures CanSend(s, j)
    ensures SentBy(s, i, j) == AppendReq(i, j, s.term, s.log[next].term, if next == 0 then 0 else s.log[next - 1].term,
                                         next - 1, s.commit, Some(s.log[next]))
    ensures var s1 := AfterSend(s, j);
            && s1 == s.(peers := s.peers[j := s1.peers[j]])
            && s1.peers[j].nextIdx == next && s1.peers[j].ackdIdx == s.peers[j].ackdIdx
            && s1.peers[j].syncedIdx == s.peers[j].syncedIdx
  {
  }

  /** The first entry reaches a follower with an empty log. */
  lemma Seed(rules: Rules, run: seq<Cluster>, i: nat, j: nat) returns (later: seq<Cluster>)
    requires Calm3(rules, run) && i < 3 && j < 3 && i != j
    requires var s, d := Last(run).servers[i], Last(run).servers[j];
             && AtNext(s, j, 0) && 0 < s.log[0].term && d.log == [] && d.role.Follower? && d.term <= s.term
             && s.commit == -1 && d.commit == -1
    ensures Continues(rules, run, later) && Calm3(rules, later)
    ensures Voted(Last(run).servers[j].(log := [Last(run).servers[i].log[0]]), Last(later).servers[j],
                  Last(run).servers[i].term)
    ensures var s, s' := Last(run).servers[i], Last(later).servers[i];
            s'.peers[j].nextIdx == 0 && s' == s.(peers := s.peers[j := s'.peers[j]])
    ensures forall k :: 0 <= k < 3 && k != i && k != j ==> Last(later).servers[k] == Last(run).servers[k]
  {
    var s, d := Last(run).servers[i], Last(run).servers[j];
    SentAt(s, i, j, 0);
    var m := SentBy(s, i, j);
    var o := HandleAppendReq(d, j, m);
    assert s.log[0].(term := s.log[0].term) == s.log[0];
    assert o.Done? && Calm(o.next) && Voted(d.(log := [s.log[0]]), o.next, s.term);
    hide Run, RefreshPeer, HandleAppendReq, Durable, CanSend, AtNext, SentBy, AfterSend;
    later := Push(rules, run, i, j, o.next, o.out);
  }

  /** The follower's log is too short, or ends in another term. */
  lemma Reject(rules: Rules, run: seq<Cluster>, i: nat, j: nat, n: nat) returns (later: seq<Cluster>)
    requires Calm3(rules, run) && i < 3 && j < 3 && i != j
    requires var s, d := Last(run).servers[i], Last(run).servers[j];
             && AtNext(s, j, n) && d.role.Follower? && d.term == s.term
             && 0 < |d.log| <= n && (|d.log| < n || LastTerm(d.log) != s.log[n - 1].term)
    ensures Continues(rules, run, later) && Calm3(rules, later)
    ensures Voted(Last(run).servers[j], Last(later).servers[j], Last(run).servers[i].term)
    ensures var s, s', d := Last(run).servers[i], Last(later).servers[i], Last(run).servers[j];
            && s' == s.(peers := s.peers[j := s'.peers[j]])
            && s'.peers[j] == s.peers[j].(nextIdx := |d.log| - 1, prevTerm := -1, curTerm := s'.peers[j].curTerm)
    ensures forall k :: 0 <= k < 3 && k != i && k != j ==> Last(later).servers[k] == Last(run).servers[k]
  {
    var s, d := Last(run).servers[i], Last(run).servers[j];
    SentAt(s, i, j, n);
    var m, s1 := SentBy(s, i, j), AfterSend(s, j);
    var d' := d.(leader := Some(i));
    var r := ReplyTo(d', j, m, false, NonMatching);
    assert HandleAppendReq(d, j, m) == Done(d', {r});
    var s' := s1.(peers := s1.peers[j := BackOff(s1.peers[j], r)]);
    assert HandleAppendReply(rules.strict, s1, i, r) == Done(s', {});
    hide Run, RefreshPeer, HandleAppendReq, HandleAppendReply, LastTerm, CanSend, AtNext, SentBy, AfterSend;
    later := Exchange(rules, run, i, j, d', r, s');
  }

  /** The follower's log is empty. */
  lemma RejectEmpty(rules: Rules, run: seq<Cluster>, i: nat, j: nat, n: nat) returns (later: seq<Cluster>)
    requires Calm3(rules, run) && i < 3 && j < 3 && i != j && 0 < n
    requires var s, d := Last(run).servers[i], Last(run).servers[j];
             AtNext(s, j, n) && d.role.Follower? && d.term == s.term && d.log == []
    ensures Continues(rules, run, later) && Calm3(rules, later)
    ensures Voted(Last(run).servers[j], Last(later).servers[j], Last(run).servers[i].term)
    ensures var s, s' := Last(run).servers[i], Last(later).servers[i];
            && s' == s.(peers := s.peers[j := s'.peers[j]])
            && s'.peers[j] == s.peers[j].(nextIdx := 0, prevTerm := -1, curTerm := s'.peers[j].curTerm)
    ensures Refusal(i, j, Last(run).servers[i].term, n) in Last(later).msgs
    ensures forall k :: 0 <= k < 3 && k != i && k != j ==> Last(later).servers[k] == Last(run).servers[k]
  {
    var s, d := Last(run).servers[i], Last(run).servers[j];
    SentAt(s, i, j, n);
    var m, s1 := SentBy(s, i, j), AfterSend(s, j);
    var d' := d.(leader := Some(i));
    var r := Refusal(i, j, s.term, n);
    assert HandleAppendReq(d, j, m) == Done(d', {r});
    var s' := s1.(peers := s1.peers[j := BackOff(s1.peers[j], r)]);
    assert HandleAppendReply(rules.strict, s1, i, r) == Done(s', {});
    hide Run, RefreshPeer, HandleAppendReq, HandleAppendReply, LastTerm, CanSend, AtNext, SentBy, AfterSend;
    later := Exchange(rules, run, i, j, d', r, s');
  }

  lemma Median(w: seq<int>, i: nat, j: nat, k: nat)
    requires |w| == 3 && i < 3 && j < 3 && k < 3 && i != j && j != k && i != k
    requires w[k] <= w[j] <= w[i]
    ensures MajorityIndex(w) == w[j]
  {
    assert {i, j} <= Reached(w, w[j]);
    SubsetSize({i, j}, Reached(w, w[j]));
    forall y | w[j] < y ensures !IsMajority(Reached(w, y), 3) {
      assert Reached(w, y) <= {i};
      SubsetSize(Reached(w, y), {i});
    }
    MajorityIndexCorrect(w, w[j]);
  }

  /** Only j has acknowledged anything to leader s; n is the last entry it acknowledged, v the last it synced. */
  predicate Counts(s: Server, i: nat, j: nat, n: int, v: int)
  {
    && s.role.Leader? && i < 3 && j < 3 && i != j && s.commit == -1 && s.initialIdx < |s.log| && s.log != []
    && (forall k :: 0 <= k < |s.peers| && k != i && k != j ==> s.peers[k].ackdIdx == s.peers[k].syncedIdx == -1)
    && j < |s.peers| && s.peers[j].ackdIdx == n && s.peers[j].syncedIdx == v && -1 <= v <= n < |s.log|
  }

  /** In a cluster of three, what one follower has synced is committed as soon as it passes the gate. */
  lemma Commits(strict: bool, s: Server, i: nat, j: nat, n: int, v: int)
    requires Calm(s) && Counts(s, i, j, n, v)
    ensures var o := TryCommit(strict, s, i);
            o.Done? && o.out == {} &&
              o.next == SelfPeer(s, i).(commit := if CommitGate(strict, v, s.initialIdx) then v else -1)
  {
    var s1 := SelfPeer(s, i);
    var w := CountedAll(s1.peers);
    assert w[i] == |s.log| - 1 && w[j] == v;
    assert w[3 - i - j] == -1;
    hide MajorityIndex;
    Median(w, i, j, 3 - i - j);
  }

  /** The leader hears that entry n is stored, and synced up to v. */
  lemma Hears(strict: bool, s: Server, i: nat, j: nat, n: nat, r: Msg, a: int, b: int, v: int)
    requires Calm(s) && Counts(s, i, j, a, b) && s.peers[j].nextIdx == n && a < n < |s.log| && LastTerm(s.log) == s.term
    requires r.AppendReply? && r.src == j && !r.stale && !r.nonMatching && !r.heartbeat && r.prevIdx == n - 1
    requires r.term == s.term && r.syncedIdx == v && -1 <= v <= n
    ensures var o := HandleAppendReply(strict, s, i, r);
            && o.Done? && o.out == {} && Calm(o.next)
            && o.next.role.Leader? && o.next.term == s.term && o.next.log == s.log && o.next.initialIdx == s.initialIdx
            && o.next.peers[j].nextIdx == n + 1 && o.next.peers[j].prevTerm == -1
            && o.next.peers[j].ackdIdx == n && o.next.peers[j].syncedIdx == Max(b, v)
            && (forall k :: 0 <= k < 3 && k != i && k != j ==> o.next.peers[k] == s.peers[k])
            && o.next.commit == (if CommitGate(strict, Max(b, v), s.initialIdx) then Max(b, v) else -1)
  {
    var p := Advanced(s.peers[j], r);
    var s1 := s.(peers := s.peers[j := p]);
    var s2 := s.(peers := s.peers[j := Noted(p, v)]);
    assert Durable(s1) == s.log;
    assert s1.peers[j := Noted(p, v)] == s2.peers;
    Commits(strict, s2, i, j, n, Max(b, v));
    hide TryCommit;
    assert HandleAppendReply(strict, s, i, r) == TryCommit(strict, s2, i);
  }

  /** The state of the leader after j acknowledged entry n and synced v. */
  ghost predicate Credited(strict: bool, s: Server, s': Server, i: nat, j: nat, n: nat, v: int)
  {
    && s'.role.Leader? && s'.term == s.term && s'.log == s.log && s'.initialIdx == s.initialIdx && |s'.peers| == 3
    && i < 3 && j < 3 && |s.peers| == 3
    && s'.peers[j].nextIdx == n + 1 && s'.peers[j].prevTerm == -1 && s'.peers[j].ackdIdx == n
    && s'.peers[j].syncedIdx == v
    && (forall k :: 0 <= k < 3 && k != i && k != j ==> s'.peers[k] == s.peers[k])
    && s'.commit == (if CommitGate(strict, v, s.initialIdx) then v else -1)
  }

  /** Leader i and follower j of its term, at entry n, which they may already share. */
  ghost predicate Pair(rules: Rules, run: seq<Cluster>, i: nat, j: nat, n: nat, a: int, b: int)
  {
    && Calm3(rules, run) && i < 3 && j < 3 && i != j
    && var s, d := Last(run).servers[i], Last(run).servers[j];
       && AtNext(s, j, n) && Counts(s, i, j, a, b) && a < n && LastTerm(s.log) == s.term
       && d.role.Follower? && d.term == s.term && d.commit == -1
       && n <= |d.log| && d.log[..n] == s.log[..n] && 0 < s.log[n].term
       && (0 < n ==> s.log[n - 1].term <= s.log[n].term)
  }

  /** The entry is already there: it is acknowledged, but not reported as synced. */
  lemma Known(rules: Rules, run: seq<Cluster>, i: nat, j: nat, n: nat, a: int) returns (later: seq<Cluster>)
    requires Pair(rules, run, i, j, n, a, -1) && n < |Last(run).servers[j].log|
    requires Last(run).servers[j].log[n] == Last(run).servers[i].log[n]
    ensures Continues(rules, run, later) && Calm3(rules, later)
    ensures Voted(Last(run).servers[j], Last(later).servers[j], Last(run).servers[i].term)
    ensures Credited(rules.strict, Last(run).servers[i], Last(later).servers[i], i, j, n, -1)
    ensures forall k :: 0 <= k < 3 && k != i && k != j ==> Last(later).servers[k] == Last(run).servers[k]
  {
    var s, d := Last(run).servers[i], Last(run).servers[j];
    SentAt(s, i, j, n);
    var m, s1 := SentBy(s, i, j), AfterSend(s, j);
    var d' := d.(leader := Some(i));
    var r := ReplyTo(d', j, m, false, AlreadyStored);
    assert 0 < n ==> d.log[n - 1] == d.log[..n][n - 1];
    assert HandleAppendReq(d, j, m) == Done(d', {r});
    hide HandleAppendReq, HandleAppendReply;
    Hears(rules.strict, s1, i, j, n, r, a, -1, -1);
    var o := HandleAppendReply(rules.strict, s1, i, r);
    hide Run, RefreshPeer, LastTerm, CanSend, AtNext, SentBy, AfterSend, Counts;
    later := Exchange(rules, run, i, j, d', r, o.next);
  }

  /** The reply of j to leader i that entry n is stored and synced. */
  function Acceptance(i: nat, j: nat, term: nat, n: nat): Msg
  {
    AppendReply(j, i, term, n - 1, n, false, false, false, false, term)
  }

  /** The reply of j, whose log is empty, to entry n. */
  function Refusal(i: nat, j: nat, term: nat, n: nat): Msg
  {
    AppendReply(j, i, term, n - 1, -1, false, false, true, true, term)
  }

  /** The follower's state with entry n of the leader's log as its last. */
  lemma Stores(s: Server, d: Server, i: nat, j: nat, n: nat, m: Msg) returns (d': Server, r: Msg)
    requires Calm(d) && d.role.Follower? && d.term == s.term && d.commit == -1
    requires n < |s.log| && n <= |d.log| && d.log[..n] == s.log[..n] && 0 < s.log[n].term
    requires 0 < n ==> s.log[n - 1].term <= s.log[n].term
    requires n < |d.log| ==> 0 < n && d.log[n].term != s.log[n].term
    requires m ==
             AppendReq(i, j, s.term, s.log[n].term, if n == 0 then 0 else s.log[n - 1].term, n - 1, -1, Some(s.log[n]))
    ensures HandleAppendReq(d, j, m) == Done(d', {r})
    ensures Calm(d') && Voted(d.(log := s.log[..n + 1]), d', s.term)
    ensures r == Acceptance(i, j, s.term, n)
  {
    var d1 := d.(leader := Some(i));
    var d2 := d1.(log := s.log[..n], synced := n);
    assert (if n < |d.log| then Prune(d1, m) else d1) == d2;
    assert 0 < n ==> d2.log[n - 1] == s.log[n - 1];
    assert PrepareLog(d1, m) == (d2, Matches);
    assert s.log[n].(term := s.log[n].term) == s.log[n];
    assert s.log[..n] + [s.log[n]] == s.log[..n + 1];
    d' := d2.(log := s.log[..n + 1], synced := n + 1);
    assert WriteFromLeader(d2, m) == d';
    r := ReplyTo(d', j, m, false, Matches);
    assert Durable(d') == d'.log;
  }

  /** The follower stores the entry, pruning what conflicts with it. */
  lemma Store(rules: Rules, run: seq<Cluster>, i: nat, j: nat, n: nat, a: int, b: int) returns (later: seq<Cluster>)
    requires Pair(rules, run, i, j, n, a, b)
    requires var s, d := Last(run).servers[i], Last(run).servers[j];
             n < |d.log| ==> 0 < n && d.log[n].term != s.log[n].term
    ensures Continues(rules, run, later) && Calm3(rules, later)
    ensures Voted(Last(run).servers[j].(log := Last(run).servers[i].log[..n + 1]), Last(later).servers[j],
                  Last(run).servers[i].term)
    ensures Credited(rules.strict, Last(run).servers[i], Last(later).servers[i], i, j, n, n)
    ensures Acceptance(i, j, Last(run).servers[i].term, n) in Last(later).msgs
    ensures forall k :: 0 <= k < 3 && k != i && k != j ==> Last(later).servers[k] == Last(run).servers[k]
  {
    var s, d := Last(run).servers[i], Last(run).servers[j];
    SentAt(s, i, j, n);
    var m, s1 := SentBy(s, i, j), AfterSend(s, j);
    hide HandleAppendReq, HandleAppendReply;
    var d', r := Stores(s, d, i, j, n, m);
    Hears(rules.strict, s1, i, j, n, r, a, b, n);
    var o := HandleAppendReply(rules.strict, s1, i, r);
    hide Run, RefreshPeer, LastTerm, CanSend, AtNext, SentBy, AfterSend, Counts;
    later := Exchange(rules, run, i, j, d', r, o.next);
  }

  /** Replica k of the last cluster. */
  ghost predicate At(run: seq<Cluster>, k: nat, term: nat, leads: bool, log: seq<Entry>, commit: int)
  {
    run != [] && k < |Last(run).servers| &&
    var s := Last(run).servers[k];
    s.term == term && (if leads then s.role.Leader? else s.role.Follower?) && s.log == log && s.commit == commit
  }

  lemma Begin(rules: Rules) returns (run: seq<Cluster>)
    ensures Calm3(rules, run) && forall k :: 0 <= k < 3 ==> Last(run).servers[k] == InitServer(3, true)
  {
    run := [Cluster(seq(3, _ => InitServer(3, true)), {})];
    assert Init(run[0]);
  }
}
