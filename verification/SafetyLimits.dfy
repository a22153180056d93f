/** How far safety goes: it holds for all runs exactly when the commit comparison is strict, every request to a
    peer that has everything carries the leader's own term, and no late reply is counted. */
module SafetyLimits {
  import opened Protocol
  import opened Cluster
  import opened Runs
  import opened Scenarios
  import Assertions
  import Figure8
  import LateVote
  import Logs
  import Safety
  import StaleCache

  ghost predicate AgreeAt(run: seq<Cluster>, k: nat, l: nat, i: nat, j: nat, x: nat)
    requires k < |run| && l < |run| && i < |run[k].servers| && j < |run[l].servers|
  {
    x <= Settled(run[k].servers[i]) && x <= Settled(run[l].servers[j]) ==>
      && x < |run[k].servers[i].log| && x < |run[l].servers[j].log|
      && run[k].servers[i].log[x] == run[l].servers[j].log[x]
  }

  /** No two servers, at any two times, commit or apply different entries at one index. */
  ghost predicate Safe(run: seq<Cluster>)
  {
    forall k: nat, l: nat, i: nat, j: nat, x: nat ::
      k <= l < |run| && i < |run[k].servers| && j < |run[l].servers| ==> AgreeAt(run, k, l, i, j, x)
  }

  lemma SoundIsSafe(run: seq<Cluster>)
    requires Run(SOUND, run)
    ensures Safe(run)
  {
    hide Run;
    forall k: nat, l: nat, i: nat, j: nat, x: nat | k <= l < |run| && i < |run[k].servers| && j < |run[l].servers|
      ensures AgreeAt(run, k, l, i, j, x)
    {
      if x <= Settled(run[k].servers[i]) && x <= Settled(run[l].servers[j]) {
        Safety.StateMachineSafety(run, k, l, i, j, x);
        var a, b := run[k].servers[i].log, run[l].servers[j].log;
        assert a[x] == a[..x + 1][x] == b[..x + 1][x] == b[x];
      }
    }
  }

  /** Every run is safe if and only if an index must exceed the last one before the leader's own term to be
      committed, no stale term is sent, and no late reply is counted.  Without the first rule, the run of figure 8
      is not safe; without the second, a delayed heartbeat makes a follower give up a committed entry; without
      the third, two leaders of one term commit. */
  lemma SafeExactlyWhenSound(rules: Rules)
    ensures (forall run :: Run(rules, run) ==> Safe(run)) <==> rules.strict && rules.current && rules.tenured
  {
    hide Run, Safe;
    if rules == SOUND {
      forall run | Run(SOUND, run) ensures Safe(run) { SoundIsSafe(run); }
    } else if !rules.strict {
      var run := Figure8.OldIsReplaced();
      FewerRules(Figure8.LOOSE, run, rules);
      LeadersDiffer(run, 0, 2, Figure8.LATEST, Figure8.NEWER, 1, 1, 1, 3, 4);
    } else if !rules.current {
      var run := StaleCache.CommittedIsLost();
      FewerRules(StaleCache.STALE, run, rules);
      LeadersDiffer(run, 0, 1, StaleCache.LOG + [StaleCache.WRITTEN], StaleCache.LOG + [Marker(3)], 2, 2, 2, 2, 3);
    } else {
      var run := LateVote.BothCommit();
      LeadersDiffer(run, 2, 0, LateVote.SHORT, LateVote.LONG, 1, 1, 2, 2, 2);
    }
  }

  /** Leaders i and j committed up to p and q; at index x their logs differ. */
  lemma LeadersDiffer(run: seq<Cluster>, i: nat, j: nat, a: seq<Entry>, b: seq<Entry>, x: nat, p: nat, q: nat,
                      t: nat, u: nat)
    requires At(run, i, t, true, a, p) && At(run, j, u, true, b, q)
    requires x <= p < |a| && x <= q < |b| && a[x] != b[x]
    ensures !Safe(run)
  {
    var k := |run| - 1;
    assert !AgreeAt(run, k, k, i, j, x);
  }

  // ----- one leader per term, and matching logs -----

  ghost predicate OneLeader(run: seq<Cluster>)
  {
    forall k: nat, l: nat, i: nat, j: nat ::
      k <= l < |run| && i < |run[k].servers| && j < |run[l].servers| ==> LeadsAlone(run, k, l, i, j)
  }

  /** Two leaders of one term are the same server, and the later log extends the earlier. */
  ghost predicate LeadsAlone(run: seq<Cluster>, k: nat, l: nat, i: nat, j: nat)
    requires k < |run| && l < |run| && i < |run[k].servers| && j < |run[l].servers|
  {
    var s, s' := run[k].servers[i], run[l].servers[j];
    s.role.Leader? && s'.role.Leader? && s.term == s'.term ==> i == j && Prefix(s.log, s'.log)
  }

  ghost predicate LogsMatch(run: seq<Cluster>)
  {
    forall k: nat, l: nat, i: nat, j: nat, x: nat ::
      k <= l < |run| && i < |run[k].servers| && j < |run[l].servers| ==> MatchAt(run, k, l, i, j, x)
  }

  /** Two logs with the same term at x are the same up to x. */
  ghost predicate MatchAt(run: seq<Cluster>, k: nat, l: nat, i: nat, j: nat, x: nat)
    requires k < |run| && l < |run| && i < |run[k].servers| && j < |run[l].servers|
  {
    var a, b := run[k].servers[i].log, run[l].servers[j].log;
    x < |a| && x < |b| && a[x].term == b[x].term ==> a[..x + 1] == b[..x + 1]
  }

  lemma TenuredMatches(rules: Rules, run: seq<Cluster>)
    requires Run(rules, run) && rules.tenured
    ensures OneLeader(run) && LogsMatch(run)
  {
    hide Run, Prefix;
    forall k: nat, l: nat, i: nat, j: nat | k <= l < |run| && i < |run[k].servers| && j < |run[l].servers|
      ensures LeadsAlone(run, k, l, i, j)
    {
      var s, s' := run[k].servers[i], run[l].servers[j];
      if s.role.Leader? && s'.role.Leader? && s.term == s'.term { Logs.ElectionSafety(rules, run, k, l, i, j); }
    }
    forall k: nat, l: nat, i: nat, j: nat, x: nat | k <= l < |run| && i < |run[k].servers| && j < |run[l].servers|
      ensures MatchAt(run, k, l, i, j, x)
    {
      var a, b := run[k].servers[i].log, run[l].servers[j].log;
      if x < |a| && x < |b| && a[x].term == b[x].term { Logs.LogMatching(rules, run, k, l, i, j, x); }
    }
  }

  /** Election Safety and Log Matching turn on the rule on replies alone. */
  lemma MatchesExactlyWhenTenured(rules: Rules)
    ensures (forall run :: Run(rules, run) ==> OneLeader(run)) <==> rules.tenured
    ensures (forall run :: Run(rules, run) ==> LogsMatch(run)) <==> rules.tenured
  {
    hide Run, OneLeader, LogsMatch;
    if rules.tenured {
      forall run | Run(rules, run) ensures OneLeader(run) && LogsMatch(run) { TenuredMatches(rules, run); }
    } else {
      var run := LateVote.LogsClash(rules);
      Clash(rules, run);
    }
  }

  lemma Clash(rules: Rules, run: seq<Cluster>)
    requires Calm3(rules, run) && At(run, 0, 2, true, LateVote.LONG, -1)
    requires At(run, 2, 2, true, LateVote.SHORT + [LateVote.OTHER], -1)
    ensures !OneLeader(run) && !LogsMatch(run)
  {
    hide Run;
    var k := |run| - 1;
    assert !LeadsAlone(run, k, k, 0, 2);
    var a, b := LateVote.LONG, LateVote.SHORT + [LateVote.OTHER];
    assert a[..3][1] != b[..3][1];
    assert !MatchAt(run, k, k, 0, 2, 2);
  }

  // ----- the other commit properties have the same limits -----

  /** A leader's log holds what any server, then or earlier, committed or applied in a term not above its own. */
  ghost predicate CompleteAt(run: seq<Cluster>, k: nat, l: nat, j: nat, i: nat)
    requires k < |run| && l < |run| && j < |run[k].servers| && i < |run[l].servers|
  {
    var s, leader := run[k].servers[j], run[l].servers[i];
    leader.role.Leader? && s.term <= leader.term && 0 <= Settled(s) ==>
      Settled(s) < |s.log| && Prefix(s.log[..Settled(s) + 1], leader.log)
  }

  ghost predicate Complete(run: seq<Cluster>)
  {
    forall k: nat, l: nat, j: nat, i: nat ::
      k <= l < |run| && j < |run[k].servers| && i < |run[l].servers| ==> CompleteAt(run, k, l, j, i)
  }

  lemma SoundIsComplete(run: seq<Cluster>)
    requires Run(SOUND, run)
    ensures Complete(run)
  {
    hide Run;
    forall k: nat, l: nat, j: nat, i: nat | k <= l < |run| && j < |run[k].servers| && i < |run[l].servers|
      ensures CompleteAt(run, k, l, j, i)
    {
      var s, leader := run[k].servers[j], run[l].servers[i];
      if leader.role.Leader? && s.term <= leader.term && 0 <= Settled(s) { Safety.LeaderCompleteness(run, k, l, j, i); }
    }
  }

  lemma LaterLeaderLacks(run: seq<Cluster>, i: nat, j: nat, a: seq<Entry>, b: seq<Entry>, x: nat, q: int, t: nat,
                         u: nat)
    requires At(run, i, t, true, a, x) && At(run, j, u, true, b, q) && x < |a| && x < |b| && a[x] != b[x] && t <= u
    requires Last(run).servers[i].applied <= x
    ensures !Complete(run)
  {
    var k := |run| - 1;
    assert a[..x + 1][x] == a[x] && b[..x + 1][x] == b[x];
    assert !CompleteAt(run, k, k, i, j);
  }

  /** Leader Completeness holds for all runs under the same three rules, and no others. */
  lemma CompleteExactlyWhenSound(rules: Rules)
    ensures (forall run :: Run(rules, run) ==> Complete(run)) <==> rules.strict && rules.current && rules.tenured
  {
    hide Run, Complete;
    if rules == SOUND {
      forall run | Run(SOUND, run) ensures Complete(run) { SoundIsComplete(run); }
    } else if !rules.strict {
      var run := Figure8.OldIsReplaced();
      FewerRules(Figure8.LOOSE, run, rules);
      LaterLeaderLacks(run, 0, 2, Figure8.LATEST, Figure8.NEWER, 1, 1, 3, 4);
    } else if !rules.current {
      var run := StaleCache.CommittedIsLost();
      FewerRules(StaleCache.STALE, run, rules);
      LaterLeaderLacks(run, 0, 1, StaleCache.LOG + [StaleCache.WRITTEN], StaleCache.LOG + [Marker(3)], 2, 2, 2, 3);
    } else {
      var run := LateVote.BothCommit();
      LaterLeaderLacks(run, 2, 0, LateVote.SHORT, LateVote.LONG, 1, 2, 2, 2);
    }
  }

  /** What a leader counts for a peer of its term, the peer has on durable storage. */
  ghost predicate CountedAt(run: seq<Cluster>, k: nat, i: nat, j: nat)
    requires k < |run| && i < |run[k].servers| && j < |run[k].servers|
  {
    var leader, s := run[k].servers[i], run[k].servers[j];
    leader.role.Leader? && j < |leader.peers| && 0 <= Counted(leader.peers[j]) ==>
      && Counted(leader.peers[j]) < |leader.log| && leader.term <= s.term
      && (s.term == leader.term ==> Prefix(leader.log[..Counted(leader.peers[j]) + 1], Durable(s)))
  }

  ghost predicate CountedDurable(run: seq<Cluster>)
  {
    forall k: nat, i: nat, j: nat :: k < |run| && i < |run[k].servers| && j < |run[k].servers| ==>
      CountedAt(run, k, i, j)
  }

  lemma SoundIsCounted(run: seq<Cluster>)
    requires Run(SOUND, run)
    ensures CountedDurable(run)
  {
    hide Run;
    forall k: nat, i: nat, j: nat | k < |run| && i < |run[k].servers| && j < |run[k].servers|
      ensures CountedAt(run, k, i, j)
    {
      var leader := run[k].servers[i];
      if leader.role.Leader? && j < |leader.peers| && 0 <= Counted(leader.peers[j]) {
        Safety.CountedMeansDurable(run, k, i, j);
      }
    }
  }

  /** Under the strict comparison, what is counted is durable in all runs exactly under the other two rules. */
  lemma CountedExactlyWhenSound(rules: Rules)
    requires rules.strict
    ensures (forall run :: Run(rules, run) ==> CountedDurable(run)) <==> rules.current && rules.tenured
  {
    hide Run, CountedDurable;
    if rules == SOUND {
      forall run | Run(SOUND, run) ensures CountedDurable(run) { SoundIsCounted(run); }
    } else if !rules.current {
      var run := StaleCache.CommittedIsCut();
      FewerRules(StaleCache.STALE, run, rules);
      CutIsCounted(run);
    } else {
      var run := LateVote.BothCommit();
      OtherIsCounted(run);
    }
  }

  lemma OtherIsCounted(run: seq<Cluster>)
    requires Calm3(LateVote.LATE, run) && At(run, 2, 2, true, LateVote.SHORT, 1)
    requires At(run, 1, 2, false, LateVote.LONG, -1) && Counted(Last(run).servers[2].peers[1]) == 1
    ensures !CountedDurable(run)
  {
    hide Run;
    assert Durable(Last(run).servers[1]) == LateVote.LONG;
    assert LateVote.SHORT[..2][1] != LateVote.LONG[..2][1];
    assert !CountedAt(run, |run| - 1, 2, 1);
  }

  lemma CutIsCounted(run: seq<Cluster>)
    requires Calm3(StaleCache.STALE, run) && At(run, 0, 2, true, StaleCache.LOG + [StaleCache.WRITTEN], 2)
    requires StaleCache.Follows(Last(run).servers[1], StaleCache.LOG) && Counted(Last(run).servers[0].peers[1]) == 2
    ensures !CountedDurable(run)
  {
    hide Run;
    assert !CountedAt(run, |run| - 1, 0, 1);
  }

  /** An assertion stops a replica exactly when Assertions.Stops says so. */
  ghost predicate StopsAt(rules: Rules, run: seq<Cluster>, k: nat, i: nat, a: Action)
    requires k < |run| && Shaped(run[k]) && i < |run[k].servers| && Enabled(rules, run[k], i, a)
  {
    Act(rules.strict, run[k], i, a).Panic? <==> Assertions.Stops(run[k].servers[i], a)
  }

  ghost predicate StopsOnlySo(rules: Rules, run: seq<Cluster>)
  {
    forall k: nat, i: nat, a: Action ::
      k < |run| && Shaped(run[k]) && i < |run[k].servers| && Enabled(rules, run[k], i, a) && !a.Crash? ==>
        StopsAt(rules, run, k, i, a)
  }

  lemma SoundStops(run: seq<Cluster>)
    requires Run(SOUND, run)
    ensures StopsOnlySo(SOUND, run)
  {
    hide Run, Act, Enabled, Shaped, Assertions.Stops;
    forall k: nat, i: nat, a: Action |
      k < |run| && Shaped(run[k]) && i < |run[k].servers| && Enabled(SOUND, run[k], i, a) && !a.Crash?
      ensures StopsAt(SOUND, run, k, i, a)
    {
      Assertions.OnlyTheseStop(run, k, i, a);
    }
  }

  /** Under the strict comparison, the two ways to stop are the only ones exactly under the other two rules: a
      stale heartbeat stops a follower that knows the entry to be committed, and two leaders stop each other. */
  lemma StopsExactlyWhenSound(rules: Rules)
    requires rules.strict
    ensures (forall run :: Run(rules, run) ==> StopsOnlySo(rules, run)) <==> rules.current && rules.tenured
  {
    hide Run, Act, Shaped, Assertions.Stops;
    if rules == SOUND {
      forall run | Run(SOUND, run) ensures StopsOnlySo(SOUND, run) { SoundStops(run); }
    } else if !rules.current {
      var run, a := StaleCache.CommittedIsRefused();
      FewerRules(StaleCache.STALE, run, rules);
      assert !StopsAt(rules, run, |run| - 1, 1, a);
    } else {
      var run, a := LateVote.LeadersMeet();
      assert !StopsAt(rules, run, |run| - 1, 0, a);
    }
  }
}
