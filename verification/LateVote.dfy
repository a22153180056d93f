/** A vote reply names neither the candidacy nor the term it answers.  Counted late, in a candidacy of the same
    server for a later term, it makes a second leader of that term: logs no longer match, what the leaders count
    is not there, and both commit. */
module LateVote {
  import opened Majority
  import opened Protocol
  import opened Cluster
  import opened Runs
  import opened Scenarios
  import Assertions
  import Figure8

  const LATE := Rules(true, true, false)

  const SHORT: seq<Entry> := [Marker(1), Marker(2)]
  const LONG: seq<Entry> := [Marker(1), Figure8.OLD, Marker(2)]

  /** Replica 0 stands for term 2; 2 wins it with 1's vote; 1's vote of term 1 arrives at 0 once more. */
  lemma TwoLeaders(rules: Rules) returns (run: seq<Cluster>)
    requires !rules.tenured
    ensures Calm3(rules, run)
    ensures At(run, 0, 2, true, LONG, -1) && Figure8.Fresh(run, 0, LONG[..2])
    ensures At(run, 1, 2, false, [Marker(1)], -1)
    ensures At(run, 2, 2, true, SHORT, -1) && Figure8.Fresh(run, 2, SHORT[..1])
  {
    var run1 := Figure8.FirstTerm(rules);
    var s := Last(run1).servers[0];
    hide Run;
    var run2 := Campaign(rules, run1, 0, 1);
    var run3 := Elect(rules, run2, 2, 1);
    assert [Marker(1)] + [Marker(2)] == SHORT && SHORT[..1] == [Marker(1)];
    run := TakesOffice(rules, run3, 0, 1, s, 0, 1);
    assert [Marker(1), Figure8.OLD] + [Marker(2)] == LONG && LONG[..2] == [Marker(1), Figure8.OLD];
  }

  const OTHER := Entry(2, false, [8], [1])

  /** One of them writes: two different entries of one term at one index. */
  lemma LogsClash(rules: Rules) returns (run: seq<Cluster>)
    requires !rules.tenured
    ensures Calm3(rules, run) && At(run, 0, 2, true, LONG, -1) && At(run, 2, 2, true, SHORT + [OTHER], -1)
  {
    var run1 := TwoLeaders(rules);
    var s := Last(run1).servers[2];
    hide Run;
    run := Once(rules, run1, 2, Write(OTHER.data, OTHER.sizes), s.(log := SHORT + [OTHER], synced := 3));
  }

  /** Both leaders commit with the help of 1, which each makes store its own entries. */
  lemma BothCommit() returns (run: seq<Cluster>)
    ensures Calm3(LATE, run) && At(run, 0, 2, true, LONG, 2) && At(run, 2, 2, true, SHORT, 1)
    ensures At(run, 1, 2, false, LONG, -1) && Counted(Last(run).servers[2].peers[1]) == 1
  {
    var run1 := TwoLeaders(LATE);
    hide Run;
    assert SHORT[..2] == SHORT && LONG[..1] == SHORT[..1] == [Marker(1)] && LONG[..3] == LONG;
    var run2 := Store(LATE, run1, 2, 1, 1, -1, -1);
    var run3 := Reject(LATE, run2, 0, 1, 2);
    var run4 := Store(LATE, run3, 0, 1, 1, -1, -1);
    run := Store(LATE, run4, 0, 1, 2, 1, 1);
  }

  /** A leader that hears from the other one stops. */
  lemma LeadersMeet() returns (run: seq<Cluster>, a: Action)
    ensures Run(LATE, run) && run != [] && |Last(run).servers| == 3 && Shaped(Last(run))
    ensures !a.Crash? && Enabled(LATE, Last(run), 0, a) && Act(true, Last(run), 0, a).Panic?
    ensures !Assertions.Stops(Last(run).servers[0], a)
  {
    var run1 := TwoLeaders(LATE);
    var s := Last(run1).servers[2];
    SentAt(s, 2, 0, 1);
    var m := SentBy(s, 2, 0);
    assert HandleSend(s, 2, 0, false) == Done(AfterSend(s, 0), {m});
    run := Once(LATE, run1, 2, Send(0, false), AfterSend(s, 0));
    a := Deliver(m);
    LastShaped(LATE, run);
    hide Run;
    assert HandleAppendReq(Last(run).servers[0], 0, m).Panic?;
  }
}
