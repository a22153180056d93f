/** The commit comparison as the code has it admits the run of section 5.4.2 (figure 8) of the Raft paper:
    an entry of an older term is committed once a majority holds it, and a later leader replaces it. */
module Figure8 {
  import opened Majority
  import opened Protocol
  import opened Cluster
  import opened Runs
  import opened Scenarios

  // ----- the run of figure 8, with three members -----

  const LOOSE := Rules(false, true, true)

  const OLD := Entry(1, false, [7], [1])

  const LATEST: seq<Entry> := [Marker(1), OLD, Marker(3)]
  const NEWER: seq<Entry> := [Marker(1), Marker(2), Marker(4)]

  /** Leader k counts for each peer what InitPeer of its starting log says. */
  ghost predicate Fresh(run: seq<Cluster>, k: nat, start: seq<Entry>)
  {
    run != [] && k < |Last(run).servers| &&
    Last(run).servers[k].initialIdx == |start| - 1 && Last(run).servers[k].peers == seq(3, _ => InitPeer(start))
  }

  lemma FirstWin(rules: Rules) returns (run: seq<Cluster>)
    ensures Calm3(rules, run) && VoteReply(1, 0, true, 0, None, 1) in Last(run).msgs
    ensures At(run, 0, 1, true, [Marker(1)], -1) && Fresh(run, 0, [])
    ensures At(run, 1, 1, false, [], -1) && Last(run).servers[2] == InitServer(3, true)
  {
    var start := Begin(rules);
    hide Run;
    run := Elect(rules, start, 0, 1);
  }

  lemma FirstTerm(rules: Rules) returns (run: seq<Cluster>)
    ensures Calm3(rules, run) && VoteReply(1, 0, true, 0, None, 1) in Last(run).msgs
    ensures At(run, 0, 1, true, [Marker(1), OLD], -1) && Last(run).servers[0].peers[1].nextIdx == 0
    ensures At(run, 1, 1, false, [Marker(1)], -1) && At(run, 2, 1, false, [Marker(1)], -1)
  {
    var run1 := FirstWin(rules);
    hide Run;
    var run2 := Seed(rules, run1, 0, 1);
    var run3 := Seed(rules, run2, 0, 2);
    LastShaped(rules, run3);
    run := Go(rules, run3, 0, Write(OLD.data, OLD.sizes));
    assert [Marker(1)] + [OLD] == [Marker(1), OLD];
  }

  /** 2 wins term 2 without the old entry; 0 learns of it and wins term 3. */
  lemma ThirdTerm() returns (run: seq<Cluster>)
    ensures Calm3(LOOSE, run) && At(run, 0, 3, true, LATEST, -1) && Fresh(run, 0, [Marker(1), OLD])
    ensures At(run, 1, 3, false, [Marker(1)], -1)
    ensures At(run, 2, 2, true, [Marker(1), Marker(2)], -1) && Fresh(run, 2, [Marker(1)])
  {
    var run1 := FirstTerm(LOOSE);
    hide Run;
    var run2 := Elect(LOOSE, run1, 2, 1);
    assert [Marker(1)] + [Marker(2)] == [Marker(1), Marker(2)];
    var run3 := Depose(LOOSE, run2, 0, 1);
    run := Elect(LOOSE, run3, 0, 1);
    assert [Marker(1), OLD] + [Marker(3)] == [Marker(1), OLD, Marker(3)];
  }

  /** 0 replicates the old entry to 1 and, with the loose comparison, commits it before its own marker. */
  lemma OldIsCommitted() returns (run: seq<Cluster>)
    ensures Calm3(LOOSE, run) && At(run, 0, 3, true, LATEST, 1)
    ensures At(run, 1, 3, false, [Marker(1), OLD], -1)
    ensures At(run, 2, 2, true, [Marker(1), Marker(2)], -1) && Fresh(run, 2, [Marker(1)])
  {
    var run1 := ThirdTerm();
    hide Run;
    var run2 := Reject(LOOSE, run1, 0, 1, 2);
    var run3 := Known(LOOSE, run2, 0, 1, 0, -1);
    run := Store(LOOSE, run3, 0, 1, 1, 0, -1);
  }

  /** 2 wins term 4 with 1's vote and replaces the committed entry. */
  lemma OldIsReplaced() returns (run: seq<Cluster>)
    ensures Run(LOOSE, run) && |Last(run).servers| == 3 && forall k :: 0 <= k < 3 ==> Last(run).servers[k].applied == -1
    ensures At(run, 0, 3, true, LATEST, 1)
    ensures At(run, 2, 4, true, NEWER, 1)
  {
    var run1 := OldIsCommitted();
    hide Run;
    var run2 := Depose(LOOSE, run1, 2, 1);
    var run3 := Elect(LOOSE, run2, 2, 1);
    assert [Marker(1), Marker(2)] + [Marker(4)] == [Marker(1), Marker(2), Marker(4)];
    var run4 := Reject(LOOSE, run3, 2, 1, 2);
    run := Store(LOOSE, run4, 2, 1, 1, -1, -1);
  }
}
