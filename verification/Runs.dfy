/** Building runs: one more step, and the exchanges between a leader and one follower. */
module Runs {
  import opened Majority
  import opened Protocol
  import opened Cluster

  function Last(run: seq<Cluster>): Cluster
    requires run != []
  {
    run[|run| - 1]
  }

  /** later continues run. */
  ghost predicate Continues(rules: Rules, run: seq<Cluster>, later: seq<Cluster>)
  {
    && Run(rules, run) && Run(rules, later)
    && |run| <= |later| && run == later[..|run|]
    && |Last(later).servers| == |Last(run).servers|
    && Last(run).msgs <= Last(later).msgs
  }

  lemma ContinuesOn(rules: Rules, run: seq<Cluster>, mid: seq<Cluster>, later: seq<Cluster>)
    requires Continues(rules, run, mid) && Continues(rules, mid, later)
    ensures Continues(rules, run, later)
  {
    hide Run;
    assert run == later[..|mid|][..|run|];
  }

  lemma RunExtends(rules: Rules, run: seq<Cluster>, c': Cluster)
    requires Run(rules, run) && Shaped(Last(run)) && Next(rules, Last(run), c') && Shaped(c')
    ensures Run(rules, run + [c'])
  {
    hide Next, Shaped, Init;
    var later := run + [c'];
    forall k | 0 <= k < |later| - 1 ensures Shaped(later[k]) && Next(rules, later[k], later[k + 1]) {
      assert later[k] == run[k];
      if k < |run| - 1 { assert later[k + 1] == run[k + 1]; }
    }
    assert later[0] == run[0];
    forall k | 0 <= k < |later| ensures Shaped(later[k]) {}
  }

  /** Replica i takes action a, and no assertion stops it. */
  lemma Go(rules: Rules, run: seq<Cluster>, i: nat, a: Action) returns (later: seq<Cluster>)
    requires Run(rules, run) && i < |Last(run).servers| && Shaped(Last(run)) && Enabled(rules, Last(run), i, a)
    requires var o := Act(rules.strict, Last(run), i, a); o.Done? && |o.next.peers| == |Last(run).servers|
    ensures Continues(rules, run, later) && |later| == |run| + 1
    ensures var o := Act(rules.strict, Last(run), i, a);
            Last(later) == Cluster(Last(run).servers[i := o.next], Last(run).msgs + o.out)
  {
    assert run != [];
    hide Act, Run, Enabled;
    var c := Last(run);
    var o := Act(rules.strict, c, i, a);
    var c' := Cluster(c.servers[i := o.next], c.msgs + o.out);
    assert Resolves(c, i, o, 0, 0, c');
    assert NextStep(rules, c, c', Step(i, a, 0, 0));
    RunExtends(rules, run, c');
    later := run + [c'];
  }

  /** A run that keeps the rules on sends and replies is a run without them. */
  lemma FewerRules(rules: Rules, run: seq<Cluster>, fewer: Rules)
    requires Run(rules, run) && fewer.strict == rules.strict
    requires (fewer.current ==> rules.current) && (fewer.tenured ==> rules.tenured)
    ensures Run(fewer, run)
  {
    hide Resolves, Possible, FreshTerm, InTenure;
    forall k | 0 <= k < |run| - 1 ensures Next(fewer, run[k], run[k + 1]) {
      var step :| NextStep(rules, run[k], run[k + 1], step);
      assert NextStep(fewer, run[k], run[k + 1], step);
    }
  }

  lemma LastShaped(rules: Rules, run: seq<Cluster>)
    requires Run(rules, run)
    ensures Shaped(Last(run))
  {
  }

  // ----- leader and follower -----

  /** i leads, and may send its next entry to j. */
  predicate CanSend(s: Server, j: nat)
  {
    && s.role.Leader? && s.log != [] && j < |s.peers| && 0 <= s.peers[j].nextIdx <= |s.log|
    && FreshTerm(s, j)
  }

  function SentBy(s: Server, i: nat, j: nat): Msg
    requires CanSend(s, j)
  {
    RequestTo(s, i, j, RefreshPeer(s.peers[j], s.log), false)
  }

  function AfterSend(s: Server, j: nat): Server
    requires CanSend(s, j)
  {
    s.(peers := s.peers[j := RefreshPeer(s.peers[j], s.log)])
  }

  /** The request goes out and is handled; nobody replies yet. */
  lemma Push(rules: Rules, run: seq<Cluster>, i: nat, j: nat, d': Server, out: set<Msg>) returns (later: seq<Cluster>)
    requires Run(rules, run) && i < |Last(run).servers| && j < |Last(run).servers| && i != j
    requires CanSend(Last(run).servers[i], j)
    requires HandleAppendReq(Last(run).servers[j], j, SentBy(Last(run).servers[i], i, j)) == Done(d', out)
    requires |d'.peers| == |Last(run).servers[j].peers|
    ensures Continues(rules, run, later)
    ensures Last(later).servers == Last(run).servers[i := AfterSend(Last(run).servers[i], j)][j := d']
    ensures out <= Last(later).msgs && SentBy(Last(run).servers[i], i, j) in Last(later).msgs
  {
    assert run != [];
    hide Run, HandleAppendReq, RefreshPeer;
    var s := Last(run).servers[i];
    var m := SentBy(s, i, j);
    LastShaped(rules, run);
    assert HandleSend(s, i, j, false) == Done(AfterSend(s, j), {m});
    var run1 := Go(rules, run, i, Send(j, false));
    LastShaped(rules, run1);
    assert m in Last(run1).msgs;
    later := Go(rules, run1, j, Deliver(m));
    ContinuesOn(rules, run, run1, later);
  }

  /** One full round: request, handling, and the reply back at the leader. */
  lemma Exchange(rules: Rules, run: seq<Cluster>, i: nat, j: nat, d': Server, r: Msg, s': Server)
    returns (later: seq<Cluster>)
    requires Run(rules, run) && i < |Last(run).servers| && j < |Last(run).servers| && i != j
    requires CanSend(Last(run).servers[i], j)
    requires HandleAppendReq(Last(run).servers[j], j, SentBy(Last(run).servers[i], i, j)) == Done(d', {r})
    requires |d'.peers| == |Last(run).servers[j].peers| && |s'.peers| == |Last(run).servers[i].peers|
    requires r.AppendReply? && r.src == j && r.dst == i && r.reqTerm == Last(run).servers[i].term && i < |s'.peers|
    requires HandleAppendReply(rules.strict, AfterSend(Last(run).servers[i], j), i, r) == Done(s', {})
    ensures Continues(rules, run, later)
    ensures Last(later).servers == Last(run).servers[i := s'][j := d'] && r in Last(later).msgs
  {
    assert run != [];
    hide Run, HandleAppendReq, HandleAppendReply, RefreshPeer, CanSend;
    LastShaped(rules, run);
    var run1 := Push(rules, run, i, j, d', {r});
    LastShaped(rules, run1);
    later := Go(rules, run1, i, Deliver(r));
    ContinuesOn(rules, run, run1, later);
  }
}
