/** The safety theorems, over every run with crashes, restarts, and lost, repeated, reordered
    and delayed messages. */
module Safety {
  import opened Majority
  import opened Protocol
  import opened Cluster
  import opened History
  import opened Stability
  import opened LocalSteps
  import Elections
  import Appending
  import Leading

  // ----- every step of every run keeps the invariant -----

  lemma DeliverStep(h: History, c: Cluster, i: nat, m: Msg) returns (h': History)
    requires Inv(h, c) && Shaped(c) && i < |c.servers| && Enabled(SOUND, c, i, Deliver(m))
    ensures Grows(h, h')
    ensures var o := Act(true, c, i, Deliver(m)); Inv(h', Put(c, i, o.next, Appending.Sent(o)))
  {
    h' := h;
    GrowsSelf(h, c);
    match m
    case PreVoteReq(_, _, _, _) => Elections.PreVoteReqStep(h, c, i, m);
    case PreVoteReply(_, _, _) => h' := Elections.PreVoteReplyStep(h, c, i, m);
    case VoteReq(_, _, _, _) => h' := Elections.VoteReqStep(h, c, i, m);
    case VoteReply(_, _, _, _, _, _) => h' := Elections.VoteReplyStep(h, c, i, m);
    case AppendReq(_, _, _, _, _, _, _, _) => h' := Appending.AppendReqStep(h, c, i, m);
    case AppendReply(_, _, _, _, _, _, _, _, _, _) => h' := Leading.AppendReplyStep(h, c, i, m);
    case SyncIdx(_, _, _, _) => h' := Leading.SyncIdxStep(h, c, i, m);
  }

  lemma ActStep(h: History, c: Cluster, i: nat, a: Action) returns (h': History)
    requires Inv(h, c) && Shaped(c) && i < |c.servers| && Enabled(SOUND, c, i, a) && !a.Crash?
    ensures Grows(h, h')
    ensures var o := Act(true, c, i, a); Inv(h', Put(c, i, o.next, Appending.Sent(o)))
  {
    h' := h;
    GrowsSelf(h, c);
    match a
    case Timeout => Elections.TimeoutStep(h, c, i);
    case Deliver(m) => h' := DeliverStep(h, c, i, m);
    case Write(data, sizes) => h' := Elections.WriteStep(h, c, i, data, sizes);
    case Send(dst, heartbeat) => Leading.SendStep(h, c, i, dst, heartbeat);
    case SendSync => h' := Leading.SendSyncStep(h, c, i);
    case Publish(k) => SyncStep(h, c, i, k);
    case Advance => h' := Leading.TryCommitStep(h, c, i);
    case Apply => ApplyStep(h, c, i);
  }

  lemma NextKeepsInv(h: History, c: Cluster, c': Cluster, step: Step) returns (h': History)
    requires Inv(h, c) && Shaped(c) && NextStep(SOUND, c, c', step)
    ensures Grows(h, h') && Inv(h', c')
  {
    var i := step.who;
    var o := Act(true, c, i, step.act);
    if step.act.Crash? {
      h' := h;
      GrowsSelf(h, c);
      var r := Restart(o.next, |c.servers|, step.kept, step.applied);
      assert Revived(c.servers[i], r, |c.servers|);
      RestartStep(h, c, i, r);
      assert c' == Put(c, i, r, {});
    } else {
      h' := ActStep(h, c, i, step.act);
      if o.Panic? {
        var r := Restart(o.next, |c.servers|, step.kept, step.applied);
        PutTwice(c, i, o.next, r, {});
        assert o.next.(term := o.next.term, votedFor := o.next.votedFor) == o.next;
        assert Revived(o.next, r, |c.servers|);
        RestartStep(h', Put(c, i, o.next, {}), i, r);
        assert c' == Put(c, i, r, {});
      } else {
        assert c' == Put(c, i, o.next, o.out);
      }
    }
  }

  function NoHistory(n: nat): History
  {
    History(map[], seq(n, _ => map[]), seq(n, _ => map[]))
  }

  lemma InitInv(c: Cluster)
    requires Init(c)
    ensures Inv(NoHistory(|c.servers|), c)
  {
    var h := NoHistory(|c.servers|);
    forall i: nat | i < |c.servers| ensures ServerOk(h, c, i) {
      assert c.servers[i] == InitServer(|c.servers|, c.servers[i].syncWrites);
    }
  }

  lemma NextHistory(run: seq<Cluster>, k: nat, h: History) returns (h': History)
    requires Run(SOUND, run) && k + 1 < |run| && Inv(h, run[k])
    ensures Grows(h, h') && Inv(h', run[k + 1])
  {
    hide Inv, Grows, Init;
    assert Next(SOUND, run[k], run[k + 1]);
    var step :| NextStep(SOUND, run[k], run[k + 1], step);
    h' := NextKeepsInv(h, run[k], run[k + 1], step);
  }

  lemma {:induction false} HistoryAt(run: seq<Cluster>, k: nat) returns (h: History)
    requires Run(SOUND, run) && k < |run|
    ensures Inv(h, run[k])
  {
    hide Inv, Grows, Next, Shaped;
    if k == 0 {
      InitInv(run[0]);
      h := NoHistory(|run[0].servers|);
    } else {
      var h1 := HistoryAt(run, k - 1);
      h := NextHistory(run, k - 1, h1);
    }
  }

  /** Every state of a run has a history, and the histories grow along the run. */
  lemma {:induction false} RunHistories(run: seq<Cluster>, k: nat, l: nat) returns (hk: History, hl: History)
    requires Run(SOUND, run) && k <= l < |run|
    ensures Inv(hk, run[k]) && Inv(hl, run[l]) && Grows(hk, hl)
    decreases l
  {
    hide Inv, Grows, Next, Init, Shaped;
    if k == l {
      hk := HistoryAt(run, k);
      hl := hk;
      GrowsSelf(hk, run[k]);
    } else {
      var hp;
      hk, hp := RunHistories(run, k, l - 1);
      hl := NextHistory(run, l - 1, hp);
      GrowsTransitive(hk, hp, hl);
    }
  }

  // ----- leader completeness -----

  /** The voters of a later leader include a server that acknowledged the chosen prefix. */
  lemma VoterHadIt(h: History, c: Cluster, T: nat, a: nat, U: nat) returns (B: seq<Entry>)
    requires Inv(h, c) && Chosen(h, T, a) && U in h.reigns && T < U
    ensures Kept(h, B, T, a, U) && UpToDate(InitLog(h, U), B) && Rooted(h, B)
  {
    assert ReignOk(h, c, U);
    var v := MajoritiesIntersect(Ackers(h, T, a), h.reigns[U].voters, |c.servers|);
    assert ServerOk(h, c, v);
    B := h.ballots[v][U].log;
  }

  lemma ReachesTerm(h: History, c: Cluster, T: nat, a: nat, B: seq<Entry>)
    requires Inv(h, c) && Chosen(h, T, a) && Rooted(h, B) && Prefix(Take(LogOf(h, T), a), B)
    ensures T <= LastTerm(B) && a <= |B|
  {
    assert ReignOk(h, c, T);
    assert B[a - 1] == LogOf(h, T)[..a][a - 1];
    TermsAscend(h, c, B, a - 1, |B| - 1);
  }

  /** What was chosen in term T is in the starting log of every later leader. */
  lemma {:induction false} ChosenSurvives(h: History, c: Cluster, T: nat, a: nat, U: nat)
    requires Inv(h, c) && Chosen(h, T, a) && U in h.reigns && T < U
    ensures Prefix(LogOf(h, T)[..a], InitLog(h, U))
    decreases U
  {
    var B := VoterHadIt(h, c, T, a, U);
    if !Prefix(Take(LogOf(h, T), a), B) {
      var W :| W in h.reigns && T < W < U && Lacks(h, W, T, a);
      ChosenSurvives(h, c, T, a, W);
      assert false;
    }
    ReachesTerm(h, c, T, a, B);
    LaterLogHasIt(h, c, T, a, U);
  }

  /** The step of the induction: the winner's last entry leads back to T or to a leader in between. */
  lemma LaterLogHasIt(h: History, c: Cluster, T: nat, a: nat, U: nat)
    requires Inv(h, c) && Chosen(h, T, a) && U in h.reigns && T < U
    requires a <= |InitLog(h, U)| && T <= LastTerm(InitLog(h, U))
    ensures Prefix(LogOf(h, T)[..a], InitLog(h, U))
    decreases U, 0
  {
    hide BallotsOk, ServerOk, MsgOk;
    assert ReignOk(h, c, U);
    var I := InitLog(h, U);
    RootedPrefix(h, I, LogOf(h, U));
    var W := LastTerm(I);
    assert OriginAt(h, I, |I| - 1);
    assert I[..|I|] == I;
    if T < W {
      ChosenSurvives(h, c, T, a, W);
      var x := LogOf(h, T)[..a];
      assert x == InitLog(h, W)[..a] == LogOf(h, W)[..|I|][..a] == I[..a];
    } else {
      assert LogOf(h, T)[..a] == LogOf(h, T)[..|I|][..a];
    }
  }

  lemma PrefixOfPrefix(x: seq<Entry>, y: seq<Entry>, n: nat, m: nat)
    requires m <= n <= |x| && n <= |y| && x[..n] == y[..n]
    ensures x[..m] == y[..m]
  {
    assert x[..m] == x[..n][..m] && y[..m] == y[..n][..m];
  }

  /** Two chosen prefixes never disagree. */
  lemma ChosenAgree(h: History, c: Cluster, T: nat, a: nat, U: nat, b: nat, x: nat)
    requires Inv(h, c) && Chosen(h, T, a) && Chosen(h, U, b) && x < a && x < b
    ensures LogOf(h, T)[..x + 1] == LogOf(h, U)[..x + 1]
  {
    if T < U {
      ChosenSurvives(h, c, T, a, U);
      PrefixOfPrefix(LogOf(h, T), LogOf(h, U), a, x + 1);
    } else if U < T {
      ChosenSurvives(h, c, U, b, T);
      PrefixOfPrefix(LogOf(h, U), LogOf(h, T), b, x + 1);
    }
  }

  lemma CommitOkWitness(h: History, log: seq<Entry>, term: nat, commit: int) returns (T: nat, a: nat)
    requires 0 <= commit && CommitOk(h, log, term, commit)
    ensures Chosen(h, T, a) && T <= term && commit < a && log[..commit + 1] == LogOf(h, T)[..commit + 1]
  {
    T, a :| Chosen(h, T, a) && T <= term && commit < a && log[..commit + 1] == LogOf(h, T)[..commit + 1];
  }

  lemma CommittedOk(h: History, c: Cluster, i: nat)
    requires Inv(h, c) && i < |c.servers|
    ensures var s := c.servers[i]; Settled(s) < |s.log| && CommitOk(h, s.log, s.term, Settled(s))
  {
    assert ServerOk(h, c, i);
  }

  /** Where a server's committed prefix was chosen, seen from a later history. */
  lemma CommitWitness(h: History, h': History, s: Server) returns (T: nat, a: nat)
    requires Grows(h, h') && 0 <= Settled(s) < |s.log| && CommitOk(h, s.log, s.term, Settled(s))
    ensures Chosen(h', T, a) && T <= s.term && Settled(s) < a
    ensures s.log[..Settled(s) + 1] == LogOf(h', T)[..Settled(s) + 1]
  {
    CommitOkStable(h, h', s.log, s.log, s.term, s.term, Settled(s));
    T, a := CommitOkWitness(h', s.log, s.term, Settled(s));
  }

  lemma LeaderHasChosen(h: History, c: Cluster, i: nat, T: nat, a: nat)
    requires Inv(h, c) && i < |c.servers| && c.servers[i].role.Leader? && Chosen(h, T, a) && T <= c.servers[i].term
    ensures Prefix(LogOf(h, T)[..a], c.servers[i].log)
  {
    hide CommitOk, MsgOk, InReach;
    hide Rooted, BallotsOk, PeerOk;
    var L := c.servers[i];
    assert ServerOk(h, c, i);
    if T < L.term {
      ChosenSurvives(h, c, T, a, L.term);
      assert LogOf(h, T)[..a] == InitLog(h, L.term)[..a] == L.log[..a];
    }
  }

  /** A leader's log holds every entry that any server, then or earlier, committed or applied in a term
      no later than the leader's. */
  lemma LeaderCompleteness(run: seq<Cluster>, k: nat, l: nat, j: nat, i: nat)
    requires Run(SOUND, run) && k <= l < |run| && j < |run[k].servers| && i < |run[l].servers|
    requires run[l].servers[i].role.Leader? && run[k].servers[j].term <= run[l].servers[i].term
    requires 0 <= Settled(run[k].servers[j])
    ensures var s, L := run[k].servers[j], run[l].servers[i];
            Settled(s) < |s.log| && Prefix(s.log[..Settled(s) + 1], L.log)
  {
    hide Inv, Grows, Run, Chosen, CommitOk;
    var s, L := run[k].servers[j], run[l].servers[i];
    var hk, hl := RunHistories(run, k, l);
    CommittedOk(hk, run[k], j);
    var T, a := CommitWitness(hk, hl, s);
    LeaderHasChosen(hl, run[l], i, T, a);
    PrefixOfPrefix(LogOf(hl, T), L.log, a, Settled(s) + 1);
  }

  // ----- state machine safety -----

  lemma CommittedCut(h: History, h': History, s: Server, x: nat) returns (T: nat, a: nat)
    requires Grows(h, h') && x <= Settled(s) < |s.log| && CommitOk(h, s.log, s.term, Settled(s))
    ensures Chosen(h', T, a) && x < a && s.log[..x + 1] == LogOf(h', T)[..x + 1]
  {
    T, a := CommitWitness(h, h', s);
    PrefixOfPrefix(s.log, LogOf(h', T), Settled(s) + 1, x + 1);
  }

  /** No two servers, at any two times of a run, commit or apply different entries at one index. */
  lemma StateMachineSafety(run: seq<Cluster>, k: nat, l: nat, i: nat, j: nat, x: nat)
    requires Run(SOUND, run) && k <= l < |run| && i < |run[k].servers| && j < |run[l].servers|
    requires x <= Settled(run[k].servers[i]) && x <= Settled(run[l].servers[j])
    ensures x < |run[k].servers[i].log| && x < |run[l].servers[j].log|
    ensures run[k].servers[i].log[..x + 1] == run[l].servers[j].log[..x + 1]
  {
    hide Inv, Grows, Run, Chosen, CommitOk;
    var hk, hl := RunHistories(run, k, l);
    CommittedOk(hk, run[k], i);
    CommittedOk(hl, run[l], j);
    GrowsSelf(hl, run[l]);
    var T, a := CommittedCut(hk, hl, run[k].servers[i], x);
    var U, b := CommittedCut(hl, hl, run[l].servers[j], x);
    ChosenAgree(hl, run[l], T, a, U, b, x);
  }

  // ----- counted means durable -----

  lemma CountedIsDurable(h: History, c: Cluster, i: nat, j: nat)
    requires Leading.Leads(h, c, i) && j < |c.servers| && j < |c.servers[i].peers|
    requires 0 <= Counted(c.servers[i].peers[j])
    ensures var L, s := c.servers[i], c.servers[j];
            var v := Counted(L.peers[j]);
            && v < |L.log| && L.term <= s.term
            && (s.term == L.term ==> Prefix(L.log[..v + 1], Durable(s)))
  {
    var L, s := c.servers[i], c.servers[j];
    Leading.LeaderFacts(h, c, i);
    Leading.CountedIsAcked(h, c, i, j);
    assert ServerOk(h, c, j);
    assert KeptDurably(h, s, L.term, Counted(L.peers[j]) + 1);
  }

  /** What a leader counts for a peer, the peer holds on durable storage for as long as it has not
      moved past the leader's term; and it cannot be behind that term. */
  lemma CountedMeansDurable(run: seq<Cluster>, k: nat, i: nat, j: nat)
    requires Run(SOUND, run) && k < |run| && i < |run[k].servers| && j < |run[k].servers|
    requires run[k].servers[i].role.Leader? && j < |run[k].servers[i].peers|
    requires 0 <= Counted(run[k].servers[i].peers[j])
    ensures var L, s := run[k].servers[i], run[k].servers[j];
            var v := Counted(L.peers[j]);
            && v < |L.log| && L.term <= s.term
            && (s.term == L.term ==> Prefix(L.log[..v + 1], Durable(s)))
  {
    var h := HistoryAt(run, k);
    CountedIsDurable(h, run[k], i, j);
  }
}
