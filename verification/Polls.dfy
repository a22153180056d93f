/** An election can always be held: whatever roles and leaders a majority has, a member whose log is not behind
    theirs, and whose term is not, can win the next term with their votes. */
module Polls {
  import opened Majority
  import opened Protocol
  import opened Cluster
  import opened Runs
  import opened Effects

  /** A voter that a candidate with this term and log can persuade. */
  predicate Persuadable(d: Server, t: nat, log: seq<Entry>)
  {
    d.term <= t && LastTerm(d.log) <= LastTerm(log) && |d.log| <= |log|
  }

  /** What an election leaves alone at a voter. */
  predicate Untouched(d: Server, d': Server)
  {
    && d'.log == d.log && d'.commit == d.commit && d'.applied == d.applied
    && d'.syncWrites == d.syncWrites && d'.peers == d.peers
  }

  ghost predicate Running(rules: Rules, run: seq<Cluster>, n: nat)
  {
    Run(rules, run) && |Last(run).servers| == n && Shaped(Last(run))
  }

  // ----- asking for pre-votes -----

  function PreVoteAsk(i: nat, t: nat, log: seq<Entry>): Msg { PreVoteReq(i, t + 1, LastTerm(log), |log| - 1) }

  /** Voter j doubts its leader, if it has one, and answers the request. */
  lemma Ask(rules: Rules, run: seq<Cluster>, n: nat, i: nat, j: nat, t: nat, log: seq<Entry>)
    returns (later: seq<Cluster>)
    requires Running(rules, run, n) && i < n && j < n && i != j && PreVoteAsk(i, t, log) in Last(run).msgs
    requires Persuadable(Last(run).servers[j], t, log)
    ensures Continues(rules, run, later) && Running(rules, later, n) && PreVoteReply(j, i, true) in Last(later).msgs
    ensures Last(later).servers == Last(run).servers[j := Last(later).servers[j]]
    ensures var d' := Last(later).servers[j]; Untouched(Last(run).servers[j], d') && Persuadable(d', t, log)
  {
    var d, m := Last(run).servers[j], PreVoteAsk(i, t, log);
    var d1 := BecomePreCandidate(d, j, n);
    PreVoteExactly(d1, j, m);
    hide Run, HandlePreVoteReq, LastTerm;
    var run1 := Go(rules, run, j, Timeout);
    LastShaped(rules, run1);
    assert Last(run1).servers[j] == d1;
    later := Go(rules, run1, j, Deliver(m));
    LastShaped(rules, later);
    ContinuesOn(rules, run, run1, later);
  }

  lemma {:induction false} AskAll(rules: Rules, run: seq<Cluster>, n: nat, i: nat, todo: set<nat>, t: nat,
                                  log: seq<Entry>)
    returns (later: seq<Cluster>)
    requires Running(rules, run, n) && i < n && i !in todo && todo <= Peers(n)
    requires PreVoteAsk(i, t, log) in Last(run).msgs
    requires forall j :: j in todo ==> Persuadable(Last(run).servers[j], t, log)
    ensures Continues(rules, run, later) && Running(rules, later, n)
    ensures forall j :: j in todo ==> PreVoteReply(j, i, true) in Last(later).msgs
    ensures forall k: nat :: k < n ==>
              if k in todo then
                Untouched(Last(run).servers[k], Last(later).servers[k]) && Persuadable(Last(later).servers[k], t, log)
              else Last(later).servers[k] == Last(run).servers[k]
    decreases todo
  {
    hide Run, Persuadable;
    if todo == {} {
      later := run;
      assert run == later[..|run|];
    } else {
      var j :| j in todo;
      var run1 := Ask(rules, run, n, i, j, t, log);
      later := AskAll(rules, run1, n, i, todo - {j}, t, log);
      ContinuesOn(rules, run, run1, later);
    }
  }

  // ----- counting pre-votes -----

  /** s with the next term in sight; only the votes counted are open. */
  predicate PreStanding(s: Server, s': Server, n: nat)
  {
    && s' == s.(leader := None, role := PreCandidate, candTerm := s.term + 1, results := s'.results)
    && |s'.results| == n
  }

  /** s in the next term, voting for itself and asking for votes. */
  predicate Standing(s: Server, s': Server, i: nat, n: nat)
  {
    && s' == s.(leader := None, role := Candidate, term := s.term + 1, candTerm := s.term + 1, votedFor := Some(i),
                synced := |s.log|, results := s'.results)
    && |s'.results| == n
  }

  function VoteAsk(i: nat, s: Server): Msg { VoteReq(i, s.term + 1, LastTerm(s.log), |s.log| - 1) }

  lemma CountPreVote(rules: Rules, run: seq<Cluster>, n: nat, i: nat, s: Server, j: nat) returns (later: seq<Cluster>)
    requires Running(rules, run, n) && i < n && j < n && j != i && PreStanding(s, Last(run).servers[i], n)
    requires PreVoteReply(j, i, true) in Last(run).msgs
    ensures Continues(rules, run, later) && Running(rules, later, n)
    ensures Last(later).servers == Last(run).servers[i := Last(later).servers[i]]
    ensures var s1, s2 := Last(run).servers[i], Last(later).servers[i];
            if IsMajority(YesVotes(s1.results) + {j}, n) then
              Standing(s, s2, i, n) && YesVotes(s2.results) == {i} && VoteAsk(i, s) in Last(later).msgs
            else PreStanding(s, s2, n) && YesVotes(s2.results) == YesVotes(s1.results) + {j}
  {
    var s1, m := Last(run).servers[i], PreVoteReply(j, i, true);
    PreVoteCounts(s1, i, n, m);
    assert Supporters(s1, j) == YesVotes(s1.results) + {j};
    SupportersAre(s1, j);
    hide Run, HandlePreVoteReply, LastTerm, YesVotes, IsMajority, Supporters;
    later := Go(rules, run, i, Deliver(m));
    LastShaped(rules, later);
  }

  lemma {:induction false} CountPreVotes(rules: Rules, run: seq<Cluster>, n: nat, i: nat, s: Server, todo: set<nat>)
    returns (later: seq<Cluster>)
    requires Running(rules, run, n) && i < n && i !in todo && todo <= Peers(n) && todo != {}
    requires PreStanding(s, Last(run).servers[i], n) && IsMajority(YesVotes(Last(run).servers[i].results) + todo, n)
    requires forall j :: j in todo ==> PreVoteReply(j, i, true) in Last(run).msgs
    ensures Continues(rules, run, later) && Running(rules, later, n)
    ensures Last(later).servers == Last(run).servers[i := Last(later).servers[i]]
    ensures Standing(s, Last(later).servers[i], i, n) && YesVotes(Last(later).servers[i].results) == {i}
    ensures VoteAsk(i, s) in Last(later).msgs
    decreases todo
  {
    var j :| j in todo;
    var votes := YesVotes(Last(run).servers[i].results);
    hide Run, YesVotes, IsMajority, PreStanding, Standing;
    later := CountPreVote(rules, run, n, i, s, j);
    if !IsMajority(votes + {j}, n) {
      assert votes + todo == votes + {j} + (todo - {j});
      assert todo - {j} == {} ==> votes + todo == votes + {j};
      var run1 := later;
      later := CountPreVotes(rules, run1, n, i, s, todo - {j});
      ContinuesOn(rules, run, run1, later);
    }
  }

  // ----- asking for votes, and counting them -----

  /** j's vote for i in term is on its way. */
  ghost predicate VoteComes(c: Cluster, j: nat, i: nat, term: nat)
  {
    exists u: nat :: VoteReply(j, i, true, u, None, term) in c.msgs
  }

  /** The voter follows i in its term. */
  predicate Converted(d: Server, d': Server, i: nat, term: nat)
  {
    Untouched(d, d') && d'.role.Follower? && d'.leader == Some(i) && d'.term == term && d'.synced == |d'.log|
  }

  lemma Canvass(rules: Rules, run: seq<Cluster>, n: nat, i: nat, j: nat, s: Server) returns (later: seq<Cluster>)
    requires Running(rules, run, n) && i < n && j < n && i != j && VoteAsk(i, s) in Last(run).msgs
    requires Persuadable(Last(run).servers[j], s.term, s.log)
    ensures Continues(rules, run, later) && Running(rules, later, n) && VoteComes(Last(later), j, i, s.term + 1)
    ensures Last(later).servers == Last(run).servers[j := Last(later).servers[j]]
    ensures Converted(Last(run).servers[j], Last(later).servers[j], i, s.term + 1)
  {
    var d, m := Last(run).servers[j], VoteAsk(i, s);
    VoteExactly(d, j, m);
    hide Run, HandleVoteReq, LastTerm;
    later := Go(rules, run, j, Deliver(m));
    LastShaped(rules, later);
    assert VoteReply(j, i, true, d.term, None, s.term + 1) in Last(later).msgs;
  }

  lemma {:induction false} CanvassAll(rules: Rules, run: seq<Cluster>, n: nat, i: nat, todo: set<nat>, s: Server)
    returns (later: seq<Cluster>)
    requires Running(rules, run, n) && i < n && i !in todo && todo <= Peers(n) && VoteAsk(i, s) in Last(run).msgs
    requires forall j :: j in todo ==> Persuadable(Last(run).servers[j], s.term, s.log)
    ensures Continues(rules, run, later) && Running(rules, later, n)
    ensures forall j :: j in todo ==> VoteComes(Last(later), j, i, s.term + 1)
    ensures forall k: nat :: k < n ==>
              if k in todo then Converted(Last(run).servers[k], Last(later).servers[k], i, s.term + 1)
              else Last(later).servers[k] == Last(run).servers[k]
    decreases todo
  {
    assert run != [];
    hide Run, Persuadable, Converted, VoteComes;
    if todo == {} {
      later := run;
      assert run == later[..|run|];
    } else {
      var j :| j in todo;
      var run1 := Canvass(rules, run, n, i, j, s);
      later := CanvassAll(rules, run1, n, i, todo - {j}, s);
      VoteStays(Last(run1), Last(later), j, i, s.term + 1);
      assert forall x :: x in todo ==> x == j || x in todo - {j};
      ContinuesOn(rules, run, run1, later);
    }
  }

  lemma VoteStays(c: Cluster, c': Cluster, j: nat, i: nat, term: nat)
    requires c.msgs <= c'.msgs && VoteComes(c, j, i, term)
    ensures VoteComes(c', j, i, term)
  {
  }

  lemma CountVote(rules: Rules, run: seq<Cluster>, n: nat, i: nat, s: Server, j: nat) returns (later: seq<Cluster>)
    requires Running(rules, run, n) && i < n && j < n && j != i && Standing(s, Last(run).servers[i], i, n)
    requires VoteComes(Last(run), j, i, s.term + 1) && LastTerm(s.log) <= s.term
    ensures Continues(rules, run, later) && Running(rules, later, n)
    ensures Last(later).servers == Last(run).servers[i := Last(later).servers[i]]
    ensures var s1, s2 := Last(run).servers[i], Last(later).servers[i];
            if IsMajority(YesVotes(s1.results) + {j}, n) then Inaugurated(s1, s2, i, n)
            else Standing(s, s2, i, n) && YesVotes(s2.results) == YesVotes(s1.results) + {j}
  {
    var s1 := Last(run).servers[i];
    var u: nat :| VoteReply(j, i, true, u, None, s.term + 1) in Last(run).msgs;
    var m := VoteReply(j, i, true, u, None, s.term + 1);
    VoteCounts(s1, i, n, m);
    assert Supporters(s1, j) == YesVotes(s1.results) + {j};
    SupportersAre(s1, j);
    hide Run, HandleVoteReply, LastTerm, YesVotes, IsMajority, Supporters;
    later := Go(rules, run, i, Deliver(m));
    LastShaped(rules, later);
  }

  /** i leads the term after s's, with s's log and a marker. */
  predicate Elected(s: Server, s': Server, i: nat, n: nat)
  {
    && s'.role.Leader? && s'.leader == Some(i) && s'.term == s.term + 1
    && s'.log == s.log + [Marker(s.term + 1)] && s'.initialIdx == |s.log| - 1
    && s'.commit == s.commit && s'.applied == s.applied && s'.syncWrites == s.syncWrites
    && s'.peers == seq(n, _ => Peer(|s.log|, -1, -1, LastTerm(s.log), -1))
  }

  lemma {:induction false} CountVotes(rules: Rules, run: seq<Cluster>, n: nat, i: nat, s: Server, todo: set<nat>)
    returns (later: seq<Cluster>)
    requires Running(rules, run, n) && i < n && i !in todo && todo <= Peers(n) && todo != {}
    requires Standing(s, Last(run).servers[i], i, n) && IsMajority(YesVotes(Last(run).servers[i].results) + todo, n)
    requires forall j :: j in todo ==> VoteComes(Last(run), j, i, s.term + 1)
    requires LastTerm(s.log) <= s.term
    ensures Continues(rules, run, later) && Running(rules, later, n)
    ensures Last(later).servers == Last(run).servers[i := Last(later).servers[i]]
    ensures Elected(s, Last(later).servers[i], i, n)
    decreases todo
  {
    var j :| j in todo;
    var s1, votes := Last(run).servers[i], YesVotes(Last(run).servers[i].results);
    hide Run, YesVotes, IsMajority, Standing, Inaugurated, Elected, LastTerm;
    later := CountVote(rules, run, n, i, s, j);
    if IsMajority(votes + {j}, n) {
      Takes(s, s1, Last(later).servers[i], i, n);
    } else {
      assert votes + todo == votes + {j} + (todo - {j});
      assert todo - {j} == {} ==> votes + todo == votes + {j};
      var run1 := later;
      later := CountVotes(rules, run1, n, i, s, todo - {j});
      ContinuesOn(rules, run, run1, later);
    }
  }

  lemma Takes(s: Server, s1: Server, s': Server, i: nat, n: nat)
    requires Standing(s, s1, i, n) && Inaugurated(s1, s', i, n)
    ensures Elected(s, s', i, n)
  {
  }

  // ----- the whole election -----

  /** A majority that i can persuade, of whatever roles, following whatever leaders. */
  ghost predicate Electorate(c: Cluster, i: nat, q: set<nat>)
  {
    && i in q && q <= Peers(|c.servers|) && IsMajority(q, |c.servers|) && 2 <= |c.servers|
    && forall j :: j in q ==> j < |c.servers| && Persuadable(c.servers[j], c.servers[i].term, c.servers[i].log)
  }

  /** i asks for pre-votes, gets them, and stands. */
  lemma Stand(rules: Rules, run: seq<Cluster>, n: nat, i: nat, q: set<nat>) returns (later: seq<Cluster>)
    requires Running(rules, run, n) && Electorate(Last(run), i, q)
    requires Last(run).servers[i].synced == |Last(run).servers[i].log|
    ensures Continues(rules, run, later) && Running(rules, later, n)
    ensures var s, s' := Last(run).servers[i], Last(later).servers[i];
            Standing(s, s', i, n) && YesVotes(s'.results) == {i} && VoteAsk(i, s) in Last(later).msgs
    ensures forall k: nat :: k < n && k != i ==>
              var s, d, d' := Last(run).servers[i], Last(run).servers[k], Last(later).servers[k];
              if k in q then Untouched(d, d') && Persuadable(d', s.term, s.log) else d' == d
  {
    var s, todo := Last(run).servers[i], q - {i};
    hide Run, Persuadable, Untouched, LastTerm, YesVotes, IsMajority, Standing, PreStanding;
    Quorate(q, i, n);
    var run1 := Starts(rules, run, n, i);
    var run2 := AskAll(rules, run1, n, i, todo, s.term, s.log);
    later := CountPreVotes(rules, run2, n, i, s, todo);
    ContinuesOn(rules, run, run1, run2);
    ContinuesOn(rules, run, run2, later);
  }

  /** In every run, under any rules: i wins the next term with the votes of the majority q, and what logs hold,
      and what is committed and applied, stays. */
  lemma Elect(rules: Rules, run: seq<Cluster>, i: nat, q: set<nat>) returns (later: seq<Cluster>)
    requires Run(rules, run) && Electorate(Last(run), i, q)
    requires var s := Last(run).servers[i]; s.synced <= |s.log| && LastTerm(s.log) <= s.term
    ensures Continues(rules, run, later) && Shaped(Last(later))
    ensures Elected(Last(run).servers[i], Last(later).servers[i], i, |Last(run).servers|)
    ensures forall k: nat :: k < |Last(run).servers| && k != i ==>
              var d, d' := Last(run).servers[k], Last(later).servers[k];
              if k in q then Converted(d, d', i, Last(run).servers[i].term + 1) else d' == d
  {
    hide Run, Running, Persuadable, Untouched, Converted, LastTerm, YesVotes, IsMajority, Standing, Elected, Electorate;
    var run1, n := SyncFirst(rules, run, i, q);
    var s, s1, todo := Last(run).servers[i], Last(run1).servers[i], q - {i};
    var run2 := Stand(rules, run1, n, i, q);
    Quorate(q, i, n);
    var run3 := CanvassAll(rules, run2, n, i, todo, s1);
    later := CountVotes(rules, run3, n, i, s1, todo);
    SameElected(s, s1, Last(later).servers[i], i, n);
    forall k: nat | k < n && k in todo ensures Converted(Last(run).servers[k], Last(later).servers[k], i, s.term + 1) {
      ConvertedSince(Last(run).servers[k], Last(run2).servers[k], Last(later).servers[k], i, s.term + 1);
    }
    ContinuesOn(rules, run, run1, run2);
    ContinuesOn(rules, run, run2, run3);
    ContinuesOn(rules, run, run3, later);
    LastShaped(rules, later);
  }

  lemma SyncFirst(rules: Rules, run: seq<Cluster>, i: nat, q: set<nat>) returns (later: seq<Cluster>, n: nat)
    requires Run(rules, run) && Electorate(Last(run), i, q)
    requires Last(run).servers[i].synced <= |Last(run).servers[i].log|
    ensures run != [] && n == |Last(run).servers| && later != [] && n == |Last(later).servers|
    ensures Continues(rules, run, later) && Running(rules, later, n) && Electorate(Last(later), i, q) && 2 <= n
    ensures IsMajority(q, n) && i in q && i < n && q <= Peers(n)
    ensures Last(later).servers ==
            Last(run).servers[i := Last(run).servers[i].(synced := |Last(run).servers[i].log|)]
  {
    LastShaped(rules, run);
    n := |Last(run).servers|;
    hide Run, LastTerm, IsMajority;
    later := Go(rules, run, i, Publish(|Last(run).servers[i].log|));
    LastShaped(rules, later);
  }

  lemma ConvertedSince(d: Server, d1: Server, d2: Server, i: nat, term: nat)
    requires Untouched(d, d1) && Converted(d1, d2, i, term)
    ensures Converted(d, d2, i, term)
  {
  }

  lemma SameElected(s: Server, s1: Server, s': Server, i: nat, n: nat)
    requires s1 == s.(synced := |s.log|) && Elected(s1, s', i, n)
    ensures Elected(s, s', i, n)
  {
  }

  lemma Starts(rules: Rules, run: seq<Cluster>, n: nat, i: nat) returns (later: seq<Cluster>)
    requires Running(rules, run, n) && i < n && Last(run).servers[i].synced == |Last(run).servers[i].log|
    ensures Continues(rules, run, later) && Running(rules, later, n)
    ensures var s := Last(run).servers[i];
            && Last(later).servers == Last(run).servers[i := Last(later).servers[i]]
            && PreStanding(s, Last(later).servers[i], n) && YesVotes(Last(later).servers[i].results) == {i}
            && PreVoteAsk(i, s.term, s.log) in Last(later).msgs
  {
    var s := Last(run).servers[i];
    var s1 := BecomePreCandidate(s, i, n);
    assert Durable(s1) == s.log;
    OwnVote(i, n);
    hide Run, LastTerm, YesVotes;
    later := Go(rules, run, i, Timeout);
    LastShaped(rules, later);
  }

  lemma Quorate(q: set<nat>, i: nat, n: nat)
    requires i in q && IsMajority(q, n) && 2 <= n
    ensures q - {i} != {} && {i} + (q - {i}) == q
  {
    if q - {i} == {} {
      SubsetSize(q, {i});
      assert false;
    }
  }
}
