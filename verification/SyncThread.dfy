/** The backend sync as a protocol between two threads: it captures the newest header, flushes the device,
    and publishes the captured header as synced, while the main thread appends and applies. */
module SyncThread {
  import opened Protocol

  /** flushed is how much of the log is known to be on the device; capture holds the entry count and
      last-applied index captured by a sync under way, how much of the log there was when the device flush
      began, if it has, and whether it has returned. */
  datatype Pipe = Pipe(log: seq<Entry>, synced: nat, flushed: nat, applied: int, appliedSynced: int,
                       capture: Option<Capture>)

  datatype Capture = Capture(count: nat, applied: int, upTo: Option<nat>, done: bool)

  datatype Event =
    | Append(e: Entry)
    | ApplyOne
    | Begin              // capture the newest unsynced header and the last-applied index
    | FlushBegins        // the device is asked to write what has been appended so far
    | FlushReturns       // it has written that; what was appended since may or may not be there
    | Publish            // the captured header becomes the synced one
    | Cut(n: nat)        // the main thread prunes to n entries, after a sync of its own

  const EMPTY := Pipe([], 0, 0, -1, -1, None)

  function On(p: Pipe, ev: Event): Pipe
  {
    match ev
    case Append(e) => p.(log := p.log + [e])
    case ApplyOne => if p.applied + 1 < p.synced then p.(applied := p.applied + 1) else p
    case Begin => if p.capture.None? then p.(capture := Some(Capture(|p.log|, p.applied, None, false))) else p
    case FlushBegins =>
      if p.capture.Some? then p.(capture := Some(p.capture.value.(upTo := Some(|p.log|)))) else p
    case FlushReturns =>
      if p.capture.Some? && p.capture.value.upTo.Some? then
        p.(flushed := if p.flushed < p.capture.value.upTo.value then p.capture.value.upTo.value else p.flushed,
           capture := Some(p.capture.value.(done := true)))
      else p
    case Publish =>
      if p.capture.Some? && p.capture.value.done then
        p.(synced := if p.synced < p.capture.value.count then p.capture.value.count else p.synced,
           appliedSynced := Max(p.appliedSynced, p.capture.value.applied),
           capture := None)
      else p
    case Cut(n) =>
      if n < |p.log| && p.applied < n then p.(log := p.log[..n], synced := n, flushed := n) else p
  }

  function After(p: Pipe, events: seq<Event>): Pipe
  {
    if events == [] then p else On(After(p, events[..|events| - 1]), events[|events| - 1])
  }

  /** The synced header names only entries that are on the device; the synced last-applied index does not
      run ahead of the applied one. */
  predicate Safe(p: Pipe)
  {
    && p.synced <= p.flushed <= |p.log|
    && p.appliedSynced <= p.applied < p.synced
  }

  predicate CaptureOk(p: Pipe)
  {
    p.capture.Some? ==>
      && p.synced <= p.capture.value.count <= |p.log|
      && (p.capture.value.upTo.Some? ==> p.capture.value.count <= p.capture.value.upTo.value <= |p.log|)
      && (p.capture.value.done ==> p.capture.value.count <= p.flushed)
      && p.appliedSynced <= p.capture.value.applied <= p.applied
  }

  /** No prune falls between a capture and its publication. */
  predicate Disciplined(events: seq<Event>)
  {
    forall k :: 0 <= k < |events| && events[k].Cut? ==> After(EMPTY, events[..k]).capture.None?
  }

  lemma StepIsSafe(p: Pipe, ev: Event)
    requires Safe(p) && CaptureOk(p) && (ev.Cut? ==> p.capture.None?)
    ensures Safe(On(p, ev)) && CaptureOk(On(p, ev))
  {
  }

  lemma DisciplinedFront(events: seq<Event>)
    requires Disciplined(events) && events != []
    ensures Disciplined(events[..|events| - 1])
    ensures events[|events| - 1].Cut? ==> After(EMPTY, events[..|events| - 1]).capture.None?
  {
    hide After;
    var front := events[..|events| - 1];
    forall k | 0 <= k < |front| && front[k].Cut? ensures After(EMPTY, front[..k]).capture.None? {
      assert front[..k] == events[..k];
    }
  }

  /** Appends and applies may fall anywhere in a sync, its flush included. */
  lemma {:induction false} SyncIsSafe(events: seq<Event>)
    requires Disciplined(events)
    ensures Safe(After(EMPTY, events)) && CaptureOk(After(EMPTY, events))
  {
    if events != [] {
      hide On, Safe, CaptureOk, Disciplined;
      var front := events[..|events| - 1];
      DisciplinedFront(events);
      SyncIsSafe(front);
      StepIsSafe(After(EMPTY, front), events[|events| - 1]);
    }
  }

  /** A publication is the protocol's own sync step, to an index within the log and not below the old one. */
  lemma PublishIsProtocolStep(events: seq<Event>, s: Server)
    requires Disciplined(events)
    requires var p := After(EMPTY, events);
             p.capture.Some? && p.capture.value.done && s.log == p.log && s.synced == p.synced
    ensures var p := After(EMPTY, events);
            var k := p.capture.value.count;
            s.synced <= k <= |s.log| && On(p, Publish).synced == PublishSync(s, k).synced
  {
    SyncIsSafe(events);
  }

  lemma {:induction false} AfterBoth(p: Pipe, x: seq<Event>, y: seq<Event>)
    ensures After(p, x + y) == After(After(p, x), y)
  {
    if y == [] {
      assert x + y == x;
    } else {
      var n := |y| - 1;
      assert (x + y)[..|x + y| - 1] == x + y[..n];
      AfterBoth(p, x, y[..n]);
    }
  }

  /** Only appends and applies. */
  predicate Quiet(events: seq<Event>)
  {
    forall k :: 0 <= k < |events| ==> events[k].Append? || events[k].ApplyOne?
  }

  /** They add to the log and apply, and leave the sync alone. */
  lemma {:induction false} QuietKeeps(p: Pipe, events: seq<Event>)
    requires Quiet(events)
    ensures var q := After(p, events);
            && q == p.(log := q.log, applied := q.applied) && |p.log| <= |q.log| && q.log[..|p.log|] == p.log
            && p.applied <= q.applied
  {
    if events != [] {
      var n := |events| - 1;
      QuietKeeps(p, events[..n]);
    }
  }

  /** A sync that runs to its end publishes all that was in the log, and applied, when it began, whatever was
      appended and applied meanwhile. */
  lemma SyncCompletes(p: Pipe, a: seq<Event>, b: seq<Event>, c: seq<Event>)
    requires Safe(p) && p.capture.None? && Quiet(a) && Quiet(b) && Quiet(c)
    ensures var q := After(p, [Begin] + a + [FlushBegins] + b + [FlushReturns] + c + [Publish]);
            && q.synced == |p.log| <= q.flushed && q.appliedSynced == p.applied && q.capture.None?
            && |p.log| <= |q.log| && q.log[..|p.log|] == p.log
  {
    hide After;
    var p1 := Single(p, Begin);
    var p2 := After(p1, a);
    QuietKeeps(p1, a);
    var p3 := Single(p2, FlushBegins);
    var p4 := After(p3, b);
    QuietKeeps(p3, b);
    var p5 := Single(p4, FlushReturns);
    var p6 := After(p5, c);
    QuietKeeps(p5, c);
    var p7 := Single(p6, Publish);
    AfterBoth(p, [Begin], a);
    AfterBoth(p, [Begin] + a, [FlushBegins]);
    AfterBoth(p, [Begin] + a + [FlushBegins], b);
    AfterBoth(p, [Begin] + a + [FlushBegins] + b, [FlushReturns]);
    AfterBoth(p, [Begin] + a + [FlushBegins] + b + [FlushReturns], c);
    AfterBoth(p, [Begin] + a + [FlushBegins] + b + [FlushReturns] + c, [Publish]);
  }

  lemma Single(p: Pipe, ev: Event) returns (q: Pipe)
    ensures q == After(p, [ev]) == On(p, ev)
  {
    assert [ev][..0] == [];
    assert After(p, []) == p;
    q := On(p, ev);
  }

  /** Cutting the log after a capture and before the flush: what is then published is within the log exactly when the
      cut kept everything that had been captured. */
  lemma CutDuringSync(p: Pipe, n: nat)
    requires Safe(p) && CaptureOk(p) && p.capture.Some? && p.applied < n < |p.log|
    ensures Safe(On(On(On(On(p, Cut(n)), FlushBegins), FlushReturns), Publish)) <==> p.capture.value.count <= n
  {
  }
}
