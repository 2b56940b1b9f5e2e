// The worker pool hands out each index once, writes each result once, never deadlocks and
// always finishes; its tally accounts for every ID of the batch.
module PoolProgress {
  import opened Seqs
  import opened Mapper
  import opened Pool

  // --- The tally ---------------------------------------------------------------------------

  lemma {:induction false} TallyAddsUp(results: seq<Option<Outcome>>)
    requires forall r :: r in results ==> r.Some?
    ensures var t := TallyOf(results);
            t.replayed + t.publishFailures == |results| && t.ackFailures <= t.publishFailures
  {
    if results != [] {
      TallyAddsUp(results[..|results| - 1]);
      var last := results[|results| - 1];
      assert last in results && last.Some?;
      match last.value
      case Replayed =>
      case PublishFailed =>
      case AckFailed =>
    }
  }

  /** When the feeder tallies, every index has a result and the counts add up. */
  lemma FinishedPoolAccounts(c: Config, s: State)
    requires Inv(c, s) && s.feeder.Tallied?
    ensures |s.results| == |c.ids| && forall i :: 0 <= i < |c.ids| ==> s.results[i].Some?
    ensures var t := s.feeder.tally;
            t.replayed + t.publishFailures == |c.ids| && t.ackFailures <= t.publishFailures
  {
    forall i | 0 <= i < |c.ids| ensures s.results[i].Some? {
      assert !Held(s, i);
    }
    TallyAddsUp(s.results);
  }

  /** How often index `i` was received from the channel during a trace. */
  ghost function Receipts(c: Config, s: State, trace: seq<Action>, i: nat): nat
    requires Run(c, s, trace).Some?
  {
    if trace == [] then 0
    else
      var init, a := trace[..|trace| - 1], trace[|trace| - 1];
      Receipts(c, s, init, i) + (if a.Feed? && Run(c, s, init).value.feeder.next == i then 1 else 0)
  }

  /** How often results[i] was written during a trace. */
  ghost function Writes(c: Config, s: State, trace: seq<Action>, i: nat): nat
    requires Run(c, s, trace).Some?
  {
    if trace == [] then 0
    else
      var init, a := trace[..|trace| - 1], trace[|trace| - 1];
      Writes(c, s, init, i) + (if a.Record? && Run(c, s, init).value.pcs[a.w].i == i then 1 else 0)
  }

  lemma {:induction false} CountsSoFar(c: Config, world: World, trace: seq<Action>, i: nat)
    requires Run(c, Start(c, world), trace).Some? && i < |c.ids|
    ensures var s := Run(c, Start(c, world), trace).value;
            && Inv(c, s)
            && Receipts(c, Start(c, world), trace, i) == (if i < Fed(c, s) then 1 else 0)
            && Writes(c, Start(c, world), trace, i) == (if s.results[i].Some? then 1 else 0)
  {
    StartInv(c, world);
    RunInv(c, Start(c, world), trace);
    if trace != [] {
      var init, a := trace[..|trace| - 1], trace[|trace| - 1];
      CountsSoFar(c, world, init, i);
      var s := Run(c, Start(c, world), init).value;
      if Moves(a) {
        MoveEffect(c, s, a);
      }
    }
  }

  /** In every schedule that reaches the tally, each index is received exactly once and its result
      is written exactly once. */
  lemma EachIndexExactlyOnce(c: Config, world: World, trace: seq<Action>, i: nat)
    requires Run(c, Start(c, world), trace).Some? && i < |c.ids|
    requires Run(c, Start(c, world), trace).value.feeder.Tallied?
    ensures Receipts(c, Start(c, world), trace, i) == 1
    ensures Writes(c, Start(c, world), trace, i) == 1
  {
    CountsSoFar(c, world, trace, i);
    FinishedPoolAccounts(c, Run(c, Start(c, world), trace).value);
  }

  // --- Progress ----------------------------------------------------------------------------

  /** The action a busy worker can always take, whatever the broker does. */
  function OwnAction(s: State, w: nat): Action
    requires w < |s.pcs| && s.pcs[w].Busy()
  {
    match s.pcs[w]
    case Waiting(_) => Wait(w, true)
    case Inspecting(_) => Inspect(w, None)
    case Publishing(_, _, _) => Publish(w, false, false)
    case Acking(_, _) => Ack(w, false, None)
    case Snapshotting(_, _) => Snap(w)
    case Auditing(_, _, _) => Log(w)
    case Recording(_, _) => Record(w)
  }

  lemma BusyWorkerCanStep(c: Config, s: State, w: nat)
    requires Owned(c, s) && w < |s.pcs| && s.pcs[w].Busy()
    ensures Enabled(c, s, OwnAction(s, w))
  {
  }

  /** Until the tally the pool itself can step, without the broker removing anything. */
  lemma SomeStep(c: Config, s: State) returns (a: Action)
    requires Inv(c, s) && !s.feeder.Tallied?
    ensures Enabled(c, s, a) && !a.IsTraffic()
    ensures a.Ack? ==> !a.ok && a.removes.None?
  {
    if w: nat :| w < |s.pcs| && s.pcs[w].Busy() {
      BusyWorkerCanStep(c, s, w);
      a := OwnAction(s, w);
    } else if s.feeder.Closed? {
      if w: nat :| w < |s.pcs| && s.pcs[w].Idle? {
        a := Exit(w);
      } else {
        a := Finish;
      }
    } else if s.feeder.next == |c.ids| {
      a := Close;
    } else {
      assert s.pcs[0].Idle?;
      a := Feed(0);
    }
  }

  lemma NoDeadlock(c: Config, s: State)
    requires Inv(c, s) && !s.feeder.Tallied?
    ensures exists a: Action :: !a.IsTraffic() && Enabled(c, s, a)
  {
    var a := SomeStep(c, s);
  }

  /** How many steps a worker may still take before it is idle and has exited. */
  function Weight(c: Config, pc: Pc): nat {
    var tries := if c.retries < 0 then 0 else c.retries + 1;
    match pc
    case Exited => 0
    case Idle => 1
    case Recording(_, _) => 2
    case Auditing(_, _, _) => 3
    case Snapshotting(_, _) => 4
    case Acking(_, _) => 5
    case Publishing(_, _, attempt) => 6 + (if attempt < tries then tries - attempt else 0)
    case Inspecting(_) => 7 + tries
    case Waiting(_) => 8 + tries
  }

  function TotalWeight(c: Config, pcs: seq<Pc>): nat {
    if pcs == [] then 0 else TotalWeight(c, pcs[..|pcs| - 1]) + Weight(c, pcs[|pcs| - 1])
  }

  /** The weight of the indices that have not been handed out yet. */
  function Unfed(c: Config, left: nat): nat {
    if left == 0 then 0 else Weight(c, Waiting(0)) + 1 + Unfed(c, left - 1)
  }

  /** An upper bound on the number of pool steps left in any schedule. */
  function Measure(c: Config, s: State): nat {
    TotalWeight(c, s.pcs) +
    match s.feeder
    case Feeding(next) => 2 + (if next < |c.ids| then Unfed(c, |c.ids| - next) else 0)
    case Closed => 1
    case Tallied(_) => 0
  }

  lemma {:induction false} TotalWeightUpdate(c: Config, pcs: seq<Pc>, w: nat, pc: Pc)
    requires w < |pcs|
    ensures TotalWeight(c, pcs[w := pc]) == TotalWeight(c, pcs) - Weight(c, pcs[w]) + Weight(c, pc)
  {
    var last := |pcs| - 1;
    if w == last {
      assert pcs[w := pc][..last] == pcs[..last];
    } else {
      TotalWeightUpdate(c, pcs[..last], w, pc);
      assert pcs[w := pc][..last] == pcs[..last][w := pc];
    }
  }

  lemma MoveLosesWeight(c: Config, s: State, a: Action)
    requires Phased(c, s) && Moves(a) && Enabled(c, s, a)
    ensures Weight(c, Moved(c, s, a)) < Weight(c, s.pcs[a.w])
  {
    if a.Inspect? && a.found.Some? {
      InspectLosesWeight(c, s.pcs[a.w].i, ToMessage(c.hash, s.world.queues[c.dlq][a.found.value], c.dlq));
    } else if a.Publish? {
      assert s.pcs[a.w].attempt <= c.retries;
    }
  }

  lemma InspectLosesWeight(c: Config, i: nat, m: Message)
    ensures Weight(c, AfterInspect(c, i, m)) < Weight(c, Inspecting(i))
  {
  }

  lemma FeedDecreases(c: Config, s: State, w: nat)
    requires Enabled(c, s, Feed(w))
    ensures Measure(c, Next(c, s, Feed(w))) < Measure(c, s)
  {
    TotalWeightUpdate(c, s.pcs, w, Waiting(s.feeder.next));
    assert Weight(c, Waiting(s.feeder.next)) == Weight(c, Waiting(0));
  }

  lemma MoveDecreases(c: Config, s: State, a: Action)
    requires Phased(c, s) && Moves(a) && Enabled(c, s, a)
    ensures Measure(c, Next(c, s, a)) < Measure(c, s)
  {
    MoveEffect(c, s, a);
    MoveLosesWeight(c, s, a);
    TotalWeightUpdate(c, s.pcs, a.w, Moved(c, s, a));
  }

  lemma RetireDecreases(c: Config, s: State, a: Action)
    requires (a.Record? || a.Exit?) && Enabled(c, s, a)
    ensures Measure(c, Next(c, s, a)) < Measure(c, s)
  {
    TotalWeightUpdate(c, s.pcs, a.w, if a.Record? then Idle else Exited);
  }

  lemma StepDecreases(c: Config, s: State, a: Action)
    requires Phased(c, s) && Enabled(c, s, a)
    ensures a.IsTraffic() ==> Measure(c, Next(c, s, a)) == Measure(c, s)
    ensures !a.IsTraffic() ==> Measure(c, Next(c, s, a)) < Measure(c, s)
  {
    if Moves(a) {
      MoveDecreases(c, s, a);
    } else if a.Feed? {
      FeedDecreases(c, s, a.w);
    } else if a.Record? || a.Exit? {
      RetireDecreases(c, s, a);
    }
  }

  function PoolSteps(trace: seq<Action>): nat {
    Count(trace, (a: Action) => !a.IsTraffic())
  }

  /** No schedule runs forever: the pool takes at most `Measure` steps, whatever else happens. */
  lemma {:induction false} EveryScheduleIsBounded(c: Config, s: State, trace: seq<Action>)
    requires Inv(c, s) && Run(c, s, trace).Some?
    ensures PoolSteps(trace) + Measure(c, Run(c, s, trace).value) <= Measure(c, s)
  {
    if trace != [] {
      var init := trace[..|trace| - 1];
      EveryScheduleIsBounded(c, s, init);
      RunInv(c, s, init);
      StepDecreases(c, Run(c, s, init).value, trace[|trace| - 1]);
    }
  }
}
