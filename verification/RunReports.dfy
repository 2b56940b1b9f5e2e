// What a run reports and leaves behind, against what it did: its counters, its circuit breaker, its
// audit entries, and the queues it touches.
module RunReports {
  import opened Seqs
  import opened Mapper
  import opened Audit
  import opened Pool
  import opened PoolProgress
  import opened PoolSafety
  import opened PoolLedger
  import opened PoolReports
  import opened Validator
  import opened Runs
  import opened RunLaws

  // --- The counters --------------------------------------------------------------------------------

  function Outcomes(processed: seq<Processed>): (os: seq<Option<Outcome>>)
    ensures |os| == |processed| && forall i :: 0 <= i < |os| ==> os[i] == processed[i].outcome
  {
    seq(|processed|, i requires 0 <= i < |processed| => processed[i].outcome)
  }

  /** Positions that did not end as replayed. */
  function Failures(processed: seq<Processed>): int {
    |processed| - multiset(Outcomes(processed))[Some(Replayed)]
  }

  lemma OutcomesConcat(p: seq<Processed>, q: seq<Processed>)
    ensures Outcomes(p + q) == Outcomes(p) + Outcomes(q)
    ensures forall x :: multiset(Outcomes(p + q))[x] == multiset(Outcomes(p))[x] + multiset(Outcomes(q))[x]
    ensures Failures(p + q) == Failures(p) + Failures(q)
  {
    assert Outcomes(p + q) == Outcomes(p) + Outcomes(q);
  }

  /** The counters against the processed positions, the DLQ and the trail at the start. */
  ghost predicate CountersHold(env: Env, start: Tables, p: Progress, truthful: bool) {
    && NumbersHold(p) && p.replayed <= |p.removed| && (truthful ==> p.replayed == |p.removed|)
    && GainsIn(start, p.world.tables, Success, p.replayed, forall n :: env.writable(n))
    && GainsIn(start, p.world.tables, FailedAck, p.ackFailed, forall n :: env.writable(n))
  }

  predicate NumbersHold(p: Progress) {
    && p.replayed == multiset(Outcomes(p.processed))[Some(Replayed)]
    && p.failed == Failures(p.processed)
    && p.ackFailed == multiset(Outcomes(p.processed))[Some(AckFailed)]
  }

  ghost predicate GainsIn(before: Tables, after: Tables, r: Result, n: int, exactly: bool) {
    var gained := Count(after.entries, IsRecovery(r)) - Count(before.entries, IsRecovery(r));
    gained <= n && (exactly ==> gained == n)
  }

  predicate TruthfulRun(sched: seq<seq<Action>>) {
    forall trace, a :: trace in sched && a in trace ==> Truthful(a)
  }

  /** What a batch adds to the numbers. */
  lemma BatchNumbers(env: Env, plan: Plan, opts: Options, p: Progress, trace: seq<Action>)
    requires BatchSize(plan, opts) >= 1 && BatchRuns(env, plan, opts, p, trace)
    ensures var c, q := NextConfig(env, plan, opts, p), AfterBatch(env, plan, opts, p, trace);
            var s := Run(c, Start(c, p.world), trace).value;
            var batch := Zip(c.ids, s.results);
            && q.processed == p.processed + batch && Outcomes(batch) == s.results
            && q.replayed == p.replayed + multiset(s.results)[Some(Replayed)]
            && q.failed == p.failed + Failures(batch)
            && q.ackFailed == p.ackFailed + multiset(s.results)[Some(AckFailed)]
            && s.feeder.tally.publishFailures == Failures(batch)
  {
    var c := NextConfig(env, plan, opts, p);
    var s := Run(c, Start(c, p.world), trace).value;
    BatchReports(c, p.world, trace);
    StartInv(c, p.world);
    RunInv(c, Start(c, p.world), trace);
    FinishedPoolAccounts(c, s);
    assert Outcomes(Zip(c.ids, s.results)) == s.results;
  }

  lemma BatchCounters(env: Env, plan: Plan, opts: Options, start: Tables, p: Progress, trace: seq<Action>,
                      truthful: bool)
    requires BatchSize(plan, opts) >= 1 && BatchRuns(env, plan, opts, p, trace)
    requires CountersHold(env, start, p, truthful) && (truthful ==> forall a :: a in trace ==> Truthful(a))
    ensures CountersHold(env, start, AfterBatch(env, plan, opts, p, trace), truthful)
  {
    var c := NextConfig(env, plan, opts, p);
    var s := Run(c, Start(c, p.world), trace).value;
    BatchAdds(env, plan, opts, p, trace);
    BatchDeeds(env, plan, opts, p, trace, truthful);
    BatchGains(env, plan, opts, start, p, trace, Success, p.replayed, s.feeder.tally.replayed);
    BatchGains(env, plan, opts, start, p, trace, FailedAck, p.ackFailed, s.feeder.tally.ackFailures);
  }

  lemma BatchAdds(env: Env, plan: Plan, opts: Options, p: Progress, trace: seq<Action>)
    requires BatchSize(plan, opts) >= 1 && BatchRuns(env, plan, opts, p, trace) && NumbersHold(p)
    ensures NumbersHold(AfterBatch(env, plan, opts, p, trace))
  {
    var c := NextConfig(env, plan, opts, p);
    BatchNumbers(env, plan, opts, p, trace);
    OutcomesConcat(p.processed, Zip(c.ids, Run(c, Start(c, p.world), trace).value.results));
  }

  lemma BatchDeeds(env: Env, plan: Plan, opts: Options, p: Progress, trace: seq<Action>, truthful: bool)
    requires BatchSize(plan, opts) >= 1 && BatchRuns(env, plan, opts, p, trace)
    requires truthful ==> forall a :: a in trace ==> Truthful(a)
    ensures var c, q := NextConfig(env, plan, opts, p), AfterBatch(env, plan, opts, p, trace);
            var s := Run(c, Start(c, p.world), trace).value;
            var n := s.feeder.tally.replayed;
            && q.replayed == p.replayed + n && q.ackFailed == p.ackFailed + s.feeder.tally.ackFailures
            && |q.removed| == |p.removed| + |s.removed|
            && n <= |s.removed| && (truthful ==> n == |s.removed|)
            && Gains(p.world, s, Success, n, forall k :: c.writable(k))
            && Gains(p.world, s, FailedAck, s.feeder.tally.ackFailures, forall k :: c.writable(k))
  {
    BatchReports(NextConfig(env, plan, opts, p), p.world, trace);
  }

  lemma BatchGains(env: Env, plan: Plan, opts: Options, start: Tables, p: Progress, trace: seq<Action>, r: Result,
                   n: int, m: int)
    requires BatchSize(plan, opts) >= 1 && BatchRuns(env, plan, opts, p, trace)
    requires GainsIn(start, p.world.tables, r, n, forall k :: env.writable(k))
    requires var c := NextConfig(env, plan, opts, p);
             Gains(p.world, Run(c, Start(c, p.world), trace).value, r, m, forall k :: c.writable(k))
    ensures GainsIn(start, AfterBatch(env, plan, opts, p, trace).world.tables, r, n + m, forall k :: env.writable(k))
  {
    var c := NextConfig(env, plan, opts, p);
    assert (forall k :: env.writable(k)) ==> forall k :: c.writable(k);
  }

  lemma {:induction false} LoopCounters(env: Env, plan: Plan, opts: Options, start: Tables, p: Progress,
                                        sched: seq<seq<Action>>, truthful: bool)
    requires BatchSize(plan, opts) >= 1 && Loop(env, plan, opts, p, sched).Some?
    requires CountersHold(env, start, p, truthful) && (truthful ==> TruthfulRun(sched))
    ensures CountersHold(env, start, Loop(env, plan, opts, p, sched).value, truthful)
  {
    if sched != [] {
      var init, trace := sched[..|sched| - 1], sched[|sched| - 1];
      assert trace in sched && forall t :: t in init ==> t in sched;
      LoopCounters(env, plan, opts, start, p, init, truthful);
      BatchCounters(env, plan, opts, start, Loop(env, plan, opts, p, init).value, trace, truthful);
    }
  }

  lemma {:induction false} OpeningGains(env: Env, plan: Plan, opts: Options, w: World, r: Result)
    requires r != Skipped
    ensures GainsIn(w.tables, Begin(env, plan, opts, w).world.tables, r, 0, true)
  {
    forall e | e in OpeningEntries(env, plan, w) ensures !IsRecovery(r)(e) { }
    AppendAllOthers(env.writable, w.tables, OpeningEntries(env, plan, w), IsRecovery(r));
  }

  lemma {:induction false} AppendAllOthers(writable: Writable, t: Tables, es: seq<Entry>, p: Entry -> bool)
    requires forall e :: e in es ==> !p(e)
    ensures Count(AppendAll(writable, t, es).entries, p) == Count(t.entries, p)
  {
    if es != [] {
      AppendAllOthers(writable, t, es[..|es| - 1], p);
      CountSnoc(AppendAll(writable, t, es[..|es| - 1]).entries, es[|es| - 1], p);
      assert es[|es| - 1] in es;
    }
  }

  /** The reported counters are what happened: replayed, failed and new DLQ entries are the processed
      positions that ended as replayed, as anything else, and as ack failures; replays are covered by
      copies that left the DLQ, one for one when no ack that errors removes one; and when writes
      succeed the trail gains just as many success and ack failure entries. */
  lemma {:induction false} CountersAreDeeds(env: Env, plan: Plan, opts: Options, faults: Faults,
                                            sched: seq<seq<Action>>, w: World)
    requires BatchSize(plan, opts) >= 1
    ensures var f := Execute(env, plan, opts, faults, sched, w);
            f.Some? && f.value.verdict.Done? ==>
              var r, p := f.value.verdict.result, f.value.progress;
              && r.replayed == multiset(Outcomes(p.processed))[Some(Replayed)]
              && r.failed == Failures(p.processed)
              && r.newDlqEntries == multiset(Outcomes(p.processed))[Some(AckFailed)]
              && r.replayed <= |p.removed| && (TruthfulRun(sched) ==> r.replayed == |p.removed|)
              && GainsIn(w.tables, f.value.world.tables, Success, r.replayed, forall n :: env.writable(n))
              && GainsIn(w.tables, f.value.world.tables, FailedAck, r.newDlqEntries, forall n :: env.writable(n))
              && r.excluded == |plan.excluded|
  {
    var f := Execute(env, plan, opts, faults, sched, w);
    if f.Some? && f.value.verdict.Done? {
      EndCounters(env, plan, opts, w, sched, false);
      ClosedCounters(env, plan, w.tables, f.value.progress, false);
      if TruthfulRun(sched) {
        EndTruthful(env, plan, opts, w, sched);
      }
    }
  }

  lemma EndTruthful(env: Env, plan: Plan, opts: Options, w: World, sched: seq<seq<Action>>)
    requires BatchSize(plan, opts) >= 1 && TruthfulRun(sched)
    ensures var p := Loop(env, plan, opts, Begin(env, plan, opts, w), sched);
            p.Some? ==> p.value.replayed == |p.value.removed|
  {
    EndCounters(env, plan, opts, w, sched, true);
  }

  /** The entry that closes a run changes none of the counts. */
  lemma ClosedCounters(env: Env, plan: Plan, start: Tables, p: Progress, truthful: bool)
    requires CountersHold(env, start, p, truthful)
    ensures var closed := Write(env, p.world, PlanEntry(plan, "", if p.tripped then Tripped else Completed, ""));
            CountersHold(env, start, p.(world := closed), truthful)
  {
    ClosingGains(env, plan, p, Success);
    ClosingGains(env, plan, p, FailedAck);
  }

  lemma EndCounters(env: Env, plan: Plan, opts: Options, w: World, sched: seq<seq<Action>>, truthful: bool)
    requires BatchSize(plan, opts) >= 1
    ensures var p := Loop(env, plan, opts, Begin(env, plan, opts, w), sched);
            p.Some? && (truthful ==> TruthfulRun(sched)) ==> CountersHold(env, w.tables, p.value, truthful)
  {
    var p0 := Begin(env, plan, opts, w);
    OpeningGains(env, plan, opts, w, Success);
    OpeningGains(env, plan, opts, w, FailedAck);
    assert Outcomes([]) == [];
    if Loop(env, plan, opts, p0, sched).Some? && (truthful ==> TruthfulRun(sched)) {
      LoopCounters(env, plan, opts, w.tables, p0, sched, truthful);
    }
  }

  lemma ClosingGains(env: Env, plan: Plan, p: Progress, r: Result)
    requires r != Tripped && r != Completed
    ensures GainsIn(p.world.tables,
                    Write(env, p.world, PlanEntry(plan, "", if p.tripped then Tripped else Completed, "")).tables,
                    r, 0, true)
  {
    CountSnoc(p.world.tables.entries, PlanEntry(plan, "", if p.tripped then Tripped else Completed, ""), IsRecovery(r));
  }

  // --- The circuit breaker -------------------------------------------------------------------------

  /** The processed positions cut into batches of `b`. */
  function Chunks(ps: seq<Processed>, b: int): seq<seq<Processed>>
    requires b >= 1
  {
    if ps == [] then [] else if |ps| <= b then [ps] else [ps[..b]] + Chunks(ps[b..], b)
  }

  /** Only whole batches. */
  predicate Whole(ps: seq<Processed>, b: int)
    requires b >= 1
  {
    ps == [] || (|ps| >= b && Whole(ps[b..], b))
  }

  lemma {:induction false} OneChunkMore(ps: seq<Processed>, batch: seq<Processed>, b: int)
    requires b >= 1 && Whole(ps, b) && 1 <= |batch| <= b
    ensures Chunks(ps + batch, b) == Chunks(ps, b) + [batch]
    ensures |batch| == b ==> Whole(ps + batch, b)
  {
    if ps == [] {
      assert ps + batch == batch && batch[|batch|..] == [];
    } else {
      assert (ps + batch)[..b] == ps[..b] && (ps + batch)[b..] == ps[b..] + batch;
      OneChunkMore(ps[b..], batch, b);
      if |ps| == b {
        assert ps[b..] == [] && ps[..b] == ps;
      }
    }
  }

  /** The batch failed above the threshold. */
  predicate Over(batch: seq<Processed>, threshold: real) {
    Failures(batch) as real > threshold * |batch| as real
  }

  /** How large batches are and when they trip: an option in range outranks the plan or the default. */
  function AskedSize(plan: Plan, opts: Options): int {
    if opts.batchSize > 0 then opts.batchSize else plan.limits.batchSize
  }

  function AskedThreshold(opts: Options): real {
    if 0.0 < opts.threshold <= 1.0 then opts.threshold else 0.20
  }

  /** Only the last batch can be over the threshold, and then the run has tripped. */
  ghost predicate TripsOnlyAtTheEnd(ps: seq<Processed>, tripped: bool, b: int, threshold: real)
    requires b >= 1
  {
    var cs := Chunks(ps, b);
    && (tripped ==> cs != [])
    && forall k :: 0 <= k < |cs| ==> (Over(cs[k], threshold) <==> tripped && k == |cs| - 1)
  }

  lemma BatchTrips(env: Env, plan: Plan, opts: Options, p: Progress, trace: seq<Action>)
    requires BatchSize(plan, opts) >= 1 && BatchRuns(env, plan, opts, p, trace)
    requires Whole(p.processed, BatchSize(plan, opts))
    requires TripsOnlyAtTheEnd(p.processed, p.tripped, BatchSize(plan, opts), Threshold(opts))
    ensures var q := AfterBatch(env, plan, opts, p, trace);
            && TripsOnlyAtTheEnd(q.processed, q.tripped, BatchSize(plan, opts), Threshold(opts))
            && (q.remaining != [] ==> Whole(q.processed, BatchSize(plan, opts)))
  {
    var c := NextConfig(env, plan, opts, p);
    var batch := Zip(c.ids, Run(c, Start(c, p.world), trace).value.results);
    BatchOver(env, plan, opts, p, trace);
    TripStep(p.processed, batch, AfterBatch(env, plan, opts, p, trace).tripped, BatchSize(plan, opts), Threshold(opts));
  }

  lemma BatchOver(env: Env, plan: Plan, opts: Options, p: Progress, trace: seq<Action>)
    requires BatchSize(plan, opts) >= 1 && BatchRuns(env, plan, opts, p, trace)
    ensures var c, q := NextConfig(env, plan, opts, p), AfterBatch(env, plan, opts, p, trace);
            var batch := Zip(c.ids, Run(c, Start(c, p.world), trace).value.results);
            && q.processed == p.processed + batch && 1 <= |batch| <= BatchSize(plan, opts)
            && (q.tripped <==> Over(batch, Threshold(opts)))
            && (q.remaining != [] ==> |batch| == BatchSize(plan, opts))
  {
    var c := NextConfig(env, plan, opts, p);
    var s := Run(c, Start(c, p.world), trace).value;
    BatchNumbers(env, plan, opts, p, trace);
    RateIsOver(Zip(c.ids, s.results), s.feeder.tally.publishFailures, Threshold(opts));
  }

  lemma RateIsOver(batch: seq<Processed>, failures: nat, threshold: real)
    requires |batch| >= 1 && failures == Failures(batch)
    ensures failures as real / |batch| as real > threshold <==> Over(batch, threshold)
  {
    RateBound(failures, |batch|, threshold);
  }

  lemma TripStep(ps: seq<Processed>, batch: seq<Processed>, tripped: bool, b: int, threshold: real)
    requires b >= 1 && Whole(ps, b) && TripsOnlyAtTheEnd(ps, false, b, threshold)
    requires 1 <= |batch| <= b && (tripped <==> Over(batch, threshold))
    ensures TripsOnlyAtTheEnd(ps + batch, tripped, b, threshold)
    ensures |batch| == b ==> Whole(ps + batch, b)
  {
    OneChunkMore(ps, batch, b);
    var cs := Chunks(ps, b);
    assert forall k :: 0 <= k < |cs| ==> (cs + [batch])[k] == cs[k];
  }

  lemma {:induction false} LoopTrips(env: Env, plan: Plan, opts: Options, p: Progress, sched: seq<seq<Action>>)
    requires BatchSize(plan, opts) >= 1 && Loop(env, plan, opts, p, sched).Some? && p.processed == [] && !p.tripped
    ensures var q, b := Loop(env, plan, opts, p, sched).value, BatchSize(plan, opts);
            && TripsOnlyAtTheEnd(q.processed, q.tripped, b, Threshold(opts))
            && (q.remaining != [] ==> Whole(q.processed, b))
  {
    if sched != [] {
      var init, trace := sched[..|sched| - 1], sched[|sched| - 1];
      LoopTrips(env, plan, opts, p, init);
      BatchTrips(env, plan, opts, Loop(env, plan, opts, p, init).value, trace);
    }
  }

  /** Exactly when a run trips: its batches have the size asked for, none but the last is over the
      threshold asked for, and the last is if and only if the run reports that it tripped. */
  lemma {:induction false} TripsExactly(env: Env, plan: Plan, opts: Options, faults: Faults, sched: seq<seq<Action>>,
                                        w: World)
    requires AskedSize(plan, opts) >= 1 && BatchSize(plan, opts) >= 1
    ensures var f := Execute(env, plan, opts, faults, sched, w);
            f.Some? && f.value.verdict.Done? ==>
              var r, p := f.value.verdict.result, f.value.progress;
              && TripsOnlyAtTheEnd(p.processed, r.tripped, AskedSize(plan, opts), AskedThreshold(opts))
              && (r.remaining != [] ==> r.tripped && Whole(p.processed, AskedSize(plan, opts)))
  {
    var f := Execute(env, plan, opts, faults, sched, w);
    if f.Some? && f.value.verdict.Done? {
      LoopTrips(env, plan, opts, Begin(env, plan, opts, w), sched);
    }
  }

  // --- The queues ------------------------------------------------------------------------------------

  /** A batch works for its plan: its DLQ, its destination, its identity, the retries asked for, and
      the concurrency asked for or else the plan's. */
  lemma BatchesServeThePlan(env: Env, plan: Plan, opts: Options, p: Progress)
    requires BatchSize(plan, opts) >= 1
    ensures var c := NextConfig(env, plan, opts, p);
            && c.dlq == plan.queue && c.destination == plan.destination && c.planId == plan.id
            && c.retries == opts.retries
            && c.concurrency == (if opts.concurrency > 0 then opts.concurrency else plan.limits.concurrency)
            && c.ids <= p.remaining && |c.ids| <= AskedSize(plan, opts)
            && (|c.ids| == AskedSize(plan, opts) || c.ids == p.remaining)
  {
  }

  /** One queue lost what was removed, another gained what was delivered, and no other changed. */
  ghost predicate Transferred(before: map<string, seq<Delivery>>, after: map<string, seq<Delivery>>, dlq: string,
                              dest: string, removed: seq<Delivery>, delivered: seq<Delivery>) {
    && after.Keys == before.Keys
    && multiset(QueueOf(before, dlq)) == multiset(QueueOf(after, dlq)) + multiset(removed)
    && QueueOf(after, dest) == QueueOf(before, dest) + delivered
    && forall q :: q in before && q != dlq && q != dest ==> after[q] == before[q]
  }

  lemma TransferredOn(a: map<string, seq<Delivery>>, b: map<string, seq<Delivery>>, c: map<string, seq<Delivery>>,
                      dlq: string, dest: string, r1: seq<Delivery>, d1: seq<Delivery>, r2: seq<Delivery>,
                      d2: seq<Delivery>)
    requires Transferred(a, b, dlq, dest, r1, d1) && Transferred(b, c, dlq, dest, r2, d2)
    ensures Transferred(a, c, dlq, dest, r1 + r2, d1 + d2)
  {
    assert QueueOf(a, dest) + (d1 + d2) == (QueueOf(a, dest) + d1) + d2;
  }

  /** The run's history of removals and deliveries against the queues. */
  ghost predicate QueuesMatch(plan: Plan, w: World, p: Progress) {
    Transferred(w.queues, p.world.queues, plan.queue, plan.destination, p.removed, p.delivered)
  }

  predicate NoTraffic(sched: seq<seq<Action>>) {
    forall trace, a: Action :: trace in sched && a in trace ==> !a.IsTraffic()
  }

  lemma BatchMoves(env: Env, plan: Plan, opts: Options, w: World, p: Progress, trace: seq<Action>)
    requires BatchSize(plan, opts) >= 1 && BatchRuns(env, plan, opts, p, trace) && QueuesMatch(plan, w, p)
    requires plan.queue != plan.destination && forall a: Action :: a in trace ==> !a.IsTraffic()
    ensures QueuesMatch(plan, w, AfterBatch(env, plan, opts, p, trace))
  {
    var c := NextConfig(env, plan, opts, p);
    var s := Run(c, Start(c, p.world), trace).value;
    LogsAreTheQueues(c, p.world, trace);
    assert Transferred(p.world.queues, s.world.queues, plan.queue, plan.destination, s.removed, s.delivered);
    TransferredOn(w.queues, p.world.queues, s.world.queues, plan.queue, plan.destination,
            p.removed, p.delivered, s.removed, s.delivered);
  }

  lemma {:induction false} LoopMoves(env: Env, plan: Plan, opts: Options, w: World, p: Progress,
                                     sched: seq<seq<Action>>)
    requires BatchSize(plan, opts) >= 1 && Loop(env, plan, opts, p, sched).Some? && QueuesMatch(plan, w, p)
    requires plan.queue != plan.destination && NoTraffic(sched)
    ensures QueuesMatch(plan, w, Loop(env, plan, opts, p, sched).value)
  {
    if sched != [] {
      var init, trace := sched[..|sched| - 1], sched[|sched| - 1];
      assert trace in sched && forall t :: t in init ==> t in sched;
      LoopMoves(env, plan, opts, w, p, init);
      BatchMoves(env, plan, opts, w, Loop(env, plan, opts, p, init).value, trace);
    }
  }

  /** Without other traffic a run takes what it removed off the plan's DLQ, adds what it delivered, in
      order, to the plan's destination, and touches no other queue. */
  lemma {:induction false} RunMoves(env: Env, plan: Plan, opts: Options, faults: Faults, sched: seq<seq<Action>>,
                                    w: World)
    requires BatchSize(plan, opts) >= 1 && plan.queue != plan.destination && NoTraffic(sched)
    ensures var f := Execute(env, plan, opts, faults, sched, w);
            f.Some? ==> QueuesMatch(plan, w, f.value.progress) && f.value.world.queues == f.value.progress.world.queues
  {
    var f := Execute(env, plan, opts, faults, sched, w);
    if f.Some? && f.value.verdict.Done? {
      LoopMoves(env, plan, opts, w, Begin(env, plan, opts, w), sched);
    }
  }

  // --- The trail -------------------------------------------------------------------------------------

  /** An entry under the plan and its queues. */
  predicate OfPlan(plan: Plan, e: Entry) {
    && e.action == Recover && e.planId == plan.id && e.confirmed
    && e.sourceQueue == plan.queue && e.destination == plan.destination
  }

  /** What the batches of a run write: entries of the plan about IDs it attempts. */
  predicate OfBatches(plan: Plan, ids: seq<string>, e: Entry) {
    OfPlan(plan, e) && e.messageId in ids && e.result in {Success, FailedPublish, FailedAck}
  }

  lemma BatchWrites(env: Env, plan: Plan, opts: Options, start: seq<Entry>, p: Progress, trace: seq<Action>,
                    ids: seq<string>)
    requires BatchSize(plan, opts) >= 1 && BatchRuns(env, plan, opts, p, trace)
    requires start <= p.world.tables.entries && (forall id :: id in p.remaining ==> id in ids)
    requires forall e :: e in p.world.tables.entries[|start|..] ==> OfBatches(plan, ids, e)
    ensures var q := AfterBatch(env, plan, opts, p, trace);
            && start <= q.world.tables.entries && (forall id :: id in q.remaining ==> id in ids)
            && forall e :: e in q.world.tables.entries[|start|..] ==> OfBatches(plan, ids, e)
  {
    var c := NextConfig(env, plan, opts, p);
    EntriesOnlyGrow(c, p.world, trace);
    var before, after := p.world.tables.entries, Run(c, Start(c, p.world), trace).value.world.tables.entries;
    forall e | e in after[|start|..] ensures OfBatches(plan, ids, e) {
      assert after[|start|..] == before[|start|..] + after[|before|..];
      if e in after[|before|..] {
        assert OfBatch(c, e) && e.messageId in p.remaining;
      }
    }
  }

  lemma {:induction false} LoopWrites(env: Env, plan: Plan, opts: Options, p: Progress, sched: seq<seq<Action>>,
                                      ids: seq<string>)
    requires BatchSize(plan, opts) >= 1 && Loop(env, plan, opts, p, sched).Some?
    requires forall id :: id in p.remaining ==> id in ids
    ensures var q, start := Loop(env, plan, opts, p, sched).value, p.world.tables.entries;
            && start <= q.world.tables.entries && (forall id :: id in q.remaining ==> id in ids)
            && forall e :: e in q.world.tables.entries[|start|..] ==> OfBatches(plan, ids, e)
  {
    if sched != [] {
      var init, trace := sched[..|sched| - 1], sched[|sched| - 1];
      LoopWrites(env, plan, opts, p, init, ids);
      BatchWrites(env, plan, opts, p.world.tables.entries, Loop(env, plan, opts, p, init).value, trace, ids);
    }
  }

  /** The parts of the trail of a run: one skip entry for every message that validation skips, in
      order, one for every exclusion with its reason, what the batches wrote, and the end. */
  datatype Trail = Trail(skipped: seq<Entry>, excluded: seq<Entry>, written: seq<Entry>, end: Entry)

  ghost predicate IsTrailOf(env: Env, plan: Plan, opts: Options, w: World, tripped: bool, t: Trail) {
    && SkipsWritten(plan, Skips(env, plan, w.queues, w.tables.entries), t.skipped)
    && ExclusionsWritten(plan, t.excluded)
    && (forall e :: e in t.written ==> OfBatches(plan, AttemptList(env, plan, opts, w), e))
    && OfPlan(plan, t.end) && t.end.messageId == "" && t.end.result == if tripped then Tripped else Completed
  }

  ghost predicate SkipsWritten(plan: Plan, skips: seq<SkippedMessage>, es: seq<Entry>) {
    && |es| == |skips|
    && forall i :: 0 <= i < |es| ==>
         OfPlan(plan, es[i]) && es[i].result == Skipped && es[i].messageId == skips[i].messageId
  }

  ghost predicate ExclusionsWritten(plan: Plan, es: seq<Entry>) {
    && |es| == |plan.excluded|
    && forall i :: 0 <= i < |es| ==>
         && OfPlan(plan, es[i]) && es[i].result == Skipped
         && es[i].messageId == plan.excluded[i].messageId && es[i].detail == plan.excluded[i].reason
  }

  lemma {:induction false} AppendAllWritten(writable: Writable, t: Tables, es: seq<Entry>)
    requires forall n :: writable(n)
    ensures AppendAll(writable, t, es).entries == t.entries + es
  {
    if es != [] {
      AppendAllWritten(writable, t, es[..|es| - 1]);
      assert es == es[..|es| - 1] + [es[|es| - 1]];
    }
  }

  /** With working writes a run that gets to its batches adds exactly such a trail. */
  lemma {:induction false} RunTrail(env: Env, plan: Plan, opts: Options, faults: Faults, sched: seq<seq<Action>>,
                                    w: World) returns (t: Trail)
    requires BatchSize(plan, opts) >= 1 && forall n :: env.writable(n)
    ensures var f := Execute(env, plan, opts, faults, sched, w);
            f.Some? && f.value.verdict.Done? ==>
              && IsTrailOf(env, plan, opts, w, f.value.verdict.result.tripped, t)
              && f.value.world.tables.entries == w.tables.entries + t.skipped + t.excluded + t.written + [t.end]
  {
    var p := Loop(env, plan, opts, Begin(env, plan, opts, w), sched);
    var skipped, excluded, written := RunWrites(env, plan, opts, w, sched);
    var end := PlanEntry(plan, "", if p.Some? && p.value.tripped then Tripped else Completed, "");
    t := Trail(skipped, excluded, written, end);
  }

  lemma RunWrites(env: Env, plan: Plan, opts: Options, w: World, sched: seq<seq<Action>>)
    returns (skipped: seq<Entry>, excluded: seq<Entry>, written: seq<Entry>)
    requires BatchSize(plan, opts) >= 1 && forall n :: env.writable(n)
    ensures SkipsWritten(plan, Skips(env, plan, w.queues, w.tables.entries), skipped)
            && ExclusionsWritten(plan, excluded)
    ensures var p := Loop(env, plan, opts, Begin(env, plan, opts, w), sched);
            p.Some? ==>
              && (forall e :: e in written ==> OfBatches(plan, AttemptList(env, plan, opts, w), e))
              && p.value.world.tables.entries == w.tables.entries + skipped + excluded + written
  {
    var p0 := Begin(env, plan, opts, w);
    skipped, excluded := OpensWith(env, plan, w);
    BeginsWith(env, plan, opts, w, skipped, excluded);
    written := [];
    if Loop(env, plan, opts, p0, sched).Some? {
      written := LoopWritten(env, plan, opts, p0, sched, AttemptList(env, plan, opts, w));
    }
  }

  lemma LoopWritten(env: Env, plan: Plan, opts: Options, p: Progress, sched: seq<seq<Action>>, ids: seq<string>)
    returns (written: seq<Entry>)
    requires BatchSize(plan, opts) >= 1 && Loop(env, plan, opts, p, sched).Some? && p.remaining == ids
    ensures forall e :: e in written ==> OfBatches(plan, ids, e)
    ensures Loop(env, plan, opts, p, sched).value.world.tables.entries == p.world.tables.entries + written
  {
    LoopWrites(env, plan, opts, p, sched, ids);
    written := Loop(env, plan, opts, p, sched).value.world.tables.entries[|p.world.tables.entries|..];
  }

  lemma OpensWith(env: Env, plan: Plan, w: World) returns (skipped: seq<Entry>, excluded: seq<Entry>)
    ensures SkipsWritten(plan, Skips(env, plan, w.queues, w.tables.entries), skipped)
            && ExclusionsWritten(plan, excluded)
    ensures OpeningEntries(env, plan, w) == skipped + excluded
  {
    var skips := Skips(env, plan, w.queues, w.tables.entries);
    skipped := Map(skips, (s: SkippedMessage) => PlanEntry(plan, s.messageId, Skipped, Detail(s.reason)));
    excluded := Map(plan.excluded, (x: Excluded) => PlanEntry(plan, x.messageId, Skipped, x.reason));
    assert OpeningEntries(env, plan, w) == skipped + excluded;
  }

  lemma AppendedBoth(writable: Writable, t: Tables, a: seq<Entry>, b: seq<Entry>)
    requires forall n :: writable(n)
    ensures AppendAll(writable, t, a + b).entries == t.entries + a + b
  {
    AppendAllWritten(writable, t, a + b);
    assert t.entries + (a + b) == t.entries + a + b;
  }

  lemma BeginsWith(env: Env, plan: Plan, opts: Options, w: World, skipped: seq<Entry>, excluded: seq<Entry>)
    requires OpeningEntries(env, plan, w) == skipped + excluded && forall n :: env.writable(n)
    ensures Begin(env, plan, opts, w).world.tables.entries == w.tables.entries + skipped + excluded
    ensures Begin(env, plan, opts, w).remaining == AttemptList(env, plan, opts, w)
  {
    AppendedBoth(env.writable, w.tables, skipped, excluded);
  }
}
