// Laws of one confirmed run: accounting, the circuit breaker, no loss, and what it leaves in the
// store, for every schedule of every batch.
module RunLaws {
  import opened Seqs
  import opened Mapper
  import opened Audit
  import opened Pool
  import opened PoolProgress
  import opened PoolSafety
  import opened PoolLedger
  import opened Validator
  import opened Runs

  // --- Accounting ------------------------------------------------------------------------------

  function IdsOf(processed: seq<Processed>): (ids: seq<string>)
    ensures |ids| == |processed| && forall i :: 0 <= i < |ids| ==> ids[i] == processed[i].id
  {
    seq(|processed|, i requires 0 <= i < |processed| => processed[i].id)
  }

  /** The counters match the processed positions, which with Remaining make up the attempt list. */
  ghost predicate Accounted(attempt: seq<string>, p: Progress) {
    && IdsOf(p.processed) + p.remaining == attempt
    && p.replayed + p.failed == |p.processed|
    && p.ackFailed <= p.failed
    && (forall x :: x in p.processed ==> x.outcome.Some?)
  }

  lemma BatchAccounted(env: Env, plan: Plan, opts: Options, attempt: seq<string>, p: Progress, trace: seq<Action>)
    requires BatchSize(plan, opts) >= 1 && BatchRuns(env, plan, opts, p, trace) && Accounted(attempt, p)
    ensures Accounted(attempt, AfterBatch(env, plan, opts, p, trace))
    ensures |AfterBatch(env, plan, opts, p, trace).processed| == |p.processed| + NextBatch(plan, opts, p)
  {
    var c := NextConfig(env, plan, opts, p);
    StartInv(c, p.world);
    RunInv(c, Start(c, p.world), trace);
    var s := Run(c, Start(c, p.world), trace).value;
    FinishedPoolAccounts(c, s);
    var n := NextBatch(plan, opts, p);
    ZipIds(p.processed, c.ids, s.results);
    assert p.remaining == c.ids + p.remaining[n..];
    forall x | x in p.processed + Zip(c.ids, s.results) ensures x.outcome.Some? {
      if x !in p.processed {
        var i :| 0 <= i < |c.ids| && x == Zip(c.ids, s.results)[i];
      }
    }
  }

  lemma ZipIds(processed: seq<Processed>, ids: seq<string>, results: seq<Option<Outcome>>)
    requires |ids| == |results|
    ensures IdsOf(processed + Zip(ids, results)) == IdsOf(processed) + ids
  {
  }

  lemma {:induction false} LoopAccounted(env: Env, plan: Plan, opts: Options, p: Progress, sched: seq<seq<Action>>,
                                         attempt: seq<string>)
    requires BatchSize(plan, opts) >= 1 && Accounted(attempt, p) && Loop(env, plan, opts, p, sched).Some?
    ensures Accounted(attempt, Loop(env, plan, opts, p, sched).value)
  {
    if sched != [] {
      LoopAccounted(env, plan, opts, p, sched[..|sched| - 1], attempt);
      BatchAccounted(env, plan, opts, attempt, Loop(env, plan, opts, p, sched[..|sched| - 1]).value,
                     sched[|sched| - 1]);
    }
  }

  lemma AttemptableSize(env: Env, plan: Plan, w: World)
    ensures |Skips(env, plan, w.queues, w.tables.entries)| + |Attemptable(env, plan, w)| == |plan.messageIds|
  {
    var byId := ById(env.hash, Scanned(plan, w.queues), plan.queue);
    var skip := IsSkipped(env, plan, byId, w.tables.entries);
    SkipsAreThoseSkipped(env, plan, byId, w.tables.entries, plan.messageIds);
    SkippedPlusAttempted(plan.messageIds, skip);
    FilterSize(plan.messageIds, id => !skip(id));
    FilterSize(plan.messageIds, Passes(env, plan, byId, w.tables.entries));
    CountPointwise(plan.messageIds, id => !skip(id), Passes(env, plan, byId, w.tables.entries));
  }

  /** Every run that returns a result accounts for every planned message: tripped or not, resumed
      or not, with repeated IDs or not. */
  lemma {:induction false} RunAccounting(env: Env, plan: Plan, opts: Options, faults: Faults, sched: seq<seq<Action>>,
                                         w: World)
    requires BatchSize(plan, opts) >= 1
    ensures var f := Execute(env, plan, opts, faults, sched, w);
            f.Some? && f.value.verdict.Done? ==>
              var r := f.value.verdict.result;
              && r.selected == |plan.messageIds|
              && r.selected == r.replayed + r.failed + r.skipped + |r.remaining|
              && r.newDlqEntries <= r.failed && 0 <= r.skipped
  {
    var f := Execute(env, plan, opts, faults, sched, w);
    if f.Some? && f.value.verdict.Done? {
      AttemptableSize(env, plan, w);
      StillOpenAmong(Attemptable(env, plan, w), w.tables.entries, Answers(env, w.tables.writes));
      EndAccounted(env, plan, opts, w, sched);
    }
  }

  lemma EndAccounted(env: Env, plan: Plan, opts: Options, w: World, sched: seq<seq<Action>>)
    requires BatchSize(plan, opts) >= 1
    ensures var p := Loop(env, plan, opts, Begin(env, plan, opts, w), sched);
            p.Some? ==>
              && p.value.replayed + p.value.failed + |p.value.remaining| == |AttemptList(env, plan, opts, w)|
              && p.value.ackFailed <= p.value.failed
  {
    var p := Begin(env, plan, opts, w);
    if Loop(env, plan, opts, p, sched).Some? {
      assert IdsOf([]) + p.remaining == p.remaining;
      LoopAccounted(env, plan, opts, p, sched, p.remaining);
    }
  }

  /** What resuming leaves is a part of the list, the whole of it when nothing has been replayed. */
  lemma {:induction false} StillOpenAmong(ids: seq<string>, entries: seq<Entry>, answered: nat -> bool)
    ensures var open := StillOpen(ids, entries, answered);
            && |open| <= |ids| && (forall id :: id in open ==> id in ids)
            && (Distinct(ids) ==> Distinct(open))
            && ((forall id :: id in ids ==> !HasEvidence(entries, id)) ==> open == ids)
  {
    if ids != [] {
      var init, last := ids[..|ids| - 1], ids[|ids| - 1];
      assert ids == init + [last];
      StillOpenAmong(init, entries, answered);
      if Distinct(ids) {
        assert last !in init;
      }
    }
  }

  /** When every query is answered, exactly the IDs without a prior replay stay. */
  lemma {:induction false} StillOpenWhenAnswered(ids: seq<string>, entries: seq<Entry>, answered: nat -> bool)
    requires forall i :: 0 <= i < |ids| ==> answered(i)
    ensures StillOpen(ids, entries, answered) == Filter(ids, Uncompleted(entries))
  {
    if ids != [] {
      StillOpenWhenAnswered(ids[..|ids| - 1], entries, answered);
    }
  }

  /** When none is, every ID stays. */
  lemma {:induction false} StillOpenUnanswered(ids: seq<string>, entries: seq<Entry>, answered: nat -> bool)
    requires forall i :: 0 <= i < |ids| ==> !answered(i)
    ensures StillOpen(ids, entries, answered) == ids
  {
    if ids != [] {
      StillOpenUnanswered(ids[..|ids| - 1], entries, answered);
      assert ids == ids[..|ids| - 1] + [ids[|ids| - 1]];
    }
  }

  // --- The circuit breaker ---------------------------------------------------------------------

  lemma RateBound(failures: nat, size: nat, threshold: real)
    requires size > 0
    ensures failures as real / size as real <= threshold <==> failures as real <= threshold * size as real
  {
    var rate := failures as real / size as real;
    assert rate * size as real == failures as real;
    if rate <= threshold {
      Scale(rate, threshold, size as real);
    } else {
      ScaleStrictly(threshold, rate, size as real);
    }
  }

  lemma Scale(x: real, y: real, k: real)
    requires x <= y && k > 0.0
    ensures x * k <= y * k
  {
    assert (y - x) * k >= 0.0;
  }

  lemma ScaleStrictly(x: real, y: real, k: real)
    requires x < y && k > 0.0
    ensures x * k < y * k
  {
    assert (y - x) * k > 0.0;
  }

  /** A threshold's share of `n` messages. */
  function Share(opts: Options, n: int): real {
    Threshold(opts) * n as real
  }

  lemma SharesAdd(t: real, f1: nat, n1: nat, f2: nat, n2: nat)
    requires f1 as real <= t * n1 as real && f2 as real <= t * n2 as real
    ensures (f1 + f2) as real <= t * (n1 + n2) as real
  {
    assert t * (n1 + n2) as real == t * n1 as real + t * n2 as real;
  }

  /** While the breaker has not tripped failures stay under the threshold; when it trips, only the
      last batch was over it. */
  ghost predicate Bounded(opts: Options, p: Progress) {
    && p.lastFailed <= p.last <= |p.processed| && p.lastFailed <= p.failed
    && (p.failed - p.lastFailed) as real <= Share(opts, |p.processed| - p.last)
    && (p.tripped <==> p.lastFailed as real > Share(opts, p.last))
  }

  lemma UntrippedShare(opts: Options, p: Progress)
    requires Bounded(opts, p) && !p.tripped
    ensures p.failed as real <= Share(opts, |p.processed|)
  {
    SharesAdd(Threshold(opts), p.failed - p.lastFailed, |p.processed| - p.last, p.lastFailed, p.last);
  }

  lemma BatchShape(env: Env, plan: Plan, opts: Options, attempt: seq<string>, p: Progress, trace: seq<Action>)
    requires BatchSize(plan, opts) >= 1 && BatchRuns(env, plan, opts, p, trace) && Accounted(attempt, p)
    ensures var q := AfterBatch(env, plan, opts, p, trace);
            && q.lastFailed <= q.last && 1 <= q.last <= BatchSize(plan, opts)
            && q.failed == p.failed + q.lastFailed && |q.processed| == |p.processed| + q.last
            && (q.tripped <==> q.lastFailed as real / q.last as real > Threshold(opts))
  {
    BatchAccounted(env, plan, opts, attempt, p, trace);
    var c := NextConfig(env, plan, opts, p);
    StartInv(c, p.world);
    RunInv(c, Start(c, p.world), trace);
    FinishedPoolAccounts(c, Run(c, Start(c, p.world), trace).value);
  }

  lemma BatchBounded(env: Env, plan: Plan, opts: Options, attempt: seq<string>, p: Progress, trace: seq<Action>)
    requires BatchSize(plan, opts) >= 1 && BatchRuns(env, plan, opts, p, trace)
    requires Accounted(attempt, p) && Bounded(opts, p)
    ensures Bounded(opts, AfterBatch(env, plan, opts, p, trace))
  {
    BatchShape(env, plan, opts, attempt, p, trace);
    OneBatchMore(opts, p, AfterBatch(env, plan, opts, p, trace));
  }

  /** The numbers of one batch more. */
  lemma OneBatchMore(opts: Options, p: Progress, q: Progress)
    requires Bounded(opts, p) && !p.tripped
    requires q.lastFailed <= q.last && 1 <= q.last
    requires q.failed == p.failed + q.lastFailed && |q.processed| == |p.processed| + q.last
    requires q.tripped <==> q.lastFailed as real / q.last as real > Threshold(opts)
    ensures Bounded(opts, q)
  {
    UntrippedShare(opts, p);
    RateBound(q.lastFailed, q.last, Threshold(opts));
  }

  lemma {:induction false} LoopBounded(env: Env, plan: Plan, opts: Options, p: Progress, sched: seq<seq<Action>>,
                                       attempt: seq<string>)
    requires BatchSize(plan, opts) >= 1 && Accounted(attempt, p) && Bounded(opts, p)
             && Loop(env, plan, opts, p, sched).Some?
    requires p.last <= BatchSize(plan, opts)
    ensures Bounded(opts, Loop(env, plan, opts, p, sched).value)
    ensures Loop(env, plan, opts, p, sched).value.last <= BatchSize(plan, opts)
  {
    if sched != [] {
      var init := sched[..|sched| - 1];
      LoopBounded(env, plan, opts, p, init, attempt);
      LoopAccounted(env, plan, opts, p, init, attempt);
      BatchBounded(env, plan, opts, attempt, Loop(env, plan, opts, p, init).value, sched[|sched| - 1]);
      BatchShape(env, plan, opts, attempt, Loop(env, plan, opts, p, init).value, sched[|sched| - 1]);
    }
  }

  /** What the breaker guarantees about an ended loop. */
  ghost predicate BreakerKept(plan: Plan, opts: Options, p: Progress) {
    && p.last <= |p.processed| && p.last <= BatchSize(plan, opts)
    && p.failed as real <= Share(opts, |p.processed| - p.last) + p.last as real
    && (!p.tripped ==> p.failed as real <= Share(opts, |p.processed|))
    && (p.tripped ==> p.lastFailed as real > Share(opts, p.last))
  }

  lemma BoundedKeepsBreaker(plan: Plan, opts: Options, p: Progress)
    requires Bounded(opts, p) && p.last <= BatchSize(plan, opts)
    ensures BreakerKept(plan, opts, p)
  {
    assert p.failed as real == (p.failed - p.lastFailed) as real + p.lastFailed as real;
    if !p.tripped {
      UntrippedShare(opts, p);
    }
  }

  lemma BeginBounded(env: Env, plan: Plan, opts: Options, w: World)
    ensures var p0 := Begin(env, plan, opts, w);
            Bounded(opts, p0) && Accounted(AttemptList(env, plan, opts, w), p0)
  {
    assert Share(opts, 0) == 0.0;
    assert IdsOf([]) + AttemptList(env, plan, opts, w) == AttemptList(env, plan, opts, w);
  }

  lemma LoopKeepsBreaker(env: Env, plan: Plan, opts: Options, w: World, sched: seq<seq<Action>>)
    requires BatchSize(plan, opts) >= 1
    ensures var p := Loop(env, plan, opts, Begin(env, plan, opts, w), sched);
            p.Some? ==>
              && BreakerKept(plan, opts, p.value)
              && IdsOf(p.value.processed) + p.value.remaining == AttemptList(env, plan, opts, w)
  {
    var p0 := Begin(env, plan, opts, w);
    var p := Loop(env, plan, opts, p0, sched);
    if p.Some? {
      BeginBounded(env, plan, opts, w);
      LoopAccounted(env, plan, opts, p0, sched, p0.remaining);
      LoopBounded(env, plan, opts, p0, sched, p0.remaining);
      BoundedKeepsBreaker(plan, opts, p.value);
    }
  }

  /** Processed positions followed by Remaining are the attempt list; an untripped run fails at
      most the threshold's share of what it attempted; a tripped run at most that share of all
      batches but the last, plus the last batch. */
  lemma {:induction false} BreakerBound(env: Env, plan: Plan, opts: Options, faults: Faults, sched: seq<seq<Action>>,
                                        w: World)
    requires BatchSize(plan, opts) >= 1
    ensures var f := Execute(env, plan, opts, faults, sched, w);
            f.Some? && f.value.verdict.Done? ==>
              && BreakerKept(plan, opts, f.value.progress)
              && f.value.verdict.result.failed == f.value.progress.failed
              && f.value.verdict.result.tripped == f.value.progress.tripped
              && IdsOf(f.value.progress.processed) + f.value.verdict.result.remaining == AttemptList(env, plan, opts, w)
  {
    var f := Execute(env, plan, opts, faults, sched, w);
    if f.Some? && f.value.verdict.Done? {
      LoopKeepsBreaker(env, plan, opts, w, sched);
    }
  }

  // --- No loss -----------------------------------------------------------------------------------

  /** Nobody deletes the destination during the batches (an empty one does not exist anyway). */
  predicate DestinationKept(plan: Plan, sched: seq<seq<Action>>) {
    plan.destination == "" || forall trace :: trace in sched ==> Undeleted(plan.destination, trace)
  }

  lemma {:induction false} LoopLosesNoId(env: Env, plan: Plan, opts: Options, p: Progress, sched: seq<seq<Action>>,
                                         id: string)
    requires BatchSize(plan, opts) >= 1 && Loop(env, plan, opts, p, sched).Some?
    requires (plan.destination == "" || plan.destination in p.world.queues) && DestinationKept(plan, sched)
    requires p.removed == [] && p.delivered == []
    ensures var q := Loop(env, plan, opts, p, sched).value;
            && (plan.destination == "" || plan.destination in q.world.queues)
            && Count(q.removed, HasId(env.hash, id)) <= Count(q.delivered, HasId(env.hash, id))
  {
    if sched != [] {
      var init, trace := sched[..|sched| - 1], sched[|sched| - 1];
      assert trace in sched && forall t :: t in init ==> t in sched;
      LoopLosesNoId(env, plan, opts, p, init, id);
      var q := Loop(env, plan, opts, p, init).value;
      var c := NextConfig(env, plan, opts, q);
      var s := Run(c, Start(c, q.world), trace).value;
      NoLossOfId(c, q.world, trace, id);
      KeptConfirmsArrive(c, q.world, trace);
      CountConcat(q.removed, s.removed, HasId(env.hash, id));
      CountConcat(q.delivered, s.delivered, HasId(env.hash, id));
    }
  }

  /** A run of Execute never loses a message, whatever its batches' schedules, as long as nobody
      deletes the destination after the probe. */
  lemma {:induction false} RunLosesNoId(env: Env, plan: Plan, opts: Options, faults: Faults, sched: seq<seq<Action>>,
                                        w: World, id: string)
    requires BatchSize(plan, opts) >= 1 && Execute(env, plan, opts, faults, sched, w).Some?
    requires DestinationKept(plan, sched)
    ensures var p := Execute(env, plan, opts, faults, sched, w).value.progress;
            Count(p.removed, HasId(env.hash, id)) <= Count(p.delivered, HasId(env.hash, id))
  {
    if StopReason(env, plan, opts, faults, w).None? {
      LoopLosesNoId(env, plan, opts, Begin(env, plan, opts, w), sched, id);
    }
  }

  /** The planned IDs as a set. */
  function Scope(plan: Plan): set<string> {
    Planned(plan.messageIds)
  }

  ghost predicate SchedulesAgree<T(!new)>(env: Env, plan: Plan, opts: Options, f: string -> T, view: View<T>,
                                          sched: seq<seq<Action>>) {
    forall trace, a :: trace in sched && a in trace ==>
      TrafficAgrees(BatchConfig(env, plan, opts, []), Scope(plan), f, view, a)
  }

  lemma AttemptListIsPlanned(env: Env, plan: Plan, opts: Options, w: World)
    ensures forall id :: id in AttemptList(env, plan, opts, w) ==> id in plan.messageIds
    ensures Distinct(plan.messageIds) ==> Distinct(AttemptList(env, plan, opts, w))
  {
    var byId := ById(env.hash, Scanned(plan, w.queues), plan.queue);
    FilterSize(plan.messageIds, Passes(env, plan, byId, w.tables.entries));
    StillOpenAmong(Attemptable(env, plan, w), w.tables.entries, Answers(env, w.tables.writes));
    if Distinct(plan.messageIds) {
      FilterKeepsDistinct(plan.messageIds, Passes(env, plan, byId, w.tables.entries));
    }
  }

  lemma {:induction false} LoopLosesNoPayload(env: Env, plan: Plan, opts: Options, f: string -> string, p: Progress,
                                              sched: seq<seq<Action>>, body: string)
    requires BatchSize(plan, opts) >= 1 && Loop(env, plan, opts, p, sched).Some?
    requires (plan.destination == "" || plan.destination in p.world.queues) && DestinationKept(plan, sched)
    requires Covers(Scope(plan), p.remaining) && p.removed == [] && p.delivered == []
    requires QueueAgrees(env.hash, Scope(plan), f, Payload(), QueueOf(p.world.queues, plan.queue))
    requires SchedulesAgree(env, plan, opts, f, Payload(), sched)
    ensures var q := Loop(env, plan, opts, p, sched).value;
            && (plan.destination == "" || plan.destination in q.world.queues)
            && Covers(Scope(plan), q.remaining)
            && QueueAgrees(env.hash, Scope(plan), f, Payload(), QueueOf(q.world.queues, plan.queue))
            && Count(q.removed, HasBody(body)) <= Count(q.delivered, HasBody(body))
  {
    if sched != [] {
      var init, trace := sched[..|sched| - 1], sched[|sched| - 1];
      assert trace in sched && forall t :: t in init ==> t in sched;
      LoopLosesNoPayload(env, plan, opts, f, p, init, body);
      var q := Loop(env, plan, opts, p, init).value;
      var c, c0 := NextConfig(env, plan, opts, q), BatchConfig(env, plan, opts, []);
      forall a | a in trace ensures TrafficAgrees(c, Scope(plan), f, Payload(), a) {
        assert TrafficAgrees(c0, Scope(plan), f, Payload(), a);
      }
      var s := Run(c, Start(c, q.world), trace).value;
      KeptConfirmsArrive(c, q.world, trace);
      NoLossOfPayload(c, Scope(plan), f, q.world, trace, body);
      RunAgrees(c, Scope(plan), f, Payload(), q.world, trace);
      CountConcat(q.removed, s.removed, HasBody(body));
      CountConcat(q.delivered, s.delivered, HasBody(body));
    }
  }

  /** The payload form, for planned IDs that stand for one payload each. */
  lemma {:induction false} RunLosesNoPayload(env: Env, plan: Plan, opts: Options, faults: Faults,
                                             sched: seq<seq<Action>>, w: World, f: string -> string, body: string)
    requires BatchSize(plan, opts) >= 1 && Execute(env, plan, opts, faults, sched, w).Some?
    requires DestinationKept(plan, sched)
    requires QueueAgrees(env.hash, Scope(plan), f, Payload(), QueueOf(w.queues, plan.queue))
    requires SchedulesAgree(env, plan, opts, f, Payload(), sched)
    ensures var p := Execute(env, plan, opts, faults, sched, w).value.progress;
            Count(p.removed, HasBody(body)) <= Count(p.delivered, HasBody(body))
  {
    if StopReason(env, plan, opts, faults, w).None? {
      AttemptListIsPlanned(env, plan, opts, w);
      LoopLosesNoPayload(env, plan, opts, f, Begin(env, plan, opts, w), sched, body);
    }
  }

  // --- Success entries ---------------------------------------------------------------------------

  function WonBy(id: string): Processed -> bool {
    (x: Processed) => x.id == id && x.outcome == Some(Replayed)
  }

  lemma {:induction false} ZipReplays(ids: seq<string>, results: seq<Option<Outcome>>, id: string)
    requires |ids| == |results|
    ensures Count(Zip(ids, results), WonBy(id)) == Replays(ids, results, id)
  {
    if ids != [] {
      var n := |ids| - 1;
      ZipReplays(ids[..n], results[..n], id);
      assert Zip(ids, results)[..n] == Zip(ids[..n], results[..n]);
    }
  }

  ghost predicate EntriesFollow(env: Env, entries: seq<Entry>, p: Progress, id: string) {
    && Count(p.world.tables.entries, ReplayOf(id)) <= Count(entries, ReplayOf(id)) + Count(p.processed, WonBy(id))
    && ((forall n :: env.writable(n)) ==>
          Count(p.world.tables.entries, ReplayOf(id)) == Count(entries, ReplayOf(id)) + Count(p.processed, WonBy(id)))
  }

  lemma {:induction false} LoopEntries(env: Env, plan: Plan, opts: Options, p: Progress, sched: seq<seq<Action>>,
                                       entries: seq<Entry>, id: string)
    requires BatchSize(plan, opts) >= 1 && Loop(env, plan, opts, p, sched).Some? && EntriesFollow(env, entries, p, id)
    ensures EntriesFollow(env, entries, Loop(env, plan, opts, p, sched).value, id)
  {
    if sched != [] {
      var init, trace := sched[..|sched| - 1], sched[|sched| - 1];
      LoopEntries(env, plan, opts, p, init, entries, id);
      var q := Loop(env, plan, opts, p, init).value;
      var c := NextConfig(env, plan, opts, q);
      EntriesMatchReplays(c, q.world, trace, id);
      var s := Run(c, Start(c, q.world), trace).value;
      ZipReplays(c.ids, s.results, id);
      CountConcat(q.processed, Zip(c.ids, s.results), WonBy(id));
    }
  }

  lemma {:induction false} LoopReplayedLeft(env: Env, plan: Plan, opts: Options, p: Progress, sched: seq<seq<Action>>,
                                            id: string)
    requires BatchSize(plan, opts) >= 1 && Loop(env, plan, opts, p, sched).Some?
    requires p.processed == [] && p.removed == []
    ensures var q := Loop(env, plan, opts, p, sched).value;
            Count(q.processed, WonBy(id)) <= Count(q.removed, HasId(env.hash, id))
  {
    if sched != [] {
      var init, trace := sched[..|sched| - 1], sched[|sched| - 1];
      LoopReplayedLeft(env, plan, opts, p, init, id);
      var q := Loop(env, plan, opts, p, init).value;
      var c := NextConfig(env, plan, opts, q);
      var s := Run(c, Start(c, q.world), trace).value;
      ReplayedLeftTheDlq(c, q.world, trace, id);
      ZipReplays(c.ids, s.results, id);
      CountConcat(q.processed, Zip(c.ids, s.results), WonBy(id));
      CountConcat(q.removed, s.removed, HasId(env.hash, id));
    }
  }

  /** Whatever a run reports as replayed has left the DLQ and, unless somebody deletes the
      destination, has reached it. */
  lemma {:induction false} ReplayedMeansMoved(env: Env, plan: Plan, opts: Options, faults: Faults,
                                              sched: seq<seq<Action>>, w: World, id: string)
    requires BatchSize(plan, opts) >= 1 && Execute(env, plan, opts, faults, sched, w).Some?
    ensures var p := Execute(env, plan, opts, faults, sched, w).value.progress;
            && Count(p.processed, WonBy(id)) <= Count(p.removed, HasId(env.hash, id))
            && (DestinationKept(plan, sched) ==>
                  Count(p.processed, WonBy(id)) <= Count(p.delivered, HasId(env.hash, id)))
  {
    if StopReason(env, plan, opts, faults, w).None? {
      LoopReplayedLeft(env, plan, opts, Begin(env, plan, opts, w), sched, id);
    }
    if DestinationKept(plan, sched) {
      RunLosesNoId(env, plan, opts, faults, sched, w, id);
    }
  }

  lemma {:induction false} AppendAllEntries(writable: Writable, t: Tables, es: seq<Entry>, id: string)
    requires forall e :: e in es ==> e.result != Success
    ensures Count(AppendAll(writable, t, es).entries, ReplayOf(id)) == Count(t.entries, ReplayOf(id))
    ensures AppendAll(writable, t, es).snapshots == t.snapshots
  {
    if es != [] {
      AppendAllEntries(writable, t, es[..|es| - 1], id);
      CountSnoc(AppendAll(writable, t, es[..|es| - 1]).entries, es[|es| - 1], ReplayOf(id));
      assert es[|es| - 1] in es;
    }
  }

  lemma BeginEntries(env: Env, plan: Plan, opts: Options, w: World, id: string)
    ensures EntriesFollow(env, w.tables.entries, Begin(env, plan, opts, w), id)
    ensures Begin(env, plan, opts, w).world.tables.snapshots == w.tables.snapshots
  {
    forall e | e in OpeningEntries(env, plan, w) ensures e.result == Skipped { }
    AppendAllEntries(env.writable, w.tables, OpeningEntries(env, plan, w), id);
  }

  /** A run adds, for every ID, at most one success entry per replay of it, and exactly one when
      the store's writes succeed. */
  lemma RunEntries(env: Env, plan: Plan, opts: Options, faults: Faults, sched: seq<seq<Action>>, w: World, id: string)
    requires BatchSize(plan, opts) >= 1 && Execute(env, plan, opts, faults, sched, w).Some?
    ensures var f := Execute(env, plan, opts, faults, sched, w).value;
            && Count(f.world.tables.entries, ReplayOf(id))
               <= Count(w.tables.entries, ReplayOf(id)) + Count(f.progress.processed, WonBy(id))
            && ((forall n :: env.writable(n)) ==>
                  Count(f.world.tables.entries, ReplayOf(id))
                    == Count(w.tables.entries, ReplayOf(id)) + Count(f.progress.processed, WonBy(id)))
  {
    var f := Execute(env, plan, opts, faults, sched, w).value;
    if StopReason(env, plan, opts, faults, w).None? {
      BeginEntries(env, plan, opts, w, id);
      LoopEntries(env, plan, opts, Begin(env, plan, opts, w), sched, w.tables.entries, id);
      WriteAddsNoReplay(env, f.progress.world,
                        PlanEntry(plan, "", if f.progress.tripped then Tripped else Completed, ""), id);
    } else {
      WriteAddsNoReplay(env, w, PlanEntry(plan, "", Refused, ""), id);
    }
  }

  lemma WriteAddsNoReplay(env: Env, w: World, e: Entry, id: string)
    requires e.result != Success
    ensures Count(Write(env, w, e).tables.entries, ReplayOf(id)) == Count(w.tables.entries, ReplayOf(id))
  {
    CountSnoc(w.tables.entries, e, ReplayOf(id));
  }

  lemma {:induction false} WinsAtMostPositions(processed: seq<Processed>, id: string)
    ensures Count(processed, WonBy(id)) <= multiset(IdsOf(processed))[id]
  {
    if processed != [] {
      var n := |processed| - 1;
      WinsAtMostPositions(processed[..n], id);
      assert IdsOf(processed) == IdsOf(processed[..n]) + [processed[n].id];
    }
  }

  /** What a run processed is a prefix of its attempt list. */
  lemma ProcessedIsPrefix(env: Env, plan: Plan, opts: Options, w: World, sched: seq<seq<Action>>)
    requires BatchSize(plan, opts) >= 1
    ensures var p := Loop(env, plan, opts, Begin(env, plan, opts, w), sched);
            p.Some? ==> IdsOf(p.value.processed) <= AttemptList(env, plan, opts, w)
  {
    var p0 := Begin(env, plan, opts, w);
    if Loop(env, plan, opts, p0, sched).Some? {
      assert IdsOf([]) + p0.remaining == p0.remaining;
      LoopAccounted(env, plan, opts, p0, sched, p0.remaining);
    }
  }

  lemma PrefixIsFewer(s: seq<string>, t: seq<string>)
    requires s <= t
    ensures multiset(s) <= multiset(t)
  {
    assert t == s + t[|s|..];
  }

  /** The attempt list repeats no ID more often than the plan does. */
  lemma AttemptsAtMostPlanned(env: Env, plan: Plan, opts: Options, w: World)
    ensures multiset(AttemptList(env, plan, opts, w)) <= multiset(plan.messageIds)
  {
    FilterShrinks(plan.messageIds,
                  Passes(env, plan, ById(env.hash, Scanned(plan, w.queues), plan.queue), w.tables.entries));
    StillOpenShrinks(Attemptable(env, plan, w), w.tables.entries, Answers(env, w.tables.writes));
  }

  lemma {:induction false} StillOpenShrinks(ids: seq<string>, entries: seq<Entry>, answered: nat -> bool)
    ensures multiset(StillOpen(ids, entries, answered)) <= multiset(ids)
  {
    if ids != [] {
      StillOpenShrinks(ids[..|ids| - 1], entries, answered);
      assert ids == ids[..|ids| - 1] + [ids[|ids| - 1]];
    }
  }

  /** A run replays no ID more often than its plan lists it, and a plan that declares the duplicate
      check replays no ID that already has a success entry. */
  lemma {:induction false} ReplaysAtMostPlanned(env: Env, plan: Plan, opts: Options, faults: Faults,
                                                sched: seq<seq<Action>>, w: World, id: string)
    requires BatchSize(plan, opts) >= 1 && Execute(env, plan, opts, faults, sched, w).Some?
    ensures var wins := Count(Execute(env, plan, opts, faults, sched, w).value.progress.processed, WonBy(id));
            && wins <= multiset(plan.messageIds)[id]
            && (DuplicateChecked in plan.checks && Count(w.tables.entries, ReplayOf(id)) > 0 ==> wins == 0)
  {
    var processed := Execute(env, plan, opts, faults, sched, w).value.progress.processed;
    WinsAtMostPositions(processed, id);
    if StopReason(env, plan, opts, faults, w).None? {
      ProcessedIsPrefix(env, plan, opts, w, sched);
      PrefixIsFewer(IdsOf(processed), AttemptList(env, plan, opts, w));
      AttemptsAtMostPlanned(env, plan, opts, w);
      if DuplicateChecked in plan.checks && id in AttemptList(env, plan, opts, w) {
        StillOpenAmong(Attemptable(env, plan, w), w.tables.entries, Answers(env, w.tables.writes));
        NothingCompletedIsAttempted(env, plan, w, id);
      }
    }
  }

  /** So a plan with distinct IDs that declares the duplicate check replays each at most once. */
  lemma {:induction false} RunReplaysAtMostOnce(env: Env, plan: Plan, opts: Options, faults: Faults,
                                                sched: seq<seq<Action>>, w: World, id: string)
    requires BatchSize(plan, opts) >= 1 && Execute(env, plan, opts, faults, sched, w).Some?
    requires Distinct(plan.messageIds) && DuplicateChecked in plan.checks
    ensures var wins := Count(Execute(env, plan, opts, faults, sched, w).value.progress.processed, WonBy(id));
            wins <= 1 && (Count(w.tables.entries, ReplayOf(id)) > 0 ==> wins == 0)
  {
    ReplaysAtMostPlanned(env, plan, opts, faults, sched, w, id);
    DistinctOnce(plan.messageIds, id);
  }

  lemma {:induction false} DistinctOnce(ids: seq<string>, id: string)
    requires Distinct(ids)
    ensures multiset(ids)[id] <= 1
  {
    if ids != [] {
      var init, last := ids[..|ids| - 1], ids[|ids| - 1];
      assert ids == init + [last] && last !in init;
      DistinctOnce(init, id);
    }
  }

  /** After validation with the duplicate check, nothing with a prior success is left to attempt. */
  lemma NothingCompletedIsAttempted(env: Env, plan: Plan, w: World, id: string)
    requires DuplicateChecked in plan.checks && id in Attemptable(env, plan, w)
    ensures !HasEvidence(w.tables.entries, id) && Count(w.tables.entries, ReplayOf(id)) == 0
  {
    var byId := ById(env.hash, Scanned(plan, w.queues), plan.queue);
    FilterSize(plan.messageIds, Passes(env, plan, byId, w.tables.entries));
    EvidenceIsCount(w.tables.entries, id);
  }

  /** For a plan that declares the duplicate check, Resume does not change the attempt list:
      filterCompleted has nothing left to drop. */
  lemma ResumeDropsNothing(env: Env, plan: Plan, opts: Options, w: World)
    requires DuplicateChecked in plan.checks
    ensures AttemptList(env, plan, opts.(resume := true), w) == AttemptList(env, plan, opts.(resume := false), w)
  {
    forall id | id in Attemptable(env, plan, w) ensures !HasEvidence(w.tables.entries, id) {
      NothingCompletedIsAttempted(env, plan, w, id);
    }
    StillOpenAmong(Attemptable(env, plan, w), w.tables.entries, Answers(env, w.tables.writes));
  }
}
