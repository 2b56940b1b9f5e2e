// internal/recovery/executor.go, Execute: what one confirmed run does, as a function of the
// schedules of its batches, and the laws of the batch loop and the circuit breaker.
module Runs {
  import opened Seqs
  import opened Mapper
  import opened Audit
  import opened Pool
  import opened Validator

  datatype Options = Options(confirm: bool, resume: bool, batchSize: int, concurrency: int,
                             retries: int, threshold: real, pendingThreshold: int)

  const DEFAULT_FAILURE_THRESHOLD := 0.20

  function BatchSize(plan: Plan, opts: Options): int {
    if opts.batchSize <= 0 then plan.limits.batchSize else opts.batchSize
  }

  function Threshold(opts: Options): real {
    if opts.threshold <= 0.0 || opts.threshold > 1.0 then DEFAULT_FAILURE_THRESHOLD else opts.threshold
  }

  function BatchConfig(env: Env, plan: Plan, opts: Options, ids: seq<string>): Config {
    Config(env.hash, env.writable, env.clock, plan.id, plan.queue, plan.destination, ids,
           if opts.concurrency <= 0 then plan.limits.concurrency else opts.concurrency, opts.retries)
  }

  // --- Before the batches --------------------------------------------------------------------

  /** Why a run stops before it publishes, acks or audits any message. */
  function StopReason(env: Env, plan: Plan, opts: Options, faults: Faults, w: World): Option<Error> {
    if !opts.confirm then Some(ConfirmRequired)
    else if plan.checks == [] then Some(NoSafetyChecks)
    else if plan.destination != "" && faults.probe then Some(ProbeFailed)
    else if plan.destination != "" && plan.destination !in w.queues then Some(DestinationMissing)
    else if faults.badRate then Some(BadRateLimit)
    else ValidationError(env, plan, faults, w.queues)
  }

  function PlanEntry(plan: Plan, id: string, r: Result, detail: string): Entry {
    Entry(Recover, plan.id, id, plan.queue, plan.destination, true, r, detail)
  }

  function Detail(r: SkipReason): string {
    match r
    case NotFound => "not_found_in_queue"
    case Invalid => "payload does not parse as JSON"
    case Duplicate => "prior replay found in audit trail"
  }

  /** The entries written before the first batch: validation skips, then planned exclusions. */
  function OpeningEntries(env: Env, plan: Plan, w: World): seq<Entry> {
    var skips := Skips(env, plan, w.queues, w.tables.entries);
    Map(skips, (s: SkippedMessage) => PlanEntry(plan, s.messageId, Skipped, Detail(s.reason)))
    + Map(plan.excluded, (x: Excluded) => PlanEntry(plan, x.messageId, Skipped, x.reason))
  }

  function Attemptable(env: Env, plan: Plan, w: World): seq<string> {
    Attempt(env, plan, ById(env.hash, Scanned(plan, w.queues), plan.queue), w.tables.entries)
  }

  predicate HasEvidence(entries: seq<Entry>, id: string) {
    |ReplayedEntries(entries, id)| > 0
  }

  function Uncompleted(entries: seq<Entry>): string -> bool {
    id => !HasEvidence(entries, id)
  }

  /** An ID stays unless its query is answered and finds a prior replay. */
  function StillOpen(ids: seq<string>, entries: seq<Entry>, answered: nat -> bool): seq<string> {
    if ids == [] then []
    else
      var n := |ids| - 1;
      StillOpen(ids[..n], entries, answered) + (if answered(n) && HasEvidence(entries, ids[n]) then [] else [ids[n]])
  }

  function Answers(env: Env, writes: nat): nat -> bool {
    (i: nat) => env.answered(writes, i)
  }

  /** The IDs the batches will be cut from. */
  function AttemptList(env: Env, plan: Plan, opts: Options, w: World): seq<string> {
    var attempt := Attemptable(env, plan, w);
    if opts.resume then StillOpen(attempt, w.tables.entries, Answers(env, w.tables.writes)) else attempt
  }

  // --- The batch loop ------------------------------------------------------------------------

  /** One processed position of the attempt list. */
  datatype Processed = Processed(id: string, outcome: Option<Outcome>)

  /** The loop's variables; `processed`, `removed`, `delivered`, `last` and `lastFailed` are history. */
  datatype Progress = Progress(world: World, remaining: seq<string>, replayed: nat, failed: nat, ackFailed: nat,
                               tripped: bool, processed: seq<Processed>, removed: seq<Delivery>,
                               delivered: seq<Delivery>, last: nat, lastFailed: nat)

  function Zip(ids: seq<string>, results: seq<Option<Outcome>>): (z: seq<Processed>)
    requires |ids| == |results|
    ensures |z| == |ids| && forall i :: 0 <= i < |ids| ==> z[i] == Processed(ids[i], results[i])
  {
    seq(|ids|, i requires 0 <= i < |ids| => Processed(ids[i], results[i]))
  }

  function NextBatch(plan: Plan, opts: Options, p: Progress): (n: nat)
    requires BatchSize(plan, opts) >= 1
    ensures n <= |p.remaining| && (p.remaining != [] ==> n >= 1)
  {
    if |p.remaining| < BatchSize(plan, opts) then |p.remaining| else BatchSize(plan, opts)
  }

  function NextConfig(env: Env, plan: Plan, opts: Options, p: Progress): Config
    requires BatchSize(plan, opts) >= 1
  {
    BatchConfig(env, plan, opts, p.remaining[..NextBatch(plan, opts, p)])
  }

  /** The loop goes round again, and `trace` is a schedule of the batch that runs to its tally. */
  predicate BatchRuns(env: Env, plan: Plan, opts: Options, p: Progress, trace: seq<Action>)
    requires BatchSize(plan, opts) >= 1
  {
    var c := NextConfig(env, plan, opts, p);
    && !p.tripped && p.remaining != []
    && Run(c, Start(c, p.world), trace).Some?
    && Run(c, Start(c, p.world), trace).value.feeder.Tallied?
    && |Run(c, Start(c, p.world), trace).value.results| == |c.ids|
  }

  function AfterBatch(env: Env, plan: Plan, opts: Options, p: Progress, trace: seq<Action>): Progress
    requires BatchSize(plan, opts) >= 1 && BatchRuns(env, plan, opts, p, trace)
  {
    var n := NextBatch(plan, opts, p);
    var c := NextConfig(env, plan, opts, p);
    var s := Run(c, Start(c, p.world), trace).value;
    var t := s.feeder.tally;
    Progress(s.world, p.remaining[n..], p.replayed + t.replayed, p.failed + t.publishFailures,
             p.ackFailed + t.ackFailures, t.publishFailures as real / n as real > Threshold(opts),
             p.processed + Zip(c.ids, s.results), p.removed + s.removed, p.delivered + s.delivered,
             n, t.publishFailures)
  }

  /** The loop after the batches whose schedules are given, if it gets that far. */
  function Loop(env: Env, plan: Plan, opts: Options, p: Progress, sched: seq<seq<Action>>): Option<Progress>
    requires BatchSize(plan, opts) >= 1
  {
    if sched == [] then Some(p)
    else
      var before := Loop(env, plan, opts, p, sched[..|sched| - 1]);
      if before.Some? && BatchRuns(env, plan, opts, before.value, sched[|sched| - 1])
      then Some(AfterBatch(env, plan, opts, before.value, sched[|sched| - 1]))
      else None
  }

  predicate Ended(p: Progress) {
    p.tripped || p.remaining == []
  }

  // --- The whole run -------------------------------------------------------------------------

  datatype ExecutionResult = ExecutionResult(selected: nat, replayed: nat, skipped: int, excluded: nat, failed: nat,
                                             newDlqEntries: nat, tripped: bool, remaining: seq<string>)

  datatype Verdict = Done(result: ExecutionResult) | Stopped(error: Error)

  datatype Final = Final(world: World, verdict: Verdict, progress: Progress)

  function Write(env: Env, w: World, e: Entry): World {
    w.(tables := Append(env.writable, w.tables, e))
  }

  function Begin(env: Env, plan: Plan, opts: Options, w: World): Progress {
    Progress(w.(tables := AppendAll(env.writable, w.tables, OpeningEntries(env, plan, w))),
             AttemptList(env, plan, opts, w), 0, 0, 0, false, [], [], [], 0, 0)
  }

  function ResultOf(env: Env, plan: Plan, opts: Options, w: World, p: Progress): ExecutionResult {
    ExecutionResult(|plan.messageIds|, p.replayed,
                    |Skips(env, plan, w.queues, w.tables.entries)|
                    + |Attemptable(env, plan, w)| - |AttemptList(env, plan, opts, w)|,
                    |plan.excluded|, p.failed, p.ackFailed, p.tripped,
                    if p.tripped then p.remaining else [])
  }

  /** One run of Execute under a schedule: None if the schedule is not one of this run. */
  function Execute(env: Env, plan: Plan, opts: Options, faults: Faults, sched: seq<seq<Action>>,
                   w: World): Option<Final>
    requires BatchSize(plan, opts) >= 1
  {
    var stop := StopReason(env, plan, opts, faults, w);
    if stop.Some? then
      if sched != [] then None
      else Some(Final(if stop.value == DestinationMissing then Write(env, w, PlanEntry(plan, "", Refused, "")) else w,
                      Stopped(stop.value), Progress(w, [], 0, 0, 0, false, [], [], [], 0, 0)))
    else
      var p := Loop(env, plan, opts, Begin(env, plan, opts, w), sched);
      if p.None? || !Ended(p.value) then None
      else Some(Final(Write(env, p.value.world,
                            PlanEntry(plan, "", if p.value.tripped then Tripped else Completed, "")),
                      Done(ResultOf(env, plan, opts, w, p.value)), p.value))
  }
}
