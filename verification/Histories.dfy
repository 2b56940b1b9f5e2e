// Sequences of confirmed runs, and their reversal: internal/recovery/rollback.go.
module Histories {
  import opened Seqs
  import opened Mapper
  import opened Audit
  import opened Pool
  import opened PoolSafety
  import opened PoolLedger
  import opened PoolReversal
  import opened Validator
  import opened Runs
  import opened RunLaws

  datatype Invocation = Invocation(plan: Plan, opts: Options, faults: Faults, sched: seq<seq<Action>>)

  /** What an operator does: a run of a plan, or a rollback of one. */
  datatype Event =
    | Recovering(run: Invocation)
    | RollingBack(planId: string, confirm: bool, probeFails: bool, outcomes: seq<Publication>)

  predicate Runnable(h: seq<Event>) {
    forall x :: x in h && x.Recovering? ==> BatchSize(x.run.plan, x.run.opts) >= 1
  }

  function RunOne(env: Env, x: Invocation, w: World): Option<Final>
    requires BatchSize(x.plan, x.opts) >= 1
  {
    Execute(env, x.plan, x.opts, x.faults, x.sched, w)
  }

  /** The world after one event, if its schedule or its outcomes are possible. */
  function After(env: Env, x: Event, w: World): Option<World>
    requires x.Recovering? ==> BatchSize(x.run.plan, x.run.opts) >= 1
  {
    match x
    case Recovering(run) =>
      var f := RunOne(env, run, w);
      if f.None? then None else Some(f.value.world)
    case RollingBack(planId, confirm, probeFails, outcomes) =>
      var snaps := Filter(w.tables.snapshots, IsOfPlan(planId));
      if |snaps| != |outcomes| then None
      else
        var r := Undo(env, w, snaps, confirm, probeFails, outcomes);
        if r.None? then None else Some(r.value.0)
  }

  /** The world after a sequence of events, if all of them are possible. */
  function History(env: Env, h: seq<Event>, w: World): Option<World>
    requires Runnable(h)
  {
    if h == [] then Some(w)
    else
      var before := History(env, h[..|h| - 1], w);
      if before.None? then None else After(env, h[|h| - 1], before.value)
  }

  /** How many times an ID was replayed, over all the runs. */
  function TotalReplays(env: Env, h: seq<Event>, w: World, id: string): nat
    requires Runnable(h) && History(env, h, w).Some?
  {
    if h == [] then 0
    else
      var init, x := h[..|h| - 1], h[|h| - 1];
      TotalReplays(env, init, w, id)
      + (if x.Recovering?
         then Count(RunOne(env, x.run, History(env, init, w).value).value.progress.processed, WonBy(id)) else 0)
  }

  /** What is not confirmed changes nothing: neither a run nor a rollback. */
  lemma {:induction false} UnconfirmedIsHarmless(env: Env, h: seq<Event>, w: World)
    requires Runnable(h) && forall x :: x in h ==> if x.Recovering? then !x.run.opts.confirm else !x.confirm
    ensures History(env, h, w).Some? ==> History(env, h, w).value == w
  {
    if h != [] {
      assert h[|h| - 1] in h;
      UnconfirmedIsHarmless(env, h[..|h| - 1], w);
    }
  }

  // --- At most one success -------------------------------------------------------------------

  /** A plan that checks for duplicates and lists the ID at most `m` times. */
  predicate ListsAtMost(x: Invocation, id: string, m: nat) {
    DuplicateChecked in x.plan.checks && multiset(x.plan.messageIds)[id] <= m
  }

  /** Over any sequence of such runs and of rollbacks, from an empty store, the ID gets at most `m`
      success entries, and when the store's writes succeed it is replayed just as often: what a
      rollback has put back is not replayed again. */
  lemma {:induction false} SuccessesAtMostListed(env: Env, h: seq<Event>, w: World, id: string, m: nat)
    requires Runnable(h) && History(env, h, w).Some? && w.tables == EMPTY
    requires forall x :: x in h && x.Recovering? ==> ListsAtMost(x.run, id, m)
    ensures Count(History(env, h, w).value.tables.entries, ReplayOf(id)) <= m
    ensures (forall n :: env.writable(n)) ==>
              Count(History(env, h, w).value.tables.entries, ReplayOf(id)) == TotalReplays(env, h, w, id)
  {
    if h != [] {
      var init, x := h[..|h| - 1], h[|h| - 1];
      SuccessesAtMostListed(env, init, w, id, m);
      var v := History(env, init, w).value;
      assert x in h;
      if x.Recovering? {
        RunEntries(env, x.run.plan, x.run.opts, x.run.faults, x.run.sched, v, id);
        ReplaysAtMostPlanned(env, x.run.plan, x.run.opts, x.run.faults, x.run.sched, v, id);
      } else {
        UndoAddsNoReplay(env, v, Filter(v.tables.snapshots, IsOfPlan(x.planId)), x.confirm, x.probeFails,
                         x.outcomes, id);
      }
    }
  }

  /** The plan rules out repeats: distinct IDs, and the duplicate check declared. */
  predicate RulesOutRepeats(x: Invocation) {
    Distinct(x.plan.messageIds) && DuplicateChecked in x.plan.checks
  }

  /** With distinct IDs no ID gets two success entries, over any sequence of runs and rollbacks. */
  lemma {:induction false} AtMostOneSuccess(env: Env, h: seq<Event>, w: World, id: string)
    requires Runnable(h) && History(env, h, w).Some? && w.tables == EMPTY
    requires forall x :: x in h && x.Recovering? ==> RulesOutRepeats(x.run)
    ensures Count(History(env, h, w).value.tables.entries, ReplayOf(id)) <= 1
    ensures (forall n :: env.writable(n)) ==>
              Count(History(env, h, w).value.tables.entries, ReplayOf(id)) == TotalReplays(env, h, w, id)
  {
    forall x | x in h && x.Recovering? ensures ListsAtMost(x.run, id, 1) {
      DistinctOnce(x.run.plan.messageIds, id);
    }
    SuccessesAtMostListed(env, h, w, id, 1);
  }

  // --- What the runs of one plan keep for a rollback -----------------------------------------

  predicate CleanSchedule(dlq: string, sched: seq<seq<Action>>) {
    forall trace, a :: trace in sched && a in trace ==> Clean(dlq, a)
  }

  /** Key by key, the plan's DLQ and the snapshots together hold what the DLQ held; every snapshot
      is this plan's; equal planned IDs still mean equal contents. */
  ghost predicate Reversible(env: Env, plan: Plan, f: string -> Content, q0: seq<Delivery>, w: World) {
    && (forall key :: Count(QueueOf(w.queues, plan.queue), InQueue(env.hash, key))
          + Count(w.tables.snapshots, Snapped(key))
                      == Count(q0, InQueue(env.hash, key)))
    && QueueAgrees(env.hash, Scope(plan), f, Whole(), QueueOf(w.queues, plan.queue))
    && (forall s :: s in w.tables.snapshots ==> SnapshotOf(plan.id, plan.queue, plan.destination, s))
  }

  lemma BatchReversible(env: Env, plan: Plan, opts: Options, f: string -> Content, q0: seq<Delivery>, p: Progress,
                        trace: seq<Action>)
    requires BatchSize(plan, opts) >= 1 && BatchRuns(env, plan, opts, p, trace)
    requires Reversible(env, plan, f, q0, p.world) && Covers(Scope(plan), p.remaining)
    requires plan.queue != plan.destination && (forall n :: env.writable(n))
    requires forall a :: a in trace ==> Clean(plan.queue, a)
    ensures Reversible(env, plan, f, q0, AfterBatch(env, plan, opts, p, trace).world)
    ensures Covers(Scope(plan), AfterBatch(env, plan, opts, p, trace).remaining)
  {
    var c := NextConfig(env, plan, opts, p);
    forall key ensures
      Count(QueueOf(Run(c, Start(c, p.world), trace).value.world.queues, c.dlq), InQueue(c.hash, key))
      + Count(Run(c, Start(c, p.world), trace).value.world.tables.snapshots, Snapped(key))
      == Count(q0, InQueue(env.hash, key))
    {
      SnapshotsReplaceRemovals(c, Scope(plan), f, p.world, trace, key);
    }
    RunAgrees(c, Scope(plan), f, Whole(), p.world, trace);
    RunSnapshotsOf(c, p.world, trace);
  }

  lemma {:induction false} LoopReversible(env: Env, plan: Plan, opts: Options, f: string -> Content, q0: seq<Delivery>,
                                          p: Progress, sched: seq<seq<Action>>)
    requires BatchSize(plan, opts) >= 1 && Loop(env, plan, opts, p, sched).Some?
    requires Reversible(env, plan, f, q0, p.world) && Covers(Scope(plan), p.remaining)
    requires plan.queue != plan.destination && (forall n :: env.writable(n)) && CleanSchedule(plan.queue, sched)
    ensures Reversible(env, plan, f, q0, Loop(env, plan, opts, p, sched).value.world)
    ensures Covers(Scope(plan), Loop(env, plan, opts, p, sched).value.remaining)
  {
    if sched != [] {
      var init, trace := sched[..|sched| - 1], sched[|sched| - 1];
      assert trace in sched && forall t :: t in init ==> t in sched;
      LoopReversible(env, plan, opts, f, q0, p, init);
      BatchReversible(env, plan, opts, f, q0, Loop(env, plan, opts, p, init).value, trace);
    }
  }

  lemma {:induction false} RunReversible(env: Env, x: Invocation, f: string -> Content, q0: seq<Delivery>, w: World)
    requires BatchSize(x.plan, x.opts) >= 1 && RunOne(env, x, w).Some?
    requires Reversible(env, x.plan, f, q0, w)
    requires x.plan.queue != x.plan.destination && (forall n :: env.writable(n)) && CleanSchedule(x.plan.queue, x.sched)
    ensures Reversible(env, x.plan, f, q0, RunOne(env, x, w).value.world)
  {
    if StopReason(env, x.plan, x.opts, x.faults, w).None? {
      BeginEntries(env, x.plan, x.opts, w, "");
      AttemptListIsPlanned(env, x.plan, x.opts, w);
      LoopReversible(env, x.plan, x.opts, f, q0, Begin(env, x.plan, x.opts, w), x.sched);
    }
  }

  predicate RunsOf(h: seq<Event>, plan: Plan) {
    forall x :: x in h ==> x.Recovering? && x.run.plan == plan
  }

  predicate CleanRuns(h: seq<Event>) {
    forall x :: x in h && x.Recovering? ==> CleanSchedule(x.run.plan.queue, x.run.sched)
  }

  lemma {:induction false} HistoryReversible(env: Env, h: seq<Event>, plan: Plan, f: string -> Content, w: World)
    requires Runnable(h) && RunsOf(h, plan) && History(env, h, w).Some? && w.tables == EMPTY
    requires QueueAgrees(env.hash, Scope(plan), f, Whole(), QueueOf(w.queues, plan.queue))
    requires plan.queue != plan.destination && (forall n :: env.writable(n)) && CleanRuns(h)
    ensures Reversible(env, plan, f, QueueOf(w.queues, plan.queue), History(env, h, w).value)
  {
    if h != [] {
      var init, x := h[..|h| - 1], h[|h| - 1];
      assert x in h && forall y :: y in init ==> y in h;
      HistoryReversible(env, init, plan, f, w);
      RunReversible(env, x.run, f, QueueOf(w.queues, plan.queue), History(env, init, w).value);
    }
  }

  // --- Rollback --------------------------------------------------------------------------------

  /** The message a snapshot captured, carrying the replay destination in a header. */
  function SnapshotMessage(s: Snapshot): Message {
    Message(s.messageId, s.sourceQueue, s.destination, s.payload,
            if s.destination != "" then s.headers["x-destination" := s.destination] else s.headers,
            s.contentType, 0, "", "", "", s.takenAt)
  }

  function RollbackEntry(s: Snapshot, id: string, r: Result): Entry {
    Entry(Rollback, s.planId, id, s.sourceQueue, s.sourceQueue, true, r,
          if r == Failed then "publish back to the DLQ failed; the message is not restored" else "")
  }

  /** What one publish did. */
  datatype Publication = Publication(confirmed: bool, arrives: bool)

  predicate Possible(queues: map<string, seq<Delivery>>, q: string, o: Publication) {
    PublishPossible(queues, q, o.confirmed, o.arrives)
  }

  function Deliver(w: World, q: string, d: Delivery, o: Publication): World
    requires Possible(w.queues, q, o)
  {
    if o.arrives then WithQueue(w, q, w.queues[q] + [d]) else w
  }

  function Restore(env: Env, w: World, s: Snapshot, o: Publication): World
    requires Possible(w.queues, s.sourceQueue, o)
  {
    Write(env, Deliver(w, s.sourceQueue, Outgoing(SnapshotMessage(s)), o),
          RollbackEntry(s, s.messageId, if o.confirmed then Success else Failed))
  }

  /** The restore loop: None if an outcome is impossible. */
  function RestoreAll(env: Env, w: World, snaps: seq<Snapshot>, outcomes: seq<Publication>): Option<World>
    requires |snaps| == |outcomes|
  {
    if snaps == [] then Some(w)
    else
      var n := |snaps| - 1;
      var before := RestoreAll(env, w, snaps[..n], outcomes[..n]);
      if before.Some? && Possible(before.value.queues, snaps[n].sourceQueue, outcomes[n])
      then Some(Restore(env, before.value, snaps[n], outcomes[n]))
      else None
  }

  function IsConfirmed(): Publication -> bool {
    (o: Publication) => o.confirmed
  }

  datatype RollbackVerdict =
    | NoSnapshots | RollbackProbeFailed | RefusedMissing | DryRun(missingDlq: bool)
    | Restored(restored: nat, failed: nat)

  /** One rollback: the probe of the first snapshot's queue, a preview unless confirmed, the restore
      loop. None if the outcomes are impossible. */
  function Undo(env: Env, w: World, snaps: seq<Snapshot>, confirm: bool, probeFails: bool, outcomes: seq<Publication>)
    : Option<(World, RollbackVerdict)>
    requires |snaps| == |outcomes|
  {
    if snaps == [] then Some((w, NoSnapshots))
    else if probeFails then Some((w, RollbackProbeFailed))
    else if !confirm then Some((w, DryRun(snaps[0].sourceQueue !in w.queues)))
    else if snaps[0].sourceQueue !in w.queues then
      Some((Write(env, w, RollbackEntry(snaps[0], "", Refused)), RefusedMissing))
    else
      var r := RestoreAll(env, w, snaps, outcomes);
      var n := Count(outcomes, IsConfirmed());
      if r.None? || n > |snaps| then None
      else Some((Write(env, r.value, RollbackEntry(snaps[0], "", Completed)), Restored(n, |snaps| - n)))
  }

  lemma {:induction false} RestoreAllAddsNoReplay(env: Env, w: World, snaps: seq<Snapshot>, outcomes: seq<Publication>,
                                                  id: string)
    requires |snaps| == |outcomes| && RestoreAll(env, w, snaps, outcomes).Some?
    ensures var v := RestoreAll(env, w, snaps, outcomes).value;
            && Count(v.tables.entries, ReplayOf(id)) == Count(w.tables.entries, ReplayOf(id))
            && v.tables.snapshots == w.tables.snapshots && v.queues.Keys == w.queues.Keys
  {
    if snaps != [] {
      var n := |snaps| - 1;
      RestoreAllAddsNoReplay(env, w, snaps[..n], outcomes[..n], id);
      var v := RestoreAll(env, w, snaps[..n], outcomes[..n]).value;
      var e := RollbackEntry(snaps[n], snaps[n].messageId, if outcomes[n].confirmed then Success else Failed);
      CountSnoc(v.tables.entries, e, ReplayOf(id));
    }
  }

  /** A rollback leaves no duplicate evidence, takes no snapshot and neither makes nor deletes a
      queue. */
  lemma UndoAddsNoReplay(env: Env, w: World, snaps: seq<Snapshot>, confirm: bool, probeFails: bool,
                         outcomes: seq<Publication>, id: string)
    requires |snaps| == |outcomes| && Undo(env, w, snaps, confirm, probeFails, outcomes).Some?
    ensures var v := Undo(env, w, snaps, confirm, probeFails, outcomes).value.0;
            && Count(v.tables.entries, ReplayOf(id)) == Count(w.tables.entries, ReplayOf(id))
            && v.tables.snapshots == w.tables.snapshots && v.queues.Keys == w.queues.Keys
  {
    if RestoreAll(env, w, snaps, outcomes).Some? {
      RestoreAllAddsNoReplay(env, w, snaps, outcomes, id);
      if snaps != [] {
        CountSnoc(RestoreAll(env, w, snaps, outcomes).value.tables.entries, RollbackEntry(snaps[0], "", Completed),
                  ReplayOf(id));
      }
    }
    if snaps != [] {
      CountSnoc(w.tables.entries, RollbackEntry(snaps[0], "", Refused), ReplayOf(id));
    }
  }

  lemma RestoreSnoc(env: Env, start: World, snaps: seq<Snapshot>, outcomes: seq<Publication>, w: World, s: Snapshot,
                    o: Publication)
    requires |snaps| == |outcomes| && RestoreAll(env, start, snaps, outcomes) == Some(w)
    requires Possible(w.queues, s.sourceQueue, o)
    ensures RestoreAll(env, start, snaps + [s], outcomes + [o]) == Some(Restore(env, w, s, o))
  {
    assert (snaps + [s])[..|snaps|] == snaps && (outcomes + [o])[..|snaps|] == outcomes;
  }

  lemma RestoredKey(hash: Hash, s: Snapshot)
    requires s.messageId != ""
    ensures DeliveryKey(hash, Outgoing(SnapshotMessage(s))) == SnapshotKey(s)
  {
    OutgoingKeepsId(hash, SnapshotMessage(s));
  }

  /** A restored DLQ entry reads back as the message that was replayed, with all its application
      headers, dated when it was replayed and bound for the destination it was replayed to. */
  lemma RestoredReadsBack(hash: Hash, s: Snapshot, queue: string)
    requires s.messageId != ""
    ensures var m := ToMessage(hash, Outgoing(SnapshotMessage(s)), queue);
            && m.id == s.messageId && m.payload == s.payload && m.contentType == s.contentType
            && m.headers == Stripped(if s.destination != ""
                 then s.headers["x-destination" := s.destination] else s.headers)
            && (s.destination != "" ==> m.destination == s.destination)
            && m.timestamp == s.takenAt && m.retryCount == 0 && m.failureReason == ""
  {
    PublishThenRead(hash, SnapshotMessage(s), queue);
  }

  /** The entry about one restored message. */
  predicate IsRestoreOf(e: Entry, s: Snapshot, o: Publication) {
    && e.action == Operation.Rollback && e.planId == s.planId && e.messageId == s.messageId
    && e.sourceQueue == s.sourceQueue && e.destination == s.sourceQueue && e.confirmed
    && e.result == if o.confirmed then Success else Failed
  }

  function IsSuccess(): Entry -> bool {
    (e: Entry) => e.result == Success
  }

  /** Entries against snapshots and outcomes, one each, in order. */
  predicate Narrates(es: seq<Entry>, snaps: seq<Snapshot>, outcomes: seq<Publication>) {
    |es| == |snaps| == |outcomes| && forall i :: 0 <= i < |es| ==> IsRestoreOf(es[i], snaps[i], outcomes[i])
  }

  /** A queue that has grown at its end, by some messages at least and some at most. */
  predicate GrownBy(before: World, after: World, q: string, least: int, most: int) {
    && q in before.queues && q in after.queues && before.queues[q] <= after.queues[q]
    && least <= |after.queues[q]| - |before.queues[q]| <= most
  }

  /** With working writes the restore loop leaves one entry per snapshot, in order. */
  lemma {:induction false} RestoreEntries(env: Env, w: World, snaps: seq<Snapshot>, outcomes: seq<Publication>)
    returns (es: seq<Entry>)
    requires |snaps| == |outcomes| && RestoreAll(env, w, snaps, outcomes).Some? && forall n :: env.writable(n)
    ensures Narrates(es, snaps, outcomes)
    ensures RestoreAll(env, w, snaps, outcomes).value.tables.entries == w.tables.entries + es
  {
    es := [];
    if snaps != [] {
      var n := |snaps| - 1;
      var before := RestoreEntries(env, w, snaps[..n], outcomes[..n]);
      var e := RestoreEntry(env, RestoreAll(env, w, snaps[..n], outcomes[..n]).value, snaps[n], outcomes[n]);
      NarratesSnoc(before, snaps, outcomes, e);
      es := before + [e];
    }
  }

  lemma RestoreEntry(env: Env, w: World, s: Snapshot, o: Publication) returns (e: Entry)
    requires Possible(w.queues, s.sourceQueue, o) && forall n :: env.writable(n)
    ensures IsRestoreOf(e, s, o) && Restore(env, w, s, o).tables.entries == w.tables.entries + [e]
  {
    e := RollbackEntry(s, s.messageId, if o.confirmed then Success else Failed);
  }

  lemma {:induction false} RestoreGrows(env: Env, w: World, snaps: seq<Snapshot>, outcomes: seq<Publication>,
                                        dlq: string)
    requires |snaps| == |outcomes| && RestoreAll(env, w, snaps, outcomes).Some?
    requires dlq in w.queues && forall s :: s in snaps ==> s.sourceQueue == dlq
    ensures GrownBy(w, RestoreAll(env, w, snaps, outcomes).value, dlq, Count(outcomes, IsConfirmed()), |snaps|)
  {
    if snaps != [] {
      var n := |snaps| - 1;
      assert snaps[n] in snaps && forall s :: s in snaps[..n] ==> s in snaps;
      RestoreGrows(env, w, snaps[..n], outcomes[..n], dlq);
      var mid := RestoreAll(env, w, snaps[..n], outcomes[..n]).value;
      RestoreGrowsOne(env, mid, snaps[n], outcomes[n], dlq);
      GrowsOn(w, mid, Restore(env, mid, snaps[n], outcomes[n]), dlq, Count(outcomes[..n], IsConfirmed()), n,
              if outcomes[n].confirmed then 1 else 0, 1);
    }
  }

  lemma RestoreGrowsOne(env: Env, w: World, s: Snapshot, o: Publication, dlq: string)
    requires Possible(w.queues, dlq, o) && s.sourceQueue == dlq && dlq in w.queues
    ensures GrownBy(w, Restore(env, w, s, o), dlq, if o.confirmed then 1 else 0, 1)
  {
  }

  lemma GrowsOn(a: World, b: World, c: World, q: string, l: int, m: int, l2: int, m2: int)
    requires GrownBy(a, b, q, l, m) && GrownBy(b, c, q, l2, m2)
    ensures GrownBy(a, c, q, l + l2, m + m2)
  {
  }

  lemma {:induction false} SuccessesAreConfirmed(es: seq<Entry>, snaps: seq<Snapshot>, outcomes: seq<Publication>)
    requires Narrates(es, snaps, outcomes)
    ensures Count(es, IsSuccess()) == Count(outcomes, IsConfirmed())
  {
    if es != [] {
      var n := |es| - 1;
      assert IsRestoreOf(es[n], snaps[n], outcomes[n]);
      SuccessesAreConfirmed(es[..n], snaps[..n], outcomes[..n]);
    }
  }

  lemma NarratesSnoc(es: seq<Entry>, snaps: seq<Snapshot>, outcomes: seq<Publication>, e: Entry)
    requires |snaps| == |outcomes| == |es| + 1 && Narrates(es, snaps[..|es|], outcomes[..|es|])
    requires IsRestoreOf(e, snaps[|es|], outcomes[|es|])
    ensures Narrates(es + [e], snaps, outcomes)
  {
    forall i | 0 <= i < |es| ensures IsRestoreOf((es + [e])[i], snaps[i], outcomes[i]) {
      assert IsRestoreOf(es[i], snaps[..|es|][i], outcomes[..|es|][i]);
    }
  }

  /** What a confirmed rollback reports is what it did. */
  lemma {:induction false} RollbackReports(env: Env, w: World, snaps: seq<Snapshot>, outcomes: seq<Publication>,
                                           dlq: string) returns (es: seq<Entry>, end: Entry)
    requires |snaps| == |outcomes| && snaps != [] && Undo(env, w, snaps, true, false, outcomes).Some?
    requires dlq in w.queues && (forall s :: s in snaps ==> s.sourceQueue == dlq) && forall n :: env.writable(n)
    ensures Narrates(es, snaps, outcomes)
    ensures end.action == Operation.Rollback && end.planId == snaps[0].planId && end.messageId == ""
            && end.result == Completed
    ensures var (v, verdict) := Undo(env, w, snaps, true, false, outcomes).value;
            && verdict.Restored? && v.tables.entries == w.tables.entries + es + [end]
            && verdict.restored == Count(es, IsSuccess()) && verdict.failed == |es| - verdict.restored
            && GrownBy(w, v, dlq, verdict.restored, |snaps|)
  {
    assert snaps[0] in snaps;
    UndoIsRestore(env, w, snaps, dlq, outcomes);
    es := RestoreEntries(env, w, snaps, outcomes);
    RestoreGrows(env, w, snaps, outcomes, dlq);
    SuccessesAreConfirmed(es, snaps, outcomes);
    end := RollbackEntry(snaps[0], "", Completed);
  }

  lemma {:induction false} RestoreAllKeys(env: Env, w: World, snaps: seq<Snapshot>, outcomes: seq<Publication>,
                                          dlq: string, key: Key)
    requires |snaps| == |outcomes| && RestoreAll(env, w, snaps, outcomes).Some? && dlq in w.queues
    requires forall s :: s in snaps ==> s.sourceQueue == dlq && s.messageId != ""
    requires forall o :: o in outcomes ==> o.confirmed
    ensures var v := RestoreAll(env, w, snaps, outcomes).value;
            && dlq in v.queues
            && Count(v.queues[dlq], InQueue(env.hash, key))
                 == Count(w.queues[dlq], InQueue(env.hash, key)) + Count(snaps, Snapped(key))
  {
    if snaps != [] {
      var n := |snaps| - 1;
      var s := snaps[n];
      assert s in snaps && outcomes[n] in outcomes;
      RestoreAllKeys(env, w, snaps[..n], outcomes[..n], dlq, key);
      var v := RestoreAll(env, w, snaps[..n], outcomes[..n]).value;
      RestoredKey(env.hash, s);
      CountSnoc(v.queues[dlq], Outgoing(SnapshotMessage(s)), InQueue(env.hash, key));
    }
  }

  ghost function Keys(hash: Hash, q: seq<Delivery>): multiset<Key> {
    multiset(Map(q, d => DeliveryKey(hash, d)))
  }

  lemma KeysAreCounts(hash: Hash, q: seq<Delivery>, key: Key)
    ensures Keys(hash, q)[key] == Count(q, InQueue(hash, key))
  {
    MultisetOfMap(q, d => DeliveryKey(hash, d), key, InQueue(hash, key));
  }

  /** Restoring every snapshot of a reversible world gives the DLQ's keys back. */
  lemma {:induction false} RestoreReversible(env: Env, plan: Plan, f: string -> Content, q0: seq<Delivery>, v: World,
                                             outcomes: seq<Publication>)
    requires Reversible(env, plan, f, q0, v) && plan.queue in v.queues
    requires |v.tables.snapshots| == |outcomes| && RestoreAll(env, v, v.tables.snapshots, outcomes).Some?
    requires forall o :: o in outcomes ==> o.confirmed
    ensures var u := RestoreAll(env, v, v.tables.snapshots, outcomes).value;
            plan.queue in u.queues && Keys(env.hash, u.queues[plan.queue]) == Keys(env.hash, q0)
  {
    var snaps := v.tables.snapshots;
    var u := RestoreAll(env, v, snaps, outcomes).value;
    RestoreAllKeys(env, v, snaps, outcomes, plan.queue, Key("", Content("", "", map[])));
    forall key: Key ensures Keys(env.hash, u.queues[plan.queue])[key] == Keys(env.hash, q0)[key] {
      RestoreAllKeys(env, v, snaps, outcomes, plan.queue, key);
      KeysAreCounts(env.hash, u.queues[plan.queue], key);
      KeysAreCounts(env.hash, q0, key);
    }
  }

  /** All snapshots in a reversible world are the plan's. */
  lemma PlanSnapshots(env: Env, plan: Plan, f: string -> Content, q0: seq<Delivery>, v: World)
    requires Reversible(env, plan, f, q0, v)
    ensures Filter(v.tables.snapshots, IsOfPlan(plan.id)) == v.tables.snapshots
    ensures forall s :: s in v.tables.snapshots ==>
              ToMessage(env.hash, Outgoing(SnapshotMessage(s)), plan.queue).destination == plan.destination
  {
    FilterAll(v.tables.snapshots, IsOfPlan(plan.id));
    forall s | s in v.tables.snapshots
      ensures ToMessage(env.hash, Outgoing(SnapshotMessage(s)), plan.queue).destination == plan.destination
    {
      RestoredReadsBack(env.hash, s, plan.queue);
    }
  }

  /** Recover, in any number of runs of one plan, then roll back: if every publish of the rollback
      is confirmed, the DLQ again holds the original multiset of (ID, payload, content type), and
      every restored message is bound for the plan's destination. */
  lemma {:induction false} RollbackRestoresTheDlq(env: Env, h: seq<Event>, plan: Plan, f: string -> Content, w: World,
                                                  outcomes: seq<Publication>)
    requires Runnable(h) && RunsOf(h, plan) && History(env, h, w).Some? && w.tables == EMPTY
    requires QueueAgrees(env.hash, Scope(plan), f, Whole(), QueueOf(w.queues, plan.queue))
    requires plan.queue != plan.destination && (forall n :: env.writable(n)) && CleanRuns(h)
    ensures plan.queue in w.queues ==> RolledBack(env, plan, w.queues[plan.queue], History(env, h, w).value, outcomes)
  {
    if plan.queue in w.queues {
      var v := History(env, h, w).value;
      HistoryReversible(env, h, plan, f, w);
      forall x | x in h && x.Recovering? ensures LeftAlone(plan.queue, x.run.sched) {
        CleanLeavesAlone(plan.queue, x.run.sched);
      }
      HistoryQueues(env, h, w, plan.queue);
      UndoReversible(env, plan, f, w.queues[plan.queue], v, outcomes);
    }
  }

  lemma {:induction false} UndoReversible(env: Env, plan: Plan, f: string -> Content, q0: seq<Delivery>, v: World,
                                          outcomes: seq<Publication>)
    requires Reversible(env, plan, f, q0, v) && plan.queue in v.queues
    ensures RolledBack(env, plan, q0, v, outcomes)
  {
    PlanSnapshots(env, plan, f, q0, v);
    var snaps := v.tables.snapshots;
    if && |snaps| == |outcomes| && Undo(env, v, snaps, true, false, outcomes).Some?
       && forall o :: o in outcomes ==> o.confirmed
    {
      UndoIsRestore(env, v, snaps, plan.queue, outcomes);
      RestoreReversible(env, plan, f, q0, v, outcomes);
    }
  }

  /** A confirmed rollback to an existing queue restores every snapshot. */
  lemma UndoIsRestore(env: Env, v: World, snaps: seq<Snapshot>, dlq: string, outcomes: seq<Publication>)
    requires |snaps| == |outcomes| && Undo(env, v, snaps, true, false, outcomes).Some?
    requires dlq in v.queues && forall s :: s in snaps ==> s.sourceQueue == dlq
    ensures RestoreAll(env, v, snaps, outcomes).Some?
    ensures Undo(env, v, snaps, true, false, outcomes).value.0.queues
              == RestoreAll(env, v, snaps, outcomes).value.queues
  {
    if snaps != [] {
      assert snaps[0] in snaps;
    }
  }

  /** Whenever every publish of a confirmed rollback from `v` is confirmed, the queue ends up with
      the keys of `q0`. */
  ghost predicate BackAsBefore(env: Env, planId: string, dlq: string, q0: seq<Delivery>, v: World,
                               outcomes: seq<Publication>)
  {
    var u := After(env, RollingBack(planId, true, false, outcomes), v);
    u.Some? && (forall o :: o in outcomes ==> o.confirmed) ==>
      dlq in u.value.queues && Keys(env.hash, u.value.queues[dlq]) == Keys(env.hash, q0)
  }

  /** So for the plan's queue, and every restored message is bound for the plan's destination. */
  ghost predicate RolledBack(env: Env, plan: Plan, q0: seq<Delivery>, v: World, outcomes: seq<Publication>) {
    && BackAsBefore(env, plan.id, plan.queue, q0, v, outcomes)
    && forall s :: s in Filter(v.tables.snapshots, IsOfPlan(plan.id)) ==>
         ToMessage(env.hash, Outgoing(SnapshotMessage(s)), plan.queue).destination == plan.destination
  }

  // --- Exactly when a rollback restores the DLQ --------------------------------------------------

  /** Every finished clean batch, rolled back with every publish confirmed, leaves the DLQ's keys as
      they were. */
  ghost predicate AlwaysTakenBack(env: Env, c: Config, world: World)
    requires c.dlq in world.queues
  {
    forall trace, outcomes :: Finished(c, world, trace) ==>
      BackAsBefore(env, c.planId, c.dlq, world.queues[c.dlq], Run(c, Start(c, world), trace).value.world, outcomes)
  }

  /** A batch of a plan: its configuration, an empty store and a DLQ that can be published to. */
  ghost predicate FreshBatch(env: Env, c: Config, world: World) {
    && c.hash == env.hash && c.writable == env.writable
    && c.destination != "" && c.destination in world.queues && c.dlq != c.destination
    && c.dlq != "" && c.dlq in world.queues && world.tables == EMPTY
  }

  /** What a finished batch leaves for a rollback: its DLQ, and snapshots that are all its own. */
  lemma BatchLeaves(c: Config, world: World, trace: seq<Action>)
    requires Finished(c, world, trace) && world.tables == EMPTY && c.dlq in world.queues
    ensures var v := Run(c, Start(c, world), trace).value.world;
            && c.dlq in v.queues
            && (forall s :: s in v.tables.snapshots ==> SnapshotOf(c.planId, c.dlq, c.destination, s))
            && Filter(v.tables.snapshots, IsOfPlan(c.planId)) == v.tables.snapshots
  {
    forall a | a in trace && (a.Declare? || a.Delete?) ensures a.queue != c.dlq {
      assert Clean(c.dlq, a);
    }
    QueueStays(c, world, trace, c.dlq);
    RunSnapshotsOf(c, world, trace);
    FilterAll(Run(c, Start(c, world), trace).value.world.tables.snapshots, IsOfPlan(c.planId));
  }

  /** Restoring own snapshots adds them to the DLQ: afterwards it holds, per key, the balance. */
  lemma RestoredBalance(env: Env, c: Config, v: World, outcomes: seq<Publication>, key: Key)
    requires c.hash == env.hash && c.dlq in v.queues
    requires forall s :: s in v.tables.snapshots ==> SnapshotOf(c.planId, c.dlq, c.destination, s)
    requires Filter(v.tables.snapshots, IsOfPlan(c.planId)) == v.tables.snapshots
    requires forall o :: o in outcomes ==> o.confirmed
    requires After(env, RollingBack(c.planId, true, false, outcomes), v).Some?
    ensures var u := After(env, RollingBack(c.planId, true, false, outcomes), v).value;
            c.dlq in u.queues && Keys(env.hash, u.queues[c.dlq])[key] == Balance(c, v, key)
  {
    var snaps := v.tables.snapshots;
    UndoIsRestore(env, v, snaps, c.dlq, outcomes);
    RestoreAllKeys(env, v, snaps, outcomes, c.dlq, key);
    KeysAreCounts(env.hash, RestoreAll(env, v, snaps, outcomes).value.queues[c.dlq], key);
  }

  /** A rollback can succeed in full: every publish confirmed and delivered. */
  lemma {:induction false} AllCanBeConfirmed(env: Env, w: World, snaps: seq<Snapshot>, dlq: string)
    requires dlq != "" && dlq in w.queues && forall s :: s in snaps ==> s.sourceQueue == dlq
    ensures var r := RestoreAll(env, w, snaps, Confirmed(|snaps|));
            r.Some? && dlq in r.value.queues
  {
    if snaps != [] {
      var n := |snaps| - 1;
      assert snaps[n] in snaps && forall s :: s in snaps[..n] ==> s in snaps;
      AllCanBeConfirmed(env, w, snaps[..n], dlq);
      assert Confirmed(|snaps|)[..n] == Confirmed(n);
    }
  }

  function Confirmed(n: nat): (os: seq<Publication>)
    ensures |os| == n && forall i :: 0 <= i < n ==> os[i] == Publication(true, true)
  {
    seq(n, _ => Publication(true, true))
  }

  lemma FullRollbackHappens(env: Env, v: World, planId: string, dlq: string)
    requires dlq != "" && dlq in v.queues && forall s :: s in v.tables.snapshots ==> s.sourceQueue == dlq
    requires Filter(v.tables.snapshots, IsOfPlan(planId)) == v.tables.snapshots
    ensures After(env, RollingBack(planId, true, false, Confirmed(|v.tables.snapshots|)), v).Some?
  {
    var snaps := v.tables.snapshots;
    AllCanBeConfirmed(env, v, snaps, dlq);
    CountAtMost(Confirmed(|snaps|), IsConfirmed());
    if snaps != [] {
      assert snaps[0] in snaps;
    }
  }

  /** Balanced batches can be taken back. */
  lemma BalancedIsTakenBack(env: Env, c: Config, world: World, trace: seq<Action>, outcomes: seq<Publication>)
    requires FreshBatch(env, c, world) && Finished(c, world, trace)
    requires forall key :: Balance(c, Run(c, Start(c, world), trace).value.world, key) == Balance(c, world, key)
    ensures BackAsBefore(env, c.planId, c.dlq, world.queues[c.dlq], Run(c, Start(c, world), trace).value.world,
                         outcomes)
  {
    var v := Run(c, Start(c, world), trace).value.world;
    var u := After(env, RollingBack(c.planId, true, false, outcomes), v);
    BatchLeaves(c, world, trace);
    if u.Some? && forall o :: o in outcomes ==> o.confirmed {
      RestoredBalance(env, c, v, outcomes, Key("", Content("", "", map[])));
      forall key: Key ensures Keys(env.hash, u.value.queues[c.dlq])[key] == Keys(env.hash, world.queues[c.dlq])[key] {
        RestoredBalance(env, c, v, outcomes, key);
        KeysAreCounts(env.hash, world.queues[c.dlq], key);
      }
    }
  }

  /** A batch out of balance cannot, even by a rollback that succeeds in full. */
  lemma UnbalancedIsNotTakenBack(env: Env, c: Config, world: World, trace: seq<Action>, key: Key)
    requires FreshBatch(env, c, world) && Finished(c, world, trace)
    requires Balance(c, Run(c, Start(c, world), trace).value.world, key) != Balance(c, world, key)
    ensures !AlwaysTakenBack(env, c, world)
  {
    var v := Run(c, Start(c, world), trace).value.world;
    var outcomes := Confirmed(|v.tables.snapshots|);
    BatchLeaves(c, world, trace);
    FullRollbackHappens(env, v, c.planId, c.dlq);
    RestoredBalance(env, c, v, outcomes, key);
    KeysAreCounts(env.hash, world.queues[c.dlq], key);
    assert !BackAsBefore(env, c.planId, c.dlq, world.queues[c.dlq], v, outcomes);
  }

  /** From an empty store and with working writes, every finished clean batch followed by a fully
      confirmed rollback gives the DLQ its keys back if and only if deliveries that share a planned
      ID share payload and content type. */
  lemma RollbackRestoresIffIdsFixContents(env: Env, c: Config, world: World)
    requires FreshBatch(env, c, world) && forall n :: c.writable(n)
    ensures AlwaysTakenBack(env, c, world) <==> PlannedIdsFix(c, world, Whole()) || c.retries < 0
  {
    ReversibleIffIdsFixContents(c, world);
    if KeepsBalance(c, world) {
      forall trace, outcomes | Finished(c, world, trace)
        ensures BackAsBefore(env, c.planId, c.dlq, world.queues[c.dlq], Run(c, Start(c, world), trace).value.world,
                             outcomes)
      {
        BalancedIsTakenBack(env, c, world, trace, outcomes);
      }
    } else {
      var trace, key :| Finished(c, world, trace)
        && Balance(c, Run(c, Start(c, world), trace).value.world, key) != Balance(c, world, key);
      UnbalancedIsNotTakenBack(env, c, world, trace, key);
    }
  }

  /** Nobody declares or deletes the queue during the batches. */
  predicate LeftAlone(q: string, sched: seq<seq<Action>>) {
    forall trace :: trace in sched ==> Undisturbed(q, trace)
  }

  lemma {:induction false} LoopQueues(env: Env, plan: Plan, opts: Options, p: Progress, sched: seq<seq<Action>>,
                                      q: string)
    requires BatchSize(plan, opts) >= 1 && Loop(env, plan, opts, p, sched).Some? && LeftAlone(q, sched)
    ensures q in Loop(env, plan, opts, p, sched).value.world.queues <==> q in p.world.queues
  {
    if sched != [] {
      var init, trace := sched[..|sched| - 1], sched[|sched| - 1];
      assert trace in sched && forall t :: t in init ==> t in sched;
      LoopQueues(env, plan, opts, p, init, q);
      var r := Loop(env, plan, opts, p, init).value;
      QueueStays(NextConfig(env, plan, opts, r), r.world, trace, q);
    }
  }

  /** No run and no rollback creates or deletes a queue: it appears or vanishes only when somebody
      else declares or deletes it. */
  lemma {:induction false} HistoryQueues(env: Env, h: seq<Event>, w: World, q: string)
    requires Runnable(h) && forall x :: x in h && x.Recovering? ==> LeftAlone(q, x.run.sched)
    ensures History(env, h, w).Some? ==> (q in History(env, h, w).value.queues <==> q in w.queues)
  {
    if h != [] && History(env, h, w).Some? {
      var init, x := h[..|h| - 1], h[|h| - 1];
      assert x in h;
      HistoryQueues(env, init, w, q);
      var v := History(env, init, w).value;
      if x.RollingBack? {
        UndoAddsNoReplay(env, v, Filter(v.tables.snapshots, IsOfPlan(x.planId)), x.confirm, x.probeFails,
                         x.outcomes, "");
      } else if StopReason(env, x.run.plan, x.run.opts, x.run.faults, v).None? {
        LoopQueues(env, x.run.plan, x.run.opts, Begin(env, x.run.plan, x.run.opts, v), x.run.sched, q);
      }
    }
  }

  /** Clean runs leave their DLQ alone. */
  lemma CleanLeavesAlone(dlq: string, sched: seq<seq<Action>>)
    requires CleanSchedule(dlq, sched)
    ensures LeftAlone(dlq, sched)
  {
    forall trace, a | trace in sched && a in trace && (a.Declare? || a.Delete?) ensures a.queue != dlq {
      assert Clean(dlq, a);
    }
  }
}
