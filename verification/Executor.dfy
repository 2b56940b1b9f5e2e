// internal/recovery/executor.go and rollback.go as they run: the shell around the worker pool,
// the batch loop, the in-place compaction of a resumed run, and the restore loop.
module Execution {
  import opened Seqs
  import opened Mapper
  import opened Audit
  import opened Pool
  import opened PoolProgress
  import opened Validator
  import opened Admission
  import opened Runs
  import opened RunLaws
  import opened Histories

  class Executor {
    const env: Env
    const store: Store
    var queues: map<string, seq<Delivery>>

    constructor (env: Env, store: Store, queues: map<string, seq<Delivery>>)
      requires store.writable == env.writable
      ensures this.env == env && this.store == store && this.queues == queues && Wired()
    {
      this.env, this.store, this.queues := env, store, queues;
    }

    ghost predicate Wired()
      reads this
    {
      store.writable == env.writable
    }

    function View(): World
      reads this, store
    {
      World(queues, store.Contents())
    }

    method Commit(w: World)
      modifies this, store
      ensures View() == w
    {
      queues := w.queues;
      store.entries, store.snapshots, store.writes := w.tables.entries, w.tables.snapshots, w.tables.writes;
    }

    /** The tally loop after wg.Wait. */
    method TallyResults(results: seq<Option<Outcome>>) returns (t: Tally)
      ensures t == TallyOf(results)
    {
      var publishFailures, ackFailures, replayed := 0, 0, 0;
      for i := 0 to |results|
        invariant Tally(publishFailures, ackFailures, replayed) == TallyOf(results[..i])
      {
        assert results[..i + 1][..i] == results[..i];
        match results[i]
        case None =>
        case Some(Replayed) => replayed := replayed + 1;
        case Some(PublishFailed) => publishFailures := publishFailures + 1;
        case Some(AckFailed) => publishFailures, ackFailures := publishFailures + 1, ackFailures + 1;
      }
      assert results[..|results|] == results;
      t := Tally(publishFailures, ackFailures, replayed);
    }

    /** One batch under an arbitrary scheduler: any enabled action may come next, with any finite
        amount of other traffic in between. It never gets stuck and it ends. */
    method RunBatch(c: Config) returns (tally: Tally, ghost trace: seq<Pool.Action>)
      requires c.writable == env.writable && Wired()
      modifies this, store
      ensures Run(c, Start(c, old(View())), trace).Some?
      ensures var s := Run(c, Start(c, old(View())), trace).value;
              s.feeder == Tallied(tally) && s.world == View() && |s.results| == |c.ids|
    {
      ghost var w0 := View();
      var s := Start(c, View());
      trace := [];
      StartInv(c, View());
      var traffic: nat := *;
      while !s.feeder.Tallied?
        invariant View() == s.world
        invariant Run(c, Start(c, w0), trace) == Some(s) && Inv(c, s)
        decreases Measure(c, s), traffic
      {
        NoDeadlock(c, s);
        var a: Pool.Action :| Enabled(c, s, a) && (a.IsTraffic() ==> traffic > 0);
        RunSnoc(c, Start(c, w0), trace, a);
        StepOwned(c, s, a);
        StepPhased(c, s, a);
        StepDecreases(c, s, a);
        trace := trace + [a];
        s := Next(c, s, a);
        Commit(s.world);
        if a.IsTraffic() {
          traffic := traffic - 1;
        }
      }
      tally := TallyResults(s.results);
    }

    /** out := attempt[:0]; the kept IDs are written over the front of the same array. An ID whose
        query fails is kept. */
    method FilterCompleted(attempt: array<string>) returns (n: nat)
      modifies attempt
      ensures n <= attempt.Length
      ensures attempt[..n] == StillOpen(old(attempt[..]), store.entries, Answers(env, store.writes))
    {
      n := 0;
      ghost var was, entries, answered := attempt[..], store.entries, Answers(env, store.writes);
      for i := 0 to attempt.Length
        invariant 0 <= n <= i && entries == store.entries && answered == Answers(env, store.writes)
        invariant attempt[..n] == StillOpen(was[..i], entries, answered)
        invariant forall j :: i <= j < attempt.Length ==> attempt[j] == was[j]
      {
        StillOpenNext(was, i, entries, answered);
        var id := attempt[i];
        var done := AlreadyReplayed(id, i);
        if done {
          continue;
        }
        ghost var kept := attempt[..n];
        attempt[n] := id;
        assert attempt[..n + 1] == kept + [id];
        n := n + 1;
      }
      assert was[..attempt.Length] == was;
    }

    /** The query for the i-th ID, when it is answered. */
    method AlreadyReplayed(id: string, i: nat) returns (done: bool)
      ensures done == (Answers(env, store.writes)(i) && HasEvidence(store.entries, id))
    {
      if !env.answered(store.writes, i) {
        return false;
      }
      var entries := store.Replayed(id);
      EvidenceIsCount(store.entries, id);
      done := |entries| > 0;
    }

    method AppendEntries(es: seq<Entry>)
      requires Wired()
      modifies store
      ensures store.Contents() == AppendAll(env.writable, old(store.Contents()), es)
    {
      for i := 0 to |es|
        invariant store.Contents() == AppendAll(env.writable, old(store.Contents()), es[..i])
      {
        assert es[..i + 1][..i] == es[..i];
        var _ := store.AppendEntry(es[i]);
      }
      assert es[..|es|] == es;
    }

    /** The planned IDs that validation did not skip, in plan order. */
    method SelectAttempts(plan: Plan, skips: seq<SkippedMessage>) returns (attempt: seq<string>)
      requires skips == Skips(env, plan, queues, store.entries)
      ensures attempt == Attemptable(env, plan, View())
    {
      attempt := [];
      var ids := plan.messageIds;
      var skipped := SkippedIds(skips);
      ghost var byId := ById(env.hash, Scanned(plan, queues), plan.queue);
      for i := 0 to |ids|
        invariant attempt == Filter(ids[..i], Passes(env, plan, byId, store.entries))
      {
        assert ids[..i + 1][..i] == ids[..i];
        SkippedIdsDecide(env, plan, byId, store.entries, ids, ids[i]);
        if ids[i] in skipped {
          continue;
        }
        attempt := attempt + [ids[i]];
      }
      assert ids[..|ids|] == ids;
    }

    /** The loop over batches, with the breaker's early return. `p` is the loop's history. */
    method DrainBatches(plan: Plan, opts: Options, attempt: seq<string>)
      returns (replayed: nat, failed: nat, ackFailed: nat, tripped: bool, remaining: seq<string>,
               ghost p: Progress, ghost sched: seq<seq<Pool.Action>>)
      requires Wired() && BatchSize(plan, opts) >= 1
      modifies this, store
      ensures var p0 := Progress(old(View()), attempt, 0, 0, 0, false, [], [], [], 0, 0);
              Loop(env, plan, opts, p0, sched) == Some(p)
      ensures Ended(p) && p.world == View()
      ensures p.replayed == replayed && p.failed == failed && p.ackFailed == ackFailed
      ensures p.tripped == tripped && p.remaining == remaining
    {
      replayed, failed, ackFailed, tripped, remaining := 0, 0, 0, false, attempt;
      sched := [];
      ghost var p0 := Progress(View(), attempt, 0, 0, 0, false, [], [], [], 0, 0);
      p := p0;
      while |remaining| > 0 && !tripped
        invariant Loop(env, plan, opts, p0, sched) == Some(p) && p.world == View()
        invariant p.replayed == replayed && p.failed == failed && p.ackFailed == ackFailed
        invariant p.tripped == tripped && p.remaining == remaining
        decreases |remaining|
      {
        var n := BatchSize(plan, opts);
        if |remaining| < n {
          n := |remaining|;
        }
        var batch := remaining[..n];
        remaining := remaining[n..];
        ghost var trace;
        var tally;
        tally, trace := RunBatch(BatchConfig(env, plan, opts, batch));
        p := AfterBatch(env, plan, opts, p, trace);
        assert (sched + [trace])[..|sched|] == sched;
        sched := sched + [trace];
        replayed := replayed + tally.replayed;
        failed := failed + tally.publishFailures;
        ackFailed := ackFailed + tally.ackFailures;
        var rate := tally.publishFailures as real / |batch| as real;
        if rate > Threshold(opts) {
          tripped := true;
        }
      }
    }

    /** The gate, the probe and the re-validation: everything that can stop a run. */
    method Admit(plan: Plan, opts: Options, faults: Faults) returns (stop: Option<Error>, skips: seq<SkippedMessage>)
      requires Wired()
      modifies store
      ensures stop == StopReason(env, plan, opts, faults, old(View()))
      ensures View() == if stop == Some(DestinationMissing)
                        then Write(env, old(View()), PlanEntry(plan, "", Refused, "")) else old(View())
      ensures stop.None? ==> skips == Skips(env, plan, queues, store.entries)
    {
      skips := [];
      if !opts.confirm {
        return Some(ConfirmRequired), [];
      }
      if |plan.checks| == 0 {
        return Some(NoSafetyChecks), [];
      }
      if plan.destination != "" {
        if faults.probe {
          return Some(ProbeFailed), [];
        }
        if plan.destination !in queues {
          var _ := store.AppendEntry(PlanEntry(plan, "", Refused, ""));
          return Some(DestinationMissing), [];
        }
      }
      if faults.badRate {
        return Some(BadRateLimit), [];
      }
      var v := Validate(env, plan, opts.pendingThreshold, faults, queues, store);
      if v.Rejected? {
        return Some(v.error), [];
      }
      return None, v.report.skippedMessages;
    }

    /** The attempt list, compacted on resume, and the audit of what is left out. */
    method Open(plan: Plan, opts: Options, skips: seq<SkippedMessage>) returns (attempt: seq<string>, skipped: int)
      requires Wired() && skips == Skips(env, plan, queues, store.entries)
      modifies store
      ensures attempt == AttemptList(env, plan, opts, old(View()))
      ensures skipped == |skips| + |Attemptable(env, plan, old(View()))| - |attempt|
      ensures View() == Begin(env, plan, opts, old(View())).world
    {
      attempt := SelectAttempts(plan, skips);
      skipped := 0;
      if opts.resume {
        var buffer := new string[|attempt|](i requires 0 <= i < |attempt| => attempt[i]);
        assert buffer[..] == attempt;
        var n := FilterCompleted(buffer);
        skipped := |attempt| - n;
        attempt := buffer[..n];
      }
      skipped := skipped + |skips|;
      AppendEntries(Map(skips, (s: SkippedMessage) => PlanEntry(plan, s.messageId, Skipped, Detail(s.reason)))
                    + Map(plan.excluded, (x: Excluded) => PlanEntry(plan, x.messageId, Skipped, x.reason)));
    }

    /** One confirmed run. */
    method Execute(plan: Plan, opts: Options, faults: Faults)
      returns (verdict: Verdict, ghost sched: seq<seq<Pool.Action>>)
      requires Wired() && BatchSize(plan, opts) >= 1
      modifies this, store
      ensures var f := Runs.Execute(env, plan, opts, faults, sched, old(View()));
              f.Some? && f.value.world == View() && f.value.verdict == verdict
      ensures !opts.confirm ==> verdict == Stopped(ConfirmRequired) && View() == old(View())
      ensures verdict.Done? <==>
                PassesGate(plan, opts, faults, old(View())) && PassesValidation(env, plan, faults, old(View()))
      ensures verdict.Stopped? ==> StoppedBy(env, plan, opts, faults, old(View()), verdict.error)
      ensures verdict.Done? ==>
                var r := verdict.result;
                r.selected == |plan.messageIds| == r.replayed + r.failed + r.skipped + |r.remaining|
    {
      sched := [];
      ghost var w := View();
      var stop, skips := Admit(plan, opts, faults);
      if stop.Some? {
        RunsIffAdmitted(env, plan, opts, faults, [], w);
        return Stopped(stop.value), [];
      }
      var result;
      result, sched := Proceed(plan, opts, faults, skips);
      verdict := Done(result);
      RunAccounting(env, plan, opts, faults, sched, w);
      RunsIffAdmitted(env, plan, opts, faults, sched, w);
    }

    /** An admitted run: the opening entries, the batches, and the entry that closes it. */
    method Proceed(plan: Plan, opts: Options, ghost faults: Faults, skips: seq<SkippedMessage>)
      returns (result: ExecutionResult, ghost sched: seq<seq<Pool.Action>>)
      requires Wired() && BatchSize(plan, opts) >= 1
      requires StopReason(env, plan, opts, faults, View()) == None && skips == Skips(env, plan, queues, store.entries)
      modifies this, store
      ensures var f := Runs.Execute(env, plan, opts, faults, sched, old(View()));
              f.Some? && f.value.world == View() && f.value.verdict == Done(result)
    {
      var attempt, skipped := Open(plan, opts, skips);
      var replayed, failed, ackFailed, tripped, remaining;
      ghost var p;
      replayed, failed, ackFailed, tripped, remaining, p, sched := DrainBatches(plan, opts, attempt);
      var _ := store.AppendEntry(PlanEntry(plan, "", if tripped then Tripped else Completed, ""));
      result := ExecutionResult(|plan.messageIds|, replayed, skipped, |plan.excluded|, failed, ackFailed,
                                tripped, if tripped then remaining else []);
    }

    /** The restore loop of a confirmed rollback, and the probe before it. */
    method Rollback(snaps: seq<Snapshot>, confirm: bool, probeFails: bool)
      returns (verdict: RollbackVerdict, ghost outcomes: seq<Publication>)
      requires Wired()
      modifies this, store
      ensures |outcomes| == |snaps|
              && Undo(env, old(View()), snaps, confirm, probeFails, outcomes) == Some((View(), verdict))
      ensures verdict.RollbackProbeFailed? <==> snaps != [] && probeFails
      ensures verdict.DryRun? <==> snaps != [] && !probeFails && !confirm
      ensures verdict.DryRun? ==> verdict.missingDlq == (snaps[0].sourceQueue !in old(queues))
      ensures verdict.RefusedMissing? <==> snaps != [] && !probeFails && confirm && snaps[0].sourceQueue !in old(queues)
      ensures verdict.RefusedMissing? ==> View() == Write(env, old(View()), RollbackEntry(snaps[0], "", Refused))
      ensures verdict.NoSnapshots? <==> snaps == []
      ensures verdict.Restored? <==> snaps != [] && !probeFails && confirm && snaps[0].sourceQueue in old(queues)
      ensures verdict.Restored? ==>
                verdict.restored == Count(outcomes, IsConfirmed()) && verdict.restored + verdict.failed == |snaps|
      ensures !verdict.Restored? && !verdict.RefusedMissing? ==> View() == old(View())
    {
      outcomes := seq(|snaps|, _ => Publication(false, false));
      if |snaps| == 0 {
        return NoSnapshots, outcomes;
      }
      var dlq := snaps[0].sourceQueue;
      if probeFails {
        return RollbackProbeFailed, outcomes;
      }
      if dlq !in queues {
        if !confirm {
          return DryRun(true), outcomes;
        }
        var _ := store.AppendEntry(RollbackEntry(snaps[0], "", Refused));
        return RefusedMissing, outcomes;
      }
      if !confirm {
        return DryRun(false), outcomes;
      }
      verdict, outcomes := RestoreConfirmed(snaps);
    }

    method RestoreConfirmed(snaps: seq<Snapshot>) returns (verdict: RollbackVerdict, ghost outcomes: seq<Publication>)
      requires Wired() && snaps != [] && snaps[0].sourceQueue in queues
      modifies this, store
      ensures |outcomes| == |snaps| && Undo(env, old(View()), snaps, true, false, outcomes) == Some((View(), verdict))
      ensures verdict.Restored?
    {
      ghost var start := View();
      var restored, failed: nat;
      restored, failed, outcomes := RestoreLoop(snaps);
      UndoRestores(env, start, View(), snaps, outcomes, restored, failed);
      var _ := store.AppendEntry(RollbackEntry(snaps[0], "", Completed));
      verdict := Restored(restored, failed);
    }

    /** Publish one snapshot back to its queue, whatever the broker answers, and audit it. */
    method RestoreOne(s: Snapshot) returns (o: Publication)
      requires Wired()
      modifies this, store
      ensures Possible(old(queues), s.sourceQueue, o) && View() == Restore(env, old(View()), s, o)
    {
      o := BrokerPublishes(queues, s.sourceQueue);
      queues := Deliver(View(), s.sourceQueue, Outgoing(SnapshotMessage(s)), o).queues;
      var _ := store.AppendEntry(RollbackEntry(s, s.messageId, if o.confirmed then Success else Failed));
    }

    method RestoreLoop(snaps: seq<Snapshot>) returns (restored: nat, failed: nat, ghost outcomes: seq<Publication>)
      requires Wired()
      modifies this, store
      ensures RestoredSoFar(env, old(View()), View(), snaps, outcomes, restored, failed)
    {
      restored, failed, outcomes := 0, 0, [];
      ghost var start := View();
      for i := 0 to |snaps|
        invariant RestoredSoFar(env, start, View(), snaps[..i], outcomes, restored, failed)
      {
        ghost var w := View();
        var o := RestoreOne(snaps[i]);
        OneMoreRestored(env, start, w, snaps, i, outcomes, restored, failed, o);
        outcomes := outcomes + [o];
        if !o.confirmed {
          failed := failed + 1;
          continue;
        }
        restored := restored + 1;
      }
      assert snaps[..|snaps|] == snaps;
    }
  }

  ghost predicate RestoredSoFar(env: Env, start: World, w: World, snaps: seq<Snapshot>, outcomes: seq<Publication>,
                                restored: nat, failed: nat) {
    && |outcomes| == |snaps| == restored + failed
    && RestoreAll(env, start, snaps, outcomes) == Some(w)
    && restored == Count(outcomes, IsConfirmed())
  }

  lemma UndoRestores(env: Env, start: World, w: World, snaps: seq<Snapshot>, outcomes: seq<Publication>, restored: nat,
                     failed: nat)
    requires RestoredSoFar(env, start, w, snaps, outcomes, restored, failed)
    requires snaps != [] && snaps[0].sourceQueue in start.queues
    ensures Undo(env, start, snaps, true, false, outcomes)
         == Some((Write(env, w, RollbackEntry(snaps[0], "", Completed)), Restored(restored, failed)))
  {
  }

  lemma OneMoreRestored(env: Env, start: World, w: World, snaps: seq<Snapshot>, i: nat, outcomes: seq<Publication>,
                        restored: nat, failed: nat, o: Publication)
    requires i < |snaps| && RestoredSoFar(env, start, w, snaps[..i], outcomes, restored, failed)
    requires Possible(w.queues, snaps[i].sourceQueue, o)
    ensures RestoredSoFar(env, start, Restore(env, w, snaps[i], o), snaps[..i + 1], outcomes + [o],
                          restored + (if o.confirmed then 1 else 0), failed + (if o.confirmed then 0 else 1))
  {
    RestoreAllNext(env, start, w, snaps, i, outcomes, o);
    CountSnoc(outcomes, o, IsConfirmed());
  }

  lemma RestoreAllNext(env: Env, start: World, w: World, snaps: seq<Snapshot>, i: nat, outcomes: seq<Publication>,
                       o: Publication)
    requires i < |snaps| && |outcomes| == i && RestoreAll(env, start, snaps[..i], outcomes) == Some(w)
    requires Possible(w.queues, snaps[i].sourceQueue, o)
    ensures RestoreAll(env, start, snaps[..i + 1], outcomes + [o]) == Some(Restore(env, w, snaps[i], o))
  {
    SliceSnoc(snaps, i);
    RestoreSnoc(env, start, snaps[..i], outcomes, w, snaps[i], o);
  }

  lemma StillOpenNext(ids: seq<string>, i: nat, entries: seq<Entry>, answered: nat -> bool)
    requires i < |ids|
    ensures StillOpen(ids[..i + 1], entries, answered)
         == StillOpen(ids[..i], entries, answered)
           + (if answered(i) && HasEvidence(entries, ids[i]) then [] else [ids[i]])
  {
    assert ids[..i + 1][..i] == ids[..i];
  }

  /** Any answer the broker may give to a publish. */
  method BrokerPublishes(queues: map<string, seq<Delivery>>, q: string) returns (o: Publication)
    ensures Possible(queues, q, o)
  {
    o := Publication(false, false);
    if * {
      o := Publication(false, q in queues && q != "");
    } else if * {
      o := Publication(q != "", q in queues && q != "");
    }
  }
}
