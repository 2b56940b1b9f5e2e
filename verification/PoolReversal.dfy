// Exactly when a finished batch can be taken back: the DLQ and the snapshots make up for each other
// on every schedule if and only if planned IDs fix the content of their messages.
module PoolReversal {
  import opened Seqs
  import opened Mapper
  import opened Audit
  import opened Pool
  import opened PoolProgress
  import opened PoolSafety
  import opened PoolLedger

  /** The copies of a key on the DLQ and in the snapshots. */
  ghost function Balance(c: Config, w: World, key: Key): nat {
    Count(QueueOf(w.queues, c.dlq), InQueue(c.hash, key)) + Count(w.tables.snapshots, Snapped(key))
  }

  ghost predicate CleanRun(c: Config, world: World, trace: seq<Action>) {
    Run(c, Start(c, world), trace).Some? && forall a :: a in trace ==> Clean(c.dlq, a)
  }

  ghost predicate Finished(c: Config, world: World, trace: seq<Action>) {
    CleanRun(c, world, trace) && Run(c, Start(c, world), trace).value.feeder.Tallied?
  }

  /** Every clean schedule that runs to its tally keeps the balance of every key. */
  ghost predicate KeepsBalance(c: Config, world: World) {
    forall trace, key :: Finished(c, world, trace) ==>
      Balance(c, Run(c, Start(c, world), trace).value.world, key) == Balance(c, world, key)
  }

  /** With no snapshot pending the holdings are the balance. */
  lemma NothingPending(c: Config, world: World, trace: seq<Action>, key: Key)
    requires Finished(c, world, trace)
    ensures Holdings(c, Run(c, Start(c, world), trace).value, key)
         == Balance(c, Run(c, Start(c, world), trace).value.world, key)
    ensures Holdings(c, Start(c, world), key) == Balance(c, world, key)
  {
    StartInv(c, world);
    RunInv(c, Start(c, world), trace);
    CountNone(Start(c, world).pcs, ToSnap(key));
    CountNone(Run(c, Start(c, world), trace).value.pcs, ToSnap(key));
  }

  // --- Every clean schedule can be finished ------------------------------------------------------

  lemma StepHoldings(c: Config, s: State, a: Action, key: Key)
    requires Enabled(c, s, a) && Clean(c.dlq, a) && (a.Ack? ==> a.removes.None?)
    requires c.dlq != c.destination && forall n :: c.writable(n)
    ensures Holdings(c, Next(c, s, a), key) == Holdings(c, s, key)
  {
    if a.Snap? {
      SnapHoldings(c, s, a.w, key);
    } else if a.Ack? {
      CountUpdate(s.pcs, a.w, Next(c, s, a).pcs[a.w], ToSnap(key));
    } else {
      OtherHoldings(c, s, a, key);
    }
  }

  /** Whatever has happened so far, the batch can run to its tally with nothing more removed. */
  lemma {:induction false} Finishes(c: Config, world: World, trace: seq<Action>, key: Key) returns (all: seq<Action>)
    requires CleanRun(c, world, trace) && Inv(c, Run(c, Start(c, world), trace).value)
    requires c.dlq != c.destination && forall n :: c.writable(n)
    ensures Finished(c, world, all)
    ensures Holdings(c, Run(c, Start(c, world), all).value, key)
         == Holdings(c, Run(c, Start(c, world), trace).value, key)
    decreases Measure(c, Run(c, Start(c, world), trace).value)
  {
    var s := Run(c, Start(c, world), trace).value;
    if s.feeder.Tallied? {
      all := trace;
    } else {
      var a := SomeStep(c, s);
      StepHoldings(c, s, a, key);
      StepDecreases(c, s, a);
      StepOwned(c, s, a);
      StepPhased(c, s, a);
      CleanSnoc(c, world, trace, a);
      all := Finishes(c, world, trace + [a], key);
    }
  }

  lemma CleanSnoc(c: Config, world: World, trace: seq<Action>, a: Action)
    requires CleanRun(c, world, trace) && Clean(c.dlq, a) && Enabled(c, Run(c, Start(c, world), trace).value, a)
    ensures CleanRun(c, world, trace + [a])
    ensures Run(c, Start(c, world), trace + [a]) == Some(Next(c, Run(c, Start(c, world), trace).value, a))
  {
    RunSnoc(c, Start(c, world), trace, a);
    forall b | b in trace + [a] ensures Clean(c.dlq, b) {
      assert b in trace || b == a;
    }
  }

  // --- The failing schedule ----------------------------------------------------------------------

  lemma {:induction false} NoTriesKeepHoldings(c: Config, world: World, trace: seq<Action>, key: Key)
    requires c.retries < 0 && c.dlq != c.destination && CleanRun(c, world, trace)
    ensures Holdings(c, Run(c, Start(c, world), trace).value, key) == Holdings(c, Start(c, world), key)
  {
    if trace != [] {
      var init, a := trace[..|trace| - 1], trace[|trace| - 1];
      NoTriesKeepHoldings(c, world, init, key);
      NoTriesNoRemovals(c, world, init);
      OtherHoldings(c, Run(c, Start(c, world), init).value, a, key);
    }
  }

  /** Reading one holder of an ID and acknowledging another with a different key: the DLQ loses a
      key that no snapshot will have. */
  lemma MixedKeysUnbalance(c: Config, s: State, k2: nat)
    requires |s.pcs| > 0 && s.pcs[0].Acking? && s.pcs[0].i < |c.ids| && Enabled(c, s, Ack(0, true, Some(k2)))
    requires var m := s.pcs[0].m;
             Key(m.id, ContentIn(m)) != DeliveryKey(c.hash, s.world.queues[c.dlq][k2])
    ensures var key := DeliveryKey(c.hash, s.world.queues[c.dlq][k2]);
            Holdings(c, Next(c, s, Ack(0, true, Some(k2))), key) == Holdings(c, s, key) - 1
  {
    var q := s.world.queues[c.dlq];
    var key := DeliveryKey(c.hash, q[k2]);
    CountRemoveAt(q, k2, InQueue(c.hash, key));
    CountUpdate(s.pcs, 0, Snapshotting(s.pcs[0].i, s.pcs[0].m), ToSnap(key));
  }

  /** If two deliveries share a planned ID but not their content, some clean schedule runs to its
      tally and leaves a key out of balance. */
  lemma MixedContentsUnbalance(c: Config, world: World, j: nat, k1: nat, k2: nat) returns (trace: seq<Action>, key: Key)
    requires c.retries >= 0 && c.destination != "" && c.destination in world.queues && c.dlq != c.destination
    requires j < |c.ids| && Matches(c, Start(c, world), c.ids[j], k1) && Matches(c, Start(c, world), c.ids[j], k2)
    requires ContentAt(c, world, Whole(), k1) != ContentAt(c, world, Whole(), k2)
    requires forall n :: c.writable(n)
    ensures Finished(c, world, trace)
    ensures Balance(c, Run(c, Start(c, world), trace).value.world, key) != Balance(c, world, key)
  {
    trace, key := ReachUnbalance(c, world, j, k1, k2);
    StartInv(c, world);
    RunInv(c, Start(c, world), trace);
    trace := Finishes(c, world, trace, key);
    NothingPending(c, world, trace, key);
  }

  lemma ReachUnbalance(c: Config, world: World, j: nat, k1: nat, k2: nat) returns (trace: seq<Action>, key: Key)
    requires c.retries >= 0 && c.destination != "" && c.destination in world.queues && c.dlq != c.destination
    requires j < |c.ids| && Matches(c, Start(c, world), c.ids[j], k1) && Matches(c, Start(c, world), c.ids[j], k2)
    requires ContentAt(c, world, Whole(), k1) != ContentAt(c, world, Whole(), k2)
    ensures CleanRun(c, world, trace)
    ensures Holdings(c, Run(c, Start(c, world), trace).value, key) != Holdings(c, Start(c, world), key)
  {
    trace, key := ReachMixedAck(c, world, j, k1, k2);
    var s := Run(c, Start(c, world), trace).value;
    MixedKeysUnbalance(c, s, k2);
    OneAckMore(c, world, trace, k2);
    if Holdings(c, s, key) == Holdings(c, Start(c, world), key) {
      trace := trace + [Ack(0, true, Some(k2))];
    }
  }

  lemma ReachMixedAck(c: Config, world: World, j: nat, k1: nat, k2: nat) returns (trace: seq<Action>, key: Key)
    requires c.retries >= 0 && c.destination != "" && c.destination in world.queues && c.dlq != c.destination
    requires j < |c.ids| && Matches(c, Start(c, world), c.ids[j], k1) && Matches(c, Start(c, world), c.ids[j], k2)
    requires ContentAt(c, world, Whole(), k1) != ContentAt(c, world, Whole(), k2)
    ensures Run(c, Start(c, world), trace).Some? && Quiet(trace)
    ensures var s := Run(c, Start(c, world), trace).value;
            && |s.pcs| > 0 && s.pcs[0].Acking? && s.pcs[0].i == j
            && Enabled(c, s, Ack(0, true, Some(k2)))
            && key == DeliveryKey(c.hash, s.world.queues[c.dlq][k2])
            && Key(s.pcs[0].m.id, ContentIn(s.pcs[0].m)) != key
  {
    trace := ReachAck(c, world, j, k1);
    var q := world.queues[c.dlq];
    key := DeliveryKey(c.hash, q[k2]);
    assert Run(c, Start(c, world), trace).value.world.queues[c.dlq] == q;
    ReadsItsKey(c.hash, q[k1], c.dlq);
  }

  lemma ReadsItsKey(hash: Hash, d: Delivery, queue: string)
    ensures var m := ToMessage(hash, d, queue); Key(m.id, ContentIn(m)) == DeliveryKey(hash, d)
  {
    ContentIsKept(hash, d, ToMessage(hash, d, queue), queue);
  }

  lemma OneAckMore(c: Config, world: World, trace: seq<Action>, k: nat)
    requires Run(c, Start(c, world), trace).Some? && Quiet(trace)
    ensures CleanRun(c, world, trace)
    ensures var s, a := Run(c, Start(c, world), trace).value, Ack(0, true, Some(k));
            Enabled(c, s, a) ==>
              CleanRun(c, world, trace + [a]) && Run(c, Start(c, world), trace + [a]) == Some(Next(c, s, a))
  {
    var a := Ack(0, true, Some(k));
    forall b | b in trace + [a] ensures Clean(c.dlq, b) {
      assert b in trace || b == a;
    }
    assert forall b :: b in trace ==> b in trace + [a];
    if Enabled(c, Run(c, Start(c, world), trace).value, a) {
      RunSnoc(c, Start(c, world), trace, a);
    }
  }

  // --- If and only if ----------------------------------------------------------------------------

  /** Once the probe has passed and when the store's writes succeed: no finished clean schedule
      leaves DLQ and snapshots out of balance if and only if deliveries that share a planned ID
      share payload and content type. */
  lemma ReversibleIffIdsFixContents(c: Config, world: World)
    requires c.destination != "" && c.destination in world.queues && c.dlq != c.destination
    requires forall n :: c.writable(n)
    ensures KeepsBalance(c, world) <==> PlannedIdsFix(c, world, Whole()) || c.retries < 0
  {
    if c.retries < 0 {
      forall trace, key | Finished(c, world, trace)
        ensures Balance(c, Run(c, Start(c, world), trace).value.world, key) == Balance(c, world, key)
      {
        NoTriesKeepHoldings(c, world, trace, key);
        NothingPending(c, world, trace, key);
      }
    } else if PlannedIdsFix(c, world, Whole()) {
      FixedByFirstHolders(c, world, Whole());
      var f := FirstContent(c.hash, QueueOf(world.queues, c.dlq), Whole());
      forall trace, key | Finished(c, world, trace)
        ensures Balance(c, Run(c, Start(c, world), trace).value.world, key) == Balance(c, world, key)
      {
        RunHoldings(c, Planned(c.ids), f, world, trace, key);
        NothingPending(c, world, trace, key);
      }
    } else {
      var j, k1, k2 := MixedHolders(c, world);
      var trace, key := MixedContentsUnbalance(c, world, j, k1, k2);
    }
  }

  lemma MixedHolders(c: Config, world: World) returns (j: nat, k1: nat, k2: nat)
    requires !PlannedIdsFix(c, world, Whole())
    ensures j < |c.ids| && Matches(c, Start(c, world), c.ids[j], k1) && Matches(c, Start(c, world), c.ids[j], k2)
    ensures ContentAt(c, world, Whole(), k1) != ContentAt(c, world, Whole(), k2)
  {
    j, k1, k2 :| 0 <= j < |c.ids|
      && Matches(c, Start(c, world), c.ids[j], k1) && Matches(c, Start(c, world), c.ids[j], k2)
      && ContentAt(c, world, Whole(), k1) != ContentAt(c, world, Whole(), k2);
  }
}
