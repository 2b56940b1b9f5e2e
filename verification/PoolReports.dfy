// What a batch reports, against what it did: the tally against the queues and the audit trail, the
// entries and snapshots it leaves, and how many workers it uses.
module PoolReports {
  import opened Seqs
  import opened Mapper
  import opened Audit
  import opened Pool
  import opened PoolProgress
  import opened PoolSafety
  import opened PoolLedger

  // --- The tally ---------------------------------------------------------------------------------

  lemma {:induction false} CountIsMultiset(results: seq<Option<Outcome>>, o: Outcome)
    ensures Count(results, Is(o)) == multiset(results)[Some(o)]
  {
    if results != [] {
      CountIsMultiset(results[..|results| - 1], o);
      assert results == results[..|results| - 1] + [results[|results| - 1]];
    }
  }

  /** The tally counts the results by what they are. */
  predicate Counts(t: Tally, results: seq<Option<Outcome>>) {
    && t.replayed == multiset(results)[Some(Replayed)]
    && t.ackFailures == multiset(results)[Some(AckFailed)]
    && t.publishFailures == multiset(results)[Some(PublishFailed)] + multiset(results)[Some(AckFailed)]
  }

  lemma TallyCounts(results: seq<Option<Outcome>>)
    ensures Counts(TallyOf(results), results)
  {
    CountIsMultiset(results, Replayed);
    CountIsMultiset(results, AckFailed);
    CountIsMultiset(results, PublishFailed);
  }

  // --- Against the queue and the trail -----------------------------------------------------------

  /** A worker whose index will end this way, and whose copy is gone. */
  function Removing(): Pc -> bool {
    (pc: Pc) =>
      pc.Snapshotting? || (pc.Auditing? && pc.outcome == Replayed) || (pc.Recording? && pc.outcome == Replayed)
  }

  /** A worker whose index ends this way, with its entry attempted. */
  function Logged(o: Outcome): Pc -> bool {
    (pc: Pc) => pc.Recording? && pc.outcome == o
  }

  function IsRecovery(r: Result): Entry -> bool {
    (e: Entry) => e.action == Recover && e.result == r
  }

  /** Refusals of the limiter in a trace: the positions that fail without an entry. */
  function IsRefusal(): Action -> bool {
    (a: Action) => a.Wait? && !a.granted
  }

  function Unlogged(o: Outcome, refusals: nat): nat {
    if o == PublishFailed then refusals else 0
  }

  ghost predicate RemovalsMatch(s: State, exact: bool) {
    var n := multiset(s.results)[Some(Replayed)] + Count(s.pcs, Removing());
    n <= |s.removed| && (exact ==> n == |s.removed|)
  }

  ghost predicate EntriesMatch(before: seq<Entry>, s: State, o: Outcome, r: Result, refusals: nat, exact: bool) {
    var ended := multiset(s.results)[Some(o)] + Count(s.pcs, Logged(o));
    var gained := Count(s.world.tables.entries, IsRecovery(r)) - Count(before, IsRecovery(r));
    gained + Unlogged(o, refusals) <= ended && (exact ==> gained + Unlogged(o, refusals) == ended)
  }

  lemma RecordCounts(results: seq<Option<Outcome>>, i: nat, o: Outcome, x: Outcome)
    requires i < |results| && results[i] == None
    ensures multiset(results[i := Some(o)])[Some(x)] == multiset(results)[Some(x)] + if o == x then 1 else 0
  {
    assert multiset(results[i := Some(o)]) == multiset(results)[None := multiset(results)[None] - 1]
      [Some(o) := multiset(results)[Some(o)] + 1];
  }

  lemma AckRemovals(c: Config, s: State, a: Action, exact: bool)
    requires RemovalsMatch(s, exact) && a.Ack? && Enabled(c, s, a) && (exact ==> Truthful(a))
    ensures RemovalsMatch(Next(c, s, a), exact)
  {
    AckFrame(c, s, a);
    CountUpdate(s.pcs, a.w, Moved(c, s, a), Removing());
    var t := Next(c, s, a);
    assert |t.removed| == |s.removed| + if a.removes.Some? then 1 else 0;
  }

  lemma MoveRemovals(c: Config, s: State, a: Action, exact: bool)
    requires RemovalsMatch(s, exact) && Moves(a) && !a.Ack? && Enabled(c, s, a)
    ensures RemovalsMatch(Next(c, s, a), exact)
  {
    MoveEffect(c, s, a);
    CountUpdate(s.pcs, a.w, Moved(c, s, a), Removing());
    assert Next(c, s, a).removed == s.removed;
  }

  lemma StepRemovals(c: Config, s: State, a: Action, exact: bool)
    requires Owned(c, s) && RemovalsMatch(s, exact) && Enabled(c, s, a) && (exact ==> Truthful(a))
    ensures RemovalsMatch(Next(c, s, a), exact)
  {
    if a.Ack? {
      AckRemovals(c, s, a, exact);
    } else if Moves(a) {
      MoveRemovals(c, s, a, exact);
    } else if a.Record? {
      RecordCounts(s.results, s.pcs[a.w].i, s.pcs[a.w].outcome, Replayed);
      CountUpdate(s.pcs, a.w, Idle, Removing());
    } else if a.Feed? || a.Exit? {
      CountUpdate(s.pcs, a.w, Next(c, s, a).pcs[a.w], Removing());
    }
  }

  lemma LogEntries(c: Config, before: seq<Entry>, s: State, w: nat, o: Outcome, r: Result, refusals: nat, exact: bool)
    requires EntriesMatch(before, s, o, r, refusals, exact) && Enabled(c, s, Log(w)) && Means(o, r)
    requires exact ==> forall n :: c.writable(n)
    ensures EntriesMatch(before, Next(c, s, Log(w)), o, r, refusals, exact)
  {
    var a := Log(w);
    QuietFrame(c, s, a);
    CountUpdate(s.pcs, w, Moved(c, s, a), Logged(o));
    var e := EntryFor(c, c.ids[s.pcs[w].i], ResultOf(s.pcs[w].outcome), s.pcs[w].detail);
    CountSnoc(s.world.tables.entries, e, IsRecovery(r));
    assert Next(c, s, a).world.tables == Append(c.writable, s.world.tables, e);
  }

  /** Which audit result stands for which outcome. */
  predicate Means(o: Outcome, r: Result) {
    match o
    case Replayed => r == Success
    case PublishFailed => r == FailedPublish
    case AckFailed => r == FailedAck
  }

  lemma MoveEntries(c: Config, before: seq<Entry>, s: State, a: Action, o: Outcome, r: Result, refusals: nat,
                    exact: bool)
    requires EntriesMatch(before, s, o, r, refusals, exact) && Moves(a) && !a.Log? && Enabled(c, s, a)
    ensures EntriesMatch(before, Next(c, s, a), o, r, refusals + (if IsRefusal()(a) then 1 else 0), exact)
  {
    MoveEffect(c, s, a);
    CountUpdate(s.pcs, a.w, Moved(c, s, a), Logged(o));
    KeepsEntries(c, s, a);
    OnlyRefusalsSkipTheLog(c, s, a, o);
  }

  lemma KeepsEntries(c: Config, s: State, a: Action)
    requires Moves(a) && !a.Log? && Enabled(c, s, a)
    ensures Next(c, s, a).world.tables.entries == s.world.tables.entries
  {
  }

  lemma OnlyRefusalsSkipTheLog(c: Config, s: State, a: Action, o: Outcome)
    requires Moves(a) && !a.Log? && Enabled(c, s, a)
    ensures !Logged(o)(s.pcs[a.w]) && (Logged(o)(Moved(c, s, a)) <==> IsRefusal()(a) && o == PublishFailed)
  {
  }

  lemma StepEntries(c: Config, before: seq<Entry>, s: State, a: Action, o: Outcome, r: Result, refusals: nat,
                    exact: bool)
    requires Owned(c, s) && EntriesMatch(before, s, o, r, refusals, exact) && Enabled(c, s, a) && Means(o, r)
    requires exact ==> forall n :: c.writable(n)
    ensures EntriesMatch(before, Next(c, s, a), o, r, refusals + (if IsRefusal()(a) then 1 else 0), exact)
  {
    if a.Log? {
      LogEntries(c, before, s, a.w, o, r, refusals, exact);
    } else if Moves(a) {
      MoveEntries(c, before, s, a, o, r, refusals, exact);
    } else if a.Record? {
      RecordCounts(s.results, s.pcs[a.w].i, s.pcs[a.w].outcome, o);
      CountUpdate(s.pcs, a.w, Idle, Logged(o));
    } else if a.Feed? || a.Exit? {
      CountUpdate(s.pcs, a.w, Next(c, s, a).pcs[a.w], Logged(o));
    }
  }

  lemma {:induction false} RunRemovals(c: Config, world: World, trace: seq<Action>, exact: bool)
    requires Run(c, Start(c, world), trace).Some? && (exact ==> forall a :: a in trace ==> Truthful(a))
    ensures Inv(c, Run(c, Start(c, world), trace).value)
    ensures RemovalsMatch(Run(c, Start(c, world), trace).value, exact)
  {
    StartInv(c, world);
    RunInv(c, Start(c, world), trace);
    if trace == [] {
      StartMatches(c, world, Replayed);
    } else {
      var init, a := trace[..|trace| - 1], trace[|trace| - 1];
      RunRemovals(c, world, init, exact);
      StepRemovals(c, Run(c, Start(c, world), init).value, a, exact);
    }
  }

  lemma {:induction false} RunEntriesMatch(c: Config, world: World, trace: seq<Action>, o: Outcome, r: Result,
                                           exact: bool)
    requires Run(c, Start(c, world), trace).Some? && Means(o, r) && (exact ==> forall n :: c.writable(n))
    ensures EntriesMatch(world.tables.entries, Run(c, Start(c, world), trace).value, o, r,
                         Count(trace, IsRefusal()), exact)
  {
    if trace == [] {
      StartMatches(c, world, o);
    } else {
      var init, a := trace[..|trace| - 1], trace[|trace| - 1];
      RunEntriesMatch(c, world, init, o, r, exact);
      StartInv(c, world);
      RunInv(c, Start(c, world), init);
      StepEntries(c, world.tables.entries, Run(c, Start(c, world), init).value, a, o, r, Count(init, IsRefusal()),
                  exact);
    }
  }

  lemma StartMatches(c: Config, world: World, o: Outcome)
    ensures var s := Start(c, world);
            && multiset(s.results)[Some(o)] == 0 && multiset(s.results)[Some(Replayed)] == 0
            && Count(s.pcs, Removing()) == 0 && Count(s.pcs, Logged(o)) == 0
  {
    var s := Start(c, world);
    assert forall x :: x in s.results ==> x == None;
    CountNone(s.pcs, Removing());
    CountNone(s.pcs, Logged(o));
  }

  /** What a finished batch reports is what it did. Replays took as many copies off the DLQ, at least,
      and exactly as many when no ack that errors removes one. Each replay, each ack failure and each
      publish failure that the limiter did not cause has one entry of its kind, when writes succeed,
      and none has more. */
  ghost predicate ReportsItsDeeds(c: Config, world: World, trace: seq<Action>)
    requires Run(c, Start(c, world), trace).Some?
  {
    var s := Run(c, Start(c, world), trace).value;
    s.feeder.Tallied? ==>
      var t, refusals := s.feeder.tally, Count(trace, IsRefusal());
      && Counts(t, s.results)
      && t.replayed <= |s.removed| && ((forall a :: a in trace ==> Truthful(a)) ==> t.replayed == |s.removed|)
      && Gains(world, s, Success, t.replayed, forall n :: c.writable(n))
      && Gains(world, s, FailedAck, t.ackFailures, forall n :: c.writable(n))
      && refusals + t.ackFailures <= t.publishFailures
      && Gains(world, s, FailedPublish, t.publishFailures - t.ackFailures - refusals, forall n :: c.writable(n))
  }

  /** Up to `n` recovery entries with the result more than before, and exactly `n` if asked. */
  ghost predicate Gains(world: World, s: State, r: Result, n: int, exactly: bool) {
    var gained := Count(s.world.tables.entries, IsRecovery(r)) - Count(world.tables.entries, IsRecovery(r));
    gained <= n && (exactly ==> gained == n)
  }

  lemma {:induction false} BatchReports(c: Config, world: World, trace: seq<Action>)
    requires Run(c, Start(c, world), trace).Some?
    ensures ReportsItsDeeds(c, world, trace)
  {
    var s := Run(c, Start(c, world), trace).value;
    if s.feeder.Tallied? {
      TalliedRemovals(c, world, trace, false);
      if forall a :: a in trace ==> Truthful(a) {
        TalliedRemovals(c, world, trace, true);
      }
      TallyCounts(s.results);
      TalliedEntries(c, world, trace, Replayed, Success);
      TalliedEntries(c, world, trace, AckFailed, FailedAck);
      TalliedEntries(c, world, trace, PublishFailed, FailedPublish);
    }
  }

  lemma TalliedRemovals(c: Config, world: World, trace: seq<Action>, exact: bool)
    requires Run(c, Start(c, world), trace).Some? && Run(c, Start(c, world), trace).value.feeder.Tallied?
    requires exact ==> forall a :: a in trace ==> Truthful(a)
    ensures var s := Run(c, Start(c, world), trace).value;
            && s.feeder.tally == TallyOf(s.results)
            && multiset(s.results)[Some(Replayed)] <= |s.removed|
            && (exact ==> multiset(s.results)[Some(Replayed)] == |s.removed|)
  {
    RunRemovals(c, world, trace, exact);
    CountNone(Run(c, Start(c, world), trace).value.pcs, Removing());
  }

  lemma TalliedEntries(c: Config, world: World, trace: seq<Action>, o: Outcome, r: Result)
    requires Run(c, Start(c, world), trace).Some? && Run(c, Start(c, world), trace).value.feeder.Tallied?
    requires Means(o, r)
    ensures var s := Run(c, Start(c, world), trace).value;
            var n := multiset(s.results)[Some(o)] - Unlogged(o, Count(trace, IsRefusal()));
            n >= 0 && Gains(world, s, r, n, forall k :: c.writable(k))
  {
    var s := Run(c, Start(c, world), trace).value;
    RunRemovals(c, world, trace, false);
    CountNone(s.pcs, Logged(o));
    EntriesOnlyGrow(c, world, trace);
    CountPrefix(world.tables.entries, s.world.tables.entries, IsRecovery(r));
    RunEntriesMatch(c, world, trace, o, r, false);
    if forall k :: c.writable(k) {
      RunEntriesMatch(c, world, trace, o, r, true);
    }
  }

  // --- Entries and snapshots ---------------------------------------------------------------------

  lemma CountPrefix<T>(s: seq<T>, t: seq<T>, p: T -> bool)
    requires s <= t
    ensures Count(s, p) <= Count(t, p)
  {
    assert t == s + t[|s|..];
    CountConcat(s, t[|s|..], p);
  }

  /** An entry a batch can write: about one of its IDs, under its plan and queues. */
  predicate OfBatch(c: Config, e: Entry) {
    && e.action == Recover && e.planId == c.planId && e.messageId in c.ids
    && e.sourceQueue == c.dlq && e.destination == c.destination && e.confirmed
    && e.result in {Success, FailedPublish, FailedAck}
  }

  /** Tables only grow, by entries of the batch. */
  lemma {:induction false} EntriesOnlyGrow(c: Config, world: World, trace: seq<Action>)
    requires Run(c, Start(c, world), trace).Some?
    ensures var t := Run(c, Start(c, world), trace).value.world.tables;
            && world.tables.entries <= t.entries && world.tables.snapshots <= t.snapshots
            && forall e :: e in t.entries[|world.tables.entries|..] ==> OfBatch(c, e)
  {
    if trace != [] {
      var init, a := trace[..|trace| - 1], trace[|trace| - 1];
      EntriesOnlyGrow(c, world, init);
      StepGrows(c, world, Run(c, Start(c, world), init).value, a);
    }
  }

  lemma StepGrows(c: Config, world: World, s: State, a: Action)
    requires Enabled(c, s, a)
    requires world.tables.entries <= s.world.tables.entries && world.tables.snapshots <= s.world.tables.snapshots
    requires forall e :: e in s.world.tables.entries[|world.tables.entries|..] ==> OfBatch(c, e)
    ensures var t := Next(c, s, a).world.tables;
            && world.tables.entries <= t.entries && world.tables.snapshots <= t.snapshots
            && forall e :: e in t.entries[|world.tables.entries|..] ==> OfBatch(c, e)
  {
    var t := Next(c, s, a).world.tables;
    if a.Log? {
      var e := EntryFor(c, c.ids[s.pcs[a.w].i], ResultOf(s.pcs[a.w].outcome), s.pcs[a.w].detail);
      var n := |world.tables.entries|;
      assert OfBatch(c, e);
      assert t.entries == s.world.tables.entries || t.entries[n..] == s.world.tables.entries[n..] + [e];
    } else if a.Snap? {
      assert t.entries == s.world.tables.entries;
    } else {
      assert t == s.world.tables;
    }
  }

  /** A snapshot is of a delivery that reached the destination, headers and all. */
  predicate IsOf(x: Snapshot, d: Delivery) {
    && d.messageId == x.messageId && d.body == x.payload && d.contentType == x.contentType
    && Normalized(d.headers) == Stripped(x.headers)
  }

  ghost predicate AllBacked(xs: seq<Snapshot>, delivered: seq<Delivery>) {
    forall x :: x in xs ==> exists d :: d in delivered && IsOf(x, d)
  }

  ghost predicate CarriedIsDelivered(s: State) {
    forall w :: 0 <= w < |s.pcs| ==> IsDelivered(s.pcs[w], s.delivered)
  }

  predicate IsDelivered(pc: Pc, delivered: seq<Delivery>) {
    pc.Acking? || pc.Snapshotting? ==> Outgoing(pc.m) in delivered
  }

  ghost predicate PublishedIsDelivered(s: State, snapshots: seq<Snapshot>) {
    && CarriedIsDelivered(s) && |snapshots| <= |s.world.tables.snapshots|
    && AllBacked(s.world.tables.snapshots[|snapshots|..], s.delivered)
  }

  lemma SnapIsOf(c: Config, m: Message, at: int)
    ensures IsOf(SnapshotFor(c, m, at), Outgoing(m))
  {
    assert Normalized(Republished(m.headers)) == Stripped(m.headers);
  }

  lemma StepDelivered(c: Config, s: State, a: Action, snapshots: seq<Snapshot>)
    requires PublishedIsDelivered(s, snapshots) && Enabled(c, s, a) && (a.Publish? && a.confirmed ==> a.arrives)
    ensures PublishedIsDelivered(Next(c, s, a), snapshots)
  {
    DeliveredGrows(c, s, a);
    if a.Snap? {
      SnapDelivered(c, s, a, snapshots);
    } else if Moves(a) {
      MoveDelivered(c, s, a);
    }
  }

  lemma DeliveredGrows(c: Config, s: State, a: Action)
    requires Enabled(c, s, a)
    ensures s.delivered <= Next(c, s, a).delivered
    ensures forall d :: d in s.delivered ==> d in Next(c, s, a).delivered
    ensures !a.Snap? ==> Next(c, s, a).world.tables.snapshots == s.world.tables.snapshots
  {
  }

  lemma SnapDelivered(c: Config, s: State, a: Action, snapshots: seq<Snapshot>)
    requires PublishedIsDelivered(s, snapshots) && a.Snap? && Enabled(c, s, a)
    ensures PublishedIsDelivered(Next(c, s, a), snapshots)
  {
    var t := Next(c, s, a);
    var x := SnapshotFor(c, s.pcs[a.w].m, c.clock(s.world.tables.writes));
    SnapIsOf(c, s.pcs[a.w].m, c.clock(s.world.tables.writes));
    QuietFrame(c, s, a);
    assert t.world.tables == SaveSnapshot(c.writable, s.world.tables, x) && t.delivered == s.delivered;
    var n := |snapshots|;
    assert (s.world.tables.snapshots + [x])[n..] == s.world.tables.snapshots[n..] + [x];
  }

  lemma MoveDelivered(c: Config, s: State, a: Action)
    requires Moves(a) && !a.Snap? && Enabled(c, s, a) && (a.Publish? && a.confirmed ==> a.arrives)
    requires IsDelivered(s.pcs[a.w], s.delivered)
    ensures MovesOnly(c, s, a)
    ensures IsDelivered(Moved(c, s, a), Next(c, s, a).delivered)
  {
    MoveEffect(c, s, a);
  }

  /** Every snapshot a batch takes is of a delivery it made, with the same ID, payload, content type
      and headers, as long as confirmed publishes arrive. */
  lemma {:induction false} SnapshotsWereDelivered(c: Config, world: World, trace: seq<Action>)
    requires Run(c, Start(c, world), trace).Some? && ConfirmsArrive(trace)
    ensures PublishedIsDelivered(Run(c, Start(c, world), trace).value, world.tables.snapshots)
  {
    if trace != [] {
      var init, a := trace[..|trace| - 1], trace[|trace| - 1];
      assert trace == init + [a];
      SnapshotsWereDelivered(c, world, init);
      StepDelivered(c, Run(c, Start(c, world), init).value, a, world.tables.snapshots);
    }
  }

  // --- Workers -----------------------------------------------------------------------------------

  /** A batch never works on more messages at once than it has, or than its concurrency allows. */
  lemma {:induction false} WorkersAreBounded(c: Config, world: World, trace: seq<Action>)
    requires Run(c, Start(c, world), trace).Some?
    ensures var n := Count(Run(c, Start(c, world), trace).value.pcs, (pc: Pc) => pc.Busy());
            n <= |c.ids| && n <= (if c.concurrency <= 0 then 1 else c.concurrency)
  {
    StartInv(c, world);
    RunInv(c, Start(c, world), trace);
    CountAtMost(Run(c, Start(c, world), trace).value.pcs, (pc: Pc) => pc.Busy());
  }

  /** And it can work on that many: some schedule has a worker busy for each. */
  lemma {:induction false} AllWorkersCanBeBusy(c: Config, world: World, n: nat) returns (trace: seq<Action>)
    requires n <= |c.ids| && n <= (if c.concurrency <= 0 then 1 else c.concurrency)
    ensures Run(c, Start(c, world), trace).Some?
    ensures var s := Run(c, Start(c, world), trace).value;
            && s.feeder == Feeding(n) && n <= |s.pcs| && (forall w :: n <= w < |s.pcs| ==> s.pcs[w].Idle?)
            && forall w :: 0 <= w < n ==> s.pcs[w].Busy()
  {
    trace := [];
    if n > 0 {
      trace := AllWorkersCanBeBusy(c, world, n - 1);
      StartInv(c, world);
      RunInv(c, Start(c, world), trace);
      RunSnoc(c, Start(c, world), trace, Feed(n - 1));
      trace := trace + [Feed(n - 1)];
    }
  }
}
