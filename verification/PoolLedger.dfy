// What the local store says about a batch: success entries match replays, and snapshots make up
// for exactly what left the DLQ.
module PoolLedger {
  import opened Seqs
  import opened Mapper
  import opened Audit
  import opened Pool
  import opened PoolSafety

  // --- Success entries ---------------------------------------------------------------------

  /** How many positions of a batch with this ID ended as replayed. */
  function Replays(ids: seq<string>, results: seq<Option<Outcome>>, id: string): nat
    requires |ids| == |results|
  {
    if ids == [] then 0
    else
      var n := |ids| - 1;
      Replays(ids[..n], results[..n], id) + (if ids[n] == id && results[n] == Some(Replayed) then 1 else 0)
  }

  lemma {:induction false} ReplaysUpdate(ids: seq<string>, results: seq<Option<Outcome>>, id: string, i: nat,
                                         o: Outcome)
    requires |ids| == |results| && i < |ids| && results[i] == None
    ensures Replays(ids, results[i := Some(o)], id)
         == Replays(ids, results, id) + (if ids[i] == id && o == Replayed then 1 else 0)
  {
    var n := |ids| - 1;
    if i == n {
      assert results[i := Some(o)][..n] == results[..n];
    } else {
      ReplaysUpdate(ids[..n], results[..n], id, i, o);
      assert results[i := Some(o)][..n] == results[..n][i := Some(o)];
    }
  }

  lemma {:induction false} ReplaysNone(ids: seq<string>, results: seq<Option<Outcome>>, id: string)
    requires |ids| == |results| && (id !in ids || forall r :: r in results ==> r == None)
    ensures Replays(ids, results, id) == 0
  {
    if ids != [] {
      var n := |ids| - 1;
      assert ids[n] in ids && results[n] in results;
      assert forall x :: x in ids[..n] ==> x in ids;
      assert forall r :: r in results[..n] ==> r in results;
      ReplaysNone(ids[..n], results[..n], id);
    }
  }

  lemma {:induction false} ReplaysOfDistinct(ids: seq<string>, results: seq<Option<Outcome>>, id: string)
    requires |ids| == |results| && Distinct(ids)
    ensures Replays(ids, results, id) <= 1
  {
    if ids != [] {
      var n := |ids| - 1;
      ReplaysOfDistinct(ids[..n], results[..n], id);
      if ids[n] == id {
        ReplaysNone(ids[..n], results[..n], id);
      }
    }
  }

  function Winning(ids: seq<string>, id: string): Pc -> bool {
    (pc: Pc) => pc.Recording? && pc.outcome == Replayed && pc.i < |ids| && ids[pc.i] == id
  }

  function Wins(c: Config, s: State, id: string): nat
    requires |s.results| == |c.ids|
  {
    Replays(c.ids, s.results, id) + Count(s.pcs, Winning(c.ids, id))
  }

  /** Success entries for an ID grow with its replays: never faster, and exactly as fast when the
      store's writes succeed. */
  ghost predicate Tracked(c: Config, world: World, s: State, id: string) {
    && |s.results| == |c.ids|
    && Count(s.world.tables.entries, ReplayOf(id)) <= Count(world.tables.entries, ReplayOf(id)) + Wins(c, s, id)
    && ((forall n :: c.writable(n)) ==>
          Count(s.world.tables.entries, ReplayOf(id)) == Count(world.tables.entries, ReplayOf(id)) + Wins(c, s, id))
  }

  lemma LogTracked(c: Config, world: World, s: State, w: nat, id: string)
    requires Tracked(c, world, s, id) && Enabled(c, s, Log(w))
    ensures Tracked(c, world, Next(c, s, Log(w)), id)
  {
    var e := EntryFor(c, c.ids[s.pcs[w].i], ResultOf(s.pcs[w].outcome), s.pcs[w].detail);
    CountSnoc(s.world.tables.entries, e, ReplayOf(id));
    CountUpdate(s.pcs, w, Recording(s.pcs[w].i, s.pcs[w].outcome), Winning(c.ids, id));
    var t := Next(c, s, Log(w));
    assert t.results == s.results && t.pcs == s.pcs[w := Recording(s.pcs[w].i, s.pcs[w].outcome)];
    assert t.world.tables == Append(c.writable, s.world.tables, e);
    assert IsReplayOf(e, id) <==> Winning(c.ids, id)(t.pcs[w]);
  }

  lemma QuietTracked(c: Config, world: World, s: State, a: Action, id: string)
    requires Tracked(c, world, s, id) && Enabled(c, s, a) && Moves(a) && !a.Log?
    ensures Tracked(c, world, Next(c, s, a), id)
  {
    MoveEffect(c, s, a);
    var t := Next(c, s, a);
    CountUpdate(s.pcs, a.w, t.pcs[a.w], Winning(c.ids, id));
    assert !Winning(c.ids, id)(s.pcs[a.w]) && !Winning(c.ids, id)(t.pcs[a.w]);
    assert t.world.tables.entries == s.world.tables.entries;
  }

  lemma RecordTracked(c: Config, world: World, s: State, w: nat, id: string)
    requires Owned(c, s) && Tracked(c, world, s, id) && Enabled(c, s, Record(w))
    ensures Tracked(c, world, Next(c, s, Record(w)), id)
  {
    ReplaysUpdate(c.ids, s.results, id, s.pcs[w].i, s.pcs[w].outcome);
    CountUpdate(s.pcs, w, Idle, Winning(c.ids, id));
  }

  lemma StepTracked(c: Config, world: World, s: State, a: Action, id: string)
    requires Owned(c, s) && Tracked(c, world, s, id) && Enabled(c, s, a)
    ensures Tracked(c, world, Next(c, s, a), id)
  {
    var t := Next(c, s, a);
    if a.Log? {
      LogTracked(c, world, s, a.w, id);
    } else if a.Record? {
      RecordTracked(c, world, s, a.w, id);
    } else if Moves(a) {
      QuietTracked(c, world, s, a, id);
    } else if a.Feed? || a.Exit? {
      CountUpdate(s.pcs, a.w, t.pcs[a.w], Winning(c.ids, id));
    }
  }

  lemma {:induction false} RunTracked(c: Config, world: World, trace: seq<Action>, id: string)
    requires Run(c, Start(c, world), trace).Some?
    ensures Tracked(c, world, Run(c, Start(c, world), trace).value, id)
  {
    if trace == [] {
      ReplaysNone(c.ids, Start(c, world).results, id);
      CountNone(Start(c, world).pcs, Winning(c.ids, id));
    } else {
      var init := trace[..|trace| - 1];
      RunTracked(c, world, init, id);
      StartInv(c, world);
      RunInv(c, Start(c, world), init);
      StepTracked(c, world, Run(c, Start(c, world), init).value, trace[|trace| - 1], id);
    }
  }

  /** After a finished batch the audit trail has gained, for every ID, at most as many success
      entries as there were replays of it, and exactly as many when the store's writes succeed. */
  lemma EntriesMatchReplays(c: Config, world: World, trace: seq<Action>, id: string)
    requires Run(c, Start(c, world), trace).Some?
    requires Run(c, Start(c, world), trace).value.feeder.Tallied?
    ensures var s := Run(c, Start(c, world), trace).value;
            && |s.results| == |c.ids|
            && Count(s.world.tables.entries, ReplayOf(id))
               <= Count(world.tables.entries, ReplayOf(id)) + Replays(c.ids, s.results, id)
            && ((forall n :: c.writable(n)) ==>
                  Count(s.world.tables.entries, ReplayOf(id))
                  == Count(world.tables.entries, ReplayOf(id)) + Replays(c.ids, s.results, id))
  {
    RunTracked(c, world, trace, id);
    StartInv(c, world);
    RunInv(c, Start(c, world), trace);
    CountNone(Run(c, Start(c, world), trace).value.pcs, Winning(c.ids, id));
  }

  // --- Replayed means removed ------------------------------------------------------------------

  /** A worker whose index has this ID and will be recorded as replayed. */
  function Won(ids: seq<string>, id: string): Pc -> bool {
    (pc: Pc) =>
      && (pc.Snapshotting? || (pc.Auditing? && pc.outcome == Replayed) || (pc.Recording? && pc.outcome == Replayed))
      && pc.i < |ids| && ids[pc.i] == id
  }

  /** Replays of an ID, recorded or about to be, against what was removed. */
  ghost predicate Backed(c: Config, s: State, id: string, exact: bool) {
    && |s.results| == |c.ids|
    && Replays(c.ids, s.results, id) + Count(s.pcs, Won(c.ids, id)) <= Count(s.removed, HasId(c.hash, id))
    && (exact ==> Replays(c.ids, s.results, id) + Count(s.pcs, Won(c.ids, id)) == Count(s.removed, HasId(c.hash, id)))
  }

  /** An ack that errors removes nothing. */
  predicate Truthful(a: Action) {
    a.Ack? && !a.ok ==> a.removes.None?
  }

  lemma AckBacked(c: Config, s: State, a: Action, id: string, exact: bool)
    requires Backed(c, s, id, exact) && a.Ack? && Enabled(c, s, a) && (exact ==> Truthful(a))
    ensures Backed(c, Next(c, s, a), id, exact)
  {
    var t := Next(c, s, a);
    CountUpdate(s.pcs, a.w, Moved(c, s, a), Won(c.ids, id));
    assert t.results == s.results && t.pcs == s.pcs[a.w := Moved(c, s, a)];
    if a.removes.Some? {
      CountSnoc(s.removed, s.world.queues[c.dlq][a.removes.value], HasId(c.hash, id));
    }
  }

  lemma MoveBacked(c: Config, s: State, a: Action, id: string, exact: bool)
    requires Backed(c, s, id, exact) && Moves(a) && !a.Ack? && Enabled(c, s, a)
    ensures Backed(c, Next(c, s, a), id, exact)
  {
    MoveEffect(c, s, a);
    CountUpdate(s.pcs, a.w, Moved(c, s, a), Won(c.ids, id));
    assert Next(c, s, a).removed == s.removed;
    assert Won(c.ids, id)(s.pcs[a.w]) <==> Won(c.ids, id)(Moved(c, s, a));
  }

  lemma RecordBacked(c: Config, s: State, w: nat, id: string, exact: bool)
    requires Owned(c, s) && Backed(c, s, id, exact) && Enabled(c, s, Record(w))
    ensures Backed(c, Next(c, s, Record(w)), id, exact)
  {
    ReplaysUpdate(c.ids, s.results, id, s.pcs[w].i, s.pcs[w].outcome);
    CountUpdate(s.pcs, w, Idle, Won(c.ids, id));
  }

  lemma StepBacked(c: Config, s: State, a: Action, id: string, exact: bool)
    requires Owned(c, s) && Backed(c, s, id, exact) && Enabled(c, s, a) && (exact ==> Truthful(a))
    ensures Backed(c, Next(c, s, a), id, exact)
  {
    if a.Ack? {
      AckBacked(c, s, a, id, exact);
    } else if a.Record? {
      RecordBacked(c, s, a.w, id, exact);
    } else if Moves(a) {
      MoveBacked(c, s, a, id, exact);
    } else if a.Feed? || a.Exit? {
      CountUpdate(s.pcs, a.w, Next(c, s, a).pcs[a.w], Won(c.ids, id));
    }
  }

  lemma {:induction false} RunBacked(c: Config, world: World, trace: seq<Action>, id: string, exact: bool)
    requires Run(c, Start(c, world), trace).Some? && (exact ==> forall a :: a in trace ==> Truthful(a))
    ensures Backed(c, Run(c, Start(c, world), trace).value, id, exact)
  {
    if trace == [] {
      ReplaysNone(c.ids, Start(c, world).results, id);
      CountNone(Start(c, world).pcs, Won(c.ids, id));
    } else {
      var init, a := trace[..|trace| - 1], trace[|trace| - 1];
      RunBacked(c, world, init, id, exact);
      StartInv(c, world);
      RunInv(c, Start(c, world), init);
      StepBacked(c, Run(c, Start(c, world), init).value, a, id, exact);
    }
  }

  /** Every position reported as replayed has taken a copy of its ID off the DLQ; at the tally the
      two numbers are equal when no ack that errors removes one. */
  lemma {:induction false} ReplayedLeftTheDlq(c: Config, world: World, trace: seq<Action>, id: string)
    requires Run(c, Start(c, world), trace).Some?
    ensures var s := Run(c, Start(c, world), trace).value;
            && |s.results| == |c.ids|
            && Replays(c.ids, s.results, id) <= Count(s.removed, HasId(c.hash, id))
            && (s.feeder.Tallied? && (forall a :: a in trace ==> Truthful(a)) ==>
                  Replays(c.ids, s.results, id) == Count(s.removed, HasId(c.hash, id)))
  {
    var s := Run(c, Start(c, world), trace).value;
    RunBacked(c, world, trace, id, false);
    if s.feeder.Tallied? && forall a :: a in trace ==> Truthful(a) {
      RunBacked(c, world, trace, id, true);
      StartInv(c, world);
      RunInv(c, Start(c, world), trace);
      CountNone(s.pcs, Won(c.ids, id));
    }
  }

  // --- Snapshots -------------------------------------------------------------------------------

  /** What a rollback must give back: ID, payload, content type and application headers. */
  datatype Key = Key(id: string, content: Content)

  ghost function DeliveryKey(hash: Hash, d: Delivery): Key {
    Key(IdOf(hash, d), ContentOf(d))
  }

  function SnapshotKey(s: Snapshot): Key {
    Key(s.messageId, Content(s.payload, s.contentType, AppHeaders(s.headers)))
  }

  ghost function InQueue(hash: Hash, key: Key): Delivery -> bool {
    (d: Delivery) => DeliveryKey(hash, d) == key
  }

  function Snapped(key: Key): Snapshot -> bool {
    (s: Snapshot) => SnapshotKey(s) == key
  }

  function ToSnap(key: Key): Pc -> bool {
    (pc: Pc) => pc.Snapshotting? && Key(pc.m.id, ContentIn(pc.m)) == key
  }

  /** DLQ, snapshots and snapshots about to be taken, together: a constant. */
  ghost function Holdings(c: Config, s: State, key: Key): nat {
    Count(QueueOf(s.world.queues, c.dlq), InQueue(c.hash, key))
    + Count(s.world.tables.snapshots, Snapped(key))
    + Count(s.pcs, ToSnap(key))
  }

  /** Other traffic stays off the DLQ, and an ack that errors removes nothing. */
  predicate Clean(dlq: string, a: Action) {
    a.SparesQueue(dlq) && Truthful(a)
  }

  function Whole(): View<Content> {
    (content: Content) => content
  }

  lemma AckHoldings(c: Config, scope: set<string>, f: string -> Content, s: State, a: Action, key: Key)
    requires Covers(scope, c.ids)
    requires Agrees(c, scope, f, Whole(), s) && CarriesItsId(c, s)
    requires a.Ack? && Clean(c.dlq, a) && Enabled(c, s, a)
    ensures Holdings(c, Next(c, s, a), key) == Holdings(c, s, key)
  {
    var m := s.pcs[a.w].m;
    CountUpdate(s.pcs, a.w, Next(c, s, a).pcs[a.w], ToSnap(key));
    if a.ok {
      var q := s.world.queues[c.dlq];
      assert DeliveryAgrees(c.hash, scope, f, Whole(), q[a.removes.value]);
      CountRemoveAt(q, a.removes.value, InQueue(c.hash, key));
      assert DeliveryKey(c.hash, q[a.removes.value]) == Key(m.id, ContentIn(m));
    }
  }

  lemma SnapHoldings(c: Config, s: State, w: nat, key: Key)
    requires Enabled(c, s, Snap(w)) && forall n :: c.writable(n)
    ensures Holdings(c, Next(c, s, Snap(w)), key) == Holdings(c, s, key)
  {
    CountUpdate(s.pcs, w, Next(c, s, Snap(w)).pcs[w], ToSnap(key));
    CountSnoc(s.world.tables.snapshots, SnapshotFor(c, s.pcs[w].m, c.clock(s.world.tables.writes)), Snapped(key));
  }

  lemma OtherHoldings(c: Config, s: State, a: Action, key: Key)
    requires c.dlq != c.destination && Clean(c.dlq, a) && !a.Ack? && !a.Snap? && Enabled(c, s, a)
    ensures Holdings(c, Next(c, s, a), key) == Holdings(c, s, key)
  {
    if Moves(a) {
      QuietHoldings(c, s, a, key);
    } else if a.Feed? || a.Record? || a.Exit? {
      CountUpdate(s.pcs, a.w, Next(c, s, a).pcs[a.w], ToSnap(key));
    }
  }

  lemma QuietHoldings(c: Config, s: State, a: Action, key: Key)
    requires c.dlq != c.destination && Moves(a) && !a.Ack? && !a.Snap? && Enabled(c, s, a)
    ensures Holdings(c, Next(c, s, a), key) == Holdings(c, s, key)
  {
    MoveEffect(c, s, a);
    CountUpdate(s.pcs, a.w, Moved(c, s, a), ToSnap(key));
    assert !ToSnap(key)(s.pcs[a.w]) && !ToSnap(key)(Moved(c, s, a));
  }

  lemma {:induction false} RunHoldings(c: Config, scope: set<string>, f: string -> Content, world: World,
                                       trace: seq<Action>, key: Key)
    requires Covers(scope, c.ids)
    requires Run(c, Start(c, world), trace).Some? && c.dlq != c.destination
    requires QueueAgrees(c.hash, scope, f, Whole(), QueueOf(world.queues, c.dlq))
    requires (forall a :: a in trace ==> Clean(c.dlq, a)) && forall n :: c.writable(n)
    ensures Holdings(c, Run(c, Start(c, world), trace).value, key) == Holdings(c, Start(c, world), key)
  {
    if trace != [] {
      var init, a := trace[..|trace| - 1], trace[|trace| - 1];
      RunHoldings(c, scope, f, world, init, key);
      RunAgrees(c, scope, f, Whole(), world, init);
      var s := Run(c, Start(c, world), init).value;
      if a.Ack? {
        AckHoldings(c, scope, f, s, a, key);
      } else if a.Snap? {
        SnapHoldings(c, s, a.w, key);
      } else {
        OtherHoldings(c, s, a, key);
      }
    }
  }

  /** A finished batch moved copies from the DLQ to the snapshot table, one for one and key by
      key, and the keys left in the DLQ still agree with `f`. */
  lemma {:induction false} SnapshotsReplaceRemovals(c: Config, scope: set<string>, f: string -> Content, world: World,
                                                    trace: seq<Action>, key: Key)
    requires Covers(scope, c.ids)
    requires Run(c, Start(c, world), trace).Some? && c.dlq != c.destination
    requires Run(c, Start(c, world), trace).value.feeder.Tallied?
    requires QueueAgrees(c.hash, scope, f, Whole(), QueueOf(world.queues, c.dlq))
    requires (forall a :: a in trace ==> Clean(c.dlq, a)) && forall n :: c.writable(n)
    ensures var s := Run(c, Start(c, world), trace).value;
            && Count(QueueOf(s.world.queues, c.dlq), InQueue(c.hash, key))
                 + Count(s.world.tables.snapshots, Snapped(key))
               == Count(QueueOf(world.queues, c.dlq), InQueue(c.hash, key))
                 + Count(world.tables.snapshots, Snapped(key))
            && QueueAgrees(c.hash, scope, f, Whole(), QueueOf(s.world.queues, c.dlq))
  {
    RunHoldings(c, scope, f, world, trace, key);
    RunAgrees(c, scope, f, Whole(), world, trace);
    StartInv(c, world);
    RunInv(c, Start(c, world), trace);
    CountNone(Start(c, world).pcs, ToSnap(key));
    CountNone(Run(c, Start(c, world), trace).value.pcs, ToSnap(key));
  }

  /** A snapshot this plan can have taken. */
  predicate SnapshotOf(planId: string, dlq: string, destination: string, s: Snapshot) {
    && s.planId == planId && s.sourceQueue == dlq && s.destination == destination
    && s.messageId != "" && s.destination != ""
  }

  ghost predicate SnapshotsOf(c: Config, s: State) {
    && CarriesItsId(c, s)
    && (forall w :: 0 <= w < |s.pcs| && (s.pcs[w].Acking? || s.pcs[w].Snapshotting?) ==> c.destination != "")
    && (forall x :: x in s.world.tables.snapshots ==> SnapshotOf(c.planId, c.dlq, c.destination, x))
  }

  lemma StepSnapshotsOf(c: Config, s: State, a: Action)
    requires SnapshotsOf(c, s) && Enabled(c, s, a)
    ensures SnapshotsOf(c, Next(c, s, a))
  {
    StepCarries(c, s, a);
    if Moves(a) {
      MoveEffect(c, s, a);
      MoveSnapshotsOf(c, s, a);
    }
  }

  lemma MoveSnapshotsOf(c: Config, s: State, a: Action)
    requires SnapshotsOf(c, s) && Moves(a) && Enabled(c, s, a)
    ensures Moved(c, s, a).Acking? || Moved(c, s, a).Snapshotting? ==> c.destination != ""
    ensures forall x :: x in Next(c, s, a).world.tables.snapshots ==> SnapshotOf(c.planId, c.dlq, c.destination, x)
  {
  }

  lemma {:induction false} RunSnapshotsOf(c: Config, world: World, trace: seq<Action>)
    requires Run(c, Start(c, world), trace).Some?
    requires forall x :: x in world.tables.snapshots ==> SnapshotOf(c.planId, c.dlq, c.destination, x)
    ensures SnapshotsOf(c, Run(c, Start(c, world), trace).value)
  {
    if trace != [] {
      RunSnapshotsOf(c, world, trace[..|trace| - 1]);
      StepSnapshotsOf(c, Run(c, Start(c, world), trace[..|trace| - 1]).value, trace[|trace| - 1]);
    }
  }
}
