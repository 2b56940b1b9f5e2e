// No interleaving loses a message: what leaves the DLQ has been delivered to the destination.
module PoolSafety {
  import opened Seqs
  import opened Mapper
  import opened Pool

  predicate Carries(pc: Pc) {
    pc.Publishing? || pc.Acking? || pc.Snapshotting?
  }

  /** Publishing can be trusted: the destination exists, or is empty and always refused. */
  predicate Safe(c: Config, world: World) {
    c.destination == "" || c.destination in world.queues
  }

  ghost predicate NamesItsIndex(c: Config, pc: Pc) {
    Carries(pc) ==> pc.i < |c.ids| && pc.m.id == c.ids[pc.i] && pc.m.id != ""
  }

  /** A worker only ever carries the message its index names. */
  ghost predicate CarriesItsId(c: Config, s: State) {
    forall w :: 0 <= w < |s.pcs| ==> NamesItsIndex(c, s.pcs[w])
  }

  lemma MoveCarries(c: Config, s: State, a: Action)
    requires Moves(a) && Enabled(c, s, a) && NamesItsIndex(c, s.pcs[a.w])
    ensures NamesItsIndex(c, Moved(c, s, a))
  {
  }

  lemma StepCarries(c: Config, s: State, a: Action)
    requires CarriesItsId(c, s) && Enabled(c, s, a)
    ensures CarriesItsId(c, Next(c, s, a))
  {
    if Moves(a) {
      MoveEffect(c, s, a);
      MoveCarries(c, s, a);
    }
  }

  /** A queue appears or vanishes only when somebody declares or deletes it. */
  lemma StepQueue(c: Config, s: State, a: Action, q: string)
    requires Enabled(c, s, a)
    ensures q in s.world.queues && !a.Deletes(q) ==> q in Next(c, s, a).world.queues
    ensures q !in s.world.queues && !(a.Declare? && a.queue == q) ==> q !in Next(c, s, a).world.queues
  {
  }

  /** Nobody deletes the queue during the trace. */
  predicate Undeleted(q: string, trace: seq<Action>) {
    forall a: Action :: a in trace ==> !a.Deletes(q)
  }

  /** Nobody declares or deletes the queue during the trace. */
  predicate Undisturbed(q: string, trace: seq<Action>) {
    forall a: Action :: a in trace && (a.Declare? || a.Delete?) ==> a.queue != q
  }

  /** Every publish that is confirmed during the trace has reached the destination. */
  predicate ConfirmsArrive(trace: seq<Action>) {
    forall a: Action :: a in trace && a.Publish? && a.confirmed ==> a.arrives
  }

  /** A destination that exists, or is empty, and is not deleted stays safe, and then confirmed
      publishes arrive. */
  lemma {:induction false} KeptConfirmsArrive(c: Config, world: World, trace: seq<Action>)
    requires Safe(c, world) && Run(c, Start(c, world), trace).Some?
    requires c.destination == "" || Undeleted(c.destination, trace)
    ensures Safe(c, Run(c, Start(c, world), trace).value.world) && ConfirmsArrive(trace)
  {
    if trace != [] {
      var init, a := trace[..|trace| - 1], trace[|trace| - 1];
      assert trace == init + [a];
      KeptConfirmsArrive(c, world, init);
      StepQueue(c, Run(c, Start(c, world), init).value, a, c.destination);
    }
  }

  /** Which queues exist at the end of a trace that does not touch them. */
  lemma {:induction false} QueueStays(c: Config, world: World, trace: seq<Action>, q: string)
    requires Run(c, Start(c, world), trace).Some?
    ensures Undeleted(q, trace) && q in world.queues ==> q in Run(c, Start(c, world), trace).value.world.queues
    ensures Undisturbed(q, trace) ==> (q in Run(c, Start(c, world), trace).value.world.queues <==> q in world.queues)
  {
    if trace != [] {
      var init, a := trace[..|trace| - 1], trace[|trace| - 1];
      assert trace == init + [a];
      QueueStays(c, world, init, q);
      StepQueue(c, Run(c, Start(c, world), init).value, a, q);
    }
  }

  lemma OutgoingKeepsId(hash: Hash, m: Message)
    requires m.id != ""
    ensures IdOf(hash, Outgoing(m)) == m.id
  {
  }

  // --- Credits -----------------------------------------------------------------------------

  /** Published, not yet acknowledged: a worker in this state has one delivery to its credit. */
  ghost function Owes(sel: Delivery -> bool): Pc -> bool {
    (pc: Pc) => pc.Acking? && sel(Outgoing(pc.m))
  }

  /** For the selected deliveries: removed from the DLQ, plus about to be, is at most delivered. */
  ghost predicate Covered(s: State, sel: Delivery -> bool) {
    Count(s.removed, sel) + Count(s.pcs, Owes(sel)) <= Count(s.delivered, sel)
  }

  /** What a worker removes is selected only if what it published is. */
  ghost predicate Faithful(c: Config, s: State, sel: Delivery -> bool) {
    forall w, k: nat | 0 <= w < |s.pcs| && s.pcs[w].Acking? && s.pcs[w].i < |c.ids| ::
      Matches(c, s, c.ids[s.pcs[w].i], k) && sel(s.world.queues[c.dlq][k]) ==> sel(Outgoing(s.pcs[w].m))
  }

  lemma StepCovered(c: Config, s: State, a: Action, sel: Delivery -> bool)
    requires Covered(s, sel) && Faithful(c, s, sel) && Enabled(c, s, a)
    requires a.Publish? && a.confirmed ==> a.arrives
    ensures Covered(Next(c, s, a), sel)
  {
    var t := Next(c, s, a);
    if a.Publish? {
      PublishCovered(c, s, a, sel);
    } else if a.Ack? {
      AckCovered(c, s, a, sel);
    } else if Moves(a) || a.Feed? || a.Record? || a.Exit? {
      CountUpdate(s.pcs, a.w, t.pcs[a.w], Owes(sel));
    }
  }

  lemma PublishCovered(c: Config, s: State, a: Action, sel: Delivery -> bool)
    requires Covered(s, sel) && a.Publish? && (a.confirmed ==> a.arrives) && Enabled(c, s, a)
    ensures Covered(Next(c, s, a), sel)
  {
    CountUpdate(s.pcs, a.w, Next(c, s, a).pcs[a.w], Owes(sel));
    if a.arrives {
      CountSnoc(s.delivered, Outgoing(s.pcs[a.w].m), sel);
    }
  }

  lemma AckCovered(c: Config, s: State, a: Action, sel: Delivery -> bool)
    requires Covered(s, sel) && Faithful(c, s, sel) && a.Ack? && Enabled(c, s, a)
    ensures Covered(Next(c, s, a), sel)
  {
    CountUpdate(s.pcs, a.w, Next(c, s, a).pcs[a.w], Owes(sel));
    if a.removes.Some? {
      assert Matches(c, s, c.ids[s.pcs[a.w].i], a.removes.value);
      CountSnoc(s.removed, s.world.queues[c.dlq][a.removes.value], sel);
    }
  }

  lemma StartCovered(c: Config, world: World, sel: Delivery -> bool)
    ensures Covered(Start(c, world), sel) && CarriesItsId(c, Start(c, world))
  {
    CountNone(Start(c, world).pcs, Owes(sel));
  }

  // --- By ID ---------------------------------------------------------------------------------

  ghost function HasId(hash: Hash, id: string): Delivery -> bool {
    (d: Delivery) => IdOf(hash, d) == id
  }

  lemma FaithfulToIds(c: Config, s: State, id: string)
    requires CarriesItsId(c, s)
    ensures Faithful(c, s, HasId(c.hash, id))
  {
    forall w | 0 <= w < |s.pcs| && s.pcs[w].Acking? ensures IdOf(c.hash, Outgoing(s.pcs[w].m)) == c.ids[s.pcs[w].i] {
      OutgoingKeepsId(c.hash, s.pcs[w].m);
    }
  }

  lemma {:induction false} IdsCovered(c: Config, world: World, trace: seq<Action>, id: string)
    requires Run(c, Start(c, world), trace).Some? && ConfirmsArrive(trace)
    ensures var s := Run(c, Start(c, world), trace).value;
            CarriesItsId(c, s) && Covered(s, HasId(c.hash, id))
  {
    if trace == [] {
      StartCovered(c, world, HasId(c.hash, id));
    } else {
      var init, a := trace[..|trace| - 1], trace[|trace| - 1];
      assert trace == init + [a];
      IdsCovered(c, world, init, id);
      var s := Run(c, Start(c, world), init).value;
      FaithfulToIds(c, s, id);
      StepCovered(c, s, a, HasId(c.hash, id));
      StepCarries(c, s, a);
    }
  }

  /** For every ID, whatever the schedule, the retries, the errors and the other traffic: the
      copies taken off the DLQ are at most the copies delivered to the destination, as long as the
      destination exists and nobody deletes it. */
  lemma {:induction false} NoLossOfId(c: Config, world: World, trace: seq<Action>, id: string)
    requires Safe(c, world) && Run(c, Start(c, world), trace).Some?
    requires c.destination == "" || Undeleted(c.destination, trace)
    ensures var s := Run(c, Start(c, world), trace).value;
            Count(s.removed, HasId(c.hash, id)) <= Count(s.delivered, HasId(c.hash, id))
  {
    KeptConfirmsArrive(c, world, trace);
    IdsCovered(c, world, trace, id);
  }

  // --- By payload ------------------------------------------------------------------------------

  /** Some part of a message's content: its payload, or all of it. */
  type View<!T> = Content -> T

  function Planned(ids: seq<string>): set<string> {
    set id | id in ids
  }

  predicate Covers(scope: set<string>, ids: seq<string>) {
    forall id :: id in ids ==> id in scope
  }

  /** An ID in scope stands for the content `f` gives it. */
  ghost predicate DeliveryAgrees<T(!new)>(hash: Hash, scope: set<string>, f: string -> T, view: View<T>, d: Delivery) {
    IdOf(hash, d) in scope ==> f(IdOf(hash, d)) == view(ContentOf(d))
  }

  ghost predicate QueueAgrees<T(!new)>(hash: Hash, scope: set<string>, f: string -> T, view: View<T>,
                                       q: seq<Delivery>) {
    forall k :: 0 <= k < |q| ==> DeliveryAgrees(hash, scope, f, view, q[k])
  }

  ghost predicate TrafficAgrees<T(!new)>(c: Config, scope: set<string>, f: string -> T, view: View<T>, a: Action) {
    a.Arrive? && a.queue == c.dlq ==> DeliveryAgrees(c.hash, scope, f, view, a.d)
  }

  ghost predicate Agrees<T(!new)>(c: Config, scope: set<string>, f: string -> T, view: View<T>, s: State) {
    && QueueAgrees(c.hash, scope, f, view, QueueOf(s.world.queues, c.dlq))
    && forall w :: 0 <= w < |s.pcs| ==> CarriedAgrees(f, view, s.pcs[w])
  }

  ghost predicate CarriedAgrees<T(!new)>(f: string -> T, view: View<T>, pc: Pc) {
    Carries(pc) ==> f(pc.m.id) == view(ContentIn(pc.m))
  }

  lemma SnocAgrees<T(!new)>(hash: Hash, scope: set<string>, f: string -> T, view: View<T>, q: seq<Delivery>,
                            d: Delivery)
    requires QueueAgrees(hash, scope, f, view, q) && DeliveryAgrees(hash, scope, f, view, d)
    ensures QueueAgrees(hash, scope, f, view, q + [d])
  {
  }

  lemma RemoveAgrees<T(!new)>(hash: Hash, scope: set<string>, f: string -> T, view: View<T>, q: seq<Delivery>, k: nat)
    requires QueueAgrees(hash, scope, f, view, q) && k < |q|
    ensures QueueAgrees(hash, scope, f, view, RemoveAt(q, k))
  {
  }

  lemma StepQueueAgrees<T(!new)>(c: Config, scope: set<string>, f: string -> T, view: View<T>, s: State, a: Action)
    requires Agrees(c, scope, f, view, s) && CarriesItsId(c, s) && TrafficAgrees(c, scope, f, view, a)
             && Enabled(c, s, a)
    ensures QueueAgrees(c.hash, scope, f, view, QueueOf(Next(c, s, a).world.queues, c.dlq))
  {
    var q := QueueOf(s.world.queues, c.dlq);
    if a.Publish? && a.arrives {
      OutgoingKeepsId(c.hash, s.pcs[a.w].m);
      ContentIsKept(c.hash, Outgoing(s.pcs[a.w].m), s.pcs[a.w].m, c.dlq);
      SnocAgrees(c.hash, scope, f, view, q, Outgoing(s.pcs[a.w].m));
    } else if a.Ack? && a.removes.Some? {
      RemoveAgrees(c.hash, scope, f, view, q, a.removes.value);
    } else if a.Arrive? && a.queue == c.dlq {
      SnocAgrees(c.hash, scope, f, view, q, a.d);
    } else if a.Leave? && a.queue == c.dlq {
      RemoveAgrees(c.hash, scope, f, view, q, a.k);
    }
  }

  lemma StepAgrees<T(!new)>(c: Config, scope: set<string>, f: string -> T, view: View<T>, s: State, a: Action)
    requires Covers(scope, c.ids)
    requires Agrees(c, scope, f, view, s) && CarriesItsId(c, s) && TrafficAgrees(c, scope, f, view, a)
             && Enabled(c, s, a)
    ensures Agrees(c, scope, f, view, Next(c, s, a))
  {
    StepQueueAgrees(c, scope, f, view, s, a);
    if Moves(a) {
      MoveEffect(c, s, a);
      MoveAgrees(c, scope, f, view, s, a);
    }
  }

  lemma MoveAgrees<T(!new)>(c: Config, scope: set<string>, f: string -> T, view: View<T>, s: State, a: Action)
    requires Covers(scope, c.ids) && Moves(a) && Enabled(c, s, a)
    requires QueueAgrees(c.hash, scope, f, view, QueueOf(s.world.queues, c.dlq)) && CarriedAgrees(f, view, s.pcs[a.w])
    ensures CarriedAgrees(f, view, Moved(c, s, a))
  {
    if a.Inspect? && a.found.Some? {
      var d := s.world.queues[c.dlq][a.found.value];
      assert DeliveryAgrees(c.hash, scope, f, view, d);
      ContentIsKept(c.hash, d, ToMessage(c.hash, d, c.dlq), c.dlq);
    }
  }

  lemma {:induction false} RunAgrees<T(!new)>(c: Config, scope: set<string>, f: string -> T, view: View<T>,
                                              world: World, trace: seq<Action>)
    requires Covers(scope, c.ids)
    requires Run(c, Start(c, world), trace).Some?
    requires QueueAgrees(c.hash, scope, f, view, QueueOf(world.queues, c.dlq))
    requires forall a :: a in trace ==> TrafficAgrees(c, scope, f, view, a)
    ensures var s := Run(c, Start(c, world), trace).value;
            Agrees(c, scope, f, view, s) && CarriesItsId(c, s)
  {
    if trace != [] {
      var init, a := trace[..|trace| - 1], trace[|trace| - 1];
      RunAgrees(c, scope, f, view, world, init);
      StepAgrees(c, scope, f, view, Run(c, Start(c, world), init).value, a);
      StepCarries(c, Run(c, Start(c, world), init).value, a);
    }
  }

  function HasBody(body: string): Delivery -> bool {
    (d: Delivery) => d.body == body
  }

  function Payload(): View<string> {
    (content: Content) => content.payload
  }

  lemma FaithfulToBodies(c: Config, scope: set<string>, f: string -> string, s: State, body: string)
    requires Covers(scope, c.ids)
    requires Agrees(c, scope, f, Payload(), s) && CarriesItsId(c, s)
    ensures Faithful(c, s, HasBody(body))
  {
    forall w, k: nat | 0 <= w < |s.pcs| && s.pcs[w].Acking? && Matches(c, s, c.ids[s.pcs[w].i], k)
      ensures s.world.queues[c.dlq][k].body == s.pcs[w].m.payload
    {
      assert DeliveryAgrees(c.hash, scope, f, Payload(), s.world.queues[c.dlq][k]);
    }
  }

  /** For every payload, when equal planned IDs in the DLQ mean equal payloads: the copies taken
      off the DLQ are at most the copies delivered to the destination. */
  lemma {:induction false} NoLossOfPayload(c: Config, scope: set<string>, f: string -> string, world: World,
                                           trace: seq<Action>, body: string)
    requires Covers(scope, c.ids)
    requires Run(c, Start(c, world), trace).Some? && ConfirmsArrive(trace)
    requires QueueAgrees(c.hash, scope, f, Payload(), QueueOf(world.queues, c.dlq))
    requires forall a :: a in trace ==> TrafficAgrees(c, scope, f, Payload(), a)
    ensures var s := Run(c, Start(c, world), trace).value;
            && Covered(s, HasBody(body))
            && Count(s.removed, HasBody(body)) <= Count(s.delivered, HasBody(body))
  {
    if trace == [] {
      StartCovered(c, world, HasBody(body));
    } else {
      var init, a := trace[..|trace| - 1], trace[|trace| - 1];
      assert trace == init + [a];
      NoLossOfPayload(c, scope, f, world, init, body);
      IdsCovered(c, world, init, "");
      RunAgrees(c, scope, f, Payload(), world, init);
      var s := Run(c, Start(c, world), init).value;
      FaithfulToBodies(c, scope, f, s, body);
      StepCovered(c, s, a, HasBody(body));
    }
  }

  // --- The history logs are the queues --------------------------------------------------------

  /** Without other traffic, and with a destination other than the DLQ, the logs are exactly what
      the two queues lost and gained, and no other queue changes. */
  ghost predicate Ledger(c: Config, world: World, s: State) {
    && s.world.queues.Keys == world.queues.Keys
    && multiset(QueueOf(world.queues, c.dlq)) == multiset(QueueOf(s.world.queues, c.dlq)) + multiset(s.removed)
    && QueueOf(s.world.queues, c.destination) == QueueOf(world.queues, c.destination) + s.delivered
    && forall q :: q in world.queues && q != c.dlq && q != c.destination ==> s.world.queues[q] == world.queues[q]
  }

  lemma RemoveAtMultiset<T>(s: seq<T>, k: nat)
    requires k < |s|
    ensures multiset(s) == multiset(RemoveAt(s, k)) + multiset{s[k]}
  {
    assert s == s[..k] + [s[k]] + s[k + 1..];
  }

  lemma PublishLedger(c: Config, world: World, s: State, a: Action)
    requires Ledger(c, world, s) && c.dlq != c.destination && a.Publish? && Enabled(c, s, a)
    ensures Ledger(c, world, Next(c, s, a))
  {
    if a.arrives {
      var d := Outgoing(s.pcs[a.w].m);
      var t := Next(c, s, a);
      assert t.world.queues == s.world.queues[c.destination := s.world.queues[c.destination] + [d]];
      assert t.removed == s.removed && t.delivered == s.delivered + [d];
      assert QueueOf(world.queues, c.destination) + (s.delivered + [d])
          == (QueueOf(world.queues, c.destination) + s.delivered) + [d];
    }
  }

  lemma AckLedger(c: Config, world: World, s: State, a: Action)
    requires Ledger(c, world, s) && c.dlq != c.destination && a.Ack? && Enabled(c, s, a)
    ensures Ledger(c, world, Next(c, s, a))
  {
    var t := Next(c, s, a);
    if a.removes.Some? {
      RemovalLedger(c, world, s, t, a.removes.value);
    } else {
      assert t.world == s.world && t.removed == s.removed && t.delivered == s.delivered;
    }
  }

  lemma RemovalLedger(c: Config, world: World, s: State, t: State, k: nat)
    requires Ledger(c, world, s) && c.dlq != c.destination
    requires c.dlq in s.world.queues && k < |s.world.queues[c.dlq]|
    requires t.world.queues == s.world.queues[c.dlq := RemoveAt(s.world.queues[c.dlq], k)]
    requires t.removed == s.removed + [s.world.queues[c.dlq][k]] && t.delivered == s.delivered
    ensures Ledger(c, world, t)
  {
    TakenFromDlq(multiset(QueueOf(world.queues, c.dlq)), s.world.queues[c.dlq], s.removed, k);
  }

  lemma TakenFromDlq<T>(all: multiset<T>, q: seq<T>, removed: seq<T>, k: nat)
    requires k < |q| && all == multiset(q) + multiset(removed)
    ensures all == multiset(RemoveAt(q, k)) + multiset(removed + [q[k]])
  {
    RemoveAtMultiset(q, k);
  }

  lemma OtherLedger(c: Config, world: World, s: State, a: Action)
    requires Ledger(c, world, s) && !a.Publish? && !a.Ack? && !a.IsTraffic() && Enabled(c, s, a)
    ensures Ledger(c, world, Next(c, s, a))
  {
    var t := Next(c, s, a);
    assert t.world.queues == s.world.queues && t.removed == s.removed && t.delivered == s.delivered;
  }

  lemma StepLedger(c: Config, world: World, s: State, a: Action)
    requires Ledger(c, world, s) && c.dlq != c.destination && !a.IsTraffic() && Enabled(c, s, a)
    ensures Ledger(c, world, Next(c, s, a))
  {
    if a.Publish? {
      PublishLedger(c, world, s, a);
    } else if a.Ack? {
      AckLedger(c, world, s, a);
    } else {
      OtherLedger(c, world, s, a);
    }
  }

  lemma {:induction false} LogsAreTheQueues(c: Config, world: World, trace: seq<Action>)
    requires c.dlq != c.destination && Run(c, Start(c, world), trace).Some?
    requires forall a: Action :: a in trace ==> !a.IsTraffic()
    ensures Ledger(c, world, Run(c, Start(c, world), trace).value)
  {
    if trace != [] {
      LogsAreTheQueues(c, world, trace[..|trace| - 1]);
      StepLedger(c, world, Run(c, Start(c, world), trace[..|trace| - 1]).value, trace[|trace| - 1]);
    }
  }

  // --- The probe is necessary ------------------------------------------------------------------

  /** Steps of the pool itself, none of them an ack. */
  predicate Quiet(trace: seq<Action>) {
    forall a: Action :: a in trace ==> !a.IsTraffic() && !a.Ack?
  }

  lemma OneStep(c: Config, world: World, trace: seq<Action>, a: Action) returns (more: seq<Action>)
    requires Run(c, Start(c, world), trace).Some? && Enabled(c, Run(c, Start(c, world), trace).value, a)
    ensures more == trace + [a]
    ensures Run(c, Start(c, world), more) == Some(Next(c, Run(c, Start(c, world), trace).value, a))
  {
    more := trace + [a];
    RunSnoc(c, Start(c, world), trace, a);
  }

  lemma OneMore(c: Config, world: World, trace: seq<Action>, a: Action) returns (more: seq<Action>)
    requires Run(c, Start(c, world), trace).Some? && Quiet(trace) && !a.IsTraffic() && !a.Ack?
    requires Enabled(c, Run(c, Start(c, world), trace).value, a)
    ensures more == trace + [a] && Quiet(more)
    ensures Run(c, Start(c, world), more) == Some(Next(c, Run(c, Start(c, world), trace).value, a))
  {
    more := trace + [a];
    RunSnoc(c, Start(c, world), trace, a);
  }

  /** The first `n` indices give up at the rate limiter: nothing changes but the results. */
  lemma {:induction false} GiveUpOn(c: Config, world: World, n: nat) returns (trace: seq<Action>)
    requires n <= |c.ids| && |c.ids| > 0
    ensures Run(c, Start(c, world), trace).Some? && Quiet(trace)
    ensures var s := Run(c, Start(c, world), trace).value;
            && s.feeder == Feeding(n) && |s.pcs| > 0 && s.pcs[0] == Idle
            && |s.results| == |c.ids| && s.world == world && s.removed == [] && s.delivered == []
  {
    trace := [];
    if n > 0 {
      trace := GiveUpOn(c, world, n - 1);
      trace := OneMore(c, world, trace, Feed(0));
      trace := OneMore(c, world, trace, Wait(0, false));
      trace := OneMore(c, world, trace, Record(0));
    }
  }

  /** One worker reads the message at position `k` and is ready to publish it. */
  lemma ReachPublish(c: Config, world: World, j: nat, k: nat) returns (trace: seq<Action>)
    requires c.retries >= 0
    requires j < |c.ids| && Matches(c, Start(c, world), c.ids[j], k)
    ensures Run(c, Start(c, world), trace).Some? && Quiet(trace)
    ensures var s := Run(c, Start(c, world), trace).value;
            && |s.pcs| > 0 && s.pcs[0] == Publishing(j, ToMessage(c.hash, world.queues[c.dlq][k], c.dlq), 0)
            && s.world == world && s.removed == [] && s.delivered == []
  {
    trace := GiveUpOn(c, world, j);
    trace := OneMore(c, world, trace, Feed(0));
    trace := OneMore(c, world, trace, Wait(0, true));
    trace := OneMore(c, world, trace, Inspect(0, Some(k)));
  }

  /** One worker has published the message it read at position `k`. */
  lemma ReachAck(c: Config, world: World, j: nat, k: nat) returns (trace: seq<Action>)
    requires c.retries >= 0 && c.destination != "" && c.destination in world.queues
    requires j < |c.ids| && Matches(c, Start(c, world), c.ids[j], k)
    ensures Run(c, Start(c, world), trace).Some? && Quiet(trace)
    ensures var s := Run(c, Start(c, world), trace).value;
            var m := ToMessage(c.hash, world.queues[c.dlq][k], c.dlq);
            && |s.pcs| > 0 && s.pcs[0] == Acking(j, m) && s.removed == [] && s.delivered == [Outgoing(m)]
            && s.world.queues == world.queues[c.destination := world.queues[c.destination] + [Outgoing(m)]]
  {
    trace := ReachPublish(c, world, j, k);
    trace := OneMore(c, world, trace, Publish(0, true, true));
  }

  /** Without the probe: if the destination is missing, a schedule exists that takes a planned
      message off the DLQ although nothing is delivered anywhere. */
  lemma MissingDestinationLoses(c: Config, world: World, j: nat, k: nat) returns (trace: seq<Action>)
    requires !Safe(c, world) && c.retries >= 0
    requires j < |c.ids| && Matches(c, Start(c, world), c.ids[j], k)
    ensures Run(c, Start(c, world), trace).Some? && Undeleted(c.destination, trace)
    ensures var s := Run(c, Start(c, world), trace).value;
            s.removed == [world.queues[c.dlq][k]] && s.delivered == []
  {
    trace := ReachPublish(c, world, j, k);
    trace := OneMore(c, world, trace, Publish(0, true, false));
    trace := OneStep(c, world, trace, Ack(0, true, Some(k)));
  }

  /** A schedule that somebody deletes the destination in, after the probe: one worker has read a
      planned message and publishes it to nowhere, and the ack takes it off the DLQ. When the DLQ
      is its own destination, it comes back in between with another message under that ID. */
  lemma DeletedDestinationLoses(c: Config, world: World, j: nat, k: nat) returns (trace: seq<Action>)
    requires c.destination != "" && c.destination in world.queues && c.retries >= 0
    requires j < |c.ids| && Matches(c, Start(c, world), c.ids[j], k)
    ensures Run(c, Start(c, world), trace).Some?
    ensures var s := Run(c, Start(c, world), trace).value;
            s.removed == [world.queues[c.dlq][k]] && s.delivered == []
  {
    trace := ReachPublish(c, world, j, k);
    trace := OneStep(c, world, trace, Delete(c.destination));
    trace := OneStep(c, world, trace, Publish(0, true, false));
    if c.destination == c.dlq {
      trace := ComesBack(c, world, trace, world.queues[c.dlq][k]);
      trace := OneStep(c, world, trace, Ack(0, true, Some(0)));
    } else {
      trace := OneStep(c, world, trace, Ack(0, true, Some(k)));
    }
  }

  /** A missing DLQ is declared again and gets one message. */
  lemma ComesBack(c: Config, world: World, trace: seq<Action>, d: Delivery) returns (more: seq<Action>)
    requires Run(c, Start(c, world), trace).Some? && c.dlq !in Run(c, Start(c, world), trace).value.world.queues
    ensures Run(c, Start(c, world), more).Some?
    ensures var s, t := Run(c, Start(c, world), trace).value, Run(c, Start(c, world), more).value;
            && t.pcs == s.pcs && t.removed == s.removed && t.delivered == s.delivered
            && c.dlq in t.world.queues && t.world.queues[c.dlq] == [d]
  {
    more := OneStep(c, world, trace, Declare(c.dlq));
    more := OneStep(c, world, more, Arrive(c.dlq, d));
  }

  /** No schedule loses an ID: among those in which nobody deletes the destination, or among all. */
  ghost predicate LosesNothing(c: Config, world: World, deletable: bool) {
    forall trace :: Run(c, Start(c, world), trace).Some? && (deletable || Undeleted(c.destination, trace)) ==>
      NothingLost(c, Run(c, Start(c, world), trace).value)
  }

  /** For every ID, no more copies were taken off the DLQ than delivered. */
  ghost predicate NothingLost(c: Config, s: State) {
    forall id :: Count(s.removed, HasId(c.hash, id)) <= Count(s.delivered, HasId(c.hash, id))
  }

  /** With a negative retry count no attempt is made to publish, so nothing is removed. */
  ghost predicate Untouched(s: State) {
    s.removed == [] && forall w :: 0 <= w < |s.pcs| ==> !Carries(s.pcs[w])
  }

  lemma StepUntouched(c: Config, s: State, a: Action)
    requires c.retries < 0 && Untouched(s) && Enabled(c, s, a)
    ensures Untouched(Next(c, s, a))
  {
    if Moves(a) {
      MoveEffect(c, s, a);
      assert !a.Publish? && !a.Ack?;
      assert !Carries(Moved(c, s, a));
    }
  }

  lemma {:induction false} NoTriesNoRemovals(c: Config, world: World, trace: seq<Action>)
    requires c.retries < 0 && Run(c, Start(c, world), trace).Some?
    ensures Untouched(Run(c, Start(c, world), trace).value)
  {
    if trace != [] {
      NoTriesNoRemovals(c, world, trace[..|trace| - 1]);
      StepUntouched(c, Run(c, Start(c, world), trace[..|trace| - 1]).value, trace[|trace| - 1]);
    }
  }

  /** Exactly what the existence probe buys: when some planned message is in the DLQ, a batch that
      tries to publish is lossless under every schedule that leaves the destination alone if and
      only if the destination exists (or is empty). */
  lemma LosslessIffProbed(c: Config, world: World, j: nat, k: nat)
    requires j < |c.ids| && Matches(c, Start(c, world), c.ids[j], k)
    ensures LosesNothing(c, world, false) <==> Safe(c, world) || c.retries < 0
  {
    if c.retries < 0 {
      NoTriesLoseNothing(c, world, false);
    } else if Safe(c, world) {
      forall trace | Run(c, Start(c, world), trace).Some? && Undeleted(c.destination, trace)
        ensures NothingLost(c, Run(c, Start(c, world), trace).value)
      {
        NoLossOfAny(c, world, trace);
      }
    } else {
      var trace := MissingDestinationLoses(c, world, j, k);
      OneLost(c, world, trace, world.queues[c.dlq][k], false);
    }
  }

  /** And exactly what it does not buy: once others may delete the destination during the batch,
      nothing is safe but a batch that never publishes. */
  lemma LosslessDespiteDeletionIff(c: Config, world: World, j: nat, k: nat)
    requires j < |c.ids| && Matches(c, Start(c, world), c.ids[j], k)
    ensures LosesNothing(c, world, true) <==> c.destination == "" || c.retries < 0
  {
    if c.retries < 0 {
      NoTriesLoseNothing(c, world, true);
    } else if c.destination == "" {
      forall trace | Run(c, Start(c, world), trace).Some?
        ensures NothingLost(c, Run(c, Start(c, world), trace).value)
      {
        NoLossOfAny(c, world, trace);
      }
    } else if c.destination in world.queues {
      var trace := DeletedDestinationLoses(c, world, j, k);
      OneLost(c, world, trace, world.queues[c.dlq][k], true);
    } else {
      var trace := MissingDestinationLoses(c, world, j, k);
      OneLost(c, world, trace, world.queues[c.dlq][k], true);
    }
  }

  lemma NoLossOfAny(c: Config, world: World, trace: seq<Action>)
    requires Safe(c, world) && Run(c, Start(c, world), trace).Some?
    requires c.destination == "" || Undeleted(c.destination, trace)
    ensures NothingLost(c, Run(c, Start(c, world), trace).value)
  {
    forall id ensures
      var s := Run(c, Start(c, world), trace).value;
      Count(s.removed, HasId(c.hash, id)) <= Count(s.delivered, HasId(c.hash, id))
    {
      NoLossOfId(c, world, trace, id);
    }
  }

  lemma NoTriesLoseNothing(c: Config, world: World, deletable: bool)
    requires c.retries < 0
    ensures LosesNothing(c, world, deletable)
  {
    forall trace | Run(c, Start(c, world), trace).Some?
      ensures NothingLost(c, Run(c, Start(c, world), trace).value)
    {
      NoTriesNoRemovals(c, world, trace);
    }
  }

  /** A schedule that removes a message and delivers none is a loss. */
  lemma OneLost(c: Config, world: World, trace: seq<Action>, d: Delivery, deletable: bool)
    requires Run(c, Start(c, world), trace).Some? && (deletable || Undeleted(c.destination, trace))
    requires var s := Run(c, Start(c, world), trace).value; s.removed == [d] && s.delivered == []
    ensures !LosesNothing(c, world, deletable)
  {
    CountOne(d, HasId(c.hash, IdOf(c.hash, d)));
    assert !NothingLost(c, Run(c, Start(c, world), trace).value);
  }

  // --- Equal IDs must mean equal payloads ------------------------------------------------------

  /** If two deliveries share a planned ID but not their payload, a schedule publishes one and
      takes the other off the DLQ. */
  lemma MixedPayloadsLose(c: Config, world: World, j: nat, k1: nat, k2: nat) returns (trace: seq<Action>)
    requires c.retries >= 0 && c.destination != "" && c.destination in world.queues
    requires j < |c.ids| && Matches(c, Start(c, world), c.ids[j], k1) && Matches(c, Start(c, world), c.ids[j], k2)
    ensures Run(c, Start(c, world), trace).Some? && Spares(c, trace)
    ensures forall a: Action :: a in trace ==> !a.IsTraffic()
    ensures var s := Run(c, Start(c, world), trace).value;
            && s.removed == [world.queues[c.dlq][k2]]
            && |s.delivered| == 1 && s.delivered[0].body == world.queues[c.dlq][k1].body
  {
    trace := ReachAck(c, world, j, k1);
    RunSnoc(c, Start(c, world), trace, Ack(0, true, Some(k2)));
    trace := trace + [Ack(0, true, Some(k2))];
  }

  /** Other traffic stays off the DLQ and does not delete the destination. */
  predicate Spares(c: Config, trace: seq<Action>) {
    Undeleted(c.destination, trace) && forall a: Action :: a in trace ==> a.SparesQueue(c.dlq)
  }

  ghost predicate LosesNoPayload(c: Config, world: World) {
    forall trace, body ::
      Run(c, Start(c, world), trace).Some? && Spares(c, trace) ==>
        var s := Run(c, Start(c, world), trace).value;
        Count(s.removed, HasBody(body)) <= Count(s.delivered, HasBody(body))
  }

  /** What an ID stands for in a queue: its first holder. */
  ghost function FirstHolder(hash: Hash, q: seq<Delivery>, id: string): Option<Delivery> {
    if q == [] then None else if IdOf(hash, q[0]) == id then Some(q[0]) else FirstHolder(hash, q[1..], id)
  }

  lemma {:induction false} FirstIsHeld(hash: Hash, q: seq<Delivery>, k: nat) returns (k0: nat)
    requires k < |q|
    ensures k0 < |q| && IdOf(hash, q[k0]) == IdOf(hash, q[k]) && FirstHolder(hash, q, IdOf(hash, q[k])) == Some(q[k0])
  {
    if IdOf(hash, q[0]) == IdOf(hash, q[k]) {
      k0 := 0;
    } else {
      k0 := FirstIsHeld(hash, q[1..], k - 1);
      k0 := k0 + 1;
    }
  }

  /** The content of an ID's first holder. */
  ghost function FirstContent<T>(hash: Hash, q: seq<Delivery>, view: View<T>): string -> T {
    id => var d := FirstHolder(hash, q, id);
          view(if d.Some? then ContentOf(d.value) else Content("", "", map[]))
  }

  /** Deliveries of the DLQ that share a planned ID have the same content. */
  ghost predicate PlannedIdsFix<T(!new)>(c: Config, world: World, view: View<T>) {
    forall j, k1: nat, k2: nat | 0 <= j < |c.ids| ::
      Matches(c, Start(c, world), c.ids[j], k1) && Matches(c, Start(c, world), c.ids[j], k2) ==>
        ContentAt(c, world, view, k1) == ContentAt(c, world, view, k2)
  }

  ghost function ContentAt<T>(c: Config, world: World, view: View<T>, k: nat): T {
    var q := QueueOf(world.queues, c.dlq);
    view(if k < |q| then ContentOf(q[k]) else Content("", "", map[]))
  }

  /** Then the first holders say what every planned ID stands for. */
  lemma FixedByFirstHolders<T(!new)>(c: Config, world: World, view: View<T>)
    requires PlannedIdsFix(c, world, view)
    ensures var q := QueueOf(world.queues, c.dlq);
            QueueAgrees(c.hash, Planned(c.ids), FirstContent(c.hash, q, view), view, q)
  {
    var q := QueueOf(world.queues, c.dlq);
    forall k | 0 <= k < |q|
      ensures DeliveryAgrees(c.hash, Planned(c.ids), FirstContent(c.hash, q, view), view, q[k])
    {
      var k0 := FirstIsHeld(c.hash, q, k);
      if IdOf(c.hash, q[k]) in c.ids {
        var j :| 0 <= j < |c.ids| && c.ids[j] == IdOf(c.hash, q[k]);
        assert Matches(c, Start(c, world), c.ids[j], k) && Matches(c, Start(c, world), c.ids[j], k0);
        assert ContentAt(c, world, view, k) == ContentAt(c, world, view, k0);
      }
    }
  }

  /** Exactly when no schedule loses a payload, once the probe has passed and if nobody deletes the
      destination afterwards: when deliveries that share a planned ID share their payload. */
  lemma PayloadsSafeIffIdsFixThem(c: Config, world: World)
    requires c.destination != "" && c.destination in world.queues
    ensures LosesNoPayload(c, world) <==> PlannedIdsFix(c, world, Payload()) || c.retries < 0
  {
    if c.retries < 0 {
      forall trace, body | Run(c, Start(c, world), trace).Some?
        ensures var s := Run(c, Start(c, world), trace).value;
                Count(s.removed, HasBody(body)) <= Count(s.delivered, HasBody(body))
      {
        NoTriesNoRemovals(c, world, trace);
      }
    } else if PlannedIdsFix(c, world, Payload()) {
      FixedPayloadsAreSafe(c, world);
    } else {
      var j, k1: nat, k2: nat :| 0 <= j < |c.ids|
        && Matches(c, Start(c, world), c.ids[j], k1) && Matches(c, Start(c, world), c.ids[j], k2)
        && ContentAt(c, world, Payload(), k1) != ContentAt(c, world, Payload(), k2);
      MixedPayloadsAreNot(c, world, j, k1, k2);
    }
  }

  lemma FixedPayloadsAreSafe(c: Config, world: World)
    requires c.destination in world.queues && PlannedIdsFix(c, world, Payload())
    ensures LosesNoPayload(c, world)
  {
    var f := FirstContent(c.hash, QueueOf(world.queues, c.dlq), Payload());
    FixedByFirstHolders(c, world, Payload());
    forall trace, body | Run(c, Start(c, world), trace).Some? && Spares(c, trace)
      ensures var s := Run(c, Start(c, world), trace).value;
              Count(s.removed, HasBody(body)) <= Count(s.delivered, HasBody(body))
    {
      KeptConfirmsArrive(c, world, trace);
      NoLossOfPayload(c, Planned(c.ids), f, world, trace, body);
    }
  }

  lemma MixedPayloadsAreNot(c: Config, world: World, j: nat, k1: nat, k2: nat)
    requires c.retries >= 0 && c.destination != "" && c.destination in world.queues
    requires j < |c.ids| && Matches(c, Start(c, world), c.ids[j], k1) && Matches(c, Start(c, world), c.ids[j], k2)
    requires ContentAt(c, world, Payload(), k1) != ContentAt(c, world, Payload(), k2)
    ensures !LosesNoPayload(c, world)
  {
    var d := world.queues[c.dlq][k2];
    var trace := MixedPayloadsLose(c, world, j, k1, k2);
    var s := Run(c, Start(c, world), trace).value;
    CountSnoc([], d, HasBody(d.body));
    CountSnoc([], s.delivered[0], HasBody(d.body));
    assert s.delivered == [] + [s.delivered[0]] && s.removed == [] + [d];
  }
}
