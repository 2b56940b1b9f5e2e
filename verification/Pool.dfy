// internal/recovery/executor.go, runBatch and process: the worker pool of one batch as a state
// machine. Every worker has a program counter; the feeder hands out indices over an unbuffered
// channel; broker and store outcomes, and the schedule, are chosen by the actions of a trace.
module Pool {
  import opened Seqs
  import opened Mapper
  import opened Audit

  /** Everything a run can change: the broker's queues and the local store. A queue that is not
      in the map does not exist. */
  datatype World = World(queues: map<string, seq<Delivery>>, tables: Tables)

  function QueueOf(queues: map<string, seq<Delivery>>, q: string): seq<Delivery> {
    if q in queues then queues[q] else []
  }

  /** One batch: the plan's identity and queues, the batch's IDs and the run's limits. */
  datatype Config = Config(hash: Hash, writable: Writable, clock: Clock,
                           planId: string, dlq: string, destination: string,
                           ids: seq<string>, concurrency: int, retries: int)

  datatype Outcome = Replayed | PublishFailed | AckFailed

  datatype Pc =
    | Idle                                                   // blocked on the work channel
    | Waiting(i: nat)                                        // limiter.Wait
    | Inspecting(i: nat)
    | Publishing(i: nat, m: Message, attempt: nat)
    | Acking(i: nat, m: Message)
    | Snapshotting(i: nat, m: Message)
    | Auditing(i: nat, outcome: Outcome, detail: string)
    | Recording(i: nat, outcome: Outcome)                    // results[i] = outcome
    | Exited
  {
    predicate Busy() {
      !Idle? && !Exited?
    }
  }

  datatype Tally = Tally(publishFailures: nat, ackFailures: nat, replayed: nat)

  /** The goroutine that runs runBatch: feeding the channel, then waiting, then done. */
  datatype Feeder = Feeding(next: nat) | Closed | Tallied(tally: Tally)

  /** `removed` and `delivered` are history: what this batch took off the DLQ and what the broker
      accepted at the destination. */
  datatype State = State(feeder: Feeder, pcs: seq<Pc>, results: seq<Option<Outcome>>, world: World,
                         removed: seq<Delivery>, delivered: seq<Delivery>)

  datatype Action =
    | Feed(w: nat)                                    // work <- i, received by w
    | Close
    | Exit(w: nat)
    | Finish                                          // wg.Wait returns, results are tallied
    | Wait(w: nat, granted: bool)
    | Inspect(w: nat, found: Option<nat>)             // position read, or an error
    | Publish(w: nat, confirmed: bool, arrives: bool) // an error may still have delivered
    | Ack(w: nat, ok: bool, removes: Option<nat>)     // an error may still have removed
    | Snap(w: nat)
    | Log(w: nat)
    | Record(w: nat)
    | Arrive(queue: string, d: Delivery)              // other traffic: a producer
    | Leave(queue: string, k: nat)                    // other traffic: a consumer
    | Declare(queue: string)                          // other traffic: an empty queue is made
    | Delete(queue: string)                           // other traffic: a queue goes, with its messages
  {
    predicate IsTraffic() {
      Arrive? || Leave? || Declare? || Delete?
    }

    predicate Deletes(q: string) {
      Delete? && queue == q
    }

    /** Other traffic, if this is any, is on another queue. */
    predicate SparesQueue(q: string) {
      IsTraffic() ==> queue != q
    }
  }

  function NumWorkers(c: Config): nat {
    var n := if c.concurrency <= 0 then 1 else c.concurrency;
    if n > |c.ids| then |c.ids| else n
  }

  function Start(c: Config, world: World): State {
    State(Feeding(0), seq(NumWorkers(c), _ => Idle), seq(|c.ids|, _ => None), world, [], [])
  }

  function Is(o: Outcome): Option<Outcome> -> bool {
    r => r == Some(o)
  }

  function TallyOf(results: seq<Option<Outcome>>): Tally {
    Tally(Count(results, Is(PublishFailed)) + Count(results, Is(AckFailed)),
          Count(results, Is(AckFailed)), Count(results, Is(Replayed)))
  }

  // --- What the broker may do -----------------------------------------------------------

  predicate Holds(hash: Hash, queues: map<string, seq<Delivery>>, q: string, id: string, k: nat) {
    q in queues && k < |queues[q]| && IdOf(hash, queues[q][k]) == id
  }

  /** A publish: an error may still have delivered, an empty destination is always an error, and a
      missing queue confirms and drops. */
  predicate PublishPossible(queues: map<string, seq<Delivery>>, q: string, confirmed: bool, arrives: bool) {
    && (arrives ==> q in queues)
    && (q == "" ==> !confirmed && !arrives)
    && (confirmed && q in queues ==> arrives)
  }

  /** An ack: success removes one delivery with the ID, an error may have. */
  predicate AckPossible(hash: Hash, queues: map<string, seq<Delivery>>, q: string, id: string, ok: bool,
                        removes: Option<nat>) {
    (ok ==> removes.Some?) && (removes.Some? ==> Holds(hash, queues, q, id, removes.value))
  }

  predicate Matches(c: Config, s: State, id: string, k: nat) {
    Holds(c.hash, s.world.queues, c.dlq, id, k)
  }

  /** Which actions the code and the broker allow in a state. */
  predicate Enabled(c: Config, s: State, a: Action) {
    match a
    case Feed(w) => s.feeder.Feeding? && s.feeder.next < |c.ids| && w < |s.pcs| && s.pcs[w].Idle?
    case Close => s.feeder.Feeding? && s.feeder.next == |c.ids|
    case Exit(w) => s.feeder.Closed? && w < |s.pcs| && s.pcs[w].Idle?
    case Finish => s.feeder.Closed? && forall w :: 0 <= w < |s.pcs| ==> s.pcs[w].Exited?
    case Wait(w, _) => w < |s.pcs| && s.pcs[w].Waiting?
    case Inspect(w, found) =>
      && w < |s.pcs| && s.pcs[w].Inspecting? && s.pcs[w].i < |c.ids|
      && (found.Some? ==> Matches(c, s, c.ids[s.pcs[w].i], found.value))
    case Publish(w, confirmed, arrives) =>
      w < |s.pcs| && s.pcs[w].Publishing? && PublishPossible(s.world.queues, c.destination, confirmed, arrives)
    case Ack(w, ok, removes) =>
      && w < |s.pcs| && s.pcs[w].Acking? && s.pcs[w].i < |c.ids|
      && AckPossible(c.hash, s.world.queues, c.dlq, c.ids[s.pcs[w].i], ok, removes)
    case Snap(w) => w < |s.pcs| && s.pcs[w].Snapshotting?
    case Log(w) => w < |s.pcs| && s.pcs[w].Auditing? && s.pcs[w].i < |c.ids|
    case Record(w) => w < |s.pcs| && s.pcs[w].Recording? && s.pcs[w].i < |s.results|
    case Arrive(queue, _) => queue in s.world.queues
    case Leave(queue, k) => queue in s.world.queues && k < |s.world.queues[queue]|
    case Declare(queue) => queue !in s.world.queues
    case Delete(queue) => queue in s.world.queues
  }

  function Goto(s: State, w: nat, pc: Pc): State
    requires w < |s.pcs|
  {
    s.(pcs := s.pcs[w := pc])
  }

  function WithQueue(world: World, q: string, d: seq<Delivery>): World {
    world.(queues := world.queues[q := d])
  }

  function ResultOf(o: Outcome): Result {
    match o
    case Replayed => Success
    case PublishFailed => FailedPublish
    case AckFailed => FailedAck
  }

  function EntryFor(c: Config, id: string, r: Result, detail: string): Entry {
    Entry(Recover, c.planId, id, c.dlq, c.destination, true, r, detail)
  }

  function SnapshotFor(c: Config, m: Message, takenAt: int): Snapshot {
    Snapshot(c.planId, m.id, c.dlq, c.destination, m.payload, m.contentType, m.headers, takenAt)
  }

  function AfterInspect(c: Config, i: nat, m: Message): Pc {
    if 0 <= c.retries then Publishing(i, m, 0)
    else Auditing(i, PublishFailed, "publish failed after retries; DLQ copy left in place")
  }

  function AfterPublish(c: Config, pc: Pc, confirmed: bool): Pc
    requires pc.Publishing?
  {
    if confirmed then Acking(pc.i, pc.m)
    else if pc.attempt < c.retries then Publishing(pc.i, pc.m, pc.attempt + 1)
    else Auditing(pc.i, PublishFailed, "publish failed after retries; DLQ copy left in place")
  }

  /** The actions by which a worker moves on while it keeps its index. */
  predicate Moves(a: Action) {
    a.Wait? || a.Inspect? || a.Publish? || a.Ack? || a.Snap? || a.Log?
  }

  /** Where the worker that moves goes: the control flow of process. */
  function Moved(c: Config, s: State, a: Action): Pc
    requires Moves(a) && Enabled(c, s, a)
  {
    var i := s.pcs[a.w].i;
    match a
    case Wait(_, granted) => if granted then Inspecting(i) else Recording(i, PublishFailed)
    case Inspect(_, found) =>
      if found.Some? then AfterInspect(c, i, ToMessage(c.hash, s.world.queues[c.dlq][found.value], c.dlq))
      else Auditing(i, PublishFailed, "message vanished before replay")
    case Publish(_, confirmed, _) => AfterPublish(c, s.pcs[a.w], confirmed)
    case Ack(_, ok, _) =>
      if ok then Snapshotting(i, s.pcs[a.w].m)
      else Auditing(i, AckFailed, "published but ack failed; message may be duplicated")
    case Snap(_) => Auditing(i, Replayed, "")
    case Log(_) => Recording(i, s.pcs[a.w].outcome)
  }

  function Next(c: Config, s: State, a: Action): State
    requires Enabled(c, s, a)
  {
    match a
    case Feed(w) => Goto(s, w, Waiting(s.feeder.next)).(feeder := Feeding(s.feeder.next + 1))
    case Close => s.(feeder := Closed)
    case Exit(w) => Goto(s, w, Exited)
    case Finish => s.(feeder := Tallied(TallyOf(s.results)))
    case Wait(w, _) => Goto(s, w, Moved(c, s, a))
    case Inspect(w, _) => Goto(s, w, Moved(c, s, a))
    case Publish(w, _, arrives) =>
      var s' := Goto(s, w, Moved(c, s, a));
      if arrives then
        var d := Outgoing(s.pcs[w].m);
        s'.(world := WithQueue(s.world, c.destination, s.world.queues[c.destination] + [d]),
            delivered := s.delivered + [d])
      else s'
    case Ack(w, _, removes) =>
      var s' := Goto(s, w, Moved(c, s, a));
      if removes.Some? then
        var q := s.world.queues[c.dlq];
        s'.(world := WithQueue(s.world, c.dlq, RemoveAt(q, removes.value)),
            removed := s.removed + [q[removes.value]])
      else s'
    case Snap(w) =>
      Goto(s, w, Moved(c, s, a)).(
        world := s.world.(tables := SaveSnapshot(c.writable, s.world.tables,
                                                 SnapshotFor(c, s.pcs[w].m, c.clock(s.world.tables.writes)))))
    case Log(w) =>
      var e := EntryFor(c, c.ids[s.pcs[w].i], ResultOf(s.pcs[w].outcome), s.pcs[w].detail);
      Goto(s, w, Moved(c, s, a)).(
        world := s.world.(tables := Append(c.writable, s.world.tables, e)))
    case Record(w) =>
      Goto(s, w, Idle).(results := s.results[s.pcs[w].i := Some(s.pcs[w].outcome)])
    case Arrive(queue, d) =>
      s.(world := WithQueue(s.world, queue, s.world.queues[queue] + [d]))
    case Leave(queue, k) =>
      s.(world := WithQueue(s.world, queue, RemoveAt(s.world.queues[queue], k)))
    case Declare(queue) => s.(world := WithQueue(s.world, queue, []))
    case Delete(queue) => s.(world := s.world.(queues := s.world.queues - {queue}))
  }

  /** The state after a trace, if every action of it was enabled. */
  function Run(c: Config, s: State, trace: seq<Action>): Option<State> {
    if trace == [] then Some(s)
    else
      var before := Run(c, s, trace[..|trace| - 1]);
      if before.Some? && Enabled(c, before.value, trace[|trace| - 1])
      then Some(Next(c, before.value, trace[|trace| - 1]))
      else None
  }

  lemma RunSnoc(c: Config, s: State, trace: seq<Action>, a: Action)
    requires Run(c, s, trace).Some? && Enabled(c, Run(c, s, trace).value, a)
    ensures Run(c, s, trace + [a]) == Some(Next(c, Run(c, s, trace).value, a))
  {
    assert (trace + [a])[..|trace|] == trace;
  }

  // --- Ownership: who works on which index ----------------------------------------------

  function Fed(c: Config, s: State): nat {
    if s.feeder.Feeding? then s.feeder.next else |c.ids|
  }

  ghost predicate Held(s: State, i: nat) {
    exists w :: 0 <= w < |s.pcs| && s.pcs[w].Busy() && s.pcs[w].i == i
  }

  ghost predicate Owned(c: Config, s: State) {
    && |s.results| == |c.ids|
    && |s.pcs| == NumWorkers(c)
    && Fed(c, s) <= |c.ids|
    && (forall w :: 0 <= w < |s.pcs| && s.pcs[w].Busy() ==>
          s.pcs[w].i < Fed(c, s) && s.results[s.pcs[w].i] == None)
    && (forall v, w :: 0 <= v < w < |s.pcs| && s.pcs[v].Busy() && s.pcs[w].Busy() ==> s.pcs[v].i != s.pcs[w].i)
    && (forall i :: Fed(c, s) <= i < |c.ids| ==> s.results[i] == None)
    && (forall i :: 0 <= i < Fed(c, s) && s.results[i] == None ==> Held(s, i))
  }

  ghost predicate Phased(c: Config, s: State) {
    && (s.feeder.Feeding? ==> forall w :: 0 <= w < |s.pcs| ==> !s.pcs[w].Exited?)
    && (s.feeder.Tallied? ==>
          && (forall w :: 0 <= w < |s.pcs| ==> s.pcs[w].Exited?)
          && s.feeder.tally == TallyOf(s.results))
    && (forall w :: 0 <= w < |s.pcs| && s.pcs[w].Publishing? ==> s.pcs[w].attempt <= c.retries)
  }

  ghost predicate Inv(c: Config, s: State) {
    Owned(c, s) && Phased(c, s)
  }

  lemma StartInv(c: Config, world: World)
    ensures Inv(c, Start(c, world))
  {
  }

  /** A step that moves one worker without changing its index keeps ownership. */
  lemma SameIndex(c: Config, s: State, t: State, w: nat, pc: Pc)
    requires Owned(c, s) && w < |s.pcs| && s.pcs[w].Busy() && pc.Busy() && pc.i == s.pcs[w].i
    requires t.feeder == s.feeder && t.results == s.results && t.pcs == s.pcs[w := pc]
    ensures Owned(c, t)
  {
    forall i | 0 <= i < Fed(c, t) && t.results[i] == None ensures Held(t, i) {
      var v :| 0 <= v < |s.pcs| && s.pcs[v].Busy() && s.pcs[v].i == i;
      assert t.pcs[v].Busy() && t.pcs[v].i == i;
    }
  }

  lemma FeedOwned(c: Config, s: State, w: nat)
    requires Owned(c, s) && Enabled(c, s, Feed(w))
    ensures Owned(c, Next(c, s, Feed(w)))
  {
    var t := Next(c, s, Feed(w));
    forall i | 0 <= i < Fed(c, t) && t.results[i] == None ensures Held(t, i) {
      if i == s.feeder.next {
        assert t.pcs[w].Busy() && t.pcs[w].i == i;
      } else {
        var v :| 0 <= v < |s.pcs| && s.pcs[v].Busy() && s.pcs[v].i == i;
        assert t.pcs[v].Busy() && t.pcs[v].i == i;
      }
    }
  }

  lemma RecordOwned(c: Config, s: State, w: nat)
    requires Owned(c, s) && Enabled(c, s, Record(w))
    ensures Owned(c, Next(c, s, Record(w)))
  {
    var t := Next(c, s, Record(w));
    forall i | 0 <= i < Fed(c, t) && t.results[i] == None ensures Held(t, i) {
      var v :| 0 <= v < |s.pcs| && s.pcs[v].Busy() && s.pcs[v].i == i;
      assert t.pcs[v].Busy() && t.pcs[v].i == i;
    }
  }

  lemma ExitOwned(c: Config, s: State, w: nat)
    requires Owned(c, s) && Enabled(c, s, Exit(w))
    ensures Owned(c, Next(c, s, Exit(w)))
  {
    var t := Next(c, s, Exit(w));
    forall i | 0 <= i < Fed(c, t) && t.results[i] == None ensures Held(t, i) {
      var v :| 0 <= v < |s.pcs| && s.pcs[v].Busy() && s.pcs[v].i == i;
      assert t.pcs[v].Busy() && t.pcs[v].i == i;
    }
  }

  lemma MoveEffect(c: Config, s: State, a: Action)
    requires Moves(a) && Enabled(c, s, a)
    ensures a.w < |s.pcs| && s.pcs[a.w].Busy()
    ensures var t := Next(c, s, a);
            && t.feeder == s.feeder && t.results == s.results && |t.pcs| == |s.pcs|
            && t.pcs == s.pcs[a.w := Moved(c, s, a)] && t.pcs[a.w] == Moved(c, s, a)
            && t.pcs[a.w].Busy() && t.pcs[a.w].i == s.pcs[a.w].i
            && (t.pcs[a.w].Publishing? ==> t.pcs[a.w].attempt <= c.retries)
  {
    MovedKeepsIndex(c, s, a);
    if a.Publish? {
      PublishFrame(c, s, a);
    } else if a.Ack? {
      AckFrame(c, s, a);
    } else {
      QuietFrame(c, s, a);
    }
  }

  /** A step that changes one worker's program counter, and neither feeder nor results. */
  predicate MovesOnly(c: Config, s: State, a: Action)
    requires Moves(a) && Enabled(c, s, a)
  {
    var t := Next(c, s, a);
    t.feeder == s.feeder && t.results == s.results && t.pcs == s.pcs[a.w := Moved(c, s, a)]
  }

  lemma PublishFrame(c: Config, s: State, a: Action)
    requires a.Publish? && Enabled(c, s, a)
    ensures MovesOnly(c, s, a)
  {
  }

  lemma AckFrame(c: Config, s: State, a: Action)
    requires a.Ack? && Enabled(c, s, a)
    ensures MovesOnly(c, s, a)
  {
  }

  lemma QuietFrame(c: Config, s: State, a: Action)
    requires Moves(a) && !a.Publish? && !a.Ack? && Enabled(c, s, a)
    ensures MovesOnly(c, s, a)
  {
  }

  lemma MovedKeepsIndex(c: Config, s: State, a: Action)
    requires Moves(a) && Enabled(c, s, a)
    ensures var pc := Moved(c, s, a);
            pc.Busy() && pc.i == s.pcs[a.w].i && (pc.Publishing? ==> pc.attempt <= c.retries)
  {
  }

  lemma StepOwned(c: Config, s: State, a: Action)
    requires Owned(c, s) && Enabled(c, s, a)
    ensures Owned(c, Next(c, s, a))
  {
    var t := Next(c, s, a);
    if Moves(a) {
      MoveEffect(c, s, a);
      SameIndex(c, s, t, a.w, t.pcs[a.w]);
    } else if a.Feed? {
      FeedOwned(c, s, a.w);
    } else if a.Record? {
      RecordOwned(c, s, a.w);
    } else if a.Exit? {
      ExitOwned(c, s, a.w);
    } else {
      assert t.pcs == s.pcs && t.results == s.results;
      assert forall i :: Held(s, i) ==> Held(t, i);
    }
  }

  lemma StepPhased(c: Config, s: State, a: Action)
    requires Phased(c, s) && Enabled(c, s, a)
    ensures Phased(c, Next(c, s, a))
  {
    if Moves(a) {
      MoveEffect(c, s, a);
    }
  }

  lemma {:induction false} RunInv(c: Config, s: State, trace: seq<Action>)
    requires Inv(c, s) && Run(c, s, trace).Some?
    ensures Inv(c, Run(c, s, trace).value)
  {
    if trace != [] {
      var init := trace[..|trace| - 1];
      RunInv(c, s, init);
      StepOwned(c, Run(c, s, init).value, trace[|trace| - 1]);
      StepPhased(c, Run(c, s, init).value, trace[|trace| - 1]);
    }
  }
}
