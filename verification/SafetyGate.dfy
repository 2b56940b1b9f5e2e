// internal/safety/safety.go: the single-message gate, a client of the same publish-then-ack
// protocol as the batch executor.
module SafetyGate {
  import opened Seqs
  import opened Mapper
  import opened Audit
  import opened Pool
  import opened PoolSafety
  import opened Histories
  import opened Execution

  /** `payload`, when present, is published instead of the message's own (a patched replay). */
  datatype Request = Request(queue: string, messageId: string, destination: string, confirm: bool,
                             payload: Option<string>, operation: Operation)

  /** Which of the broker's operations fail. */
  datatype GateFaults = GateFaults(inspect: bool, probe: bool, publish: bool, ack: bool)
  {
    function Mutation(): Answer {
      if publish then PublishError else if ack then AckError else Moved
    }
  }

  datatype Answer =
    | Unconfirmed | NotInspected | Unresolved | Declined
    | PublishError | AckError | Moved
  {
    /** Nothing was recorded or touched. */
    predicate Early() {
      Unconfirmed? || NotInspected? || Unresolved?
    }

    function Outcome(): Result
      requires !Early()
    {
      if Declined? then Refused
      else if PublishError? then FailedPublish
      else if AckError? then FailedAck
      else Success
    }
  }

  function Resolve(override: string, m: Message): Option<string> {
    if override != "" then Some(override)
    else if m.destination != "" then Some(m.destination)
    else None
  }

  function Patched(m: Message, payload: Option<string>): Message {
    if payload.Some? then m.(payload := payload.value) else m
  }

  /** One delivery with the ID has been removed, and nothing else has changed. */
  ghost predicate TakenOff(hash: Hash, before: map<string, seq<Delivery>>, after: map<string, seq<Delivery>>,
                           q: string, id: string) {
    exists k: nat :: Holds(hash, before, q, id, k) && after == before[q := RemoveAt(before[q], k)]
  }

  /** An answer that comes after the inspection is the one entry that is written. */
  ghost predicate Recorded(writable: Writable, before: Tables, after: Tables, r: Request, destination: string,
                           answer: Answer) {
    if answer.Early() then after == before
    else exists detail: string :: after == Append(writable, before, EntryOf(r, destination, answer.Outcome(), detail))
  }

  /** What is sent is a message the queue holds under the ID, patched as asked, to the destination
      asked for or its own. */
  ghost predicate Chosen(hash: Hash, queues: map<string, seq<Delivery>>, r: Request, destination: string,
                         sent: Delivery) {
    exists k: nat ::
      && Holds(hash, queues, r.queue, r.messageId, k)
      && Resolve(r.destination, ToMessage(hash, queues[r.queue][k], r.queue)) == Some(destination)
      && sent == Outgoing(Patched(ToMessage(hash, queues[r.queue][k], r.queue), r.payload))
  }

  /** Some holder of the ID has no destination of its own, and none was asked for. */
  ghost predicate Stranded(hash: Hash, queues: map<string, seq<Delivery>>, r: Request) {
    exists k: nat ::
      && Holds(hash, queues, r.queue, r.messageId, k)
      && Resolve(r.destination, ToMessage(hash, queues[r.queue][k], r.queue)) == None
  }

  /** The queues after each answer: an error may have taken effect. */
  ghost predicate Settled(hash: Hash, before: map<string, seq<Delivery>>, after: map<string, seq<Delivery>>,
                          r: Request, destination: string, sent: Delivery, answer: Answer)
  {
    if answer.Early() || answer.Declined? then after == before
    else
      && destination in before
      && var delivered := before[destination := before[destination] + [sent]];
         match answer
         case PublishError => after == before || after == delivered
         case AckError => after == delivered || TakenOff(hash, delivered, after, r.queue, r.messageId)
         case _ => TakenOff(hash, delivered, after, r.queue, r.messageId)
  }

  /** Copies of an ID in the DLQ and the destination together. */
  ghost function Copies(hash: Hash, queues: map<string, seq<Delivery>>, q: string, d: string, id: string): nat {
    Count(QueueOf(queues, q), HasId(hash, id)) + (if q == d then 0 else Count(QueueOf(queues, d), HasId(hash, id)))
  }

  function EntryOf(r: Request, destination: string, result: Result, detail: string): Entry {
    Entry(r.operation, "", r.messageId, r.queue, destination, true, result, detail)
  }

  ghost predicate Held(hash: Hash, queues: map<string, seq<Delivery>>, q: string, id: string) {
    exists k: nat :: Holds(hash, queues, q, id, k)
  }

  /** The destination asked for comes before the message's own, and only the payload is replaced. */
  lemma {:induction false} ChosenMeans(hash: Hash, queues: map<string, seq<Delivery>>, r: Request, destination: string,
                                       sent: Delivery)
    requires Chosen(hash, queues, r, destination, sent)
    ensures destination != "" && sent.messageId == r.messageId
    ensures r.destination != "" ==> destination == r.destination
    ensures r.payload.Some? ==> sent.body == r.payload.value
    ensures exists k: nat ::
              && Holds(hash, queues, r.queue, r.messageId, k)
              && var m := ToMessage(hash, queues[r.queue][k], r.queue);
                 && (r.destination == "" ==> m.destination == destination)
                 && (r.payload.None? ==> sent.body == m.payload)
                 && sent.contentType == m.contentType && sent.timestamp == m.timestamp
                 && sent.headers == Outgoing(m).headers
  {
    var k: nat :| && Holds(hash, queues, r.queue, r.messageId, k)
                  && Resolve(r.destination, ToMessage(hash, queues[r.queue][k], r.queue)) == Some(destination)
                  && sent == Outgoing(Patched(ToMessage(hash, queues[r.queue][k], r.queue), r.payload));
    assert Holds(hash, queues, r.queue, r.messageId, k);
  }

  /** A message without a destination of its own, and none asked for. */
  lemma {:induction false} StrandedMeans(hash: Hash, queues: map<string, seq<Delivery>>, r: Request)
    ensures Stranded(hash, queues, r) <==>
              r.destination == "" && exists k: nat ::
                Holds(hash, queues, r.queue, r.messageId, k)
                && ToMessage(hash, queues[r.queue][k], r.queue).destination == ""
  {
    if Stranded(hash, queues, r) {
      var k: nat :| Holds(hash, queues, r.queue, r.messageId, k)
                    && Resolve(r.destination, ToMessage(hash, queues[r.queue][k], r.queue)) == None;
      assert Holds(hash, queues, r.queue, r.messageId, k)
             && ToMessage(hash, queues[r.queue][k], r.queue).destination == "";
    }
  }

  /** The one entry an inspected request leaves, when the store takes it, says what became of it. */
  lemma {:induction false} RecordedMeans(writable: Writable, before: Tables, after: Tables, r: Request,
                                         destination: string, answer: Answer)
    requires Recorded(writable, before, after, r, destination, answer)
    ensures after.snapshots == before.snapshots
    ensures answer.Unconfirmed? || answer.NotInspected? || answer.Unresolved? || !writable(before.writes) ==>
              after.entries == before.entries
    ensures (answer.Declined? || answer.PublishError? || answer.AckError? || answer.Moved?)
             && writable(before.writes) ==>
              && |after.entries| == |before.entries| + 1 && before.entries <= after.entries
              && var e := after.entries[|before.entries|];
                 && e.action == r.operation && e.planId == "" && e.messageId == r.messageId
                 && e.sourceQueue == r.queue && e.destination == destination && e.confirmed
                 && (e.result == Refused <==> answer.Declined?)
                 && (e.result == FailedPublish <==> answer.PublishError?)
                 && (e.result == FailedAck <==> answer.AckError?)
                 && (e.result == Success <==> answer.Moved?)
  {
    if !answer.Early() {
      var detail :| after == Append(writable, before, EntryOf(r, destination, answer.Outcome(), detail));
    }
  }

  /** Any holder of the ID. */
  method FindHolder(hash: Hash, queues: map<string, seq<Delivery>>, q: string, id: string) returns (found: Option<nat>)
    ensures found.Some? <==> Held(hash, queues, q, id)
    ensures found.Some? ==> Holds(hash, queues, q, id, found.value)
  {
    if k: nat :| q in queues && k < |queues[q]| && Holds(hash, queues, q, id, k) {
      return Some(k);
    }
    return None;
  }

  /** Any answer the broker may give to a publish that fails or does not. */
  method BrokerDelivers(queues: map<string, seq<Delivery>>, q: string, fails: bool) returns (o: Publication)
    requires q in queues && q != ""
    ensures Possible(queues, q, o) && o.confirmed == !fails
  {
    var arrives := *;
    o := Publication(!fails, !fails || arrives);
  }

  /** Any answer the broker may give to an ack that fails or does not. */
  method BrokerAcks(hash: Hash, queues: map<string, seq<Delivery>>, q: string, id: string, fails: bool)
    returns (ok: bool, removes: Option<nat>)
    requires Held(hash, queues, q, id)
    ensures AckPossible(hash, queues, q, id, ok, removes) && ok == !fails
  {
    ok := !fails;
    removes := FindHolder(hash, queues, q, id);
    var untouched := *;
    if fails && untouched {
      removes := None;
    }
  }

  /** Delivering and then removing one delivery with the same ID leaves no ID with fewer copies. */
  lemma PublishThenAckKeepsCopies(hash: Hash, w: World, q: string, d: string, x: Delivery, k: nat, id: string)
    requires d in w.queues
    requires Holds(hash, WithQueue(w, d, w.queues[d] + [x]).queues, q, IdOf(hash, x), k)
    ensures var v := WithQueue(w, d, w.queues[d] + [x]);
            Copies(hash, WithQueue(v, q, RemoveAt(v.queues[q], k)).queues, q, d, id) == Copies(hash, w.queues, q, d, id)
  {
    var v := WithQueue(w, d, w.queues[d] + [x]);
    CountSnoc(w.queues[d], x, HasId(hash, id));
    CountRemoveAt(v.queues[q], k, HasId(hash, id));
  }

  lemma PublishAddsCopies(hash: Hash, w: World, q: string, d: string, x: Delivery, id: string)
    requires d in w.queues
    ensures Copies(hash, WithQueue(w, d, w.queues[d] + [x]).queues, q, d, id) >= Copies(hash, w.queues, q, d, id)
  {
    CountSnoc(w.queues[d], x, HasId(hash, id));
  }

  /** Replays one message. Whatever the broker answers, no ID has fewer copies afterwards than
      before; nothing is touched before the publish; the DLQ copy goes only after a confirmed
      publish; the success entry is written only for a message that left the DLQ. */
  method Execute(x: Executor, r: Request, faults: GateFaults)
    returns (answer: Answer, ghost destination: string, ghost sent: Delivery)
    requires x.Wired()
    modifies x, x.store
    ensures forall id ::
              Copies(x.env.hash, x.queues, r.queue, destination, id)
              >= Copies(x.env.hash, old(x.queues), r.queue, destination, id)
    ensures answer.Unconfirmed? <==> !r.confirm
    ensures answer.NotInspected? <==>
              r.confirm && (faults.inspect || !Held(x.env.hash, old(x.queues), r.queue, r.messageId))
    ensures answer.Unresolved? ==> Stranded(x.env.hash, old(x.queues), r)
    ensures !answer.Early() ==> Chosen(x.env.hash, old(x.queues), r, destination, sent)
    ensures !answer.Early() ==>
              answer == if faults.probe || destination !in old(x.queues) then Declined else faults.Mutation()
    ensures Settled(x.env.hash, old(x.queues), x.queues, r, destination, sent, answer)
    ensures Recorded(x.env.writable, old(x.store.Contents()), x.store.Contents(), r, destination, answer)
  {
    destination, sent := "", Delivery.Delivery("", "", "", map[], 0);
    if !r.confirm {
      answer := Unconfirmed;
      return;
    }
    var inspected, resolved, d := Choose(x, r, faults.inspect);
    if !inspected {
      answer := NotInspected;
      return;
    }
    if resolved.None? {
      answer := Unresolved;
      return;
    }
    destination, sent := resolved.value, d;
    if resolved.value !in x.queues {
      Record(x, r, resolved.value, Declined, "destination queue does not exist");
      answer := Declined;
    } else if faults.probe {
      Record(x, r, resolved.value, Declined, "destination check failed");
      answer := Declined;
    } else {
      answer := PublishAndAck(x, r, resolved.value, d, faults);
    }
  }

  /** Inspect, then find the destination and what to publish there. */
  method Choose(x: Executor, r: Request, fails: bool) returns (inspected: bool, dest: Option<string>, d: Delivery)
    ensures inspected <==> !fails && Held(x.env.hash, x.queues, r.queue, r.messageId)
    ensures inspected && dest.None? ==> Stranded(x.env.hash, x.queues, r)
    ensures inspected && dest.Some? ==>
              && Chosen(x.env.hash, x.queues, r, dest.value, d)
              && dest.value != "" && IdOf(x.env.hash, d) == r.messageId
  {
    inspected, dest, d := false, None, Delivery.Delivery("", "", "", map[], 0);
    var found := FindHolder(x.env.hash, x.queues, r.queue, r.messageId);
    if !fails && found.Some? {
      var m := ToMessage(x.env.hash, x.queues[r.queue][found.value], r.queue);
      inspected, dest, d := true, Resolve(r.destination, m), Outgoing(Patched(m, r.payload));
      OutgoingKeepsId(x.env.hash, Patched(m, r.payload));
    }
  }

  method Record(x: Executor, r: Request, dest: string, answer: Answer, detail: string)
    requires x.Wired() && !answer.Early()
    modifies x.store
    ensures Recorded(x.env.writable, old(x.store.Contents()), x.store.Contents(), r, dest, answer)
  {
    var _ := x.store.AppendEntry(EntryOf(r, dest, answer.Outcome(), detail));
  }

  lemma StillHeld(hash: Hash, queues: map<string, seq<Delivery>>, q: string, id: string, d: string, x: Delivery)
    requires Held(hash, queues, q, id) && d in queues
    ensures Held(hash, queues[d := queues[d] + [x]], q, id)
  {
    var k: nat :| Holds(hash, queues, q, id, k);
    assert Holds(hash, queues[d := queues[d] + [x]], q, id, k);
  }

  /** The mutating half: publish, and ack only if the publish was confirmed. */
  method PublishAndAck(x: Executor, r: Request, dest: string, d: Delivery, faults: GateFaults) returns (answer: Answer)
    requires x.Wired() && dest in x.queues && dest != ""
    requires IdOf(x.env.hash, d) == r.messageId && Held(x.env.hash, x.queues, r.queue, r.messageId)
    modifies x, x.store
    ensures answer == faults.Mutation()
    ensures forall id ::
              Copies(x.env.hash, x.queues, r.queue, dest, id) >= Copies(x.env.hash, old(x.queues), r.queue, dest, id)
    ensures Settled(x.env.hash, old(x.queues), x.queues, r, dest, d, answer)
    ensures Recorded(x.env.writable, old(x.store.Contents()), x.store.Contents(), r, dest, answer)
  {
    ghost var w := x.View();
    var o := BrokerDelivers(x.queues, dest, faults.publish);
    x.queues := Deliver(x.View(), dest, d, o).queues;
    forall id
      ensures Copies(x.env.hash, x.queues, r.queue, dest, id) >= Copies(x.env.hash, w.queues, r.queue, dest, id)
    {
      PublishAddsCopies(x.env.hash, w, r.queue, dest, d, id);
    }
    if !o.confirmed {
      Record(x, r, dest, PublishError, "");
      return PublishError;
    }
    assert x.queues == w.queues[dest := w.queues[dest] + [d]];
    StillHeld(x.env.hash, w.queues, r.queue, r.messageId, dest, d);
    var ok, removes := BrokerAcks(x.env.hash, x.queues, r.queue, r.messageId, faults.ack);
    if removes.Some? {
      forall id ensures
        Copies(x.env.hash, x.queues[r.queue := RemoveAt(x.queues[r.queue], removes.value)], r.queue, dest, id)
        >= Copies(x.env.hash, w.queues, r.queue, dest, id)
      {
        PublishThenAckKeepsCopies(x.env.hash, w, r.queue, dest, d, removes.value, id);
      }
      x.queues := x.queues[r.queue := RemoveAt(x.queues[r.queue], removes.value)];
    }
    if !ok {
      Record(x, r, dest, AckError, "");
      return AckError;
    }
    Record(x, r, dest, Moved, "");
    return Moved;
  }
}
