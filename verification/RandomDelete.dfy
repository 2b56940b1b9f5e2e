// internal/broker/rabbitmq/write.go, Ack and requeueAll: removing one message from the middle of a
// FIFO queue by consuming up to it, acknowledging it and putting the rest back.
module RandomDelete {
  import opened Seqs
  import opened Mapper
  import opened Pool

  // --- What it must do ---------------------------------------------------------------------------

  predicate HasMatch(hash: Hash, q: seq<Delivery>, id: string) {
    exists k :: 0 <= k < |q| && IdOf(hash, q[k]) == id
  }

  /** The queue without the first message with this ID, everything else in order. */
  function RemoveFirst(hash: Hash, q: seq<Delivery>, id: string): seq<Delivery> {
    if q == [] then []
    else if IdOf(hash, q[0]) == id then q[1..]
    else [q[0]] + RemoveFirst(hash, q[1..], id)
  }

  predicate FirstAt(hash: Hash, q: seq<Delivery>, id: string, k: nat) {
    && k < |q| && IdOf(hash, q[k]) == id
    && forall j :: 0 <= j < k ==> IdOf(hash, q[j]) != id
  }

  lemma {:induction false} RemoveFirstAt(hash: Hash, q: seq<Delivery>, id: string, k: nat)
    requires FirstAt(hash, q, id, k)
    ensures RemoveFirst(hash, q, id) == RemoveAt(q, k)
  {
    if k > 0 {
      assert q[1..][k - 1] == q[k];
      RemoveFirstAt(hash, q[1..], id, k - 1);
      assert RemoveAt(q, k) == [q[0]] + RemoveAt(q[1..], k - 1);
    }
  }

  lemma {:induction false} RemoveFirstNone(hash: Hash, q: seq<Delivery>, id: string)
    requires !HasMatch(hash, q, id)
    ensures RemoveFirst(hash, q, id) == q
  {
    if q != [] {
      forall k | 0 <= k < |q[1..]| ensures IdOf(hash, q[1..][k]) != id { assert q[1..][k] == q[k + 1]; }
      RemoveFirstNone(hash, q[1..], id);
    }
  }

  /** The ack step of the worker pool is this removal: it is one of the steps the pool allows, and
      it takes exactly one delivery with the ID off the DLQ. */
  lemma RemovalIsAPoolAck(c: Config, s: State, w: nat) returns (k: nat)
    requires w < |s.pcs| && s.pcs[w].Acking? && s.pcs[w].i < |c.ids| && c.dlq in s.world.queues
    requires HasMatch(c.hash, s.world.queues[c.dlq], c.ids[s.pcs[w].i])
    ensures Enabled(c, s, Pool.Action.Ack(w, true, Some(k)))
    ensures Next(c, s, Pool.Action.Ack(w, true, Some(k))).world.queues[c.dlq]
         == RemoveFirst(c.hash, s.world.queues[c.dlq], c.ids[s.pcs[w].i])
  {
    var q, id := s.world.queues[c.dlq], c.ids[s.pcs[w].i];
    k := 0;
    while IdOf(c.hash, q[k]) != id
      invariant k < |q| && forall j :: 0 <= j < k ==> IdOf(c.hash, q[j]) != id
      invariant HasMatch(c.hash, q, id)
      decreases |q| - k
    {
      k := k + 1;
    }
    RemoveFirstAt(c.hash, q, id, k);
  }

  // --- How it does it ----------------------------------------------------------------------------

  /** A delivery handed to a channel, with its delivery tag. */
  datatype Tagged = Tagged(tag: nat, d: Delivery)

  function Deliveries(ts: seq<Tagged>): (ds: seq<Delivery>)
    ensures |ds| == |ts| && forall i :: 0 <= i < |ts| ==> ds[i] == ts[i].d
  {
    seq(|ts|, i requires 0 <= i < |ts| => ts[i].d)
  }

  /** A queue seen through one consuming channel: messages ready, and messages delivered to the
      channel but not yet settled, oldest first. An operation that errors breaks the channel. */
  class Channel {
    var ready: seq<Delivery>
    var unacked: seq<Tagged>
    var tags: nat
    var broken: bool
    var ops: nat
    const faults: nat -> bool   // which of the channel's operations fail, by ordinal

    predicate Valid()
      reads this
    {
      && (forall i, j :: 0 <= i < j < |unacked| ==> unacked[i].tag < unacked[j].tag)
      && (forall i :: 0 <= i < |unacked| ==> unacked[i].tag < tags)
    }

    constructor (q: seq<Delivery>, faults: nat -> bool)
      ensures Valid() && ready == q && unacked == [] && !broken && ops == 0 && this.faults == faults
    {
      ready, unacked, tags, broken, ops, this.faults := q, [], 0, false, 0, faults;
    }

    /** basic.get without auto-ack. */
    method Get() returns (err: bool, got: Option<Tagged>)
      requires Valid()
      modifies this
      ensures Valid() && err == broken && broken == (old(broken) || faults(old(ops))) && ops == old(ops) + 1
      ensures err ==> got == None && ready == old(ready) && unacked == old(unacked)
      ensures !err && old(ready) == [] ==> got == None && ready == [] && unacked == old(unacked)
      ensures !err && old(ready) != [] ==>
                && got.Some? && got.value.d == old(ready)[0]
                && ready == old(ready)[1..] && unacked == old(unacked) + [got.value]
    {
      broken, ops := broken || faults(ops), ops + 1;
      if broken || ready == [] {
        return broken, None;
      }
      var t := Tagged(tags, ready[0]);
      tags := tags + 1;
      ready, unacked := ready[1..], unacked + [t];
      return false, Some(t);
    }

    /** basic.ack of one tag. `taken`: the broker has processed it, even if the client saw an error. */
    method AckTag(ghost i: nat, tag: nat) returns (err: bool, ghost taken: bool)
      requires Valid() && i < |unacked| && unacked[i].tag == tag
      modifies this
      ensures Valid() && err == broken && broken == (old(broken) || faults(old(ops))) && ops == old(ops) + 1
      ensures ready == old(ready) && (!err ==> taken)
      ensures unacked == if taken then RemoveAt(old(unacked), i) else old(unacked)
    {
      taken := false;
      var was, processed := broken, *;
      broken, ops := broken || faults(ops), ops + 1;
      if !broken || (!was && processed) {
        var _ := Settle(i, tag);
        taken := true;
      }
      err := broken;
    }

    /** basic.nack with requeue of one tag: the delivery goes back to the head of the queue. */
    method NackTag(ghost i: nat, tag: nat) returns (err: bool)
      requires Valid() && i < |unacked| && unacked[i].tag == tag
      modifies this
      ensures Valid() && err == broken && broken == (old(broken) || faults(old(ops))) && ops == old(ops) + 1
      ensures err ==> ready == old(ready) && unacked == old(unacked)
      ensures !err ==> unacked == RemoveAt(old(unacked), i) && ready == [old(unacked)[i].d] + old(ready)
    {
      broken, ops := broken || faults(ops), ops + 1;
      if broken {
        return true;
      }
      var d := Settle(i, tag);
      ready := [d] + ready;
      err := false;
    }

    /** Drop a tag from the unsettled deliveries. */
    method Settle(ghost i: nat, tag: nat) returns (d: Delivery)
      requires Valid() && i < |unacked| && unacked[i].tag == tag
      modifies this`unacked
      ensures Valid() && unacked == RemoveAt(old(unacked), i) && d == old(unacked)[i].d
    {
      var k := 0;
      while k < |unacked| && unacked[k].tag != tag
        invariant k <= i
      {
        k := k + 1;
      }
      assert k == i;
      d := unacked[k].d;
      unacked := unacked[..k] + unacked[k + 1..];
    }

    /** Closing the channel requeues what is unsettled, in its original place. */
    method Close()
      requires Valid()
      modifies this
      ensures Valid() && unacked == [] && ready == Deliveries(old(unacked)) + old(ready)
      ensures broken == old(broken) && ops == old(ops)
    {
      var back: seq<Delivery> := [];
      for i := 0 to |unacked|
        invariant back == Deliveries(unacked[..i])
      {
        assert Deliveries(unacked[..i + 1]) == Deliveries(unacked[..i]) + [unacked[i].d];
        back := back + [unacked[i].d];
      }
      assert unacked[..|unacked|] == unacked;
      ready, unacked := back + ready, [];
    }
  }

  datatype AckResult =
    | Removed | NotConnected | EmptyQueue | EmptyId | ChannelFailed | ScanFailed | NotFound | AckErrored

  /** None of `n` operations from the given ordinal on fails. */
  ghost predicate Smooth(faults: nat -> bool, first: nat, n: nat) {
    forall i :: first <= i < first + n ==> !faults(i)
  }

  /** What the delete answers on an open channel, decided by what fails: the scan takes one operation
      for every message up to the first match, or one more than there are, and the ack is the next. */
  ghost predicate Answers(hash: Hash, q: seq<Delivery>, id: string, faults: nat -> bool, ops: nat, r: AckResult) {
    && (!HasMatch(hash, q, id) ==> r == if Smooth(faults, ops, |q| + 1) then NotFound else ScanFailed)
    && forall k: nat :: FirstAt(hash, q, id, k) ==>
         r == if !Smooth(faults, ops, k + 1) then ScanFailed else if faults(ops + k + 1) then AckErrored else Removed
  }

  /** What each answer means for the queue. */
  ghost predicate Leaves(hash: Hash, q: seq<Delivery>, id: string, r: AckResult, after: seq<Delivery>) {
    && (r == Removed ==> HasMatch(hash, q, id) && after == RemoveFirst(hash, q, id))
    && (r == NotFound ==> !HasMatch(hash, q, id))
    && (r != Removed && r != AckErrored ==> after == q)
    && (r == AckErrored ==> after == q || after == RemoveFirst(hash, q, id))
  }

  /** Ack on a queue: on success the first message with the ID is gone and every other message is
      where it was; otherwise the queue is as it was, unless the broker took the ack and only the
      answer was lost. */
  method Ack(hash: Hash, ch: Channel, connected: bool, openFails: bool, qosFails: bool, queue: string, id: string)
    returns (r: AckResult)
    requires ch.Valid() && ch.unacked == [] && !ch.broken
    modifies ch
    ensures ch.Valid() && ch.unacked == []
    ensures Leaves(hash, old(ch.ready), id, r, ch.ready)
    ensures r == NotConnected <==> !connected
    ensures r == EmptyQueue <==> connected && queue == ""
    ensures r == EmptyId <==> connected && queue != "" && id == ""
    ensures r == ChannelFailed <==> connected && queue != "" && id != "" && (openFails || qosFails)
    ensures connected && queue != "" && id != "" && !openFails && !qosFails ==>
              Answers(hash, old(ch.ready), id, ch.faults, old(ch.ops), r)
  {
    if !connected {
      return NotConnected;
    }
    if queue == "" {
      return EmptyQueue;
    }
    if id == "" {
      return EmptyId;
    }
    if openFails || qosFails {
      return ChannelFailed;
    }
    r := ScanAndSettle(hash, ch, id);
  }

  method ScanAndSettle(hash: Hash, ch: Channel, id: string) returns (r: AckResult)
    requires ch.Valid() && ch.unacked == [] && !ch.broken
    modifies ch
    ensures ch.Valid() && ch.unacked == []
    ensures r == Removed || r == AckErrored || r == NotFound || r == ScanFailed
    ensures Leaves(hash, old(ch.ready), id, r, ch.ready)
    ensures Answers(hash, old(ch.ready), id, ch.faults, old(ch.ops), r)
  {
    ghost var q, ops := ch.ready, ch.ops;
    var err, held, target := Scan(hash, ch, id);
    assert Deliveries(held) <= q;
    if err {
      ScanCutShort(hash, q, id, ch.faults, ops, Deliveries(held));
      ch.Close();
      return ScanFailed;
    }
    if target.None? {
      NoMatchHeld(hash, q, id, ch.faults, ops);
      RequeueAll(ch, held);
      ch.Close();
      return NotFound;
    }
    TargetIsFirst(hash, Deliveries(held), target.value.d, ch.ready, id);
    FoundAt(hash, q, id, ch.faults, ops, Deliveries(held), if ch.faults(ch.ops) then AckErrored else Removed);
    r := SettleTarget(ch, held, target.value);
  }

  /** A scan that fails has held only messages before the first match. */
  lemma ScanCutShort(hash: Hash, q: seq<Delivery>, id: string, faults: nat -> bool, ops: nat, held: seq<Delivery>)
    requires held <= q && faults(ops + |held|)
    requires forall j :: 0 <= j < |held| ==> IdOf(hash, held[j]) != id
    ensures Answers(hash, q, id, faults, ops, ScanFailed)
  {
    assert forall j :: 0 <= j < |held| ==> held[j] == q[j];
  }

  lemma NoMatchHeld(hash: Hash, q: seq<Delivery>, id: string, faults: nat -> bool, ops: nat)
    requires Smooth(faults, ops, |q| + 1) && forall j :: 0 <= j < |q| ==> IdOf(hash, q[j]) != id
    ensures Answers(hash, q, id, faults, ops, NotFound)
  {
  }

  lemma FoundAt(hash: Hash, q: seq<Delivery>, id: string, faults: nat -> bool, ops: nat, held: seq<Delivery>,
                r: AckResult)
    requires held <= q && |held| < |q| && IdOf(hash, q[|held|]) == id
    requires forall j :: 0 <= j < |held| ==> IdOf(hash, held[j]) != id
    requires Smooth(faults, ops, |held| + 1)
    requires r == if faults(ops + |held| + 1) then AckErrored else Removed
    ensures Answers(hash, q, id, faults, ops, r)
  {
    assert forall j :: 0 <= j < |held| ==> held[j] == q[j];
    assert FirstAt(hash, q, id, |held|);
    assert forall j :: 0 <= j < |held| ==> IdOf(hash, q[j]) != id;
  }

  lemma TargetIsFirst(hash: Hash, before: seq<Delivery>, d: Delivery, rest: seq<Delivery>, id: string)
    requires IdOf(hash, d) == id && forall j :: 0 <= j < |before| ==> IdOf(hash, before[j]) != id
    ensures HasMatch(hash, before + [d] + rest, id)
    ensures RemoveFirst(hash, before + [d] + rest, id) == before + rest
  {
    var q := before + [d] + rest;
    assert q[|before|] == d;
    RemoveFirstAt(hash, q, id, |before|);
  }

  /** Acknowledge the target, then put back what was held. */
  method SettleTarget(ch: Channel, held: seq<Tagged>, target: Tagged) returns (r: AckResult)
    requires ch.Valid() && ch.unacked == held + [target] && !ch.broken
    modifies ch
    ensures ch.Valid() && ch.unacked == []
    ensures r == if ch.faults(old(ch.ops)) then AckErrored else Removed
    ensures r == Removed ==> ch.ready == Deliveries(held) + old(ch.ready)
    ensures r == AckErrored ==>
              || ch.ready == Deliveries(held) + old(ch.ready)
              || ch.ready == Deliveries(held) + [target.d] + old(ch.ready)
  {
    var failed, taken := ch.AckTag(|held|, target.tag);
    assert RemoveAt(held + [target], |held|) == held;
    assert Deliveries(held + [target]) == Deliveries(held) + [target.d];
    if failed {
      ch.Close();
      return AckErrored;
    }
    RequeueAll(ch, held);
    ch.Close();
    return Removed;
  }

  lemma HeldOneMore(held: seq<Tagged>, t: Tagged, waiting: seq<Delivery>)
    requires waiting != [] && waiting[0] == t.d
    ensures Deliveries(held) + waiting == Deliveries(held) + [t.d] + waiting[1..]
    ensures Deliveries(held) + [t.d] == Deliveries(held + [t])
  {
  }

  /** Consume until the target turns up, holding everything before it. */
  method Scan(hash: Hash, ch: Channel, id: string) returns (err: bool, held: seq<Tagged>, target: Option<Tagged>)
    requires ch.Valid() && ch.unacked == [] && !ch.broken
    modifies ch
    ensures ch.Valid() && err == ch.broken && ch.ops == old(ch.ops) + |held| + 1
    ensures Smooth(ch.faults, old(ch.ops), |held|) && err == ch.faults(old(ch.ops) + |held|)
    ensures forall j :: 0 <= j < |held| ==> IdOf(hash, held[j].d) != id
    ensures err ==> ch.unacked == held && old(ch.ready) == Deliveries(held) + ch.ready
    ensures !err && target.None? ==> ch.unacked == held && ch.ready == [] && old(ch.ready) == Deliveries(held)
    ensures !err && target.Some? ==>
              && ch.unacked == held + [target.value] && IdOf(hash, target.value.d) == id
              && old(ch.ready) == Deliveries(held) + [target.value.d] + ch.ready
  {
    held, target := [], None;
    while true
      invariant ch.Valid() && !ch.broken && ch.unacked == held
      invariant ch.ops == old(ch.ops) + |held| && Smooth(ch.faults, old(ch.ops), |held|)
      invariant old(ch.ready) == Deliveries(held) + ch.ready
      invariant forall j :: 0 <= j < |held| ==> IdOf(hash, held[j].d) != id
      decreases |ch.ready|
    {
      ghost var waiting := ch.ready;
      var failed, got := ch.Get();
      if failed {
        return true, held, None;
      }
      if got.None? {
        return false, held, None;
      }
      var d := got.value;
      HeldOneMore(held, d, waiting);
      if IdOf(hash, d.d) == id {
        return false, held, Some(d);
      }
      held := held + [d];
    }
  }

  /** Nack in reverse. If a nack fails the channel is gone and so are all later ones; what stays
      unsettled is then a prefix of `held`, which closing puts back in front. */
  method RequeueAll(ch: Channel, held: seq<Tagged>)
    requires ch.Valid() && ch.unacked == held
    modifies ch
    ensures ch.Valid() && (!ch.broken ==> ch.unacked == []) && ch.ops == old(ch.ops) + |held|
    ensures ch.broken <==> old(ch.broken) || !Smooth(ch.faults, old(ch.ops), |held|)
    ensures Deliveries(ch.unacked) + ch.ready == Deliveries(held) + old(ch.ready)
  {
    var i := |held|;
    while i > 0
      invariant 0 <= i <= |held|
      invariant ch.Valid() && ch.unacked <= held
      invariant !ch.broken ==> |ch.unacked| == i
      invariant ch.ops == old(ch.ops) + |held| - i
      invariant ch.broken <==> old(ch.broken) || !Smooth(ch.faults, old(ch.ops), |held| - i)
      invariant i <= |ch.unacked|
      invariant Deliveries(ch.unacked) + ch.ready == Deliveries(held) + old(ch.ready)
    {
      i := i - 1;
      ghost var before, ready := ch.unacked, ch.ready;
      assert ch.unacked[i] == held[i];
      var failed := ch.NackTag(i, held[i].tag);
      if !failed {
        assert ch.unacked == before[..i] && before == before[..i] + [held[i]];
        assert Deliveries(before) == Deliveries(before[..i]) + [held[i].d];
      }
    }
  }
}
