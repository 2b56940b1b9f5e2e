// internal/broker/rabbitmq/mapper.go and the publish half of write.go: how a raw delivery
// becomes a message, what its stable ID is, and what a publish puts back on a queue.
module Mapper {
  import opened Seqs
  import opened Text

  /** The first entry of an x-death header array, as far as the code reads it. */
  datatype Death = Death(queue: Option<string>, count: Option<int>, reason: Option<string>)

  /** A header value: plain text, the x-death array, or anything else, already rendered. */
  datatype HeaderValue =
    | Plain(text: string)
    | Deaths(rendered: string, first: Option<Death>)
    | Other(rendered: string)

  /** A message as the broker stores it. */
  datatype Delivery = Delivery(messageId: string, body: string, contentType: string,
                               headers: map<string, HeaderValue>, timestamp: int)

  /** The broker-agnostic message model (internal/message/message.go). Timestamps are counted from
      the zero time, which is 0. */
  datatype Message = Message(id: string, queue: string, destination: string, payload: string,
                             headers: map<string, string>, contentType: string,
                             retryCount: int, failureReason: string,
                             eventId: string, idempotencyKey: string, timestamp: int)

  type Hash = string -> string

  function HeaderString(v: HeaderValue): string {
    match v
    case Plain(text) => text
    case Deaths(rendered, _) => rendered
    case Other(rendered) => rendered
  }

  function Normalized(t: map<string, HeaderValue>): map<string, string> {
    map k | k in t :: HeaderString(t[k])
  }

  method NormalizeHeaders(t: map<string, HeaderValue>) returns (out: map<string, string>)
    ensures out == Normalized(t)
  {
    out := map[];
    var rest := t.Keys;
    while rest != {}
      invariant rest <= t.Keys && out.Keys == t.Keys - rest
      invariant forall k :: k in out ==> out[k] == HeaderString(t[k])
      decreases |rest|
    {
      var k :| k in rest;
      out := out[k := HeaderString(t[k])];
      rest := rest - {k};
    }
  }

  predicate IsDeathHeader(k: string) {
    HasPrefix(k, "x-death") || HasPrefix(k, "x-first-death")
  }

  /** The application headers: everything but the dead-letter bookkeeping. */
  function Stripped(h: map<string, string>): map<string, string> {
    map k | k in h && !IsDeathHeader(k) :: h[k]
  }

  method PublishHeaders(h: map<string, string>) returns (out: map<string, HeaderValue>)
    ensures Normalized(out) == Stripped(h)
    ensures out == Republished(h)
  {
    out := map[];
    var rest := h.Keys;
    while rest != {}
      invariant rest <= h.Keys
      invariant forall k :: k in out <==> k in h && k !in rest && !IsDeathHeader(k)
      invariant forall k :: k in out ==> out[k] == Plain(h[k])
      decreases |rest|
    {
      var k :| k in rest;
      rest := rest - {k};
      if IsDeathHeader(k) {
        continue;
      }
      out := out[k := Plain(h[k])];
    }
  }

  function Republished(h: map<string, string>): map<string, HeaderValue> {
    map k | k in h && !IsDeathHeader(k) :: Plain(h[k])
  }

  function Lookup(h: map<string, string>, k: string): string {
    if k in h then h[k] else ""
  }

  // --- Stable identity -----------------------------------------------------------------

  /** What is fed to the hash for the headers, in the order of `keys`. */
  function Feed(keys: seq<string>, h: map<string, string>): string
    requires forall k :: k in keys ==> k in h
  {
    if keys == [] then ""
    else
      var k := keys[|keys| - 1];
      Feed(keys[..|keys| - 1], h) + (if IsDeathHeader(k) then "" else k + "=" + h[k] + "\0")
  }

  function IdFromParts(hash: Hash, messageId: string, h: map<string, string>, payload: string): (id: string)
    ensures id != ""
  {
    if messageId != "" then messageId
    else if Lookup(h, "x-message-id") != "" then Lookup(h, "x-message-id")
    else "sha256:" + hash(payload + Feed(SortedKeys(h.Keys), h))
  }

  /** The keys of a map, in whatever order iteration yields them. */
  method CollectKeys(h: map<string, string>) returns (keys: seq<string>)
    ensures multiset(keys) == multiset(h.Keys)
  {
    keys := [];
    var rest := h.Keys;
    while rest != {}
      invariant rest <= h.Keys
      invariant multiset(keys) + multiset(rest) == multiset(h.Keys)
      decreases |rest|
    {
      var k :| k in rest;
      keys := keys + [k];
      rest := rest - {k};
    }
  }

  /** The computation as the code does it: keys in whatever order the map yields, sorted, fed. */
  method MessageIdFromParts(hash: Hash, messageId: string, h: map<string, string>, payload: string)
    returns (id: string)
    ensures id == IdFromParts(hash, messageId, h, payload)
  {
    if messageId != "" {
      return messageId;
    }
    if Lookup(h, "x-message-id") != "" {
      return Lookup(h, "x-message-id");
    }
    var unsorted := CollectKeys(h);
    SortingKeys(unsorted, h.Keys);
    var fed := FeedHash(payload, SortStrings(unsorted), h);
    id := "sha256:" + hash(fed);
  }

  /** The bytes written to the hash: the payload, then each application header in key order. */
  method FeedHash(payload: string, keys: seq<string>, h: map<string, string>) returns (fed: string)
    requires forall k :: k in keys ==> k in h
    ensures fed == payload + Feed(keys, h)
  {
    fed := payload;
    for i := 0 to |keys|
      invariant fed == payload + Feed(keys[..i], h)
    {
      FeedSnoc(keys[..i], keys[i], h);
      assert keys[..i + 1] == keys[..i] + [keys[i]];
      if IsDeathHeader(keys[i]) {
        continue;
      }
      fed := fed + (keys[i] + "=" + h[keys[i]] + "\0");
    }
    assert keys[..|keys|] == keys;
  }

  lemma FeedSnoc(keys: seq<string>, k: string, h: map<string, string>)
    requires forall x :: x in keys ==> x in h
    requires k in h
    ensures Feed(keys + [k], h) == Feed(keys, h) + (if IsDeathHeader(k) then "" else k + "=" + h[k] + "\0")
  {
    assert (keys + [k])[..|keys|] == keys;
  }

  function IsAppHeader(): string -> bool {
    k => !IsDeathHeader(k)
  }

  lemma {:induction false} FeedSkipsDeathHeaders(keys: seq<string>, h: map<string, string>)
    requires forall k :: k in keys ==> k in h
    ensures forall k :: k in Filter(keys, IsAppHeader()) ==> k in Stripped(h)
    ensures Feed(keys, h) == Feed(Filter(keys, IsAppHeader()), Stripped(h))
  {
    FilterSize(keys, IsAppHeader());
    if keys != [] {
      var init, k := keys[..|keys| - 1], keys[|keys| - 1];
      FeedSkipsDeathHeaders(init, h);
      var kept := Filter(init, IsAppHeader());
      if IsDeathHeader(k) {
        assert Filter(keys, IsAppHeader()) == kept;
      } else {
        FeedSnoc(kept, k, Stripped(h));
        assert Filter(keys, IsAppHeader()) == kept + [k];
      }
    }
  }

  lemma {:induction false} FilterKeepsOrder(s: seq<string>, p: string -> bool)
    requires Sorted(s)
    ensures Sorted(Filter(s, p))
  {
    if s != [] {
      var init := s[..|s| - 1];
      FilterKeepsOrder(init, p);
      FilterSize(init, p);
      var f := Filter(init, p);
      forall i | 0 <= i < |f| ensures Compare(f[i], s[|s| - 1]) <= 0 {
        assert f[i] in init;
      }
    }
  }

  lemma {:induction false} FilterKeepsDistinct(s: seq<string>, p: string -> bool)
    requires Distinct(s)
    ensures Distinct(Filter(s, p))
  {
    if s != [] {
      FilterKeepsDistinct(s[..|s| - 1], p);
      FilterSize(s[..|s| - 1], p);
    }
  }

  lemma {:induction false} DistinctMultiset(s: seq<string>, t: set<string>)
    requires Distinct(s) && forall k :: k in s <==> k in t
    ensures multiset(s) == multiset(t)
  {
    if s == [] {
      assert t == {};
    } else {
      var last := s[|s| - 1];
      var init := s[..|s| - 1];
      assert s == init + [last];
      forall k ensures k in init <==> k in t - {last} {
        if k in init { assert k in s; }
      }
      DistinctMultiset(init, t - {last});
    }
  }

  /** Sorting the application headers alone gives the sorted keys without the death headers. */
  lemma SortedStrippedKeys(h: map<string, string>)
    ensures Filter(SortedKeys(h.Keys), IsAppHeader()) == SortedKeys(Stripped(h).Keys)
  {
    var kept := Filter(SortedKeys(h.Keys), IsAppHeader());
    FilterSize(SortedKeys(h.Keys), IsAppHeader());
    FilterKeepsOrder(SortedKeys(h.Keys), IsAppHeader());
    FilterKeepsDistinct(SortedKeys(h.Keys), IsAppHeader());
    DistinctMultiset(kept, Stripped(h).Keys);
    SortedKeysMultiset(Stripped(h).Keys);
    SortedIsUnique(kept, SortedKeys(Stripped(h).Keys));
  }

  lemma StrippedFeed(h: map<string, string>)
    ensures Feed(SortedKeys(h.Keys), h) == Feed(SortedKeys(Stripped(h).Keys), Stripped(h))
    ensures Lookup(h, "x-message-id") == Lookup(Stripped(h), "x-message-id")
  {
    FeedSkipsDeathHeaders(SortedKeys(h.Keys), h);
    SortedStrippedKeys(h);
    assert "x-message-id"[2] == 'm' && !IsDeathHeader("x-message-id");
  }

  /** Two readings that agree on message-id, payload and application headers have one ID. */
  lemma StableIdentity(hash: Hash, messageId: string, payload: string, h1: map<string, string>, h2: map<string, string>)
    requires Stripped(h1) == Stripped(h2)
    ensures IdFromParts(hash, messageId, h1, payload) == IdFromParts(hash, messageId, h2, payload)
  {
    StrippedFeed(h1);
    StrippedFeed(h2);
  }

  /** Stripping the death headers on publish never changes the ID. */
  lemma StrippingKeepsIdentity(hash: Hash, messageId: string, payload: string, h: map<string, string>)
    ensures IdFromParts(hash, messageId, Stripped(h), payload) == IdFromParts(hash, messageId, h, payload)
  {
    assert Stripped(Stripped(h)) == Stripped(h);
    StableIdentity(hash, messageId, payload, Stripped(h), h);
  }

  // --- Reading and publishing ------------------------------------------------------------

  function IdOf(hash: Hash, d: Delivery): (id: string)
    ensures id != ""
  {
    IdFromParts(hash, d.messageId, Normalized(d.headers), d.body)
  }

  function DeathInfo(h: map<string, HeaderValue>): (string, int, string) {
    if "x-death" in h && h["x-death"].Deaths? && h["x-death"].first.Some? then
      var death := h["x-death"].first.value;
      (if death.queue.Some? then death.queue.value else "",
       if death.count.Some? then death.count.value else 0,
       if death.reason.Some? then death.reason.value else "")
    else ("", 0, "")
  }

  function FirstHeader(h: map<string, string>, keys: seq<string>): string {
    if keys == [] then ""
    else if Lookup(h, keys[0]) != "" then Lookup(h, keys[0])
    else FirstHeader(h, keys[1..])
  }

  function ToMessage(hash: Hash, d: Delivery, queue: string): Message {
    var h := Normalized(d.headers);
    var (destination, retries, reason) := DeathInfo(d.headers);
    Message(IdOf(hash, d), queue,
            if destination == "" then Lookup(h, "x-destination") else destination,
            d.body, h, d.contentType, retries, reason,
            FirstHeader(h, ["x-event-id", "event_id", "event-id", "ce-id"]),
            FirstHeader(h, ["x-idempotency-key", "idempotency_key", "idempotency-key"]), d.timestamp)
  }

  /** The delivery that publishing a message puts on the destination queue. */
  function Outgoing(m: Message): Delivery {
    Delivery(m.id, m.payload, m.contentType, Republished(m.headers), m.timestamp)
  }

  /** Reading back what was published: same identity and content, no death bookkeeping left,
      and the destination is whatever the x-destination header says. */
  lemma PublishThenRead(hash: Hash, m: Message, queue: string)
    requires m.id != ""
    ensures var r := ToMessage(hash, Outgoing(m), queue);
            && r.id == m.id && r.payload == m.payload && r.contentType == m.contentType
            && r.headers == Stripped(m.headers) && r.timestamp == m.timestamp
            && r.destination == Lookup(m.headers, "x-destination")
            && r.retryCount == 0 && r.failureReason == ""
  {
    assert Normalized(Republished(m.headers)) == Stripped(m.headers);
    assert IsDeathHeader("x-death");
    assert "x-destination"[3] == 'e' && "x-destination"[4] == 's' && !IsDeathHeader("x-destination");
  }

  // --- Content -----------------------------------------------------------------------------

  /** The application headers that are the message's own: neither dead-letter bookkeeping nor the
      replay destination, which recovery sets itself. */
  function AppHeaders(h: map<string, string>): map<string, string> {
    Stripped(h) - {"x-destination"}
  }

  /** What a message holds, apart from its identity. */
  datatype Content = Content(payload: string, contentType: string, headers: map<string, string>)

  function ContentOf(d: Delivery): Content {
    Content(d.body, d.contentType, AppHeaders(Normalized(d.headers)))
  }

  function ContentIn(m: Message): Content {
    Content(m.payload, m.contentType, AppHeaders(m.headers))
  }

  /** Reading and publishing keep the content. */
  lemma ContentIsKept(hash: Hash, d: Delivery, m: Message, queue: string)
    ensures ContentIn(ToMessage(hash, d, queue)) == ContentOf(d)
    ensures ContentOf(Outgoing(m)) == ContentIn(m)
  {
    assert Normalized(Republished(m.headers)) == Stripped(m.headers);
    assert Stripped(Stripped(m.headers)) == Stripped(m.headers);
  }
}
