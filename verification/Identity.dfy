// What a message's identity and its fields depend on, spelled out header by header, and exactly how
// far the content hash tells messages apart.
module Identity {
  import opened Seqs
  import opened Text
  import opened Mapper

  /** A header of the broker's dead-letter bookkeeping. */
  predicate OfBroker(k: string) {
    "x-death" <= k || "x-first-death" <= k
  }

  function Header(h: map<string, string>, k: string): string {
    if k in h then h[k] else ""
  }

  /** Two readings agree on everything but the broker's bookkeeping. */
  ghost predicate SameApplication(h1: map<string, string>, h2: map<string, string>) {
    forall k :: !OfBroker(k) ==> (k in h1 <==> k in h2) && (k in h1 ==> h1[k] == h2[k])
  }

  /** Whatever the broker adds or changes in its own headers, the ID stays. */
  lemma BrokerHeadersDoNotCount(hash: Hash, messageId: string, payload: string, h1: map<string, string>,
                                h2: map<string, string>)
    requires SameApplication(h1, h2)
    ensures IdFromParts(hash, messageId, h1, payload) == IdFromParts(hash, messageId, h2, payload)
  {
    forall k ensures k in Stripped(h1) <==> k in Stripped(h2) { assert OfBroker(k) <==> IsDeathHeader(k); }
    forall k | k in Stripped(h1) ensures Stripped(h1)[k] == Stripped(h2)[k] { assert !OfBroker(k); }
    assert Stripped(h1) == Stripped(h2);
    StableIdentity(hash, messageId, payload, h1, h2);
  }

  /** The message-id property comes first, then the x-message-id header, then the content hash. */
  lemma IdPrecedence(hash: Hash, messageId: string, h: map<string, string>, payload: string)
    ensures messageId != "" ==> IdFromParts(hash, messageId, h, payload) == messageId
    ensures messageId == "" && Header(h, "x-message-id") != "" ==>
              IdFromParts(hash, messageId, h, payload) == Header(h, "x-message-id")
    ensures messageId == "" && Header(h, "x-message-id") == "" ==>
              "sha256:" <= IdFromParts(hash, messageId, h, payload)
  {
  }

  // --- How far the content hash tells messages apart -----------------------------------------------

  predicate Free(s: string, c: char) {
    c !in s
  }

  /** Headers without NUL, and with names without '='. */
  ghost predicate Clean(h: map<string, string>) {
    forall k :: k in h ==> Free(k, '\0') && Free(k, '=') && Free(h[k], '\0')
  }

  function Bare(k: string, v: string): string {
    k + "=" + v
  }

  /** Names and values without bookkeeping: one line each is fed. */
  predicate Lines(keys: seq<string>, h: map<string, string>) {
    forall k :: k in keys ==> k in h && !IsDeathHeader(k) && Free(k, '\0') && Free(k, '=') && Free(h[k], '\0')
  }

  lemma FeedLast(keys: seq<string>, h: map<string, string>)
    requires keys != [] && Lines(keys, h)
    ensures var n := |keys| - 1;
            && Lines(keys[..n], h) && keys[n] in h
            && Feed(keys, h) == (Feed(keys[..n], h) + Bare(keys[n], h[keys[n]])) + "\0"
            && Free(keys[n], '=') && Free(Bare(keys[n], h[keys[n]]), '\0')
  {
    assert keys[|keys| - 1] in keys;
  }

  predicate EndsWithNul(s: string) {
    s == "" || s[|s| - 1] == '\0'
  }

  lemma FeedEndsWithNul(keys: seq<string>, h: map<string, string>)
    requires Lines(keys, h)
    ensures EndsWithNul(Feed(keys, h)) && (Feed(keys, h) == "" ==> keys == [])
  {
    if keys != [] {
      FeedLast(keys, h);
    }
  }

  /** What follows the last NUL. */
  function Unfinished(s: string): string {
    if EndsWithNul(s) then "" else Unfinished(s[..|s| - 1]) + [s[|s| - 1]]
  }

  lemma {:induction false} UnfinishedIs(a: string, x: string)
    requires EndsWithNul(a) && Free(x, '\0')
    ensures Unfinished(a + x) == x
  {
    if x == "" {
      assert a + x == a;
    } else {
      var n := |x| - 1;
      assert x[n] in x && forall c :: c in x[..n] ==> c in x;
      UnfinishedIs(a, x[..n]);
      assert (a + x)[..|a + x| - 1] == a + x[..n] && x == x[..n] + [x[n]];
    }
  }

  /** What precedes the first '='. */
  function Name(s: string): string {
    if s == "" || s[0] == '=' then "" else [s[0]] + Name(s[1..])
  }

  lemma {:induction false} NameIs(k: string, v: string)
    requires Free(k, '=')
    ensures Name(Bare(k, v)) == k
  {
    if k == "" {
      assert Bare(k, v)[0] == '=';
    } else {
      assert k[0] in k && forall c :: c in k[1..] ==> c in k;
      NameIs(k[1..], v);
      assert Bare(k, v)[1..] == Bare(k[1..], v);
    }
  }

  lemma BareAgree(k1: string, v1: string, k2: string, v2: string)
    requires Bare(k1, v1) == Bare(k2, v2) && Free(k1, '=') && Free(k2, '=')
    ensures k1 == k2 && v1 == v2
  {
    NameIs(k1, v1);
    NameIs(k2, v2);
    assert Bare(k1, v1)[|k1| + 1..] == v1 && Bare(k2, v2)[|k2| + 1..] == v2;
  }

  /** The last line of a text, and what comes before, are determined by the text. */
  lemma SplitLast(a: string, x: string, b: string, y: string)
    requires (a + x) + "\0" == (b + y) + "\0"
    requires EndsWithNul(a) && EndsWithNul(b) && Free(x, '\0') && Free(y, '\0')
    ensures a == b && x == y
  {
    assert a + x == ((a + x) + "\0")[..|a + x|] == ((b + y) + "\0")[..|b + y|] == b + y;
    UnfinishedIs(a, x);
    UnfinishedIs(b, y);
    assert a == (a + x)[..|a|] && b == (b + y)[..|b|];
  }

  lemma {:induction false} LastLinesAgree(k1: seq<string>, h1: map<string, string>, k2: seq<string>,
                                          h2: map<string, string>)
    requires Lines(k1, h1) && Lines(k2, h2) && Feed(k1, h1) == Feed(k2, h2) && k1 != [] && k2 != []
    ensures var m, n := |k1| - 1, |k2| - 1;
            && Lines(k1[..m], h1) && Lines(k2[..n], h2) && Feed(k1[..m], h1) == Feed(k2[..n], h2)
            && k1[m] in h1 && k2[n] in h2 && k1[m] == k2[n] && h1[k1[m]] == h2[k2[n]]
  {
    var m, n := |k1| - 1, |k2| - 1;
    FeedLast(k1, h1);
    FeedLast(k2, h2);
    FeedEndsWithNul(k1[..m], h1);
    FeedEndsWithNul(k2[..n], h2);
    SplitLast(Feed(k1[..m], h1), Bare(k1[m], h1[k1[m]]), Feed(k2[..n], h2), Bare(k2[n], h2[k2[n]]));
    BareAgree(k1[m], h1[k1[m]], k2[n], h2[k2[n]]);
  }

  ghost predicate Same(k1: seq<string>, h1: map<string, string>, k2: seq<string>, h2: map<string, string>) {
    k1 == k2 && forall k :: k in k1 ==> k in h1 && k in h2 && h1[k] == h2[k]
  }

  lemma {:induction false} SameSnoc(k1: seq<string>, h1: map<string, string>, k2: seq<string>, h2: map<string, string>)
    requires k1 != [] && k2 != [] && Same(k1[..|k1| - 1], h1, k2[..|k2| - 1], h2)
    requires var k := k1[|k1| - 1]; k == k2[|k2| - 1] && k in h1 && k in h2 && h1[k] == h2[k]
    ensures Same(k1, h1, k2, h2)
  {
    var m, n := |k1| - 1, |k2| - 1;
    assert k1 == k1[..m] + [k1[m]] && k2 == k2[..n] + [k2[n]];
  }

  /** Different headers are fed as different texts. */
  lemma {:induction false} FeedIsInjective(k1: seq<string>, h1: map<string, string>, k2: seq<string>,
                                           h2: map<string, string>)
    requires Lines(k1, h1) && Lines(k2, h2) && Feed(k1, h1) == Feed(k2, h2)
    ensures Same(k1, h1, k2, h2)
  {
    if k1 == [] || k2 == [] {
      FeedEndsWithNul(k1, h1);
      FeedEndsWithNul(k2, h2);
    } else {
      LastLinesAgree(k1, h1, k2, h2);
      FeedIsInjective(k1[..|k1| - 1], h1, k2[..|k2| - 1], h2);
      SameSnoc(k1, h1, k2, h2);
    }
  }

  /** No ID is given and the content decides. */
  predicate Hashed(messageId: string, h: map<string, string>) {
    messageId == "" && Header(h, "x-message-id") == ""
  }

  /** With a hash that does not collide, messages with the same payload and clean headers have the
      same ID exactly when their application headers are the same. */
  lemma ContentDecidesIdentity(hash: Hash, payload: string, h1: map<string, string>, h2: map<string, string>)
    requires forall a, b :: hash(a) == hash(b) ==> a == b
    requires Hashed("", h1) && Hashed("", h2) && Clean(h1) && Clean(h2)
    ensures IdFromParts(hash, "", h1, payload) == IdFromParts(hash, "", h2, payload) <==> SameApplication(h1, h2)
  {
    if SameApplication(h1, h2) {
      BrokerHeadersDoNotCount(hash, "", payload, h1, h2);
    }
    if IdFromParts(hash, "", h1, payload) == IdFromParts(hash, "", h2, payload) {
      SameIdSameFeed(hash, payload, h1, h2);
      SameFeedSameHeaders(h1, h2);
    }
  }

  lemma {:induction false} SameIdSameFeed(hash: Hash, payload: string, h1: map<string, string>, h2: map<string, string>)
    requires (forall a, b :: hash(a) == hash(b) ==> a == b) && Hashed("", h1) && Hashed("", h2)
    requires IdFromParts(hash, "", h1, payload) == IdFromParts(hash, "", h2, payload)
    ensures Feed(SortedKeys(h1.Keys), h1) == Feed(SortedKeys(h2.Keys), h2)
  {
    var f1, f2 := Feed(SortedKeys(h1.Keys), h1), Feed(SortedKeys(h2.Keys), h2);
    SameAfterPrefix("sha256:", hash(payload + f1), hash(payload + f2));
    SameAfterPrefix(payload, f1, f2);
  }

  lemma SameFeedSameHeaders(h1: map<string, string>, h2: map<string, string>)
    requires Clean(h1) && Clean(h2) && Feed(SortedKeys(h1.Keys), h1) == Feed(SortedKeys(h2.Keys), h2)
    ensures SameApplication(h1, h2)
  {
    var s1, s2 := Stripped(h1), Stripped(h2);
    var k1, k2 := SortedKeys(s1.Keys), SortedKeys(s2.Keys);
    StrippedFeed(h1);
    StrippedFeed(h2);
    FeedIsInjective(k1, s1, k2, s2);
    forall k | !OfBroker(k) ensures (k in h1 <==> k in h2) && (k in h1 ==> h1[k] == h2[k]) {
      assert (k in h1 <==> k in k1) && (k in h2 <==> k in k2);
    }
  }

  lemma SameAfterPrefix(p: string, a: string, b: string)
    requires p + a == p + b
    ensures a == b
  {
    assert a == (p + a)[|p|..] && b == (p + b)[|p|..];
  }

  lemma OneKeySorted(s: set<string>, k: string)
    requires s == {k}
    ensures SortedKeys(s) == [k]
  {
    SortedKeysMultiset(s);
    assert |SortedKeys(s)| == |multiset(SortedKeys(s))| == 1;
    assert SortedKeys(s)[0] in s;
  }

  /** Across different payloads it does not, whatever the hash: a payload can look like a header. */
  lemma {:induction false} PayloadPosesAsHeader(hash: Hash)
    ensures IdFromParts(hash, "", map["k" := "v"], "") == IdFromParts(hash, "", map[], "k=v\0")
  {
    var h: map<string, string> := map["k" := "v"];
    OneKeySorted(h.Keys, "k");
    assert !IsDeathHeader("k");
    FeedLast(["k"], h);
    assert ["k"][..0] == [];
    assert Feed([], h) == "" && "" + Feed(["k"], h) == "k=v\0";
    assert "k=v\0" + "" == "k=v\0";
  }

  // --- The other fields ------------------------------------------------------------------------------

  /** Text headers keep their text, others their rendering, under the same names. */
  lemma HeadersKeepTheirText(t: map<string, HeaderValue>)
    ensures Normalized(t).Keys == t.Keys
    ensures forall k :: k in t ==>
              match t[k]
              case Plain(text) => Normalized(t)[k] == text
              case Deaths(rendered, _) => Normalized(t)[k] == rendered
              case Other(rendered) => Normalized(t)[k] == rendered
  {
  }

  /** Publishing keeps exactly the headers that are not the broker's, as text. */
  lemma PublishedHeaders(m: Message)
    ensures forall k :: k in Outgoing(m).headers <==> k in m.headers && !OfBroker(k)
    ensures forall k :: k in Outgoing(m).headers ==> Outgoing(m).headers[k] == Plain(m.headers[k])
    ensures Outgoing(m).messageId == m.id && Outgoing(m).body == m.payload
            && Outgoing(m).contentType == m.contentType && Outgoing(m).timestamp == m.timestamp
  {
  }

  /** The first dead-lettering tells where a message came from, how often and why; each part that is
      missing is empty, and the destination header fills in for the queue. */
  lemma DeathTells(hash: Hash, d: Delivery, queue: string)
    ensures var m := ToMessage(hash, d, queue);
            var death :=
              if "x-death" in d.headers && d.headers["x-death"].Deaths? then d.headers["x-death"].first else None;
            && m.retryCount == (if death.Some? && death.value.count.Some? then death.value.count.value else 0)
            && m.failureReason == (if death.Some? && death.value.reason.Some? then death.value.reason.value else "")
            && m.destination ==
                 (if death.Some? && death.value.queue.Some? && death.value.queue.value != ""
                  then death.value.queue.value
                  else Header(Normalized(d.headers), "x-destination"))
            && m.queue == queue && m.timestamp == d.timestamp && m.contentType == d.contentType && m.payload == d.body
            && m.headers == Normalized(d.headers)
  {
  }

  /** The first of several headers that is not empty. */
  predicate FirstOf(r: string, h: map<string, string>, names: seq<string>) {
    || (r == "" && forall k :: k in names ==> Header(h, k) == "")
    || (r != "" && exists i :: 0 <= i < |names| && Header(h, names[i]) == r
                               && forall j :: 0 <= j < i ==> Header(h, names[j]) == "")
  }

  lemma {:induction false} FirstHeaderIsFirst(h: map<string, string>, names: seq<string>)
    ensures FirstOf(FirstHeader(h, names), h, names)
  {
    if names != [] && Lookup(h, names[0]) == "" {
      FirstHeaderIsFirst(h, names[1..]);
      var r := FirstHeader(h, names);
      assert forall k :: k in names ==> k == names[0] || k in names[1..];
      if r != "" {
        var i :| 0 <= i < |names[1..]| && Header(h, names[1..][i]) == r
                 && forall j :: 0 <= j < i ==> Header(h, names[1..][j]) == "";
        forall j | 0 <= j < i + 1 ensures Header(h, names[j]) == "" {
          if j > 0 { assert names[j] == names[1..][j - 1]; }
        }
        assert Header(h, names[i + 1]) == r;
      }
    }
  }

  /** Where event and idempotency identifiers come from. */
  lemma IdentifiersComeFromHeaders(hash: Hash, d: Delivery, queue: string)
    ensures var m, h := ToMessage(hash, d, queue), Normalized(d.headers);
            && FirstOf(m.eventId, h, ["x-event-id", "event_id", "event-id", "ce-id"])
            && FirstOf(m.idempotencyKey, h, ["x-idempotency-key", "idempotency_key", "idempotency-key"])
  {
    FirstHeaderIsFirst(Normalized(d.headers), ["x-event-id", "event_id", "event-id", "ce-id"]);
    FirstHeaderIsFirst(Normalized(d.headers), ["x-idempotency-key", "idempotency_key", "idempotency-key"]);
  }
}
