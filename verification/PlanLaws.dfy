// What groups and plans tell the operator, message by message.
module PlanLaws {
  import opened Seqs
  import opened Text
  import opened Mapper
  import opened Validator
  import opened Triage
  import opened Jev
  import opened Planner
  import opened Analyzer
  import Identity
  import SemverText

  /** A message with its verdict. */
  type Judged = (Message, Classified)

  function Pairs(msgs: seq<Message>, cs: seq<Classified>): (r: seq<Judged>)
    requires |msgs| == |cs|
    ensures |r| == |msgs| && forall i :: 0 <= i < |r| ==> r[i] == (msgs[i], cs[i])
  {
    seq(|msgs|, i requires 0 <= i < |msgs| => (msgs[i], cs[i]))
  }

  lemma PairsLast(msgs: seq<Message>, cs: seq<Classified>)
    requires |msgs| == |cs| > 0
    ensures var n := |msgs| - 1;
            Pairs(msgs, cs) == Pairs(msgs[..n], cs[..n]) + [(msgs[n], cs[n])]
  {
  }

  lemma MapSnoc<T, U>(s: seq<T>, x: T, f: T -> U)
    ensures Map(s + [x], f) == Map(s, f) + [f(x)]
  {
  }

  // --- Groups ------------------------------------------------------------------------------------------

  /** Two retry counts on the same side of each bound. */
  predicate SameRange(a: int, b: int) {
    (a <= 0 <==> b <= 0) && (a <= 2 <==> b <= 2) && (a <= 5 <==> b <= 5)
  }

  /** Messages share a group exactly when they failed alike, with the same destination and event
      type, after similarly many attempts. */
  lemma SameGroupIff(t: TextEnv, m1: Message, m2: Message)
    ensures KeyOf(t, m1) == KeyOf(t, m2) <==>
              && t.normalize(m1.failureReason) == t.normalize(m2.failureReason)
              && m1.destination == m2.destination && EventTypeOf(m1) == EventTypeOf(m2)
              && SameRange(m1.retryCount, m2.retryCount)
  {
  }

  lemma EventTypeIsFirst(m: Message)
    ensures Identity.FirstOf(EventTypeOf(m), m.headers, ["x-event-type", "event_type", "event-type", "ce-type"])
  {
    Identity.FirstHeaderIsFirst(m.headers, ["x-event-type", "event_type", "event-type", "ce-type"]);
  }

  function InClass(t: TextEnv, k: GroupKey, c: Classification): Judged -> bool {
    (j: Judged) => KeyOf(t, j.0) == k && j.1.classification == c
  }

  function ByJevIn(t: TextEnv, k: GroupKey): Judged -> bool {
    (j: Judged) => KeyOf(t, j.0) == k && j.1.source == FromJev
  }

  function Sum(xs: seq<real>): real {
    if xs == [] then 0.0 else Sum(xs[..|xs| - 1]) + xs[|xs| - 1]
  }

  /** The confidences of the messages of one group and class. */
  function Confidences(t: TextEnv, msgs: seq<Message>, cs: seq<Classified>, k: GroupKey, c: Classification): seq<real>
    requires |msgs| == |cs|
  {
    Map(Filter(Pairs(msgs, cs), InClass(t, k, c)), (j: Judged) => j.1.confidence)
  }

  /** What the accumulator counts: classes and verdicts of Jev. */
  lemma {:induction false} AccCounts(t: TextEnv, msgs: seq<Message>, cs: seq<Classified>, k: GroupKey,
                                     c: Classification)
    requires |msgs| == |cs|
    ensures CountIn(AccOf(t, msgs, cs, k).counts, c) == Count(Pairs(msgs, cs), InClass(t, k, c))
    ensures AccOf(t, msgs, cs, k).jevDecided == Count(Pairs(msgs, cs), ByJevIn(t, k))
  {
    if msgs != [] {
      var n := |msgs| - 1;
      var last := (msgs[n], cs[n]);
      AccCounts(t, msgs[..n], cs[..n], k, c);
      PairsLast(msgs, cs);
      CountSnoc(Pairs(msgs[..n], cs[..n]), last, InClass(t, k, c));
      CountSnoc(Pairs(msgs[..n], cs[..n]), last, ByJevIn(t, k));
    }
  }

  /** What it sums: the confidences of each class. */
  lemma {:induction false} AccSums(t: TextEnv, msgs: seq<Message>, cs: seq<Classified>, k: GroupKey, c: Classification)
    requires |msgs| == |cs|
    ensures SumIn(AccOf(t, msgs, cs, k).confidence, c) == Sum(Confidences(t, msgs, cs, k, c))
  {
    if msgs != [] {
      AccSums(t, msgs[..|msgs| - 1], cs[..|cs| - 1], k, c);
      ConfidencesLast(t, msgs, cs, k, c);
    }
  }

  lemma ConfidencesLast(t: TextEnv, msgs: seq<Message>, cs: seq<Classified>, k: GroupKey, c: Classification)
    requires |msgs| == |cs| > 0
    ensures var n := |msgs| - 1;
            Sum(Confidences(t, msgs, cs, k, c)) == Sum(Confidences(t, msgs[..n], cs[..n], k, c))
              + if InClass(t, k, c)((msgs[n], cs[n])) then cs[n].confidence else 0.0
  {
    var n := |msgs| - 1;
    var last, front := (msgs[n], cs[n]), Pairs(msgs[..n], cs[..n]);
    PairsLast(msgs, cs);
    assert Pairs(msgs, cs)[..n] == front;
    var kept := Filter(front, InClass(t, k, c));
    var conf := (j: Judged) => j.1.confidence;
    if InClass(t, k, c)(last) {
      MapSnoc(kept, last, conf);
      assert Map(kept + [last], conf)[..|kept|] == Map(kept, conf);
    } else {
      assert kept + [] == kept;
    }
  }

  /** What a group says: its messages in order, and how many got which verdict, how many of them
      from Jev. */
  lemma {:induction false} GroupReports(t: TextEnv, msgs: seq<Message>, cs: seq<Classified>, out: seq<Group>, g: Group)
    requires |msgs| == |cs| && |msgs| > 0 && IsAnalysis(t, msgs, cs, out) && g in out
    ensures g.ids == Ids(Filter(msgs, HasKey(t, g.key))) && g.count == |g.ids| > 0
    ensures forall c :: CountIn(g.breakdown, c) == Count(Pairs(msgs, cs), InClass(t, g.key, c))
    ensures g.jevDecided == Count(Pairs(msgs, cs), ByJevIn(t, g.key))
  {
    GroupHolds(t, msgs, cs, g);
    AccReports(t, msgs, cs, g.key);
  }

  /** A group shows what the accumulator of its key holds. */
  lemma {:induction false} GroupHolds(t: TextEnv, msgs: seq<Message>, cs: seq<Classified>, g: Group)
    requires |msgs| == |cs| && |msgs| > 0 && IsGroup(t, msgs, cs, g)
    ensures var acc := AccOf(t, msgs, cs, g.key);
            && g.key in KeysOf(t, msgs) && g.ids == acc.ids && g.count == |acc.ids|
            && g.breakdown == acc.counts && g.jevDecided == acc.jevDecided
            && (Total(acc.counts) > 0 ==> Outvotes(acc.counts, acc.confidence, g.recommendation, g.confidence))
  {
    MajorityMeans(g.breakdown, AccOf(t, msgs, cs, g.key).confidence, g.recommendation, g.confidence);
  }

  predicate Outvotes(counts: map<Classification, nat>, sums: map<Classification, real>, c: Classification, conf: real) {
    (forall d :: CountIn(counts, d) <= CountIn(counts, c)) && IsMean(conf, CountIn(counts, c), SumIn(sums, c))
  }

  lemma Divided(sum: real, n: nat)
    requires n > 0
    ensures IsMean(sum / n as real, n, sum)
  {
  }

  lemma {:induction false} MajorityMeans(counts: map<Classification, nat>, sums: map<Classification, real>,
                                         c: Classification, conf: real)
    requires IsMajority(counts, sums, c, conf)
    ensures Total(counts) > 0 ==> Outvotes(counts, sums, c, conf)
  {
    if counts != map[] {
      Divided(SumIn(sums, c), counts[c]);
    }
  }

  lemma {:induction false} AccReports(t: TextEnv, msgs: seq<Message>, cs: seq<Classified>, k: GroupKey)
    requires |msgs| == |cs| && k in KeysOf(t, msgs)
    ensures AccOf(t, msgs, cs, k).ids == Ids(Filter(msgs, HasKey(t, k))) && |AccOf(t, msgs, cs, k).ids| > 0
    ensures forall c :: CountIn(AccOf(t, msgs, cs, k).counts, c) == Count(Pairs(msgs, cs), InClass(t, k, c))
    ensures AccOf(t, msgs, cs, k).jevDecided == Count(Pairs(msgs, cs), ByJevIn(t, k))
  {
    AccIsTheSubsequence(t, msgs, cs, k);
    KeyHasMessages(t, msgs, k);
    AccCounts(t, msgs, cs, k, Investigate);
    forall c ensures CountIn(AccOf(t, msgs, cs, k).counts, c) == Count(Pairs(msgs, cs), InClass(t, k, c)) {
      AccCounts(t, msgs, cs, k, c);
    }
  }

  predicate IsMean(mean: real, n: nat, sum: real) {
    n > 0 && mean * n as real == sum
  }

  /** What a group recommends: a verdict that no other outnumbers, with the mean confidence of the
      messages that got it. */
  lemma {:induction false} GroupRecommends(t: TextEnv, msgs: seq<Message>, cs: seq<Classified>, out: seq<Group>,
                                           g: Group)
    requires |msgs| == |cs| && |msgs| > 0 && IsAnalysis(t, msgs, cs, out) && g in out
    ensures forall c :: CountIn(g.breakdown, c) <= CountIn(g.breakdown, g.recommendation)
    ensures IsMean(g.confidence, CountIn(g.breakdown, g.recommendation),
                   Sum(Confidences(t, msgs, cs, g.key, g.recommendation)))
  {
    GroupHolds(t, msgs, cs, g);
    BreakdownSumsToCount(t, msgs, cs, g.key);
    AccReports(t, msgs, cs, g.key);
    AccSums(t, msgs, cs, g.key, g.recommendation);
  }

  lemma KeyHasMessages(t: TextEnv, msgs: seq<Message>, k: GroupKey)
    requires k in KeysOf(t, msgs)
    ensures Filter(msgs, HasKey(t, k)) != []
  {
    FilterSize(msgs, HasKey(t, k));
    var m :| m in msgs && KeyOf(t, m) == k;
    assert m in Filter(msgs, HasKey(t, k));
  }

  /** Groups come largest first and then by signature; their shares add up to the whole. */
  lemma {:induction false} GroupsInOrder(t: TextEnv, msgs: seq<Message>, cs: seq<Classified>, out: seq<Group>)
    requires |msgs| == |cs| && |msgs| > 0 && IsAnalysis(t, msgs, cs, out)
    ensures forall i, j :: 0 <= i < j < |out| ==>
              out[i].count > out[j].count
              || (out[i].count == out[j].count && Compare(out[i].key.signature, out[j].key.signature) <= 0)
    ensures Sum(Map(out, (g: Group) => g.percentage)) == 100.0
  {
    assert forall g :: g in out ==> IsGroup(t, msgs, cs, g);
    SharesAddUp(out, |msgs|);
    GroupsPartitionTheInput(t, msgs, cs, out);
    Whole(|msgs| as real);
  }

  lemma Whole(total: real)
    requires total > 0.0
    ensures total / total * 100.0 == 100.0
  {
  }

  lemma ShareOfSum(a: real, b: real, total: real)
    requires total > 0.0
    ensures (a + b) / total * 100.0 == a / total * 100.0 + b / total * 100.0
  {
  }

  lemma {:induction false} SharesAddUp(gs: seq<Group>, total: nat)
    requires total > 0 && forall g :: g in gs ==> g.percentage == g.count as real / total as real * 100.0
    ensures Sum(Map(gs, (g: Group) => g.percentage)) == TotalCount(gs) as real / total as real * 100.0
  {
    if gs != [] {
      var n := |gs| - 1;
      var share := (g: Group) => g.percentage;
      assert gs[n] in gs && forall g :: g in gs[..n] ==> g in gs;
      SharesAddUp(gs[..n], total);
      assert Map(gs, share)[..n] == Map(gs[..n], share);
      ShareOfSum(TotalCount(gs[..n]) as real, gs[n].count as real, total as real);
    }
  }

  /** The times and the payload shape of a group are those of its messages. */
  lemma {:induction false} GroupSeen(t: TextEnv, msgs: seq<Message>, cs: seq<Classified>, out: seq<Group>, g: Group)
    requires |msgs| == |cs| && |msgs| > 0 && IsAnalysis(t, msgs, cs, out) && g in out
    ensures var ms := OfKey(t, msgs, g.key);
            && ms != []
            && (IsEarliest(ms, g.firstSeen) <==> !IsEarliest(ms, 0) || ms[|ms| - 1].timestamp == 0)
            && (IsLatest(ms, g.lastSeen) <==> exists m :: m in ms && m.timestamp >= 0)
            && FirstShape(t, ms, g.payloadShape)
  {
    assert IsGroup(t, msgs, cs, g);
    FirstSeenIsEarliestIff(t, msgs, cs, g.key);
    LastSeenIsLatestIff(t, msgs, cs, g.key);
    AccSeen(t, msgs, cs, g.key);
    ShapeIsFirst(t, OfKey(t, msgs, g.key));
  }

  /** The shape of the first message that has one. */
  ghost predicate FirstShape(t: TextEnv, ms: seq<Message>, shape: string) {
    || (shape == "" && forall m :: m in ms ==> PayloadShape(t, m.payload) == "")
    || (shape != "" && exists i :: 0 <= i < |ms| && PayloadShape(t, ms[i].payload) == shape
                                   && forall j :: 0 <= j < i ==> PayloadShape(t, ms[j].payload) == "")
  }

  lemma {:induction false} ShapeIsFirst(t: TextEnv, ms: seq<Message>)
    ensures FirstShape(t, ms, ShapeOf(t, ms))
  {
    if ms != [] {
      var n := |ms| - 1;
      ShapeIsFirst(t, ms[..n]);
      var before := ShapeOf(t, ms[..n]);
      if before != "" {
        var i :| 0 <= i < n && PayloadShape(t, ms[..n][i].payload) == before
                 && forall j :: 0 <= j < i ==> PayloadShape(t, ms[..n][j].payload) == "";
        assert PayloadShape(t, ms[i].payload) == before;
        assert forall j :: 0 <= j < i ==> ms[..n][j] == ms[j];
      } else {
        assert forall j :: 0 <= j < n ==> ms[j] in ms[..n];
        assert forall m :: m in ms ==> m in ms[..n] || m == ms[n];
        assert PayloadShape(t, ms[n].payload) == ShapeOf(t, ms);
      }
    }
  }

  /** The shape of a JSON object lists its keys in order; other payloads are named. */
  lemma ShapeTells(t: TextEnv, payload: string)
    ensures payload == "" ==> PayloadShape(t, payload) == "empty"
    ensures payload != "" && t.topKeys(payload).None? ==> PayloadShape(t, payload) == "raw"
    ensures payload != "" && t.topKeys(payload).Some? ==>
              var keys := t.topKeys(payload).value;
              && (keys == {} ==> PayloadShape(t, payload) == "")
              && (keys != {} && (forall k :: k in keys ==> ',' !in k) ==>
                      Sorted(Split(PayloadShape(t, payload), ','))
                      && multiset(Split(PayloadShape(t, payload), ',')) == multiset(keys))
  {
    if payload != "" && t.topKeys(payload).Some? {
      var keys := t.topKeys(payload).value;
      SortedKeysMultiset(keys);
      if keys != {} && forall k :: k in keys ==> ',' !in k {
        var k :| k in keys;
        assert k in SortedKeys(keys);
        SemverText.SplitUndoesJoin(SortedKeys(keys), ',');
      }
    }
  }

  // --- Plans -------------------------------------------------------------------------------------------

  /** Considered are the messages whose signature has the group ID: all of them without one. */
  lemma ConsideredAre(t: TextEnv, opts: PlanOptions, msgs: seq<Message>)
    ensures opts.groupId == "" ==> Considered(t, opts, msgs) == msgs
    ensures opts.groupId != "" ==>
              Considered(t, opts, msgs)
              == Filter(msgs, (m: Message) => t.groupId(t.normalize(m.failureReason)) == opts.groupId)
  {
    if opts.groupId == "" {
      FilterAll(msgs, InGroup(t, opts.groupId));
    } else {
      FilterBy(msgs, InGroup(t, opts.groupId), (m: Message) => t.groupId(t.normalize(m.failureReason)) == opts.groupId);
    }
  }

  function StaysOut(out: bool): Judged -> bool {
    (j: Judged) => j.1.classification == DoNotReplay <==> out
  }

  /** On request everything is selected; by default all but what is marked DO_NOT_REPLAY. */
  lemma {:induction false} SelectedAre(t: TextEnv, msgs: seq<Message>, cs: seq<Classified>)
    requires |msgs| == |cs|
    ensures Selected(true, msgs, cs) == msgs
    ensures Selected(false, msgs, cs) == Map(Filter(Pairs(msgs, cs), StaysOut(false)), (j: Judged) => j.0)
  {
    if msgs != [] {
      var n := |msgs| - 1;
      SelectedAre(t, msgs[..n], cs[..n]);
      PairsLast(msgs, cs);
      var front, last := Pairs(msgs[..n], cs[..n]), (msgs[n], cs[n]);
      assert Pairs(msgs, cs)[..n] == front;
      MapMaybe(Filter(front, StaysOut(false)), StaysOut(false)(last), last, (j: Judged) => j.0);
      assert msgs == msgs[..n] + [msgs[n]];
    }
  }

  /** What is left out is left out with its reason. */
  lemma {:induction false} LeftOutAre(t: TextEnv, msgs: seq<Message>, cs: seq<Classified>)
    requires |msgs| == |cs|
    ensures LeftOut(t, true, msgs, cs) == []
    ensures LeftOut(t, false, msgs, cs)
         == Map(Filter(Pairs(msgs, cs), StaysOut(true)), (j: Judged) => Excluded(j.0.id, Describe(t, j.1.why)))
  {
    if msgs != [] {
      var n := |msgs| - 1;
      LeftOutAre(t, msgs[..n], cs[..n]);
      PairsLast(msgs, cs);
      var front, last := Pairs(msgs[..n], cs[..n]), (msgs[n], cs[n]);
      assert Pairs(msgs, cs)[..n] == front;
      MapMaybe(Filter(front, StaysOut(true)), StaysOut(true)(last), last,
               (j: Judged) => Excluded(j.0.id, Describe(t, j.1.why)));
    }
  }

  lemma MapMaybe<T, U>(s: seq<T>, there: bool, x: T, f: T -> U)
    ensures Map(s + (if there then [x] else []), f) == Map(s, f) + (if there then [f(x)] else [])
  {
  }

  /** A plan without a destination of its own has the one that all its messages share. */
  lemma {:induction false} OneDestination(msgs: seq<Message>, d: string)
    ensures Destinations(msgs) == {d} <==> msgs != [] && forall m :: m in msgs ==> m.destination == d
  {
    if Destinations(msgs) == {d} {
      assert d in Destinations(msgs);
      forall m | m in msgs ensures m.destination == d { assert m.destination in Destinations(msgs); }
    }
    if msgs != [] && forall m :: m in msgs ==> m.destination == d {
      assert msgs[0] in msgs && msgs[0].destination in Destinations(msgs);
    }
  }
}
