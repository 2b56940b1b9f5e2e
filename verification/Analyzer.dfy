// internal/recovery/analyzer.go: clustering failed messages into groups.
module Analyzer {
  import opened Seqs
  import opened Text
  import opened Mapper
  import opened Triage
  import opened Jev
  import opened Planner

  datatype GroupKey = GroupKey(signature: string, destination: string, eventType: string, retryBucket: string)

  function RetryBucket(retries: int): string {
    if retries <= 0 then "0" else if retries <= 2 then "1-2" else if retries <= 5 then "3-5" else "6+"
  }

  function KeyOf(t: TextEnv, m: Message): GroupKey {
    GroupKey(t.normalize(m.failureReason), m.destination, EventTypeOf(m), RetryBucket(m.retryCount))
  }

  /** The structure of a payload for display: the sorted top-level keys of a JSON object. */
  function PayloadShape(t: TextEnv, payload: string): string {
    if payload == "" then "empty"
    else
      var keys := t.topKeys(payload);
      if keys.None? then "raw" else if keys.value == {} then "" else Join(SortedKeys(keys.value), ',')
  }

  /** The accumulator of one group. */
  datatype Acc = Acc(ids: seq<string>, counts: map<Classification, nat>, confidence: map<Classification, real>,
                     jevDecided: nat,
                     first: int, last: int, shape: string)

  /** The running first and last timestamps; the zero time counts as unset. */
  function Earlier(first: int, at: int): int {
    if first == 0 || at < first then at else first
  }

  function Later(last: int, at: int): int {
    if at > last then at else last
  }

  function CountIn(counts: map<Classification, nat>, c: Classification): nat {
    if c in counts then counts[c] else 0
  }

  function SumIn(sums: map<Classification, real>, c: Classification): real {
    if c in sums then sums[c] else 0.0
  }

  function Accumulate(t: TextEnv, acc: Acc, m: Message, v: Classified): Acc {
    Acc(acc.ids + [m.id],
        acc.counts[v.classification := CountIn(acc.counts, v.classification) + 1],
        acc.confidence[v.classification := SumIn(acc.confidence, v.classification) + v.confidence],
        acc.jevDecided + (if v.source == FromJev then 1 else 0),
        Earlier(acc.first, m.timestamp), Later(acc.last, m.timestamp),
        if acc.shape == "" then PayloadShape(t, m.payload) else acc.shape)
  }

  const EMPTY_ACC := Acc([], map[], map[], 0, 0, 0, "")

  /** What the accumulator of a key holds: a function of the messages with that key, in order. */
  function AccOf(t: TextEnv, msgs: seq<Message>, cs: seq<Classified>, k: GroupKey): Acc
    requires |msgs| == |cs|
  {
    if msgs == [] then EMPTY_ACC
    else
      var n := |msgs| - 1;
      var acc := AccOf(t, msgs[..n], cs[..n], k);
      if KeyOf(t, msgs[n]) == k then Accumulate(t, acc, msgs[n], cs[n]) else acc
  }

  function HasKey(t: TextEnv, k: GroupKey): Message -> bool {
    m => KeyOf(t, m) == k
  }

  function KeysOf(t: TextEnv, msgs: seq<Message>): set<GroupKey> {
    set m | m in msgs :: KeyOf(t, m)
  }

  lemma IdsFilterLast(msgs: seq<Message>, p: Message -> bool)
    requires msgs != []
    ensures var n := |msgs| - 1;
            Ids(Filter(msgs, p)) == Ids(Filter(msgs[..n], p)) + (if p(msgs[n]) then [msgs[n].id] else [])
  {
    var kept := Filter(msgs[..|msgs| - 1], p);
    if p(msgs[|msgs| - 1]) {
      IdsSnoc(kept, msgs[|msgs| - 1]);
    } else {
      assert Filter(msgs, p) == kept + [] == kept;
    }
  }

  /** A group's IDs are the input subsequence with its key. */
  lemma {:induction false} AccIsTheSubsequence(t: TextEnv, msgs: seq<Message>, cs: seq<Classified>, k: GroupKey)
    requires |msgs| == |cs|
    ensures AccOf(t, msgs, cs, k).ids == Ids(Filter(msgs, HasKey(t, k)))
  {
    if msgs != [] {
      AccIsTheSubsequence(t, msgs[..|msgs| - 1], cs[..|msgs| - 1], k);
      IdsFilterLast(msgs, HasKey(t, k));
    }
  }

  function Total(counts: map<Classification, nat>): nat {
    CountIn(counts, Replayable) + CountIn(counts, RequiresFix) + CountIn(counts, DoNotReplay)
      + CountIn(counts, Investigate)
  }

  lemma BumpedTotal(counts: map<Classification, nat>, c: Classification)
    ensures Total(counts[c := CountIn(counts, c) + 1]) == Total(counts) + 1
  {
    var bumped := counts[c := CountIn(counts, c) + 1];
    assert forall d :: CountIn(bumped, d) == CountIn(counts, d) + if d == c then 1 else 0;
  }

  /** A group's breakdown sums to its count. */
  lemma {:induction false} BreakdownSumsToCount(t: TextEnv, msgs: seq<Message>, cs: seq<Classified>, k: GroupKey)
    requires |msgs| == |cs|
    ensures var acc := AccOf(t, msgs, cs, k);
            Total(acc.counts) == |acc.ids| && acc.jevDecided <= |acc.ids|
    ensures forall c :: c in AccOf(t, msgs, cs, k).counts ==> AccOf(t, msgs, cs, k).counts[c] >= 1
  {
    if msgs != [] {
      var n := |msgs| - 1;
      BreakdownSumsToCount(t, msgs[..n], cs[..n], k);
      BumpedTotal(AccOf(t, msgs[..n], cs[..n], k).counts, cs[n].classification);
    }
  }

  // --- First and last seen, payload shape --------------------------------------------------------------

  /** The messages of one key, in order. */
  function OfKey(t: TextEnv, msgs: seq<Message>, k: GroupKey): seq<Message> {
    Filter(msgs, HasKey(t, k))
  }

  function FirstOf(ms: seq<Message>): int {
    if ms == [] then 0 else Earlier(FirstOf(ms[..|ms| - 1]), ms[|ms| - 1].timestamp)
  }

  function LastOf(ms: seq<Message>): int {
    if ms == [] then 0 else Later(LastOf(ms[..|ms| - 1]), ms[|ms| - 1].timestamp)
  }

  function ShapeOf(t: TextEnv, ms: seq<Message>): string {
    if ms == [] then ""
    else
      var before := ShapeOf(t, ms[..|ms| - 1]);
      if before == "" then PayloadShape(t, ms[|ms| - 1].payload) else before
  }

  lemma {:induction false} AccSeen(t: TextEnv, msgs: seq<Message>, cs: seq<Classified>, k: GroupKey)
    requires |msgs| == |cs|
    ensures var acc := AccOf(t, msgs, cs, k);
            && acc.first == FirstOf(OfKey(t, msgs, k)) && acc.last == LastOf(OfKey(t, msgs, k))
            && acc.shape == ShapeOf(t, OfKey(t, msgs, k))
  {
    if msgs != [] {
      var n := |msgs| - 1;
      AccSeen(t, msgs[..n], cs[..n], k);
      var kept := OfKey(t, msgs[..n], k);
      if KeyOf(t, msgs[n]) == k {
        assert OfKey(t, msgs, k) == kept + [msgs[n]];
        assert (kept + [msgs[n]])[..|kept|] == kept;
      } else {
        assert OfKey(t, msgs, k) == kept + [] == kept;
      }
    }
  }

  predicate IsEarliest(ms: seq<Message>, at: int) {
    (exists m :: m in ms && m.timestamp == at) && forall m :: m in ms ==> at <= m.timestamp
  }

  predicate IsLatest(ms: seq<Message>, at: int) {
    (exists m :: m in ms && m.timestamp == at) && forall m :: m in ms ==> m.timestamp <= at
  }

  function EarliestOf(ms: seq<Message>): (at: int)
    requires ms != []
    ensures IsEarliest(ms, at)
  {
    var init, last := ms[..|ms| - 1], ms[|ms| - 1];
    assert forall m :: m in ms <==> m in init || m == last;
    if init == [] then last.timestamp
    else
      var at := EarliestOf(init);
      if last.timestamp < at then last.timestamp else at
  }

  lemma {:induction false} FirstByEarliest(ms: seq<Message>)
    requires ms != []
    ensures var m := EarliestOf(ms);
            && (m != 0 ==> FirstOf(ms) == m)
            && (m == 0 ==> FirstOf(ms) >= 0 && (FirstOf(ms) == 0 <==> ms[|ms| - 1].timestamp == 0))
  {
    if |ms| > 1 {
      FirstByEarliest(ms[..|ms| - 1]);
    }
  }

  /** FirstSeen is the earliest timestamp of the group exactly when that is not the zero time, or
      the last message has it: a zero time in between makes the search start again. */
  lemma {:induction false} FirstSeenIsEarliestIff(t: TextEnv, msgs: seq<Message>, cs: seq<Classified>, k: GroupKey)
    requires |msgs| == |cs| && k in KeysOf(t, msgs)
    ensures var ms := OfKey(t, msgs, k);
            && ms != []
            && (IsEarliest(ms, AccOf(t, msgs, cs, k).first) <==> !IsEarliest(ms, 0) || ms[|ms| - 1].timestamp == 0)
  {
    AccSeen(t, msgs, cs, k);
    FilterSize(msgs, HasKey(t, k));
    var ms := OfKey(t, msgs, k);
    var m :| m in msgs && KeyOf(t, m) == k;
    assert m in ms;
    FirstByEarliest(ms);
    EarliestIsOne(ms, EarliestOf(ms), FirstOf(ms));
    EarliestIsOne(ms, EarliestOf(ms), 0);
  }

  lemma EarliestIsOne(ms: seq<Message>, a: int, b: int)
    requires IsEarliest(ms, a)
    ensures IsEarliest(ms, b) <==> a == b
  {
  }

  lemma {:induction false} LastByLatest(ms: seq<Message>)
    ensures LastOf(ms) >= 0 && forall m :: m in ms ==> m.timestamp <= LastOf(ms)
    ensures LastOf(ms) == 0 || exists m :: m in ms && m.timestamp == LastOf(ms)
  {
    if ms != [] {
      var init, last := ms[..|ms| - 1], ms[|ms| - 1];
      LastByLatest(init);
      assert forall m :: m in ms <==> m in init || m == last;
    }
  }

  /** LastSeen is the latest timestamp of the group exactly when some message is not before the zero
      time. */
  lemma {:induction false} LastSeenIsLatestIff(t: TextEnv, msgs: seq<Message>, cs: seq<Classified>, k: GroupKey)
    requires |msgs| == |cs|
    ensures var ms := OfKey(t, msgs, k);
            IsLatest(ms, AccOf(t, msgs, cs, k).last) <==> exists m :: m in ms && m.timestamp >= 0
  {
    AccSeen(t, msgs, cs, k);
    LastByLatest(OfKey(t, msgs, k));
  }

  // --- Majority --------------------------------------------------------------------------------------

  /** A class nobody outvotes, with the mean confidence of its messages. Ties go to any of them. */
  ghost predicate IsMajority(counts: map<Classification, nat>, sums: map<Classification, real>, c: Classification,
                             conf: real) {
    if counts == map[] then c == Investigate && conf == 0.5
    else c in counts && counts[c] > 0 && (forall d :: d in counts ==> counts[d] <= counts[c])
         && conf == SumIn(sums, c) / counts[c] as real
  }

  method Majority(counts: map<Classification, nat>, sums: map<Classification, real>)
    returns (best: Classification, conf: real)
    requires forall c :: c in counts ==> counts[c] >= 1
    ensures IsMajority(counts, sums, best, conf)
  {
    best := Investigate;
    var bestN: int := -1;
    var rest := counts.Keys;
    while rest != {}
      invariant rest <= counts.Keys
      invariant bestN == -1 ==> rest == counts.Keys
      invariant bestN != -1 ==> best in counts && counts[best] == bestN
      invariant forall c :: c in counts && c !in rest ==> counts[c] <= bestN
      decreases |rest|
    {
      var c :| c in rest;
      if counts[c] > bestN {
        best, bestN := c, counts[c];
      }
      rest := rest - {c};
    }
    if bestN <= 0 {
      return Investigate, 0.5;
    }
    conf := SumIn(sums, best) / bestN as real;
  }

  // --- Groups ----------------------------------------------------------------------------------------

  datatype Group = Group(key: GroupKey, id: string, caption: string, ids: seq<string>, count: nat, percentage: real,
                         recommendation: Classification, confidence: real,
                         breakdown: map<Classification, nat>, jevDecided: nat,
                         firstSeen: int, lastSeen: int, payloadShape: string)

  ghost predicate IsGroup(t: TextEnv, msgs: seq<Message>, cs: seq<Classified>, g: Group)
    requires |msgs| == |cs| && |msgs| > 0
  {
    var acc := AccOf(t, msgs, cs, g.key);
    && g.key in KeysOf(t, msgs)
    && g.id == t.groupId(g.key.signature) && g.caption == t.caption(g.key.signature)
    && g.ids == acc.ids && g.count == |acc.ids|
    && g.firstSeen == acc.first && g.lastSeen == acc.last && g.payloadShape == acc.shape
    && g.breakdown == acc.counts && g.jevDecided == acc.jevDecided
    && g.percentage == g.count as real / |msgs| as real * 100.0
    && IsMajority(acc.counts, acc.confidence, g.recommendation, g.confidence)
  }

  predicate NotAfter(g: Group, h: Group) {
    g.count > h.count || (g.count == h.count && Compare(g.key.signature, h.key.signature) <= 0)
  }

  predicate Ordered(gs: seq<Group>) {
    forall i, j :: 0 <= i < j < |gs| ==> NotAfter(gs[i], gs[j])
  }

  function GroupKeys(gs: seq<Group>): (ks: seq<GroupKey>)
    ensures |ks| == |gs| && forall i :: 0 <= i < |gs| ==> ks[i] == gs[i].key
  {
    seq(|gs|, i requires 0 <= i < |gs| => gs[i].key)
  }

  lemma NotAfterTotal(g: Group, h: Group)
    ensures NotAfter(g, h) || NotAfter(h, g)
  {
    CompareFlip(g.key.signature, h.key.signature);
  }

  lemma NotAfterTransitive(g: Group, h: Group, k: Group)
    requires NotAfter(g, h) && NotAfter(h, k)
    ensures NotAfter(g, k)
  {
    if g.count == h.count == k.count {
      CompareTransitive(g.key.signature, h.key.signature, k.key.signature);
    }
  }

  /** Placing one group; sort.Slice leaves the order of equals open, and so does the contract. */
  method Place(g: Group, gs: seq<Group>) returns (r: seq<Group>)
    requires Ordered(gs)
    ensures Ordered(r) && multiset(r) == multiset(gs) + multiset{g}
    ensures multiset(GroupKeys(r)) == multiset(GroupKeys(gs)) + multiset{g.key}
  {
    var i := 0;
    while i < |gs| && NotAfter(gs[i], g)
      invariant 0 <= i <= |gs| && forall j :: 0 <= j < i ==> NotAfter(gs[j], g)
    {
      i := i + 1;
    }
    r := gs[..i] + [g] + gs[i..];
    PlacedOnce(g, gs, i);
    PlacedInOrder(g, gs, i);
  }

  lemma PlacedOnce(g: Group, gs: seq<Group>, i: nat)
    requires i <= |gs|
    ensures multiset(gs[..i] + [g] + gs[i..]) == multiset(gs) + multiset{g}
    ensures multiset(GroupKeys(gs[..i] + [g] + gs[i..])) == multiset(GroupKeys(gs)) + multiset{g.key}
  {
    assert gs == gs[..i] + gs[i..];
    var ks := GroupKeys(gs);
    assert ks == ks[..i] + ks[i..];
    assert GroupKeys(gs[..i] + [g] + gs[i..]) == ks[..i] + [g.key] + ks[i..];
  }

  lemma PlacedInOrder(g: Group, gs: seq<Group>, i: nat)
    requires Ordered(gs) && i <= |gs| && (forall j :: 0 <= j < i ==> NotAfter(gs[j], g))
    requires i < |gs| ==> !NotAfter(gs[i], g)
    ensures Ordered(gs[..i] + [g] + gs[i..])
  {
    forall j | i <= j < |gs| ensures NotAfter(g, gs[j]) {
      NotAfterTotal(g, gs[i]);
      if i < j {
        NotAfterTransitive(g, gs[i], gs[j]);
      }
    }
  }

  // --- The grouping loop -----------------------------------------------------------------------------

  method Analyze(t: TextEnv, msgs: seq<Message>, p: Option<Policy>, assessor: Assessor?)
    returns (out: seq<Group>, ghost verdicts: seq<Classified>)
    modifies ReprOf(assessor)
    ensures (verdicts, MemoOf(assessor)) == Judge(t, SettingsOf(assessor), p, msgs, old(MemoOf(assessor)))
    ensures msgs == [] ==> out == []
    ensures msgs != [] ==> IsAnalysis(t, msgs, verdicts, out)
  {
    if |msgs| == 0 {
      return [], [];
    }
    var groups: map<GroupKey, Acc>;
    groups, verdicts := GroupAll(t, msgs, p, assessor);
    out := Collect(t, msgs, verdicts, groups, |msgs|);
  }

  /** One group per key, in any order of the keys. */
  method Collect(t: TextEnv, ghost msgs: seq<Message>, ghost cs: seq<Classified>, groups: map<GroupKey, Acc>,
                 total: nat)
    returns (out: seq<Group>)
    requires IsGrouping(t, msgs, cs, groups) && total == |msgs| > 0
    ensures IsAnalysis(t, msgs, cs, out)
  {
    out := [];
    var rest := groups.Keys;
    while rest != {}
      invariant rest <= groups.Keys
      invariant Ordered(out) && AreGroups(t, msgs, cs, out)
      invariant multiset(GroupKeys(out)) == multiset(groups.Keys - rest)
      decreases |rest|
    {
      var k :| k in rest;
      var g := MakeGroup(t, msgs, cs, k, groups[k], total);
      ghost var before := out;
      out := Place(g, out);
      PlacedAreGroups(t, msgs, cs, before, g, out);
      OneMoreKey(groups.Keys, rest, k);
      rest := rest - {k};
    }
    assert groups.Keys - rest == groups.Keys;
  }

  ghost predicate AreGroups(t: TextEnv, msgs: seq<Message>, cs: seq<Classified>, gs: seq<Group>)
    requires |msgs| == |cs| && |msgs| > 0
  {
    forall g :: g in gs ==> IsGroup(t, msgs, cs, g)
  }

  method MakeGroup(t: TextEnv, ghost msgs: seq<Message>, ghost cs: seq<Classified>, k: GroupKey, acc: Acc, total: nat)
    returns (g: Group)
    requires |msgs| == |cs| == total && total > 0
    requires k in KeysOf(t, msgs) && acc == AccOf(t, msgs, cs, k)
    ensures IsGroup(t, msgs, cs, g) && g.key == k
  {
    BreakdownSumsToCount(t, msgs, cs, k);
    var recommendation, confidence := Majority(acc.counts, acc.confidence);
    g := Group(k, t.groupId(k.signature), t.caption(k.signature), acc.ids, |acc.ids|,
               |acc.ids| as real / total as real * 100.0,
               recommendation, confidence, acc.counts, acc.jevDecided, acc.first, acc.last, acc.shape);
  }

  lemma PlacedAreGroups(t: TextEnv, msgs: seq<Message>, cs: seq<Classified>, before: seq<Group>, g: Group,
                        out: seq<Group>)
    requires |msgs| == |cs| && |msgs| > 0
    requires AreGroups(t, msgs, cs, before) && IsGroup(t, msgs, cs, g)
    requires multiset(out) == multiset(before) + multiset{g}
    ensures AreGroups(t, msgs, cs, out)
  {
    forall h | h in out ensures IsGroup(t, msgs, cs, h) {
      assert h in multiset(out);
      assert h == g || h in multiset(before);
    }
  }

  lemma OneMoreKey(keys: set<GroupKey>, rest: set<GroupKey>, k: GroupKey)
    requires k in rest && rest <= keys
    ensures multiset(keys - (rest - {k})) == multiset(keys - rest) + multiset{k}
  {
    assert keys - (rest - {k}) == (keys - rest) + {k};
  }

  /** The groups of an analysis: each is the group of its key, every key has exactly one, largest
      first. */
  ghost predicate IsAnalysis(t: TextEnv, msgs: seq<Message>, cs: seq<Classified>, out: seq<Group>)
    requires |msgs| == |cs| && |msgs| > 0
  {
    && Ordered(out)
    && AreGroups(t, msgs, cs, out)
    && multiset(GroupKeys(out)) == multiset(KeysOf(t, msgs))
  }

  method GroupAll(t: TextEnv, msgs: seq<Message>, p: Option<Policy>, assessor: Assessor?)
    returns (groups: map<GroupKey, Acc>, ghost verdicts: seq<Classified>)
    modifies ReprOf(assessor)
    ensures (verdicts, MemoOf(assessor)) == Judge(t, SettingsOf(assessor), p, msgs, old(MemoOf(assessor)))
    ensures IsGrouping(t, msgs, verdicts, groups)
  {
    groups, verdicts := map[], [];
    ghost var a, memo := SettingsOf(assessor), MemoOf(assessor);
    for i := 0 to |msgs|
      invariant Grouped(t, a, p, msgs[..i], memo, verdicts, MemoOf(assessor), groups)
    {
      ghost var before := MemoOf(assessor);
      var c := JudgeOne(t, assessor, p, msgs[i]);
      OneMoreGrouped(t, a, p, msgs, i, memo, verdicts, before, groups, c, MemoOf(assessor));
      groups := Add(t, groups, msgs[i], c);
      verdicts := verdicts + [c];
    }
    assert msgs[..|msgs|] == msgs;
  }

  /** One message goes to the accumulator of its key, made on first use. */
  function Add(t: TextEnv, groups: map<GroupKey, Acc>, m: Message, c: Classified): map<GroupKey, Acc> {
    var k := KeyOf(t, m);
    groups[k := Accumulate(t, if k in groups then groups[k] else EMPTY_ACC, m, c)]
  }

  /** Verdicts, memo and accumulators after some messages. */
  ghost predicate Grouped(t: TextEnv, a: Option<Settings>, p: Option<Policy>, msgs: seq<Message>, start: Memo,
                          cs: seq<Classified>, memo: Memo, groups: map<GroupKey, Acc>)
  {
    (cs, memo) == Judge(t, a, p, msgs, start) && IsGrouping(t, msgs, cs, groups)
  }

  lemma OneMoreGrouped(t: TextEnv, a: Option<Settings>, p: Option<Policy>, msgs: seq<Message>, i: nat, start: Memo,
                       cs: seq<Classified>, memo: Memo, groups: map<GroupKey, Acc>, c: Classified, after: Memo)
    requires i < |msgs| && Grouped(t, a, p, msgs[..i], start, cs, memo, groups)
    requires JudgedAs(t, a, p, msgs[i], memo, c, after)
    ensures Grouped(t, a, p, msgs[..i + 1], start, cs + [c], after, Add(t, groups, msgs[i], c))
  {
    assert msgs[..i + 1] == msgs[..i] + [msgs[i]];
    JudgeOneMore(t, a, p, msgs[..i], msgs[i], start, c, after);
    GroupingSnoc(t, msgs[..i], cs, groups, msgs[i], c);
  }

  /** The map of accumulators after some messages. */
  ghost predicate IsGrouping(t: TextEnv, msgs: seq<Message>, cs: seq<Classified>, groups: map<GroupKey, Acc>) {
    && |msgs| == |cs|
    && groups.Keys == KeysOf(t, msgs)
    && forall k :: k in groups ==> groups[k] == AccOf(t, msgs, cs, k)
  }

  lemma GroupingSnoc(t: TextEnv, msgs: seq<Message>, cs: seq<Classified>, groups: map<GroupKey, Acc>, m: Message,
                     c: Classified)
    requires IsGrouping(t, msgs, cs, groups)
    ensures IsGrouping(t, msgs + [m], cs + [c], Add(t, groups, m, c))
  {
    var k := KeyOf(t, m);
    if k !in groups {
      NoMessagesNoAcc(t, msgs, cs, k);
    }
    GrowKeys(t, msgs, m);
    var grown := Add(t, groups, m, c);
    forall x | x in grown ensures grown[x] == AccOf(t, msgs + [m], cs + [c], x) {
      GrowAcc(t, msgs, cs, m, c, x);
    }
  }

  lemma {:induction false} NoMessagesNoAcc(t: TextEnv, msgs: seq<Message>, cs: seq<Classified>, k: GroupKey)
    requires |msgs| == |cs| && k !in KeysOf(t, msgs)
    ensures AccOf(t, msgs, cs, k) == EMPTY_ACC
  {
    if msgs != [] {
      var n := |msgs| - 1;
      assert msgs[n] in msgs && forall m :: m in msgs[..n] ==> m in msgs;
      NoMessagesNoAcc(t, msgs[..n], cs[..n], k);
    }
  }

  lemma GrowKeys(t: TextEnv, msgs: seq<Message>, m: Message)
    ensures KeysOf(t, msgs + [m]) == KeysOf(t, msgs) + {KeyOf(t, m)}
  {
    assert forall x :: x in msgs + [m] <==> x in msgs || x == m;
  }

  lemma GrowAcc(t: TextEnv, msgs: seq<Message>, cs: seq<Classified>, m: Message, c: Classified, k: GroupKey)
    requires |msgs| == |cs|
    ensures AccOf(t, msgs + [m], cs + [c], k)
         == if KeyOf(t, m) == k then Accumulate(t, AccOf(t, msgs, cs, k), m, c) else AccOf(t, msgs, cs, k)
  {
    assert (msgs + [m])[..|msgs|] == msgs && (cs + [c])[..|cs|] == cs;
  }

  // --- The partition -----------------------------------------------------------------------------------

  /** All IDs of some groups' keys together. */
  function Union(t: TextEnv, msgs: seq<Message>, cs: seq<Classified>, ks: seq<GroupKey>): multiset<string>
    requires |msgs| == |cs|
  {
    if ks == [] then multiset{}
    else Union(t, msgs, cs, ks[..|ks| - 1]) + multiset(AccOf(t, msgs, cs, ks[|ks| - 1]).ids)
  }

  function KeyAmong(t: TextEnv, ks: seq<GroupKey>): Message -> bool {
    m => KeyOf(t, m) in ks
  }

  lemma GrowIds(t: TextEnv, msgs: seq<Message>, cs: seq<Classified>, m: Message, c: Classified, k: GroupKey)
    requires |msgs| == |cs|
    ensures multiset(AccOf(t, msgs + [m], cs + [c], k).ids)
         == multiset(AccOf(t, msgs, cs, k).ids) + If(KeyOf(t, m) == k, m.id)
  {
    GrowAcc(t, msgs, cs, m, c, k);
  }

  lemma {:induction false} UnionSnoc(t: TextEnv, msgs: seq<Message>, cs: seq<Classified>, m: Message, c: Classified,
                                     ks: seq<GroupKey>)
    requires |msgs| == |cs| && Distinct(ks)
    ensures Union(t, msgs + [m], cs + [c], ks) == Union(t, msgs, cs, ks) + If(KeyOf(t, m) in ks, m.id)
  {
    if ks != [] {
      var n := |ks| - 1;
      UnionSnoc(t, msgs, cs, m, c, ks[..n]);
      GrowIds(t, msgs, cs, m, c, ks[n]);
      KeyInLast(ks, KeyOf(t, m));
      AtMostOnce(Union(t, msgs, cs, ks[..n]), multiset(AccOf(t, msgs, cs, ks[n]).ids), m.id,
                 KeyOf(t, m) in ks[..n], KeyOf(t, m) == ks[n]);
    }
  }

  function If(there: bool, id: string): multiset<string> {
    if there then multiset{id} else multiset{}
  }

  lemma KeyInLast(ks: seq<GroupKey>, k: GroupKey)
    requires ks != [] && Distinct(ks)
    ensures var n := |ks| - 1;
            (k in ks <==> k in ks[..n] || k == ks[n]) && !(k in ks[..n] && k == ks[n])
  {
    assert ks == ks[..|ks| - 1] + [ks[|ks| - 1]];
  }

  lemma AtMostOnce(u: multiset<string>, v: multiset<string>, id: string, first: bool, second: bool)
    requires !(first && second)
    ensures (u + If(first, id)) + (v + If(second, id)) == (u + v) + If(first || second, id)
  {
  }

  lemma {:induction false} UnionOfNothing(t: TextEnv, ks: seq<GroupKey>)
    ensures Union(t, [], [], ks) == multiset{}
  {
    if ks != [] {
      UnionOfNothing(t, ks[..|ks| - 1]);
    }
  }

  /** The groups with the given keys hold exactly the messages that have one of those keys. */
  lemma {:induction false} UnionIsTheFilter(t: TextEnv, msgs: seq<Message>, cs: seq<Classified>, ks: seq<GroupKey>)
    requires |msgs| == |cs| && Distinct(ks)
    ensures Union(t, msgs, cs, ks) == multiset(Ids(Filter(msgs, KeyAmong(t, ks))))
  {
    if msgs == [] {
      UnionOfNothing(t, ks);
    } else {
      var n := |msgs| - 1;
      UnionIsTheFilter(t, msgs[..n], cs[..n], ks);
      UnionSnoc(t, msgs[..n], cs[..n], msgs[n], cs[n], ks);
      assert msgs == msgs[..n] + [msgs[n]] && cs == cs[..n] + [cs[n]];
      IdsFilterLast(msgs, KeyAmong(t, ks));
    }
  }

  function AllIds(gs: seq<Group>): multiset<string> {
    if gs == [] then multiset{} else AllIds(gs[..|gs| - 1]) + multiset(gs[|gs| - 1].ids)
  }

  function TotalCount(gs: seq<Group>): nat {
    if gs == [] then 0 else TotalCount(gs[..|gs| - 1]) + gs[|gs| - 1].count
  }

  lemma {:induction false} AllIdsIsUnion(t: TextEnv, msgs: seq<Message>, cs: seq<Classified>, gs: seq<Group>)
    requires |msgs| == |cs| && forall g :: g in gs ==> g.ids == AccOf(t, msgs, cs, g.key).ids && g.count == |g.ids|
    ensures AllIds(gs) == Union(t, msgs, cs, GroupKeys(gs)) && TotalCount(gs) == |AllIds(gs)|
  {
    if gs != [] {
      var n := |gs| - 1;
      assert gs[n] in gs && forall g :: g in gs[..n] ==> g in gs;
      AllIdsIsUnion(t, msgs, cs, gs[..n]);
      assert GroupKeys(gs)[..n] == GroupKeys(gs[..n]);
    }
  }

  lemma DistinctFromMultiset(ks: seq<GroupKey>, s: set<GroupKey>)
    requires multiset(ks) == multiset(s)
    ensures Distinct(ks) && forall k :: k in ks <==> k in s
  {
    forall k ensures k in ks <==> k in s { assert k in ks <==> k in multiset(ks); }
    forall i, j | 0 <= i < j < |ks| ensures ks[i] != ks[j] {
      TwiceInMultiset(ks, i, j);
    }
  }

  lemma TwiceInMultiset(ks: seq<GroupKey>, i: nat, j: nat)
    requires i < j < |ks|
    ensures ks[i] == ks[j] ==> multiset(ks)[ks[i]] >= 2
  {
    assert ks == ks[..j] + ks[j..];
    assert ks[i] in multiset(ks[..j]) && ks[j] in multiset(ks[j..]);
  }

  lemma {:induction false} FilterBy<T>(s: seq<T>, p: T -> bool, q: T -> bool)
    requires forall x :: x in s ==> p(x) == q(x)
    ensures Filter(s, p) == Filter(s, q)
  {
    if s != [] {
      assert s[|s| - 1] in s && forall x :: x in s[..|s| - 1] ==> x in s;
      FilterBy(s[..|s| - 1], p, q);
    }
  }

  /** Grouping is a partition: the groups' IDs together are the input's IDs, and counts add up. */
  lemma GroupsPartitionTheInput(t: TextEnv, msgs: seq<Message>, cs: seq<Classified>, out: seq<Group>)
    requires |msgs| == |cs| && |msgs| > 0 && IsAnalysis(t, msgs, cs, out)
    ensures AllIds(out) == multiset(Ids(msgs)) && TotalCount(out) == |msgs|
  {
    var ks := GroupKeys(out);
    DistinctFromMultiset(ks, KeysOf(t, msgs));
    AllIdsIsUnion(t, msgs, cs, out);
    UnionIsTheFilter(t, msgs, cs, ks);
    FilterAll(msgs, KeyAmong(t, ks));
    assert |multiset(Ids(msgs))| == |msgs|;
  }

  // --- Agreement with the planner ----------------------------------------------------------------------

  function HasId(id: string): Group -> bool {
    (g: Group) => g.id == id
  }

  lemma {:induction false} FilteredKeys(gs: seq<Group>, id: string)
    requires Distinct(GroupKeys(gs))
    ensures Distinct(GroupKeys(Filter(gs, HasId(id))))
    ensures forall k :: k in GroupKeys(Filter(gs, HasId(id))) <==> exists g :: g in gs && g.id == id && g.key == k
  {
    FilterSize(gs, HasId(id));
    var f := Filter(gs, HasId(id));
    forall k ensures k in GroupKeys(f) <==> exists g :: g in gs && g.id == id && g.key == k {
      if k in GroupKeys(f) {
        var i :| 0 <= i < |f| && GroupKeys(f)[i] == k;
        assert f[i] in gs && f[i].id == id && f[i].key == k;
      }
      if g :| g in gs && g.id == id && g.key == k {
        assert g in f;
        var i :| 0 <= i < |f| && f[i] == g;
        assert GroupKeys(f)[i] == k;
      }
    }
    FilteredKeysDistinct(gs, id);
  }

  lemma {:induction false} FilteredKeysDistinct(gs: seq<Group>, id: string)
    requires Distinct(GroupKeys(gs))
    ensures Distinct(GroupKeys(Filter(gs, HasId(id))))
  {
    if gs != [] {
      var n := |gs| - 1;
      assert GroupKeys(gs)[..n] == GroupKeys(gs[..n]);
      FilteredKeysDistinct(gs[..n], id);
      FilterSize(gs[..n], HasId(id));
      var f := Filter(gs[..n], HasId(id));
      forall i | 0 <= i < |f| ensures f[i].key != gs[n].key {
        assert f[i] in gs[..n];
        var j :| 0 <= j < n && gs[j] == f[i];
        assert GroupKeys(gs)[j] != GroupKeys(gs)[n];
      }
    }
  }

  /** The messages a plan for a group ID considers are those of all groups with that ID. */
  lemma PlanConsidersTheGroups(t: TextEnv, msgs: seq<Message>, cs: seq<Classified>, out: seq<Group>, opts: PlanOptions)
    requires |msgs| == |cs| && |msgs| > 0 && IsAnalysis(t, msgs, cs, out) && opts.groupId != ""
    ensures multiset(Ids(Considered(t, opts, msgs))) == AllIds(Filter(out, HasId(opts.groupId)))
  {
    var gs := Filter(out, HasId(opts.groupId));
    DistinctFromMultiset(GroupKeys(out), KeysOf(t, msgs));
    FilteredKeys(out, opts.groupId);
    FilterSize(out, HasId(opts.groupId));
    AllIdsIsUnion(t, msgs, cs, gs);
    UnionIsTheFilter(t, msgs, cs, GroupKeys(gs));
    forall m | m in msgs ensures KeyAmong(t, GroupKeys(gs))(m) == InGroup(t, opts.groupId)(m) {
      var k := KeyOf(t, m);
      assert k in KeysOf(t, msgs) && k in GroupKeys(out);
      var i :| 0 <= i < |out| && GroupKeys(out)[i] == k;
      assert out[i] in out && out[i].id == t.groupId(k.signature);
      if k in GroupKeys(gs) {
        var g :| g in out && g.id == opts.groupId && g.key == k;
        assert g.id == t.groupId(k.signature);
      }
    }
    FilterBy(msgs, KeyAmong(t, GroupKeys(gs)), InGroup(t, opts.groupId));
  }

  /** Without Jev, a plan for group g selects exactly the messages of all groups with g's ID that
      the rules and the policy do not mark DO_NOT_REPLAY, and excludes exactly the others. */
  lemma {:induction false} PlanAgreesWithGroups(t: TextEnv, msgs: seq<Message>, p: Option<Policy>, out: seq<Group>,
                                                opts: PlanOptions)
    requires |msgs| > 0 && IsAnalysis(t, msgs, Judge(t, None, p, msgs, UNCACHED).0, out)
    requires opts.groupId != "" && !opts.includeDoNotReplay
    ensures var considered := Considered(t, opts, msgs);
            var verdicts := Judge(t, None, p, considered, UNCACHED).0;
            var selected := Selected(false, considered, verdicts);
            && selected == Filter(considered, Replays(t, p))
            && multiset(Ids(selected)) + multiset(ExcludedIds(LeftOut(t, false, considered, verdicts)))
               == AllIds(Filter(out, HasId(opts.groupId)))
  {
    var considered := Considered(t, opts, msgs);
    SelectionByRules(t, p, considered, UNCACHED);
    SelectionPartitions(t, false, considered, Judge(t, None, p, considered, UNCACHED).0);
    PlanConsidersTheGroups(t, msgs, Judge(t, None, p, msgs, UNCACHED).0, out, opts);
  }
}
