// internal/recovery/planner.go: which messages a plan selects, which it leaves out, and where it
// sends them.
module Planner {
  import opened Seqs
  import opened Text
  import opened Mapper
  import opened Validator
  import opened Triage
  import opened Jev

  // --- Classifying a list, with or without Jev -----------------------------------------------------

  function ByRules(t: TextEnv, p: Option<Policy>): Message -> Classified {
    m => ClassifyWithPolicy(t, m, p)
  }

  /** The verdicts for a list of messages, and the memo after it. */
  function Judge(t: TextEnv, a: Option<Settings>, p: Option<Policy>, msgs: seq<Message>,
                 s: Memo): (r: (seq<Classified>, Memo))
    ensures |r.0| == |msgs|
  {
    if a.Some? && a.value.client.Some? then AssessAll(t, a.value, p, msgs, s)
    else (Map(msgs, ByRules(t, p)), s)
  }

  lemma JudgeSnoc(t: TextEnv, a: Option<Settings>, p: Option<Policy>, msgs: seq<Message>, m: Message, s: Memo)
    ensures var (cs, s1) := Judge(t, a, p, msgs, s);
            Judge(t, a, p, msgs + [m], s) ==
              if a.Some? && a.value.client.Some?
              then (cs + [Assess(t, a.value, p, m, s1).0], Assess(t, a.value, p, m, s1).1)
              else (cs + [ClassifyWithPolicy(t, m, p)], s)
  {
    assert (msgs + [m])[..|msgs|] == msgs;
    assert Map(msgs + [m], ByRules(t, p)) == Map(msgs, ByRules(t, p)) + [ClassifyWithPolicy(t, m, p)];
  }

  function SettingsOf(assessor: Assessor?): Option<Settings> {
    if assessor == null then None else Some(assessor.settings)
  }

  function MemoOf(assessor: Assessor?): Memo
    reads if assessor == null then {} else {assessor} + assessor.Repr()
  {
    if assessor == null then UNCACHED else assessor.State()
  }

  function ReprOf(assessor: Assessor?): set<object> {
    if assessor == null then {} else assessor.Repr()
  }

  /** One verdict, with the memo before and after it: Jev's chain when it is enabled, the rules and
      the policy otherwise. */
  predicate JudgedAs(t: TextEnv, a: Option<Settings>, p: Option<Policy>, m: Message, before: Memo, c: Classified,
                     after: Memo) {
    if a.Some? && a.value.client.Some? then (c, after) == Assess(t, a.value, p, m, before)
    else c == ClassifyWithPolicy(t, m, p) && after == before
  }

  lemma JudgeOneMore(t: TextEnv, a: Option<Settings>, p: Option<Policy>, msgs: seq<Message>, m: Message, s: Memo,
                     c: Classified, after: Memo)
    requires JudgedAs(t, a, p, m, Judge(t, a, p, msgs, s).1, c, after)
    ensures Judge(t, a, p, msgs + [m], s) == (Judge(t, a, p, msgs, s).0 + [c], after)
  {
    JudgeSnoc(t, a, p, msgs, m, s);
  }

  method JudgeOne(t: TextEnv, assessor: Assessor?, p: Option<Policy>, m: Message) returns (c: Classified)
    modifies ReprOf(assessor)
    ensures JudgedAs(t, SettingsOf(assessor), p, m, old(MemoOf(assessor)), c, MemoOf(assessor))
  {
    if assessor != null && assessor.settings.client.Some? {
      c := assessor.Classify(t, m, p);
    } else {
      c := ClassifyWithPolicy(t, m, p);
    }
  }

  // --- Selection -------------------------------------------------------------------------------------

  datatype PlanOptions = PlanOptions(queue: string, groupId: string, destination: string,
                                     batchSize: int, concurrency: int, includeDoNotReplay: bool)

  predicate IsInGroup(t: TextEnv, groupId: string, m: Message) {
    groupId == "" || t.groupId(t.normalize(m.failureReason)) == groupId
  }

  function InGroup(t: TextEnv, groupId: string): Message -> bool {
    m => IsInGroup(t, groupId, m)
  }

  function Considered(t: TextEnv, opts: PlanOptions, msgs: seq<Message>): seq<Message> {
    Filter(msgs, InGroup(t, opts.groupId))
  }

  predicate Kept(everything: bool, c: Classified) {
    everything || c.classification != DoNotReplay
  }

  function Selected(everything: bool, msgs: seq<Message>, cs: seq<Classified>): seq<Message>
    requires |msgs| == |cs|
  {
    if msgs == [] then []
    else
      var n := |msgs| - 1;
      Selected(everything, msgs[..n], cs[..n]) + (if Kept(everything, cs[n]) then [msgs[n]] else [])
  }

  function LeftOut(t: TextEnv, everything: bool, msgs: seq<Message>, cs: seq<Classified>): seq<Excluded>
    requires |msgs| == |cs|
  {
    if msgs == [] then []
    else
      var n := |msgs| - 1;
      LeftOut(t, everything, msgs[..n], cs[..n])
        + (if Kept(everything, cs[n]) then [] else [Excluded(msgs[n].id, Describe(t, cs[n].why))])
  }

  function Ids(msgs: seq<Message>): (ids: seq<string>)
    ensures |ids| == |msgs| && forall i :: 0 <= i < |msgs| ==> ids[i] == msgs[i].id
  {
    seq(|msgs|, i requires 0 <= i < |msgs| => msgs[i].id)
  }

  function ExcludedIds(xs: seq<Excluded>): (ids: seq<string>)
    ensures |ids| == |xs| && forall i :: 0 <= i < |xs| ==> ids[i] == xs[i].messageId
  {
    seq(|xs|, i requires 0 <= i < |xs| => xs[i].messageId)
  }

  /** Selected and excluded partition the considered messages, for every verdict list: whatever
      the policy and whatever Jev replied. */
  lemma {:induction false} SelectionPartitions(t: TextEnv, everything: bool, msgs: seq<Message>, cs: seq<Classified>)
    requires |msgs| == |cs|
    ensures multiset(Ids(Selected(everything, msgs, cs)))
              + multiset(ExcludedIds(LeftOut(t, everything, msgs, cs))) == multiset(Ids(msgs))
  {
    if msgs != [] {
      var n := |msgs| - 1;
      SelectionPartitions(t, everything, msgs[..n], cs[..n]);
      assert msgs == msgs[..n] + [msgs[n]];
      IdsSnoc(msgs[..n], msgs[n]);
      var selected, left := Selected(everything, msgs[..n], cs[..n]), LeftOut(t, everything, msgs[..n], cs[..n]);
      if Kept(everything, cs[n]) {
        IdsSnoc(selected, msgs[n]);
        assert left + [] == left;
      } else {
        ExcludedIdsSnoc(left, Excluded(msgs[n].id, Describe(t, cs[n].why)));
        assert selected + [] == selected;
      }
    }
  }

  lemma IdsSnoc(msgs: seq<Message>, m: Message)
    ensures Ids(msgs + [m]) == Ids(msgs) + [m.id]
  {
  }

  lemma ExcludedIdsSnoc(xs: seq<Excluded>, x: Excluded)
    ensures ExcludedIds(xs + [x]) == ExcludedIds(xs) + [x.messageId]
  {
  }

  /** By default no message marked as a duplicate is selected. */
  lemma {:induction false} MarkedDuplicatesStayOut(t: TextEnv, a: Option<Settings>, p: Option<Policy>,
                                                   msgs: seq<Message>, s: Memo)
    ensures forall m :: m in Selected(false, msgs, Judge(t, a, p, msgs, s).0) ==> DuplicateOf(m) == ""
  {
    if msgs != [] {
      var n := |msgs| - 1;
      MarkedDuplicatesStayOut(t, a, p, msgs[..n], s);
      JudgeSnoc(t, a, p, msgs[..n], msgs[n], s);
      assert msgs == msgs[..n] + [msgs[n]];
      var (cs, s1) := Judge(t, a, p, msgs[..n], s);
      var all := Judge(t, a, p, msgs, s).0;
      assert all[..n] == cs;
      if a.Some? && a.value.client.Some? {
        JevNeverOverrides(t, a.value, p, msgs[n], s1);
      }
    }
  }

  /** Without Jev, selection is a filter by the rules and the policy. */
  lemma {:induction false} SelectionByRules(t: TextEnv, p: Option<Policy>, msgs: seq<Message>, s: Memo)
    ensures Selected(false, msgs, Judge(t, None, p, msgs, s).0) == Filter(msgs, Replays(t, p))
  {
    if msgs != [] {
      var n := |msgs| - 1;
      SelectionByRules(t, p, msgs[..n], s);
      assert Judge(t, None, p, msgs, s).0[..n] == Judge(t, None, p, msgs[..n], s).0;
    }
  }

  // --- Precedence, for whole lists -----------------------------------------------------------------

  /** Messages whose verdict Jev has no say in: marked as duplicates, matched by the policy, or, in
      OnlyInvestigate mode, not INVESTIGATE by the rules. */
  function Settled(t: TextEnv, a: Option<Settings>, p: Option<Policy>): Message -> bool {
    m => DuplicateOf(m) != "" || PolicyDecides(t, m, p)
         || (a.Some? && a.value.onlyInvestigate && ClassifyWithPolicy(t, m, p).classification != Investigate)
  }

  /** For every list and every sequence of Jev replies, a settled message gets the verdict of the
      rules and the policy: DO_NOT_REPLAY for a marked duplicate, the rule's action for a match. */
  lemma {:induction false} SettledKeepTheirVerdict(t: TextEnv, a: Option<Settings>, p: Option<Policy>,
                                                   msgs: seq<Message>, s: Memo, i: nat)
    requires i < |msgs| && Settled(t, a, p)(msgs[i])
    ensures var c := Judge(t, a, p, msgs, s).0[i];
            && c.classification == ClassifyWithPolicy(t, msgs[i], p).classification && c.source != FromJev
            && (DuplicateOf(msgs[i]) != "" ==> c.classification == DoNotReplay)
            && (PolicyDecides(t, msgs[i], p) ==>
                    c.classification == Forced(FirstMatch(t, p.value, msgs[i]).value.action))
  {
    var n := |msgs| - 1;
    assert msgs == msgs[..n] + [msgs[n]];
    JudgeSnoc(t, a, p, msgs[..n], msgs[n], s);
    if i < n {
      SettledKeepTheirVerdict(t, a, p, msgs[..n], s, i);
    } else if a.Some? {
      SettledOne(t, a.value, p, msgs[n], Judge(t, a, p, msgs[..n], s).1);
    }
  }

  lemma SettledOne(t: TextEnv, a: Settings, p: Option<Policy>, m: Message, s: Memo)
    requires Settled(t, Some(a), p)(m)
    ensures var c := Assess(t, a, p, m, s).0;
            && c.classification == ClassifyWithPolicy(t, m, p).classification && c.source != FromJev
            && (DuplicateOf(m) != "" ==> c.classification == DoNotReplay)
            && (PolicyDecides(t, m, p) ==> c.classification == Forced(FirstMatch(t, p.value, m).value.action))
  {
    JevNeverOverrides(t, a, p, m, s);
    if a.onlyInvestigate {
      OnlyInvestigateIsKept(t, a, p, m, s);
    }
  }

  /** Among settled messages a plan selects exactly those that the rules and the policy select,
      whatever Jev replies. */
  lemma {:induction false} SettledSelection(t: TextEnv, a: Option<Settings>, p: Option<Policy>, msgs: seq<Message>,
                                            s: Memo)
    ensures Filter(Selected(false, msgs, Judge(t, a, p, msgs, s).0), Settled(t, a, p))
         == Filter(Filter(msgs, Replays(t, p)), Settled(t, a, p))
  {
    var cs := Judge(t, a, p, msgs, s).0;
    forall i | 0 <= i < |msgs| && Settled(t, a, p)(msgs[i]) ensures Kept(false, cs[i]) <==> Replays(t, p)(msgs[i]) {
      SettledKeepTheirVerdict(t, a, p, msgs, s, i);
    }
    SelectedAmong(msgs, cs, Replays(t, p), Settled(t, a, p));
  }

  /** Where keeping a message is decided by `q` for those with `p`, so is the selection. */
  lemma {:induction false} SelectedAmong(msgs: seq<Message>, cs: seq<Classified>, q: Message -> bool,
                                         p: Message -> bool)
    requires |msgs| == |cs| && forall i :: 0 <= i < |msgs| && p(msgs[i]) ==> (Kept(false, cs[i]) <==> q(msgs[i]))
    ensures Filter(Selected(false, msgs, cs), p) == Filter(Filter(msgs, q), p)
  {
    if msgs != [] {
      var n := |msgs| - 1;
      SelectedAmong(msgs[..n], cs[..n], q, p);
      FilterMaybe(Selected(false, msgs[..n], cs[..n]), Kept(false, cs[n]), msgs[n], p);
      FilterMaybe(Filter(msgs[..n], q), q(msgs[n]), msgs[n], p);
    }
  }

  lemma FilterMaybe<T>(s: seq<T>, there: bool, x: T, p: T -> bool)
    ensures Filter(s + (if there then [x] else []), p) == Filter(s, p) + (if there && p(x) then [x] else [])
  {
    if there {
      assert (s + [x])[..|s|] == s;
    } else {
      assert s + [] == s;
    }
  }

  function ReplaysWithJev(t: TextEnv, a: Settings, p: Option<Policy>): Message -> bool {
    m => Assess(t, a, p, m, UNCACHED).0.classification != DoNotReplay
  }

  /** With a steady client and no cap, cached or not, a plan's selection is a filter: whether a
      message is selected depends on no other message. */
  lemma {:induction false} SteadySelection(t: TextEnv, a: Settings, p: Option<Policy>, msgs: seq<Message>,
                                           g: string -> Response)
    requires Steady(a, g) && a.maxCalls <= 0 && NoCollisions(a, msgs)
    ensures Selected(false, msgs, Judge(t, Some(a), p, msgs, FRESH).0) == Filter(msgs, ReplaysWithJev(t, a, p))
    ensures Selected(false, msgs, Judge(t, Some(a), p, msgs, UNCACHED).0) == Filter(msgs, ReplaysWithJev(t, a, p))
  {
    MemoAgrees(t, a, p, msgs, g);
    var cs := AssessAll(t, a, p, msgs, UNCACHED).0;
    forall i | 0 <= i < |msgs| ensures cs[i] == Assess(t, a, p, msgs[i], UNCACHED).0 {
      SteadyVerdicts(t, a, p, msgs, g, i);
    }
    SelectedByEach(msgs, cs, ReplaysWithJev(t, a, p));
  }

  lemma {:induction false} SelectedByEach(msgs: seq<Message>, cs: seq<Classified>, p: Message -> bool)
    requires |msgs| == |cs| && forall i :: 0 <= i < |msgs| ==> (Kept(false, cs[i]) <==> p(msgs[i]))
    ensures Selected(false, msgs, cs) == Filter(msgs, p)
  {
    if msgs != [] {
      SelectedByEach(msgs[..|msgs| - 1], cs[..|msgs| - 1], p);
    }
  }

  /** Then no message is selected that Jev, when asked, takes for a duplicate. */
  lemma LikelyDuplicatesStayOut(t: TextEnv, a: Settings, p: Option<Policy>, msgs: seq<Message>, g: string -> Response,
                                m: Message)
    requires Steady(a, g) && a.maxCalls <= 0 && NoCollisions(a, msgs)
    requires m in Selected(false, msgs, Judge(t, Some(a), p, msgs, FRESH).0) && !Settled(t, Some(a), p)(m)
    ensures var r := MapResponse(t, Some(g(a.state(m))), EffectiveThreshold(a.threshold));
            r.Usable? ==> r.verdict.duplicateProb < DUPLICATE_OVERRIDE && r.verdict.classification != DoNotReplay
  {
    SteadySelection(t, a, p, msgs, g);
    FilterSize(msgs, ReplaysWithJev(t, a, p));
    assert ReplaysWithJev(t, a, p)(m);
    AskedVerdict(t, a, p, g, m);
  }

  /** What Jev, when asked, says of a message it would select. */
  lemma AskedVerdict(t: TextEnv, a: Settings, p: Option<Policy>, g: string -> Response, m: Message)
    requires Steady(a, g) && a.maxCalls <= 0 && !Settled(t, Some(a), p)(m)
    requires Assess(t, a, p, m, UNCACHED).0.classification != DoNotReplay
    ensures var r := MapResponse(t, Some(g(a.state(m))), EffectiveThreshold(a.threshold));
            r.Usable? ==> r.verdict.duplicateProb < DUPLICATE_OVERRIDE && r.verdict.classification != DoNotReplay
  {
    NoMemoAgrees(a, g, a.state(m), UNCACHED);
    if MapResponse(t, Some(g(a.state(m))), EffectiveThreshold(a.threshold)).Usable? {
      UsableVerdicts(t, Some(g(a.state(m))), EffectiveThreshold(a.threshold));
    }
  }

  function Replays(t: TextEnv, p: Option<Policy>): Message -> bool {
    m => ClassifyWithPolicy(t, m, p).classification != DoNotReplay
  }

  // --- The plan --------------------------------------------------------------------------------------

  datatype PlanError = NoMessages | NothingSelected | AmbiguousDestination | NoReplayDestination

  datatype Built = Built(plan: Plan) | NotBuilt(error: PlanError)

  function Destinations(msgs: seq<Message>): set<string> {
    set m | m in msgs :: m.destination
  }

  const DEFAULT_BATCH_SIZE := 25
  const DEFAULT_CONCURRENCY := 1

  /** BuildPlan. `planId` stands for the identifier derived from queue, group and time. */
  method BuildPlan(t: TextEnv, msgs: seq<Message>, opts: PlanOptions, p: Option<Policy>, assessor: Assessor?,
                   planId: string)
    returns (r: Built)
    modifies ReprOf(assessor)
    ensures var considered := Considered(t, opts, msgs);
            var verdicts := Judge(t, SettingsOf(assessor), p, considered, old(MemoOf(assessor))).0;
            var selected := Selected(opts.includeDoNotReplay, considered, verdicts);
            && (r == NotBuilt(NoMessages) <==> msgs == [])
            && (r == NotBuilt(NothingSelected) <==> msgs != [] && selected == [])
            && (r == NotBuilt(NoReplayDestination) <==>
                    selected != [] && opts.destination == "" && Destinations(selected) == {""})
            && (r == NotBuilt(AmbiguousDestination) <==>
                    selected != [] && opts.destination == "" && |Destinations(selected)| != 1)
            && (r.Built? ==>
                  && r.plan.messageIds == SortStrings(Ids(selected)) && selected != []
                  && r.plan.excluded == LeftOut(t, opts.includeDoNotReplay, considered, verdicts)
                  && r.plan.destination != ""
                  && (opts.destination != "" ==> r.plan.destination == opts.destination)
                  && (opts.destination == "" ==> Destinations(selected) == {r.plan.destination})
                  && multiset(r.plan.messageIds) + multiset(ExcludedIds(r.plan.excluded)) == multiset(Ids(considered))
                  && (!opts.includeDoNotReplay ==> forall m :: m in selected ==> DuplicateOf(m) == ""))
    ensures r.Built? ==>
              && r.plan.id == planId && r.plan.queue == opts.queue && r.plan.groupId == opts.groupId
              && r.plan.checks == [SchemaValidated, DuplicateChecked, DestinationChecked]
              && r.plan.limits.batchSize == (if opts.batchSize >= 1 then opts.batchSize else 25)
              && r.plan.limits.concurrency == (if opts.concurrency >= 1 then opts.concurrency else 1)
  {
    if |msgs| == 0 {
      return NotBuilt(NoMessages);
    }
    var batchSize := if opts.batchSize <= 0 then DEFAULT_BATCH_SIZE else opts.batchSize;
    var concurrency := if opts.concurrency <= 0 then DEFAULT_CONCURRENCY else opts.concurrency;
    ghost var verdicts;
    var selected, excluded;
    selected, excluded, verdicts := Select(t, msgs, opts, p, assessor);
    if |selected| == 0 {
      return NotBuilt(NothingSelected);
    }
    var dest := opts.destination;
    if dest == "" {
      var destinations := Destinations(selected);
      if |destinations| != 1 {
        return NotBuilt(AmbiguousDestination);
      }
      dest :| dest in destinations;
      OnlyElement(destinations, dest);
    }
    if dest == "" {
      return NotBuilt(NoReplayDestination);
    }
    SelectionPartitions(t, opts.includeDoNotReplay, Considered(t, opts, msgs), verdicts);
    MarkedDuplicatesStayOut(t, SettingsOf(assessor), p, Considered(t, opts, msgs), old(MemoOf(assessor)));
    return Built(Plan(planId, opts.queue, opts.groupId, SortStrings(Ids(selected)), excluded, dest,
                      Limits(batchSize, concurrency), [SchemaValidated, DuplicateChecked, DestinationChecked]));
  }

  lemma OnlyElement(s: set<string>, x: string)
    requires |s| == 1 && x in s
    ensures s == {x}
  {
    assert |s - {x}| == 0;
  }

  /** The selection loop. */
  method Select(t: TextEnv, msgs: seq<Message>, opts: PlanOptions, p: Option<Policy>, assessor: Assessor?)
    returns (selected: seq<Message>, excluded: seq<Excluded>, ghost verdicts: seq<Classified>)
    modifies ReprOf(assessor)
    ensures (verdicts, MemoOf(assessor))
               == Judge(t, SettingsOf(assessor), p, Considered(t, opts, msgs), old(MemoOf(assessor)))
    ensures selected == Selected(opts.includeDoNotReplay, Considered(t, opts, msgs), verdicts)
    ensures excluded == LeftOut(t, opts.includeDoNotReplay, Considered(t, opts, msgs), verdicts)
  {
    selected, excluded, verdicts := [], [], [];
    for i := 0 to |msgs|
      invariant (verdicts, MemoOf(assessor))
                   == Judge(t, SettingsOf(assessor), p, Considered(t, opts, msgs[..i]), old(MemoOf(assessor)))
      invariant selected == Selected(opts.includeDoNotReplay, Considered(t, opts, msgs[..i]), verdicts)
      invariant excluded == LeftOut(t, opts.includeDoNotReplay, Considered(t, opts, msgs[..i]), verdicts)
    {
      ghost var before := Considered(t, opts, msgs[..i]);
      assert msgs[..i + 1][..i] == msgs[..i];
      if !IsInGroup(t, opts.groupId, msgs[i]) {
        assert Considered(t, opts, msgs[..i + 1]) == before;
        continue;
      }
      assert Considered(t, opts, msgs[..i + 1]) == before + [msgs[i]];
      JudgeSnoc(t, SettingsOf(assessor), p, before, msgs[i], old(MemoOf(assessor)));
      var c := JudgeOne(t, assessor, p, msgs[i]);
      SelectSnoc(t, opts.includeDoNotReplay, before, verdicts, msgs[i], c);
      verdicts := verdicts + [c];
      if !opts.includeDoNotReplay && c.classification == DoNotReplay {
        excluded := excluded + [Excluded(msgs[i].id, Describe(t, c.why))];
        continue;
      }
      selected := selected + [msgs[i]];
    }
    assert msgs[..|msgs|] == msgs;
  }

  lemma SelectSnoc(t: TextEnv, everything: bool, msgs: seq<Message>, cs: seq<Classified>, m: Message, c: Classified)
    requires |msgs| == |cs|
    ensures Selected(everything, msgs + [m], cs + [c])
              == Selected(everything, msgs, cs) + (if Kept(everything, c) then [m] else [])
    ensures LeftOut(t, everything, msgs + [m], cs + [c])
         == LeftOut(t, everything, msgs, cs)
           + (if Kept(everything, c) then [] else [Excluded(m.id, Describe(t, c.why))])
  {
    assert (msgs + [m])[..|msgs|] == msgs && (cs + [c])[..|cs|] == cs;
  }
}
