// internal/recovery/jev.go with internal/jev/cache.go and mapper.go: the optional model-backed
// pass, its memo and its call budget.
module Jev {
  import opened Seqs
  import opened Text
  import opened Mapper
  import opened Triage

  datatype AnswerPart = AnswerPart(choice: string, confidence: real, probabilities: map<string, real>, noul: real,
                                   score: real)

  datatype Response = Response(answers: map<string, AnswerPart>, model: string)

  /** What one evaluation call yields: an error, or a response that may be nil. */
  datatype Reply = Error | Answer(response: Option<Response>)

  /** The client as the sequence of its replies: to the n-th call, with this state. */
  type Client = (nat, string) -> Reply

  const DEFAULT_THRESHOLD := 0.70
  const DUPLICATE_OVERRIDE := 0.8

  datatype Verdict = Verdict(classification: Classification, confidence: real, duplicateProb: real,
                             replayRisk: real, model: string)

  datatype Mapped = Malformed | Unusable | Low(verdict: Verdict) | Usable(verdict: Verdict)

  // --- The response mapper -------------------------------------------------------------------------

  function Clamp01(f: real): (r: real)
    ensures 0.0 <= r <= 1.0
    ensures 0.0 <= f <= 1.0 ==> r == f
  {
    if f < 0.0 then 0.0 else if f > 1.0 then 1.0 else f
  }

  ghost predicate IsMaxProb(p: map<string, real>, r: real) {
    && (forall k :: k in p ==> p[k] <= r)
    && r >= 0.0 && (r == 0.0 || exists k :: k in p && p[k] == r)
  }

  /** The largest probability, or 0 if there is none above it. */
  function MaxProb(p: map<string, real>): (r: real)
    ensures IsMaxProb(p, r)
    decreases |p|
  {
    if p == map[] then 0.0
    else
      var k := Least(p.Keys);
      var rest := MaxProb(p - {k});
      assert forall x :: x in p - {k} <==> x in p && x != k;
      if p[k] > rest then p[k] else rest
  }

  /** maxProb: whatever the iteration order, the result is the maximum. */
  method FindMaxProb(p: map<string, real>) returns (best: real)
    ensures best == MaxProb(p)
  {
    best := 0.0;
    var rest := p.Keys;
    while rest != {}
      invariant rest <= p.Keys && best >= 0.0
      invariant forall k :: k in p && k !in rest ==> p[k] <= best
      invariant best == 0.0 || exists k :: k in p && p[k] == best
      decreases |rest|
    {
      var k :| k in rest;
      if p[k] > best {
        best := p[k];
      }
      rest := rest - {k};
    }
    assert IsMaxProb(p, best) && IsMaxProb(p, MaxProb(p));
  }

  function ChoiceOf(choice: string): Option<Classification> {
    if choice == "replayable" then Some(Replayable)
    else if choice == "requires_fix" then Some(RequiresFix)
    else if choice == "do_not_replay" then Some(DoNotReplay)
    else if choice == "investigate" then Some(Investigate)
    else None
  }

  function EffectiveThreshold(threshold: real): real {
    if threshold <= 0.0 then DEFAULT_THRESHOLD else threshold
  }

  function MapResponse(t: TextEnv, resp: Option<Response>, threshold: real): Mapped {
    if resp.None? || "classification" !in resp.value.answers then Malformed
    else
      var answers := resp.value.answers;
      var cls := answers["classification"];
      var choice := ChoiceOf(t.canonical(cls.choice));
      if choice.None? then Unusable
      else
        var conf := Clamp01(if cls.confidence <= 0.0 then MaxProb(cls.probabilities) else cls.confidence);
        var dup := if "is_duplicate" in answers then Clamp01(answers["is_duplicate"].noul) else 0.0;
        var risk := if "replay_risk" in answers then Clamp01(answers["replay_risk"].score / 2.0) else 0.0;
        var v := if dup >= DUPLICATE_OVERRIDE && choice.value != DoNotReplay
                 then Verdict(DoNotReplay, if dup > conf then dup else conf, dup, risk, resp.value.model)
                 else Verdict(choice.value, conf, dup, risk, resp.value.model);
        if v.confidence < EffectiveThreshold(threshold) then Low(v) else Usable(v)
  }

  /** A usable verdict is confident enough, is a probability, and never says anything but "do not
      replay" when the duplicate probability is at the override. */
  lemma UsableVerdicts(t: TextEnv, resp: Option<Response>, threshold: real)
    requires MapResponse(t, resp, threshold).Usable?
    ensures var v := MapResponse(t, resp, threshold).verdict;
            && EffectiveThreshold(threshold) <= v.confidence <= 1.0
            && 0.0 <= v.duplicateProb <= 1.0 && 0.0 <= v.replayRisk <= 1.0
            && (v.duplicateProb >= DUPLICATE_OVERRIDE ==> v.classification == DoNotReplay)
            && (v.duplicateProb < DUPLICATE_OVERRIDE ==>
                  ChoiceOf(t.canonical(resp.value.answers["classification"].choice)) == Some(v.classification))
  {
  }

  // --- The precedence chain ----------------------------------------------------------------------

  datatype Settings = Settings(client: Option<Client>, threshold: real, maxCalls: int, onlyInvestigate: bool,
                               state: Message -> string, key: string -> string)

  /** The assessor's mutable part: the memo (or none), its hits, the successful calls counted
      against the budget, and all calls made. */
  datatype Memo = Memo(seen: Option<map<string, Option<Response>>>, hits: nat, calls: nat, attempts: nat)

  predicate Consulted(t: TextEnv, a: Settings, p: Option<Policy>, m: Message, s: Memo) {
    && DuplicateOf(m) == "" && !PolicyDecides(t, m, p) && a.client.Some?
    && (a.onlyInvestigate ==> ClassifyWithPolicy(t, m, p).classification == Investigate)
    && !(a.maxCalls > 0 && s.calls >= a.maxCalls)
  }

  function WhyNotConsulted(t: TextEnv, a: Settings, p: Option<Policy>, m: Message): SkipReason {
    if DuplicateOf(m) != "" then HeaderDuplicate
    else if PolicyDecides(t, m, p) then PolicyMatched
    else if a.client.None? then JevDisabled
    else if a.onlyInvestigate && ClassifyWithPolicy(t, m, p).classification != Investigate then NotInvestigate
    else CallBudgetExceeded
  }

  predicate Cached(a: Settings, s: Memo, state: string) {
    s.seen.Some? && a.key(state) in s.seen.value
  }

  /** The response used for a state, and the memo after it; None for a failed call. A cached nil
      counts as a hit and is then asked for again. */
  function Consult(a: Settings, state: string, s: Memo): (Option<Option<Response>>, Memo)
    requires a.client.Some?
  {
    var s1 := if Cached(a, s, state) then s.(hits := s.hits + 1) else s;
    if Cached(a, s, state) && s.seen.value[a.key(state)].Some? then (Some(s.seen.value[a.key(state)]), s1)
    else
      var reply := a.client.value(s.attempts, state);
      var s2 := s1.(attempts := s.attempts + 1);
      if reply.Error? then (None, s2)
      else (Some(reply.response),
            s2.(calls := s.calls + 1,
                seen := if s.seen.Some? then Some(s.seen.value[a.key(state) := reply.response]) else None))
  }

  function JevWhy(v: Verdict): Why {
    ByJev(v.model, v.classification, v.confidence, v.replayRisk,
          if v.duplicateProb >= DUPLICATE_OVERRIDE && v.classification == DoNotReplay
          then Some(v.duplicateProb) else None)
  }

  function Outcome(t: TextEnv, a: Settings, base: Classified, resp: Option<Option<Response>>): Classified {
    if resp.None? then base.(skip := JevError)
    else
      match MapResponse(t, resp.value, EffectiveThreshold(a.threshold))
      case Malformed => base.(skip := JevError)
      case Unusable => base.(skip := BelowThreshold)
      case Low(_) => base.(skip := BelowThreshold)
      case Usable(v) => base.(classification := v.classification, why := JevWhy(v), confidence := v.confidence,
                              source := FromJev, model := v.model, replayRisk := v.replayRisk)
  }

  /** ClassifyWithPolicyAndJev: header, then policy, then Jev, then rules. */
  function Assess(t: TextEnv, a: Settings, p: Option<Policy>, m: Message, s: Memo): (Classified, Memo) {
    var base := ClassifyWithPolicy(t, m, p).(source := Rules);
    if !Consulted(t, a, p, m, s) then
      (base.(source := if PolicyDecides(t, m, p) then FromPolicy else Rules, skip := WhyNotConsulted(t, a, p, m)), s)
    else
      var (resp, s') := Consult(a, a.state(m), s);
      (Outcome(t, a, base, resp), s')
  }

  // --- As the code does it -------------------------------------------------------------------------

  class Cache {
    var seen: map<string, Option<Response>>
    var hits: nat

    constructor ()
      ensures seen == map[] && hits == 0
    {
      seen, hits := map[], 0;
    }

    method Get(key: string) returns (r: Option<Option<Response>>)
      ensures r == if key in seen then Some(seen[key]) else None
    {
      return if key in seen then Some(seen[key]) else None;
    }

    method Put(key: string, r: Option<Response>)
      modifies this
      ensures seen == old(seen)[key := r] && hits == old(hits)
    {
      seen := seen[key := r];
    }

    method Hit()
      modifies this
      ensures hits == old(hits) + 1 && seen == old(seen)
    {
      hits := hits + 1;
    }
  }

  class Assessor {
    const settings: Settings
    const cache: Cache?
    var calls: nat
    var attempts: nat

    constructor (settings: Settings, cache: Cache?)
      ensures this.settings == settings && this.cache == cache && calls == 0 && attempts == 0
    {
      this.settings, this.cache, calls, attempts := settings, cache, 0, 0;
    }

    function Repr(): set<object>
    {
      if cache == null then {this} else {this, cache}
    }

    function State(): Memo
      reads this, Repr()
    {
      Memo(if cache == null then None else Some(cache.seen), if cache == null then 0 else cache.hits, calls, attempts)
    }

    method Classify(t: TextEnv, m: Message, p: Option<Policy>) returns (r: Classified)
      modifies Repr()
      ensures (r, State()) == Assess(t, settings, p, m, old(State()))
    {
      var base := ClassifyWithPolicy(t, m, p).(source := Rules);
      if DuplicateOf(m) != "" {
        return base.(skip := HeaderDuplicate);
      }
      if p.Some? {
        var rule := Match(t, p.value, m);
        if rule.Some? {
          return base.(source := FromPolicy, skip := PolicyMatched);
        }
      }
      if settings.client.None? {
        return base.(skip := JevDisabled);
      }
      if settings.onlyInvestigate && base.classification != Investigate {
        return base.(skip := NotInvestigate);
      }
      if settings.maxCalls > 0 && calls >= settings.maxCalls {
        return base.(skip := CallBudgetExceeded);
      }
      var resp := Ask(settings.state(m));
      return Outcome(t, settings, base, resp);
    }

    /** Memo, call, budget. */
    method Ask(state: string) returns (resp: Option<Option<Response>>)
      requires settings.client.Some?
      modifies Repr()
      ensures (resp, State()) == Consult(settings, state, old(State()))
    {
      var key := settings.key(state);
      if cache != null {
        var hit := cache.Get(key);
        if hit.Some? {
          cache.Hit();
          if hit.value.Some? {
            return Some(hit.value);
          }
        }
      }
      var reply := settings.client.value(attempts, state);
      attempts := attempts + 1;
      if reply.Error? {
        return None;
      }
      calls := calls + 1;
      if cache != null {
        cache.Put(key, reply.response);
      }
      return Some(reply.response);
    }
  }

  // --- Lists of messages ---------------------------------------------------------------------------

  /** Assessing messages one after the other. */
  function AssessAll(t: TextEnv, a: Settings, p: Option<Policy>, msgs: seq<Message>,
                     s: Memo): (r: (seq<Classified>, Memo))
    ensures |r.0| == |msgs|
  {
    if msgs == [] then ([], s)
    else
      var (before, s') := AssessAll(t, a, p, msgs[..|msgs| - 1], s);
      var (c, s'') := Assess(t, a, p, msgs[|msgs| - 1], s');
      (before + [c], s'')
  }

  // --- Memo agreement and budget -----------------------------------------------------------------

  /** A client that is a function of the state, never errors and never returns nil. */
  ghost predicate Steady(a: Settings, g: string -> Response) {
    a.client.Some? && forall n, state :: a.client.value(n, state) == Answer(Some(g(state)))
  }

  /** Cache keys do not collide on the states of these messages. */
  predicate NoCollisions(a: Settings, msgs: seq<Message>) {
    forall i, j :: 0 <= i < |msgs| && 0 <= j < |msgs| && a.key(a.state(msgs[i])) == a.key(a.state(msgs[j])) ==>
      a.state(msgs[i]) == a.state(msgs[j])
  }

  /** Every entry was put there for one of these messages, and holds the client's answer. */
  ghost predicate Faithful(a: Settings, g: string -> Response, msgs: seq<Message>, s: Memo) {
    && s.seen.Some? && s.calls == |s.seen.value|
    && forall k :: k in s.seen.value ==>
         exists i :: 0 <= i < |msgs| && a.key(a.state(msgs[i])) == k && s.seen.value[k] == Some(g(a.state(msgs[i])))
  }

  lemma ConsultFaithful(a: Settings, g: string -> Response, msgs: seq<Message>, i: nat, s: Memo)
    requires Steady(a, g) && NoCollisions(a, msgs) && i < |msgs| && Faithful(a, g, msgs, s)
    ensures Consult(a, a.state(msgs[i]), s).0 == Some(Some(g(a.state(msgs[i]))))
    ensures Faithful(a, g, msgs, Consult(a, a.state(msgs[i]), s).1)
  {
    var state := a.state(msgs[i]);
    var k := a.key(state);
    if k in s.seen.value {
      var j :| 0 <= j < |msgs| && a.key(a.state(msgs[j])) == k && s.seen.value[k] == Some(g(a.state(msgs[j])));
      assert a.state(msgs[j]) == state;
    } else {
      var seen := s.seen.value[k := Some(g(state))];
      assert seen.Keys == s.seen.value.Keys + {k};
      assert |seen| == |s.seen.value| + 1;
    }
  }

  lemma FaithfulToMore(a: Settings, g: string -> Response, msgs: seq<Message>, more: seq<Message>, s: Memo)
    requires msgs <= more && Faithful(a, g, msgs, s)
    ensures Faithful(a, g, more, s)
  {
    forall k | k in s.seen.value
      ensures exists i :: 0 <= i < |more| && a.key(a.state(more[i])) == k &&
                          s.seen.value[k] == Some(g(a.state(more[i])))
    {
      var i :| 0 <= i < |msgs| && a.key(a.state(msgs[i])) == k && s.seen.value[k] == Some(g(a.state(msgs[i])));
      assert more[i] == msgs[i];
    }
  }

  /** Without a cap, what a message classifies as depends on the memo only through the response. */
  lemma OnlyTheResponseMatters(t: TextEnv, a: Settings, p: Option<Policy>, m: Message, s: Memo, u: Memo)
    requires a.client.Some? && a.maxCalls <= 0
    requires Consult(a, a.state(m), s).0 == Consult(a, a.state(m), u).0
    ensures Assess(t, a, p, m, s).0 == Assess(t, a, p, m, u).0
    ensures Assess(t, a, p, m, s).1 == s || Assess(t, a, p, m, s).1 == Consult(a, a.state(m), s).1
  {
  }

  lemma NoMemoAgrees(a: Settings, g: string -> Response, state: string, u: Memo)
    requires Steady(a, g) && u.seen == None
    ensures Consult(a, state, u).0 == Some(Some(g(state))) && Consult(a, state, u).1.seen == None
  {
  }

  const FRESH := Memo(Some(map[]), 0, 0, 0)
  const UNCACHED := Memo(None, 0, 0, 0)

  /** With a steady client and no call cap every message classifies the same with the cache as
      without it, and the calls made equal the cache's size throughout. */
  lemma {:induction false} MemoAgrees(t: TextEnv, a: Settings, p: Option<Policy>, msgs: seq<Message>,
                                      g: string -> Response)
    requires Steady(a, g) && a.maxCalls <= 0 && NoCollisions(a, msgs)
    ensures AssessAll(t, a, p, msgs, FRESH).0 == AssessAll(t, a, p, msgs, UNCACHED).0
    ensures Faithful(a, g, msgs, AssessAll(t, a, p, msgs, FRESH).1)
    ensures AssessAll(t, a, p, msgs, UNCACHED).1.seen == None
  {
    if msgs != [] {
      var init, m := msgs[..|msgs| - 1], msgs[|msgs| - 1];
      MemoAgrees(t, a, p, init, g);
      var s := AssessAll(t, a, p, init, FRESH).1;
      var u := AssessAll(t, a, p, init, UNCACHED).1;
      FaithfulToMore(a, g, init, msgs, s);
      ConsultFaithful(a, g, msgs, |msgs| - 1, s);
      NoMemoAgrees(a, g, a.state(m), u);
      OnlyTheResponseMatters(t, a, p, m, s, u);
      OnlyTheResponseMatters(t, a, p, m, u, s);
    }
  }

  /** With a steady client and no cap a message's verdict depends on the message alone. */
  lemma {:induction false} SteadyVerdicts(t: TextEnv, a: Settings, p: Option<Policy>, msgs: seq<Message>,
                                          g: string -> Response, i: nat)
    requires Steady(a, g) && a.maxCalls <= 0 && i < |msgs|
    ensures AssessAll(t, a, p, msgs, UNCACHED).0[i] == Assess(t, a, p, msgs[i], UNCACHED).0
  {
    var init, m := msgs[..|msgs| - 1], msgs[|msgs| - 1];
    AssessLast(t, a, p, init, m, UNCACHED);
    assert msgs == init + [m];
    if i < |init| {
      SteadyVerdicts(t, a, p, init, g, i);
    } else {
      NothingCached(t, a, p, init, UNCACHED);
      SteadyVerdict(t, a, p, m, g, AssessAll(t, a, p, init, UNCACHED).1);
    }
  }

  lemma AssessLast(t: TextEnv, a: Settings, p: Option<Policy>, msgs: seq<Message>, m: Message, s: Memo)
    ensures AssessAll(t, a, p, msgs + [m], s).0
         == AssessAll(t, a, p, msgs, s).0 + [Assess(t, a, p, m, AssessAll(t, a, p, msgs, s).1).0]
  {
    assert (msgs + [m])[..|msgs|] == msgs;
  }

  lemma SteadyVerdict(t: TextEnv, a: Settings, p: Option<Policy>, m: Message, g: string -> Response, u: Memo)
    requires Steady(a, g) && a.maxCalls <= 0 && u.seen == None
    ensures Assess(t, a, p, m, u).0 == Assess(t, a, p, m, UNCACHED).0
  {
    NoMemoAgrees(a, g, a.state(m), u);
    NoMemoAgrees(a, g, a.state(m), UNCACHED);
    OnlyTheResponseMatters(t, a, p, m, u, UNCACHED);
  }

  lemma {:induction false} NothingCached(t: TextEnv, a: Settings, p: Option<Policy>, msgs: seq<Message>, s: Memo)
    requires s.seen == None
    ensures AssessAll(t, a, p, msgs, s).1.seen == None
  {
    if msgs != [] {
      NothingCached(t, a, p, msgs[..|msgs| - 1], s);
    }
  }

  /** With a positive cap successful calls never exceed it, whatever the client replies. */
  lemma {:induction false} BudgetHolds(t: TextEnv, a: Settings, p: Option<Policy>, msgs: seq<Message>, s: Memo)
    requires a.maxCalls > 0 && s.calls <= a.maxCalls
    ensures AssessAll(t, a, p, msgs, s).1.calls <= a.maxCalls
  {
    if msgs != [] {
      BudgetHolds(t, a, p, msgs[..|msgs| - 1], s);
    }
  }

  // --- Precedence ----------------------------------------------------------------------------------

  /** A duplicate header or a policy match decides, and Jev is not even asked. */
  lemma JevNeverOverrides(t: TextEnv, a: Settings, p: Option<Policy>, m: Message, s: Memo)
    ensures DuplicateOf(m) != "" ==>
              Assess(t, a, p, m, s).0.classification == DoNotReplay && Assess(t, a, p, m, s).1 == s
    ensures PolicyDecides(t, m, p) ==>
              && Assess(t, a, p, m, s).0.classification == Forced(FirstMatch(t, p.value, m).value.action)
              && Assess(t, a, p, m, s).0.source == FromPolicy && Assess(t, a, p, m, s).1 == s
    ensures Assess(t, a, p, m, s).0.source == FromJev ==> DuplicateOf(m) == "" && !PolicyDecides(t, m, p)
    ensures Assess(t, a, p, m, s).0.source != FromJev ==>
              Assess(t, a, p, m, s).0.classification == ClassifyWithPolicy(t, m, p).classification
  {
  }

  /** In OnlyInvestigate mode Jev changes only INVESTIGATE results. */
  lemma OnlyInvestigateIsKept(t: TextEnv, a: Settings, p: Option<Policy>, m: Message, s: Memo)
    requires a.onlyInvestigate
    ensures ClassifyWithPolicy(t, m, p).classification != Investigate ==>
              Assess(t, a, p, m, s).0.classification == ClassifyWithPolicy(t, m, p).classification
              && Assess(t, a, p, m, s).1 == s
  {
  }

  /** For every list and every sequence of replies, a verdict taken from Jev meets the threshold, is
      a probability, comes from one usable reply, and is DO_NOT_REPLAY when that reply's duplicate
      probability is at the override. */
  lemma {:induction false} JevVerdictsAreUsable(t: TextEnv, a: Settings, p: Option<Policy>, msgs: seq<Message>,
                                                s: Memo, i: nat)
    requires i < |msgs| && AssessAll(t, a, p, msgs, s).0[i].source == FromJev
    ensures var c := AssessAll(t, a, p, msgs, s).0[i];
            && EffectiveThreshold(a.threshold) <= c.confidence <= 1.0 && 0.0 <= c.replayRisk <= 1.0
            && exists resp :: FromReply(t, a, c, resp)
  {
    var n := |msgs| - 1;
    if i < n {
      JevVerdictsAreUsable(t, a, p, msgs[..n], s, i);
    } else {
      var s1 := AssessAll(t, a, p, msgs[..n], s).1;
      var resp := Consult(a, a.state(msgs[n]), s1).0;
      UsableVerdicts(t, resp.value, EffectiveThreshold(a.threshold));
      assert FromReply(t, a, AssessAll(t, a, p, msgs, s).0[i], resp.value);
    }
  }

  ghost predicate FromReply(t: TextEnv, a: Settings, c: Classified, resp: Option<Response>) {
    var r := MapResponse(t, resp, EffectiveThreshold(a.threshold));
    && r.Usable? && c.classification == r.verdict.classification && c.confidence == r.verdict.confidence
    && (r.verdict.duplicateProb >= DUPLICATE_OVERRIDE ==> c.classification == DoNotReplay)
  }
}
