// What the verdict on a message is, spelled out: by the failure text, by the policy, and by Jev.
module Verdicts {
  import opened Seqs
  import opened Text
  import opened Mapper
  import opened Triage
  import opened Jev

  // --- The rules -----------------------------------------------------------------------------------

  /** One of the words occurs somewhere in the text. */
  ghost predicate Mentions(s: string, words: seq<string>) {
    exists w :: w in words && Occurs(s, w)
  }

  ghost predicate Occurs(s: string, w: string) {
    exists i: nat :: OccursAt(s, w, i)
  }

  predicate OccursAt(s: string, w: string, i: nat) {
    i + |w| <= |s| && s[i..i + |w|] == w
  }

  lemma OccursEarlier(s: string, w: string, i: nat)
    requires s != [] && OccursAt(s, w, i)
    ensures if i == 0 then w <= s else OccursAt(s[1..], w, i - 1)
  {
    if i > 0 {
      assert s[1..][i - 1..i - 1 + |w|] == s[i..i + |w|];
    }
  }

  lemma OccursLater(s: string, w: string, i: nat)
    requires s != [] && OccursAt(s[1..], w, i)
    ensures OccursAt(s, w, i + 1)
  {
    assert s[i + 1..i + 1 + |w|] == s[1..][i..i + |w|];
  }

  lemma {:induction false} OccursUnfolds(s: string, w: string)
    requires s != []
    ensures Occurs(s, w) <==> w <= s || Occurs(s[1..], w)
  {
    if i: nat :| OccursAt(s, w, i) {
      OccursEarlier(s, w, i);
      assert i > 0 ==> OccursAt(s[1..], w, i - 1);
    }
    if w <= s {
      assert s[0..0 + |w|] == w;
      assert OccursAt(s, w, 0);
    }
    if i: nat :| OccursAt(s[1..], w, i) {
      OccursLater(s, w, i);
      assert OccursAt(s, w, i + 1);
    }
  }

  lemma {:induction false} ContainsIsOccurs(s: string, w: string)
    ensures Contains(s, w) <==> Occurs(s, w)
  {
    if s == [] {
      assert w == [] ==> OccursAt(s, w, 0);
    } else {
      OccursUnfolds(s, w);
      ContainsIsOccurs(s[1..], w);
    }
  }

  lemma HasAnyMeans(s: string, words: seq<string>)
    ensures HasAny(s, words) <==> Mentions(s, words)
  {
    forall w ensures Contains(s, w) <==> Occurs(s, w) {
      ContainsIsOccurs(s, w);
    }
  }

  /** The header, in which the producer marks a message as a duplicate. */
  predicate Marked(m: Message) {
    "x-duplicate-of" in m.headers && m.headers["x-duplicate-of"] != ""
  }

  /** The rule-based verdict: a mark or a word for duplicates keeps a message back; a passing failure
      is replayed unless it has been retried six times already; a lasting one needs a fix; anything
      mixed or unknown is investigated. */
  lemma ClassifyExactly(t: TextEnv, m: Message)
    ensures var reason := t.lower(m.failureReason);
            var dup, transient, permanent := Mentions(reason, DUPLICATE), Mentions(reason, TRANSIENT),
                Mentions(reason, PERMANENT);
            var c := Classify(t, m);
            && (c.classification == DoNotReplay <==> Marked(m) || dup)
            && (c.classification == Replayable <==> !Marked(m) && !dup && transient && !permanent && m.retryCount < 6)
            && (c.classification == RequiresFix <==> !Marked(m) && !dup && permanent && !transient)
            && c.source == Rules && c.messageId == m.id
            && c.duplicateOf == (if Marked(m) then Some(m.headers["x-duplicate-of"]) else None)
            && c.confidence ==
                 (if Marked(m) || dup then 0.9 else if transient && permanent then 0.5
                  else if transient then (if m.retryCount >= 6 then 0.6 else 0.8)
                  else if permanent then 0.8 else if m.failureReason == "" then 0.4 else 0.5)
  {
    var reason := t.lower(m.failureReason);
    HasAnyMeans(reason, DUPLICATE);
    HasAnyMeans(reason, TRANSIENT);
    HasAnyMeans(reason, PERMANENT);
  }

  // --- The policy ----------------------------------------------------------------------------------

  /** What a condition says of a text and of a count. */
  ghost predicate TextSays(t: TextEnv, s: string, op: Op, value: string) {
    || (op == Eq && t.equalFold(s, value))
    || (op == Ne && !t.equalFold(s, value))
    || (op == HasText && Occurs(t.lower(s), t.lower(value)))
  }

  predicate CountSays(n: int, op: Op, v: int) {
    || (op == Eq && n == v) || (op == Ne && n != v)
    || (op == Gt && n > v) || (op == Ge && n >= v) || (op == Lt && n < v) || (op == Le && n <= v)
  }

  /** A rule that applies: its condition holds and its parameters are met. */
  ghost predicate RuleSays(t: TextEnv, r: Rule, m: Message) {
    && (r.maxRetries.Some? ==> m.retryCount <= r.maxRetries.value)
    && (r.requireIdempotencyKey ==> m.idempotencyKey != "")
    && match r.field
       case ErrorText => TextSays(t, m.failureReason, r.op, r.value)
       case EventType => TextSays(t, EventTypeOf(m), r.op, r.value)
       case DestinationName => TextSays(t, m.destination, r.op, r.value)
       case Retries => CountSays(m.retryCount, r.op, if Atoi(r.value).Some? then Atoi(r.value).value else 0)
  }

  lemma RulesApplyAsTheySay(t: TextEnv, r: Rule, m: Message)
    ensures Applies(t, r, m) <==> RuleSays(t, r, m)
  {
    ContainsIsOccurs(t.lower(m.failureReason), t.lower(r.value));
    ContainsIsOccurs(t.lower(EventTypeOf(m)), t.lower(r.value));
    ContainsIsOccurs(t.lower(m.destination), t.lower(r.value));
  }

  /** The first rule of the policy that applies. */
  ghost predicate Decides(t: TextEnv, p: Policy, m: Message, i: nat) {
    i < |p| && RuleSays(t, p[i], m) && forall j :: 0 <= j < i ==> !RuleSays(t, p[j], m)
  }

  /** With a policy: a mark stands; otherwise the first rule that applies decides, by its action; and
      without one the rules do. */
  lemma PolicyExactly(t: TextEnv, m: Message, p: Policy, i: nat)
    ensures Marked(m) ==> ClassifyWithPolicy(t, m, Some(p)) == Classify(t, m)
    ensures !Marked(m) && Decides(t, p, m, i) ==>
              var c := ClassifyWithPolicy(t, m, Some(p));
              && c.classification ==
                   (match p[i].action
                    case ToReplay => Replayable
                    case ToFix => RequiresFix
                    case ToKeep => DoNotReplay)
              && c.confidence == 0.9 && c.source == FromPolicy && c.messageId == m.id
    ensures (forall k: nat :: !Decides(t, p, m, k)) ==> ClassifyWithPolicy(t, m, Some(p)) == Classify(t, m)
    ensures ClassifyWithPolicy(t, m, None) == Classify(t, m)
  {
    forall r: Rule ensures Applies(t, r, m) <==> RuleSays(t, r, m) {
      RulesApplyAsTheySay(t, r, m);
    }
    if !Marked(m) && FirstMatch(t, p, m).Some? {
      var k :| 0 <= k < |p| && p[k] == FirstMatch(t, p, m).value && Applies(t, p[k], m)
               && forall j :: 0 <= j < k ==> !Applies(t, p[j], m);
      assert Decides(t, p, m, k);
      if Decides(t, p, m, i) {
        assert i == k;
      }
    }
  }

  // --- Jev -----------------------------------------------------------------------------------------

  function Within01(r: real): real {
    if r < 0.0 then 0.0 else if r > 1.0 then 1.0 else r
  }

  /** The confidence of an answer: its own, or the largest of its probabilities. */
  ghost predicate Confidence(part: AnswerPart, conf: real) {
    if part.confidence > 0.0 then conf == Within01(part.confidence)
    else exists best :: IsLargest(part.probabilities, best) && conf == Within01(best)
  }

  ghost predicate IsLargest(p: map<string, real>, best: real) {
    && best >= 0.0 && (forall k :: k in p ==> p[k] <= best)
    && (best == 0.0 || exists k :: k in p && p[k] == best)
  }

  predicate IsChoice(choice: string, c: Classification) {
    || (choice == "replayable" && c == Replayable) || (choice == "requires_fix" && c == RequiresFix)
    || (choice == "do_not_replay" && c == DoNotReplay) || (choice == "investigate" && c == Investigate)
  }

  /** The duplicate probability an answer gives. */
  function DuplicateIn(r: Response): real {
    if "is_duplicate" in r.answers then Within01(r.answers["is_duplicate"].noul) else 0.0
  }

  /** What a response says once its choice and confidence are known: a likely duplicate is kept back
      whatever the choice, with the higher of the two figures. */
  predicate Says(r: Response, choice: Classification, conf: real, v: Verdict) {
    var override := DuplicateIn(r) >= 0.8 && choice != DoNotReplay;
    && v.classification == (if override then DoNotReplay else choice)
    && v.confidence == (if override && DuplicateIn(r) > conf then DuplicateIn(r) else conf)
    && v.duplicateProb == DuplicateIn(r) && v.model == r.model
    && v.replayRisk == (if "replay_risk" in r.answers then Within01(r.answers["replay_risk"].score / 2.0) else 0.0)
  }

  /** How a response is read: without a classification it is malformed, with an unknown choice it is
      unusable, and otherwise it is usable exactly when it is confident enough. */
  lemma ResponsesReadExactly(t: TextEnv, resp: Option<Response>, threshold: real)
    ensures MapResponse(t, resp, threshold) == Malformed <==> resp.None? || "classification" !in resp.value.answers
    ensures resp.Some? && "classification" in resp.value.answers ==>
              var part := resp.value.answers["classification"];
              var mapped := MapResponse(t, resp, threshold);
              var asked := if threshold <= 0.0 then 0.70 else threshold;
              && (mapped == Unusable <==> forall c :: !IsChoice(t.canonical(part.choice), c))
              && forall c :: IsChoice(t.canonical(part.choice), c) ==>
                   && (mapped.Usable? || mapped.Low?)
                   && (mapped.Usable? <==> mapped.verdict.confidence >= asked)
                   && exists conf :: Confidence(part, conf) && Says(resp.value, c, conf, mapped.verdict)
  {
    if resp.Some? && "classification" in resp.value.answers {
      ChoiceIs(t.canonical(resp.value.answers["classification"].choice));
      if ChoiceOf(t.canonical(resp.value.answers["classification"].choice)).Some? {
        ReadSays(t, resp.value, threshold);
      }
    }
  }

  lemma ChoiceIs(choice: string)
    ensures forall c :: IsChoice(choice, c) <==> ChoiceOf(choice) == Some(c)
  {
    assert "replayable" != "requires_fix" && "replayable" != "do_not_replay" && "replayable" != "investigate";
    assert "requires_fix" != "do_not_replay" && "requires_fix" != "investigate" && "do_not_replay" != "investigate";
  }

  lemma ReadSays(t: TextEnv, r: Response, threshold: real)
    requires "classification" in r.answers && ChoiceOf(t.canonical(r.answers["classification"].choice)).Some?
    ensures var mapped := MapResponse(t, Some(r), threshold);
            && (mapped.Usable? || mapped.Low?)
            && (mapped.Usable? <==> mapped.verdict.confidence >= if threshold <= 0.0 then 0.70 else threshold)
            && exists conf :: Confidence(r.answers["classification"], conf)
                 && Says(r, ChoiceOf(t.canonical(r.answers["classification"].choice)).value, conf, mapped.verdict)
  {
    ConfidenceIs(r.answers["classification"]);
    ReadIs(t, r, threshold);
  }

  function ConfidenceOf(part: AnswerPart): real {
    Clamp01(if part.confidence <= 0.0 then MaxProb(part.probabilities) else part.confidence)
  }

  lemma ConfidenceIs(part: AnswerPart)
    ensures Confidence(part, ConfidenceOf(part))
  {
    assert IsMaxProb(part.probabilities, MaxProb(part.probabilities));
    assert IsLargest(part.probabilities, MaxProb(part.probabilities));
  }

  lemma ReadIs(t: TextEnv, r: Response, threshold: real)
    requires "classification" in r.answers && ChoiceOf(t.canonical(r.answers["classification"].choice)).Some?
    ensures var mapped := MapResponse(t, Some(r), threshold);
            && (mapped.Usable? || mapped.Low?)
            && (mapped.Usable? <==> mapped.verdict.confidence >= if threshold <= 0.0 then 0.70 else threshold)
            && Says(r, ChoiceOf(t.canonical(r.answers["classification"].choice)).value,
                    ConfidenceOf(r.answers["classification"]), mapped.verdict)
  {
  }

  /** Why Jev is not asked, and that it is asked in all other cases. */
  ghost predicate NotAsked(t: TextEnv, a: Settings, p: Option<Policy>, m: Message, s: Memo, why: SkipReason) {
    var policy := p.Some? && exists i: nat :: Decides(t, p.value, m, i);
    match why
    case HeaderDuplicate => Marked(m)
    case PolicyMatched => !Marked(m) && policy
    case JevDisabled => !Marked(m) && !policy && a.client.None?
    case NotInvestigate =>
      && !Marked(m) && !policy && a.client.Some? && a.onlyInvestigate && Classify(t, m).classification != Investigate
    case CallBudgetExceeded =>
      && !Marked(m) && !policy && a.client.Some?
      && (a.onlyInvestigate ==> Classify(t, m).classification == Investigate)
      && a.maxCalls > 0 && s.calls >= a.maxCalls
    case _ => false
  }

  lemma FirstMatchDecides(t: TextEnv, p: Policy, m: Message)
    ensures FirstMatch(t, p, m).Some? <==> exists i: nat :: Decides(t, p, m, i)
  {
    forall r: Rule ensures Applies(t, r, m) <==> RuleSays(t, r, m) {
      RulesApplyAsTheySay(t, r, m);
    }
    if FirstMatch(t, p, m).Some? {
      var k :| 0 <= k < |p| && p[k] == FirstMatch(t, p, m).value && Applies(t, p[k], m)
               && forall j :: 0 <= j < k ==> !Applies(t, p[j], m);
      assert Decides(t, p, m, k);
    }
    if i: nat :| Decides(t, p, m, i) {
      assert p[i] in p;
    }
  }

  /** Jev is asked exactly when nothing stands in the way; if something does, the verdict is that of
      the rules and the policy, the obstacle is named, and the memo stays as it is. */
  lemma AskedExactly(t: TextEnv, a: Settings, p: Option<Policy>, m: Message, s: Memo)
    ensures Consulted(t, a, p, m, s) <==> forall why :: !NotAsked(t, a, p, m, s, why)
    ensures forall why :: NotAsked(t, a, p, m, s, why) ==>
              var c := Assess(t, a, p, m, s).0;
              && c.skip == why && Assess(t, a, p, m, s).1 == s
              && c.classification == ClassifyWithPolicy(t, m, p).classification
              && c.confidence == ClassifyWithPolicy(t, m, p).confidence
              && c.source == if why == PolicyMatched then FromPolicy else Rules
  {
    if p.Some? {
      FirstMatchDecides(t, p.value, m);
    }
    OneObstacle(t, a, p, m, s);
  }

  lemma OneObstacle(t: TextEnv, a: Settings, p: Option<Policy>, m: Message, s: Memo)
    requires p.Some? ==> (FirstMatch(t, p.value, m).Some? <==> exists i: nat :: Decides(t, p.value, m, i))
    ensures if Consulted(t, a, p, m, s) then forall why :: !NotAsked(t, a, p, m, s, why)
            else && NotAsked(t, a, p, m, s, WhyNotConsulted(t, a, p, m))
                 && forall why :: NotAsked(t, a, p, m, s, why) ==> why == WhyNotConsulted(t, a, p, m)
  {
  }

  /** What is known when Jev is asked: the cached response, or a new reply of the client. */
  function Reply(a: Settings, state: string, s: Memo): Option<Option<Response>>
    requires a.client.Some?
  {
    if s.seen.Some? && a.key(state) in s.seen.value && s.seen.value[a.key(state)].Some?
    then Some(s.seen.value[a.key(state)])
    else
      match a.client.value(s.attempts, state)
      case Error => None
      case Answer(response) => Some(response)
  }

  /** When Jev is asked, a usable response decides; anything else leaves the rules' verdict. */
  lemma RepliesDecide(t: TextEnv, a: Settings, p: Option<Policy>, m: Message, s: Memo)
    requires Consulted(t, a, p, m, s)
    ensures var c, reply := Assess(t, a, p, m, s).0, Reply(a, a.state(m), s);
            var asked := if a.threshold <= 0.0 then 0.70 else a.threshold;
            if reply.Some? && MapResponse(t, reply.value, asked).Usable?
            then var v := MapResponse(t, reply.value, asked).verdict;
                 && c.classification == v.classification && c.confidence == v.confidence
                 && c.source == FromJev && c.model == v.model && c.replayRisk == v.replayRisk
            else && c.classification == Classify(t, m).classification && c.confidence == Classify(t, m).confidence
                 && c.source == Rules
                 && c.skip == if reply.None? || MapResponse(t, reply.value, asked).Malformed?
                      then JevError else BelowThreshold
  {
  }

  /** What asking does to the memo: a hit is counted, also one that holds nothing and is asked again;
      a reply is counted and kept, an error neither. */
  lemma AskingChangesTheMemo(a: Settings, state: string, s: Memo)
    requires a.client.Some?
    ensures var (resp, u) := Consult(a, state, s);
            var cached := s.seen.Some? && a.key(state) in s.seen.value;
            var answered := cached && s.seen.value[a.key(state)].Some?;
            && resp == Reply(a, state, s)
            && u.hits == s.hits + (if cached then 1 else 0)
            && u.attempts == s.attempts + (if answered then 0 else 1)
            && u.calls == s.calls + (if !answered && a.client.value(s.attempts, state).Answer? then 1 else 0)
            && u.seen == if !answered && s.seen.Some? && a.client.value(s.attempts, state).Answer?
                         then Some(s.seen.value[a.key(state) := a.client.value(s.attempts, state).response]) else s.seen
  {
  }
}
