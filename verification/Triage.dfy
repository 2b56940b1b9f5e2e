// internal/recovery/classifier.go and internal/policy/rules.go: what to do with one message.
module Triage {
  import opened Seqs
  import opened Text
  import opened Mapper

  datatype Classification = Replayable | RequiresFix | DoNotReplay | Investigate

  datatype Source = Rules | FromPolicy | FromJev

  datatype SkipReason =
    | NotSkipped | HeaderDuplicate | PolicyMatched | JevDisabled | NotInvestigate
    | CallBudgetExceeded | JevError | BelowThreshold

  /** What a result gives as its reason. */
  datatype Why =
    | MarkedDuplicate(of: string) | SoundsDuplicate | Conflicting | TooManyRetries | SoundsTransient
    | SoundsPermanent | NoFailureReason | NoSignal
    | ByRule(condition: string, action: Action)
    | ByJev(model: string, verdict: Classification, confidence: real, risk: real, duplicate: Option<real>)

  datatype Classified = Classified(messageId: string, classification: Classification, why: Why, confidence: real,
                                   duplicateOf: Option<string>, source: Source, skip: SkipReason,
                                   model: string, replayRisk: real)

  /** Text operations taken from outside: case folding, quoting, two-digit rendering, signature
      normalisation with its hash and label, and the top-level keys of a JSON object. */
  datatype TextEnv = TextEnv(lower: string -> string, equalFold: (string, string) -> bool,
                             canonical: string -> string, quote: string -> string, decimal: real -> string,
                             normalize: string -> string, groupId: string -> string, caption: string -> string,
                             topKeys: string -> Option<set<string>>)

  function ActionName(a: Action): string {
    match a
    case ToReplay => "replay"
    case ToFix => "require_fix"
    case ToKeep => "do_not_replay"
  }

  function VerdictText(c: Classification): string {
    match c
    case Replayable => "failure looks transient — safe to retry"
    case RequiresFix => "failure looks permanent — fix payload or config first"
    case DoNotReplay => "event looks already processed — replay would duplicate work"
    case Investigate => "signals remain ambiguous — investigate before replaying"
  }

  /** The reason as the operator reads it. */
  function Describe(t: TextEnv, w: Why): string {
    match w
    case MarkedDuplicate(of) => "message header x-duplicate-of marks it as a duplicate of " + of
    case SoundsDuplicate => "failure text indicates a duplicate or already-processed event"
    case Conflicting => "failure text has both transient and permanent signals"
    case TooManyRetries => "transient-looking failure but retry count is already high — the cause may be persistent"
    case SoundsTransient => "failure appears transient (timeout, connection, throttling, 5xx)"
    case SoundsPermanent => "failure appears permanent (validation, authorization, schema, 4xx) — fix before replaying"
    case NoFailureReason => "no failure reason recorded"
    case NoSignal => "failure text did not match any known signal"
    case ByRule(condition, action) => "policy rule " + t.quote(condition) + ": " + ActionName(action)
    case ByJev(model, verdict, confidence, risk, duplicate) =>
      "jev " + model + " (p=" + t.decimal(confidence) + ", risk=" + t.decimal(risk) + "): " + VerdictText(verdict)
      + (if duplicate.Some? then "; duplicate probability " + t.decimal(duplicate.value) else "")
  }

  const TRANSIENT: seq<string> := [
    "timeout", "timed out", "deadline", "temporary", "temporarily",
    "unavailable", "connection", "refused", "reset", "interrupted",
    "unreachable", "throttl", "rate limit", "too many requests",
    "circuit", "network", "try again", "transient",
    "5xx", "http 5", "502", "503", "504"]

  const PERMANENT: seq<string> := [
    "invalid", "validation", "malformed", "parse", "deserial",
    "schema", "constraint", "unauthorized", "forbidden", "permission",
    "denied", "not found", "unsupported", "rejected", "expired",
    "missing field", "required field", "unknown",
    "400", "401", "403", "404", "409", "422"]

  const DUPLICATE: seq<string> := ["duplicate", "already", "idempotency", "replayed", "processed", "dedup"]

  const HIGH_RETRY := 6

  predicate HasAny(s: string, needles: seq<string>) {
    exists n :: n in needles && Contains(s, n)
  }

  function DuplicateOf(m: Message): string {
    Lookup(m.headers, "x-duplicate-of")
  }

  function Plainly(m: Message, c: Classification, why: Why, confidence: real): Classified {
    Classified(m.id, c, why, confidence, None, Rules, NotSkipped, "", 0.0)
  }

  /** The rule-based classifier. */
  function Classify(t: TextEnv, m: Message): Classified {
    if DuplicateOf(m) != "" then
      Plainly(m, DoNotReplay, MarkedDuplicate(DuplicateOf(m)), 0.9).(duplicateOf := Some(DuplicateOf(m)))
    else
      var reason := t.lower(m.failureReason);
      var transient, permanent := HasAny(reason, TRANSIENT), HasAny(reason, PERMANENT);
      if HasAny(reason, DUPLICATE) then Plainly(m, DoNotReplay, SoundsDuplicate, 0.9)
      else if transient && permanent then Plainly(m, Investigate, Conflicting, 0.5)
      else if transient then
        if m.retryCount >= HIGH_RETRY then Plainly(m, Investigate, TooManyRetries, 0.6)
        else Plainly(m, Replayable, SoundsTransient, 0.8)
      else if permanent then Plainly(m, RequiresFix, SoundsPermanent, 0.8)
      else if m.failureReason == "" then Plainly(m, Investigate, NoFailureReason, 0.4)
      else Plainly(m, Investigate, NoSignal, 0.5)
  }

  // --- Policy ----------------------------------------------------------------------------------

  datatype Field = ErrorText | EventType | DestinationName | Retries

  datatype Op = Eq | Ne | HasText | Gt | Ge | Lt | Le

  datatype Action = ToReplay | ToFix | ToKeep

  datatype Rule = Rule(condition: string, field: Field, op: Op, value: string, action: Action,
                       maxRetries: Option<int>, requireIdempotencyKey: bool)

  type Policy = seq<Rule>

  function EventTypeOf(m: Message): string {
    FirstHeader(m.headers, ["x-event-type", "event_type", "event-type", "ce-type"])
  }

  predicate MatchText(t: TextEnv, s: string, op: Op, value: string) {
    match op
    case Eq => t.equalFold(s, value)
    case Ne => !t.equalFold(s, value)
    case HasText => Contains(t.lower(s), t.lower(value))
    case _ => false
  }

  predicate MatchCount(n: int, op: Op, value: string) {
    var v := if Atoi(value).Some? then Atoi(value).value else 0;
    match op
    case Eq => n == v
    case Ne => n != v
    case Gt => n > v
    case Ge => n >= v
    case Lt => n < v
    case Le => n <= v
    case HasText => false
  }

  predicate RuleMatches(t: TextEnv, r: Rule, m: Message) {
    match r.field
    case ErrorText => MatchText(t, m.failureReason, r.op, r.value)
    case EventType => MatchText(t, EventTypeOf(m), r.op, r.value)
    case DestinationName => MatchText(t, m.destination, r.op, r.value)
    case Retries => MatchCount(m.retryCount, r.op, r.value)
  }

  predicate ParamsSatisfied(r: Rule, m: Message) {
    && (r.maxRetries.Some? ==> m.retryCount <= r.maxRetries.value)
    && (r.requireIdempotencyKey ==> m.idempotencyKey != "")
  }

  predicate Applies(t: TextEnv, r: Rule, m: Message) {
    RuleMatches(t, r, m) && ParamsSatisfied(r, m)
  }

  /** The first rule that applies wins. */
  function FirstMatch(t: TextEnv, p: Policy, m: Message): (r: Option<Rule>)
    ensures r.Some? <==> exists x :: x in p && Applies(t, x, m)
    ensures r.Some? ==> exists i :: 0 <= i < |p| && p[i] == r.value && Applies(t, p[i], m)
                                 && forall j :: 0 <= j < i ==> !Applies(t, p[j], m)
  {
    if p == [] then None
    else if Applies(t, p[0], m) then
      assert p[0] in p;
      Some(p[0])
    else
      var r := FirstMatch(t, p[1..], m);
      assert forall x :: x in p <==> x == p[0] || x in p[1..];
      assert r.Some? ==> exists i :: 0 <= i < |p| && p[i] == r.value && Applies(t, p[i], m)
                                  && forall j :: 0 <= j < i ==> !Applies(t, p[j], m) by {
        if r.Some? {
          var i :| 0 <= i < |p[1..]| && p[1..][i] == r.value && Applies(t, p[1..][i], m)
                && forall j :: 0 <= j < i ==> !Applies(t, p[1..][j], m);
          assert p[i + 1] == r.value;
          forall j | 0 <= j < i + 1 ensures !Applies(t, p[j], m) {
            if j > 0 { assert p[j] == p[1..][j - 1]; }
          }
        }
      }
      r
  }

  method Match(t: TextEnv, p: Policy, m: Message) returns (r: Option<Rule>)
    ensures r == FirstMatch(t, p, m)
  {
    for i := 0 to |p|
      invariant FirstMatch(t, p, m) == FirstMatch(t, p[i..], m)
    {
      if Applies(t, p[i], m) {
        return Some(p[i]);
      }
    }
    return None;
  }

  function Forced(a: Action): Classification {
    match a
    case ToReplay => Replayable
    case ToFix => RequiresFix
    case ToKeep => DoNotReplay
  }

  function ClassifyWithPolicy(t: TextEnv, m: Message, p: Option<Policy>): Classified {
    var base := Classify(t, m);
    if p.None? || DuplicateOf(m) != "" then base
    else
      var rule := FirstMatch(t, p.value, m);
      if rule.None? then base
      else base.(classification := Forced(rule.value.action), why := ByRule(rule.value.condition, rule.value.action),
                 confidence := 0.9, source := FromPolicy)
  }

  predicate PolicyDecides(t: TextEnv, m: Message, p: Option<Policy>) {
    DuplicateOf(m) == "" && p.Some? && FirstMatch(t, p.value, m).Some?
  }
}
