// When a run happens at all, which planned messages it skips and why, spelled out in terms of the
// request, the queue and the audit trail.
module Admission {
  import opened Seqs
  import opened Mapper
  import opened Audit
  import opened Pool
  import opened Validator
  import opened Runs

  // --- When a run happens --------------------------------------------------------------------------

  /** A planned message is there, passes the schema check, and duplicate evidence has to be asked for. */
  ghost predicate AsksTheTrail(env: Env, plan: Plan, w: World) {
    && DuplicateChecked in plan.checks
    && exists id ::
         && id in plan.messageIds && Found(env, plan, w, id)
         && (SchemaValidated in plan.checks ==> Parses(env, plan, w, id))
  }

  ghost predicate Found(env: Env, plan: Plan, w: World, id: string) {
    exists d :: d in Scanned(plan, w.queues) && IdOf(env.hash, d) == id
  }

  ghost predicate Parses(env: Env, plan: Plan, w: World, id: string) {
    exists k :: LastOf(env, Scanned(plan, w.queues), id, k) && BodyParses(env, Scanned(plan, w.queues)[k].body)
  }

  predicate BodyParses(env: Env, body: string) {
    body == "" || env.jsonValid(body)
  }

  /** The last of the scanned messages with the ID. */
  ghost predicate LastOf(env: Env, scanned: seq<Delivery>, id: string, k: int) {
    && 0 <= k < |scanned| && IdOf(env.hash, scanned[k]) == id
    && forall j :: k < j < |scanned| ==> IdOf(env.hash, scanned[j]) != id
  }

  lemma {:induction false} ByIdIsLast(env: Env, scanned: seq<Delivery>, queue: string, id: string) returns (k: int)
    ensures id in ById(env.hash, scanned, queue) <==> exists d :: d in scanned && IdOf(env.hash, d) == id
    ensures id in ById(env.hash, scanned, queue) ==>
              LastOf(env, scanned, id, k)
              && ById(env.hash, scanned, queue)[id] == ToMessage(env.hash, scanned[k], queue)
  {
    k := 0;
    if scanned != [] {
      var n := |scanned| - 1;
      k := ByIdIsLast(env, scanned[..n], queue, id);
      if IdOf(env.hash, scanned[n]) == id {
        k := n;
      } else if id in ById(env.hash, scanned, queue) {
        StillLast(env, scanned, id, k);
      }
    }
  }

  lemma StillLast(env: Env, scanned: seq<Delivery>, id: string, k: int)
    requires scanned != [] && LastOf(env, scanned[..|scanned| - 1], id, k)
    requires IdOf(env.hash, scanned[|scanned| - 1]) != id
    ensures LastOf(env, scanned, id, k)
  {
    forall j | k < j < |scanned| ensures IdOf(env.hash, scanned[j]) != id {
      if j < |scanned| - 1 { assert scanned[..|scanned| - 1][j] == scanned[j]; }
    }
  }

  lemma LastIsOne(env: Env, scanned: seq<Delivery>, id: string, k: int, l: int)
    requires LastOf(env, scanned, id, k) && LastOf(env, scanned, id, l)
    ensures k == l
  {
  }

  lemma FoundAndParses(env: Env, plan: Plan, w: World, id: string)
    ensures var byId := ById(env.hash, Scanned(plan, w.queues), plan.queue);
            && (Found(env, plan, w, id) <==> id in byId)
            && (id in byId ==> (Parses(env, plan, w, id) <==> BodyParses(env, byId[id].payload)))
  {
    var scanned := Scanned(plan, w.queues);
    var k := ByIdIsLast(env, scanned, plan.queue, id);
    if id in ById(env.hash, scanned, plan.queue) {
      forall l | LastOf(env, scanned, id, l) ensures l == k {
        LastIsOne(env, scanned, id, k, l);
      }
    }
  }

  lemma AskingIsNeeded(env: Env, plan: Plan, w: World)
    ensures AsksTheTrail(env, plan, w) <==>
              AnyAsksForEvidence(env, plan, ById(env.hash, Scanned(plan, w.queues), plan.queue), plan.messageIds)
  {
    forall id ensures var byId := ById(env.hash, Scanned(plan, w.queues), plan.queue);
                      (Found(env, plan, w, id) <==> id in byId)
                      && (id in byId ==> (Parses(env, plan, w, id) <==> BodyParses(env, byId[id].payload)))
    {
      FoundAndParses(env, plan, w, id);
    }
    if AsksTheTrail(env, plan, w) {
      var id :| id in plan.messageIds && Found(env, plan, w, id)
                && (SchemaValidated in plan.checks ==> Parses(env, plan, w, id));
      var i :| 0 <= i < |plan.messageIds| && plan.messageIds[i] == id;
    }
  }

  /** The gate: confirmed, with declared checks, a destination that is empty or answers the probe and
      exists, and a usable rate limit. */
  predicate PassesGate(plan: Plan, opts: Options, faults: Faults, w: World) {
    && opts.confirm && plan.checks != []
    && (plan.destination == "" || (!faults.probe && plan.destination in w.queues))
    && !faults.badRate
  }

  /** The validation that follows: the scan works, a declared destination check finds a destination
      and its figures, and the trail answers if it has to be asked. */
  ghost predicate PassesValidation(env: Env, plan: Plan, faults: Faults, w: World) {
    && !faults.scan
    && (DestinationChecked in plan.checks ==> plan.destination != "" && !faults.stats)
    && (faults.query ==> !AsksTheTrail(env, plan, w))
  }

  /** Which error stops a run: the first obstacle in this order. */
  ghost predicate StoppedBy(env: Env, plan: Plan, opts: Options, faults: Faults, w: World, e: Error) {
    match e
    case ConfirmRequired => !opts.confirm
    case NoSafetyChecks => opts.confirm && plan.checks == []
    case ProbeFailed => opts.confirm && plan.checks != [] && plan.destination != "" && faults.probe
    case DestinationMissing =>
      && opts.confirm && plan.checks != []
      && plan.destination != "" && !faults.probe && plan.destination !in w.queues
    case BadRateLimit =>
      && opts.confirm && plan.checks != []
      && (plan.destination == "" || (!faults.probe && plan.destination in w.queues)) && faults.badRate
    case ScanFailed => PassesGate(plan, opts, faults, w) && faults.scan
    case NoDestination =>
      PassesGate(plan, opts, faults, w) && !faults.scan && DestinationChecked in plan.checks && plan.destination == ""
    case StatsFailed =>
      && PassesGate(plan, opts, faults, w) && !faults.scan
      && DestinationChecked in plan.checks && plan.destination != "" && faults.stats
    case DuplicateCheckFailed =>
      && PassesGate(plan, opts, faults, w) && !faults.scan
      && (DestinationChecked in plan.checks ==> plan.destination != "" && !faults.stats)
      && faults.query && AsksTheTrail(env, plan, w)
  }

  /** A run gets to its batches exactly when it passes the gate and the validation, stops with the
      first obstacle otherwise, and then leaves everything as it was but for one entry about a
      destination that does not exist. */
  lemma {:induction false} RunsIffAdmitted(env: Env, plan: Plan, opts: Options, faults: Faults,
                                           sched: seq<seq<Action>>, w: World)
    requires BatchSize(plan, opts) >= 1 && Execute(env, plan, opts, faults, sched, w).Some?
    ensures var f := Execute(env, plan, opts, faults, sched, w).value;
            && (f.verdict.Done? <==> PassesGate(plan, opts, faults, w) && PassesValidation(env, plan, faults, w))
            && (f.verdict.Stopped? ==>
                  StoppedBy(env, plan, opts, faults, w, f.verdict.error) && LeftAsItWas(env, plan, w, f))
  {
    AskingIsNeeded(env, plan, w);
  }

  ghost predicate LeftAsItWas(env: Env, plan: Plan, w: World, f: Final)
    requires f.verdict.Stopped?
  {
    && f.world.queues == w.queues && f.world.tables.snapshots == w.tables.snapshots
    && f.progress.processed == [] && f.progress.removed == [] && f.progress.delivered == []
    && if f.verdict.error == DestinationMissing && env.writable(w.tables.writes)
       then |f.world.tables.entries| == |w.tables.entries| + 1 && w.tables.entries <= f.world.tables.entries
            && IsRefusalOf(plan, f.world.tables.entries[|w.tables.entries|])
       else f.world.tables.entries == w.tables.entries
  }

  predicate IsRefusalOf(plan: Plan, e: Entry) {
    && e.action == Recover && e.planId == plan.id && e.messageId == "" && e.sourceQueue == plan.queue
    && e.destination == plan.destination && e.result == Refused
  }

  // --- Which messages are skipped -----------------------------------------------------------------

  /** A prior replay or recovery of the message, confirmed and successful. */
  predicate ReplayedBefore(entries: seq<Entry>, id: string) {
    exists e :: e in entries && e.messageId == id && e.action in {Replay, Recover} && e.confirmed && e.result == Success
  }

  lemma {:induction false} EvidenceMeans(entries: seq<Entry>, id: string)
    ensures |ReplayedEntries(entries, id)| > 0 <==> ReplayedBefore(entries, id)
  {
    EvidenceIsCount(entries, id);
    FilterSize(entries, ReplayOf(id));
    var kept := Filter(entries, ReplayOf(id));
    if |kept| > 0 {
      assert kept[0] in kept;
    }
  }

  ghost predicate SkippedFor(env: Env, plan: Plan, w: World, id: string, r: SkipReason) {
    match r
    case NotFound => !Found(env, plan, w, id)
    case Invalid => Found(env, plan, w, id) && SchemaValidated in plan.checks && !Parses(env, plan, w, id)
    case Duplicate =>
      && Found(env, plan, w, id) && (SchemaValidated in plan.checks ==> Parses(env, plan, w, id))
      && DuplicateChecked in plan.checks && ReplayedBefore(w.tables.entries, id)
  }

  /** A planned ID is skipped exactly when it is not in the scanned part of the queue, when its last
      message there does not parse and that is checked, or when it was replayed before and that is
      checked; the first of these is the reason. All others are attempted. */
  lemma {:induction false} SkippedExactly(env: Env, plan: Plan, w: World, id: string)
    requires id in plan.messageIds
    ensures forall r :: SkippedMessage(id, r) in Skips(env, plan, w.queues, w.tables.entries) <==>
                          SkippedFor(env, plan, w, id, r)
    ensures id in Attemptable(env, plan, w) <==> forall r :: !SkippedFor(env, plan, w, id, r)
  {
    var byId := ById(env.hash, Scanned(plan, w.queues), plan.queue);
    forall r ensures SkipOf(env, plan, byId, w.tables.entries, id) == Some(r) <==> SkippedFor(env, plan, w, id, r) {
      SkipIsFor(env, plan, w, id, r);
    }
    SkipListed(env, plan, byId, w.tables.entries, plan.messageIds, id);
    FilterSize(plan.messageIds, Passes(env, plan, byId, w.tables.entries));
  }

  lemma SkipIsFor(env: Env, plan: Plan, w: World, id: string, r: SkipReason)
    ensures SkipOf(env, plan, ById(env.hash, Scanned(plan, w.queues), plan.queue), w.tables.entries, id) == Some(r)
       <==> SkippedFor(env, plan, w, id, r)
  {
    var byId := ById(env.hash, Scanned(plan, w.queues), plan.queue);
    SkipFirstReason(env, plan, byId, w.tables.entries, id, r);
    Translate(env, plan, w, byId, id, r);
  }

  /** The reasons in terms of the scanned messages by their IDs. */
  predicate Applies(env: Env, plan: Plan, byId: map<string, Message>, entries: seq<Entry>, id: string, r: SkipReason) {
    match r
    case NotFound => id !in byId
    case Invalid => id in byId && SchemaValidated in plan.checks && !BodyParses(env, byId[id].payload)
    case Duplicate =>
      && id in byId && (SchemaValidated in plan.checks ==> BodyParses(env, byId[id].payload))
      && DuplicateChecked in plan.checks && |ReplayedEntries(entries, id)| > 0
  }

  lemma Translate(env: Env, plan: Plan, w: World, byId: map<string, Message>, id: string, r: SkipReason)
    requires byId == ById(env.hash, Scanned(plan, w.queues), plan.queue)
    ensures SkippedFor(env, plan, w, id, r) <==> Applies(env, plan, byId, w.tables.entries, id, r)
  {
    FoundAndParses(env, plan, w, id);
    EvidenceMeans(w.tables.entries, id);
  }

  lemma SkipFirstReason(env: Env, plan: Plan, byId: map<string, Message>, entries: seq<Entry>, id: string,
                        r: SkipReason)
    requires id in byId ==> byId[id].id == id
    ensures SkipOf(env, plan, byId, entries, id) == Some(r) <==> Applies(env, plan, byId, entries, id, r)
  {
  }

  lemma {:induction false} SkipListed(env: Env, plan: Plan, byId: map<string, Message>, entries: seq<Entry>,
                                      ids: seq<string>, id: string)
    ensures forall r :: SkippedMessage(id, r) in SkipsAmong(env, plan, byId, entries, ids) <==>
                          id in ids && SkipOf(env, plan, byId, entries, id) == Some(r)
  {
    if ids != [] {
      var init, last := ids[..|ids| - 1], ids[|ids| - 1];
      SkipListed(env, plan, byId, entries, init, id);
      assert forall x :: x in ids <==> x in init || x == last;
    }
  }

  // --- What a resumed run drops ----------------------------------------------------------------------

  function NotReplayedIn(entries: seq<Entry>): string -> bool {
    id => !ReplayedBefore(entries, id)
  }

  lemma {:induction false} StillOpenExactly(ids: seq<string>, entries: seq<Entry>, answered: nat -> bool)
    requires forall i :: 0 <= i < |ids| ==> answered(i)
    ensures StillOpen(ids, entries, answered) == Filter(ids, NotReplayedIn(entries))
  {
    if ids != [] {
      var n := |ids| - 1;
      StillOpenExactly(ids[..n], entries, answered);
      EvidenceMeans(entries, ids[n]);
    }
  }

  /** Without the resume flag everything that validation lets through is attempted; with it, and with
      every query answered, exactly what has not been replayed before. */
  lemma {:induction false} ResumeExactly(env: Env, plan: Plan, opts: Options, w: World)
    ensures !opts.resume ==> AttemptList(env, plan, opts, w) == Attemptable(env, plan, w)
    ensures opts.resume && (forall i: nat :: env.answered(w.tables.writes, i)) ==>
              AttemptList(env, plan, opts, w) == Filter(Attemptable(env, plan, w), NotReplayedIn(w.tables.entries))
  {
    if opts.resume && forall i: nat :: env.answered(w.tables.writes, i) {
      StillOpenExactly(Attemptable(env, plan, w), w.tables.entries, Answers(env, w.tables.writes));
    }
  }

  /** How deep the queue is looked at: all of it, or the first 10000 messages, or twice as many as
      are planned if that is more. */
  lemma ScanIsDeepEnough(plan: Plan, queues: map<string, seq<Delivery>>)
    requires plan.queue in queues
    ensures var n := if 2 * |plan.messageIds| > 10000 then 2 * |plan.messageIds| else 10000;
            Scanned(plan, queues) == if |queues[plan.queue]| <= n then queues[plan.queue] else queues[plan.queue][..n]
  {
  }
}
