// internal/recovery/validator.go and the plan type of planner.go: which planned messages a run
// must skip, decided against the queue and the audit trail as they are now.
module Validator {
  import opened Seqs
  import opened Mapper
  import opened Audit
  import opened Pool

  datatype Check = SchemaValidated | DuplicateChecked | DestinationChecked | OtherCheck(name: string)

  datatype Limits = Limits(batchSize: int, concurrency: int)

  datatype Excluded = Excluded(messageId: string, reason: string)

  datatype Plan = Plan(id: string, queue: string, groupId: string, messageIds: seq<string>,
                       excluded: seq<Excluded>, destination: string, limits: Limits, checks: seq<Check>)

  /** What the model takes from outside: the hash, JSON syntax, which store writes succeed, what the
      clock says at each, and which of the queries made after so many writes are answered. */
  datatype Env = Env(hash: Hash, jsonValid: string -> bool, writable: Writable, clock: Clock,
                     answered: (nat, nat) -> bool)

  /** What goes wrong before anything is changed, other than what the state itself decides, and how
      many messages the destination reports as unacknowledged. */
  datatype Faults = Faults(badRate: bool, probe: bool, scan: bool, stats: bool, query: bool, pending: int)

  datatype SkipReason = NotFound | Invalid | Duplicate

  datatype SkippedMessage = SkippedMessage(messageId: string, reason: SkipReason)

  datatype Error =
    | ConfirmRequired | NoSafetyChecks | DestinationMissing | ProbeFailed | BadRateLimit
    | ScanFailed | NoDestination | StatsFailed | DuplicateCheckFailed

  /** What a dry run warns about: a destination that does not exist, or one with a backlog. */
  datatype Warning = NoSuchDestination(queue: string) | Backlog(queue: string, pending: int)

  datatype Report = Report(selected: nat, validated: nat, duplicates: nat, skipped: nat, toReplay: int,
                           skippedMessages: seq<SkippedMessage>, destinationMissing: bool,
                           destinationPending: int, warnings: seq<Warning>)

  const DEFAULT_PENDING_THRESHOLD := 100

  function PendingThreshold(configured: int): int {
    if configured > 0 then configured else DEFAULT_PENDING_THRESHOLD
  }

  datatype Validation = Valid(report: Report) | Rejected(error: Error)

  function ScanLimit(plan: Plan): nat {
    if 2 * |plan.messageIds| < 10000 then 10000 else 2 * |plan.messageIds|
  }

  /** The messages the bounded scan sees, oldest first. */
  function Scanned(plan: Plan, queues: map<string, seq<Delivery>>): seq<Delivery> {
    var q := QueueOf(queues, plan.queue);
    if |q| <= ScanLimit(plan) then q else q[..ScanLimit(plan)]
  }

  /** Indexed by ID; a later message overwrites an earlier one with the same ID. */
  function ById(hash: Hash, scanned: seq<Delivery>, queue: string): (m: map<string, Message>)
    ensures forall id :: id in m ==> m[id].id == id
    ensures forall id :: id in m <==> exists d :: d in scanned && IdOf(hash, d) == id
  {
    if scanned == [] then map[]
    else
      var last := scanned[|scanned| - 1];
      assert forall d :: d in scanned <==> d in scanned[..|scanned| - 1] || d == last;
      ById(hash, scanned[..|scanned| - 1], queue)[IdOf(hash, last) := ToMessage(hash, last, queue)]
  }

  predicate SchemaValid(env: Env, m: Message) {
    m.payload == "" || env.jsonValid(m.payload)
  }

  /** Why one planned ID is skipped, if it is: a function of the ID alone. */
  function SkipOf(env: Env, plan: Plan, byId: map<string, Message>, entries: seq<Entry>,
                  id: string): Option<SkipReason> {
    if id !in byId then Some(NotFound)
    else if SchemaValidated in plan.checks && !SchemaValid(env, byId[id]) then Some(Invalid)
    else if DuplicateChecked in plan.checks && |ReplayedEntries(entries, byId[id].id)| > 0 then Some(Duplicate)
    else None
  }

  function AsSkipped(id: string, skip: Option<SkipReason>): seq<SkippedMessage> {
    if skip.Some? then [SkippedMessage(id, skip.value)] else []
  }

  function SkipsAmong(env: Env, plan: Plan, byId: map<string, Message>, entries: seq<Entry>,
                      ids: seq<string>): seq<SkippedMessage> {
    if ids == [] then []
    else
      var id := ids[|ids| - 1];
      SkipsAmong(env, plan, byId, entries, ids[..|ids| - 1]) + AsSkipped(id, SkipOf(env, plan, byId, entries, id))
  }

  function Skips(env: Env, plan: Plan, queues: map<string, seq<Delivery>>, entries: seq<Entry>): seq<SkippedMessage> {
    SkipsAmong(env, plan, ById(env.hash, Scanned(plan, queues), plan.queue), entries, plan.messageIds)
  }

  function IsSkipped(env: Env, plan: Plan, byId: map<string, Message>, entries: seq<Entry>): string -> bool {
    id => SkipOf(env, plan, byId, entries, id).Some?
  }

  /** An ID appears among the skips exactly when it is planned and skipped; every occurrence of a
      repeated ID is skipped or none is. */
  lemma {:induction false} SkipsAreThoseSkipped(env: Env, plan: Plan, byId: map<string, Message>, entries: seq<Entry>,
                                                ids: seq<string>)
    ensures |SkipsAmong(env, plan, byId, entries, ids)| == Count(ids, IsSkipped(env, plan, byId, entries))
    ensures forall id :: (exists s :: s in SkipsAmong(env, plan, byId, entries, ids) && s.messageId == id)
                   <==> id in ids && SkipOf(env, plan, byId, entries, id).Some?
  {
    if ids != [] {
      var init, last := ids[..|ids| - 1], ids[|ids| - 1];
      SkipsAreThoseSkipped(env, plan, byId, entries, init);
      var skips := SkipsAmong(env, plan, byId, entries, init);
      var all := SkipsAmong(env, plan, byId, entries, ids);
      var skip := SkipOf(env, plan, byId, entries, last);
      assert forall id :: id in ids <==> id in init || id == last;
      assert forall s :: s in all <==> s in skips || (skip.Some? && s == SkippedMessage(last, skip.value));
      forall id ensures (exists s :: s in all && s.messageId == id)
                   <==> id in ids && SkipOf(env, plan, byId, entries, id).Some?
      {
        if id == last && skip.Some? {
          assert SkippedMessage(last, skip.value) in all;
        } else {
          assert (exists s :: s in all && s.messageId == id) <==> (exists s :: s in skips && s.messageId == id);
        }
      }
    }
  }

  function SkippedIds(skips: seq<SkippedMessage>): set<string> {
    set s | s in skips :: s.messageId
  }

  /** Looking an ID up among the skips tells whether it was skipped. */
  lemma SkippedIdsDecide(env: Env, plan: Plan, byId: map<string, Message>, entries: seq<Entry>, ids: seq<string>,
                         id: string)
    requires id in ids
    ensures id !in SkippedIds(SkipsAmong(env, plan, byId, entries, ids)) <==> Passes(env, plan, byId, entries)(id)
  {
    SkipsAreThoseSkipped(env, plan, byId, entries, ids);
    var skips := SkipsAmong(env, plan, byId, entries, ids);
    assert id in SkippedIds(skips) <==> exists s :: s in skips && s.messageId == id;
  }

  function Passes(env: Env, plan: Plan, byId: map<string, Message>, entries: seq<Entry>): string -> bool {
    id => SkipOf(env, plan, byId, entries, id).None?
  }

  /** The attempt list: the planned IDs, in order, that validation does not skip. */
  function Attempt(env: Env, plan: Plan, byId: map<string, Message>, entries: seq<Entry>): seq<string> {
    Filter(plan.messageIds, Passes(env, plan, byId, entries))
  }

  /** Skipped and attempted positions add up to the plan, repeated IDs included. */
  lemma {:induction false} SkippedPlusAttempted(ids: seq<string>, skip: string -> bool)
    ensures Count(ids, skip) + |Filter(ids, id => !skip(id))| == |ids|
  {
    if ids != [] {
      SkippedPlusAttempted(ids[..|ids| - 1], skip);
    }
  }

  /** The ID gets as far as the duplicate lookup. */
  predicate AsksForEvidence(env: Env, plan: Plan, byId: map<string, Message>, id: string) {
    && DuplicateChecked in plan.checks && id in byId
    && (SchemaValidated in plan.checks ==> SchemaValid(env, byId[id]))
  }

  predicate AnyAsksForEvidence(env: Env, plan: Plan, byId: map<string, Message>, ids: seq<string>) {
    exists id :: id in ids && AsksForEvidence(env, plan, byId, id)
  }

  lemma AsksNext(env: Env, plan: Plan, byId: map<string, Message>, ids: seq<string>, i: nat)
    requires i < |ids|
    ensures AnyAsksForEvidence(env, plan, byId, ids[..i + 1]) <==>
              AnyAsksForEvidence(env, plan, byId, ids[..i]) || AsksForEvidence(env, plan, byId, ids[i])
  {
    SliceSnoc(ids, i);
  }

  lemma AsksSoon(env: Env, plan: Plan, byId: map<string, Message>, ids: seq<string>, i: nat)
    requires i <= |ids| && AnyAsksForEvidence(env, plan, byId, ids[..i])
    ensures AnyAsksForEvidence(env, plan, byId, ids)
  {
  }

  /** The error that rejects a plan, in the order the code meets them. */
  function ValidationError(env: Env, plan: Plan, faults: Faults, queues: map<string, seq<Delivery>>): Option<Error> {
    if plan.checks == [] then Some(NoSafetyChecks)
    else if faults.scan then Some(ScanFailed)
    else if DestinationChecked in plan.checks && plan.destination == "" then Some(NoDestination)
    else if DestinationChecked in plan.checks && faults.stats then Some(StatsFailed)
    else if faults.query
         && AnyAsksForEvidence(env, plan, ById(env.hash, Scanned(plan, queues), plan.queue), plan.messageIds)
    then Some(DuplicateCheckFailed)
    else None
  }

  method Contains(list: seq<Check>, c: Check) returns (found: bool)
    ensures found <==> c in list
  {
    for i := 0 to |list|
      invariant c !in list[..i]
    {
      if list[i] == c {
        return true;
      }
    }
    return false;
  }

  /** The checks on one planned ID; `failed` when the audit lookup it needs cannot be made. */
  method CheckOne(env: Env, plan: Plan, query: bool, byId: map<string, Message>, store: Store, id: string,
                  checkSchema: bool, checkDuplicate: bool)
    returns (skip: Option<SkipReason>, failed: bool)
    requires checkSchema == (SchemaValidated in plan.checks)
    requires checkDuplicate == (DuplicateChecked in plan.checks)
    requires id in byId ==> byId[id].id == id
    ensures failed <==> query && AsksForEvidence(env, plan, byId, id)
    ensures !failed ==> skip == SkipOf(env, plan, byId, store.entries, id)
  {
    if id !in byId {
      return Some(NotFound), false;
    }
    if checkSchema && !SchemaValid(env, byId[id]) {
      return Some(Invalid), false;
    }
    if checkDuplicate {
      if query {
        return None, true;
      }
      var evidence := store.Replayed(byId[id].id);
      if |evidence| > 0 {
        return Some(Duplicate), false;
      }
    }
    return None, false;
  }

  function IsDuplicate(): SkippedMessage -> bool {
    (s: SkippedMessage) => s.reason == Duplicate
  }

  /** The counters after `n` IDs: a duplicate is validated and skipped, other skips are not validated. */
  predicate Counted(skips: seq<SkippedMessage>, validated: nat, duplicates: nat, n: nat) {
    validated + |skips| == n + duplicates && duplicates == Count(skips, IsDuplicate()) && |skips| <= n
  }

  /** What the loop has after the first `n` IDs. */
  predicate Checked(env: Env, plan: Plan, byId: map<string, Message>, entries: seq<Entry>, n: nat,
                    skips: seq<SkippedMessage>, validated: nat, duplicates: nat)
    requires n <= |plan.messageIds|
  {
    skips == SkipsAmong(env, plan, byId, entries, plan.messageIds[..n]) && Counted(skips, validated, duplicates, n)
  }

  lemma OneMoreChecked(env: Env, plan: Plan, byId: map<string, Message>, entries: seq<Entry>, n: nat,
                       skips: seq<SkippedMessage>, validated: nat, duplicates: nat)
    requires n < |plan.messageIds| && Checked(env, plan, byId, entries, n, skips, validated, duplicates)
    ensures var skip := SkipOf(env, plan, byId, entries, plan.messageIds[n]);
            Checked(env, plan, byId, entries, n + 1, skips + AsSkipped(plan.messageIds[n], skip),
                    validated + (if skip.None? || skip == Some(Duplicate) then 1 else 0),
                    duplicates + (if skip == Some(Duplicate) then 1 else 0))
  {
    var skip := SkipOf(env, plan, byId, entries, plan.messageIds[n]);
    assert plan.messageIds[..n + 1][..n] == plan.messageIds[..n];
    if skip.Some? {
      CountSnoc(skips, SkippedMessage(plan.messageIds[n], skip.value), IsDuplicate());
    } else {
      assert skips + [] == skips;
    }
  }

  lemma NothingChecked(env: Env, plan: Plan, byId: map<string, Message>, entries: seq<Entry>)
    ensures Checked(env, plan, byId, entries, 0, [], 0, 0)
  {
  }

  lemma EverythingChecked(env: Env, plan: Plan, byId: map<string, Message>, entries: seq<Entry>,
                          skips: seq<SkippedMessage>, validated: nat, duplicates: nat)
    requires Checked(env, plan, byId, entries, |plan.messageIds|, skips, validated, duplicates)
    ensures skips == SkipsAmong(env, plan, byId, entries, plan.messageIds)
    ensures Counted(skips, validated, duplicates, |plan.messageIds|)
  {
    assert plan.messageIds[..|plan.messageIds|] == plan.messageIds;
  }

  /** One planned ID, and the counters after it. */
  method CheckNext(env: Env, plan: Plan, query: bool, byId: map<string, Message>, store: Store, n: nat,
                   checkSchema: bool, checkDuplicate: bool, skips: seq<SkippedMessage>, validated: nat, duplicates: nat)
    returns (newSkips: seq<SkippedMessage>, newValidated: nat, newDuplicates: nat, failed: bool)
    requires forall id :: id in byId ==> byId[id].id == id
    requires checkSchema == (SchemaValidated in plan.checks)
    requires checkDuplicate == (DuplicateChecked in plan.checks)
    requires n < |plan.messageIds| && Checked(env, plan, byId, store.entries, n, skips, validated, duplicates)
    ensures failed <==> query && AsksForEvidence(env, plan, byId, plan.messageIds[n])
    ensures !failed ==> Checked(env, plan, byId, store.entries, n + 1, newSkips, newValidated, newDuplicates)
  {
    var id := plan.messageIds[n];
    newSkips, newValidated, newDuplicates := skips, validated, duplicates;
    OneMoreChecked(env, plan, byId, store.entries, n, skips, validated, duplicates);
    var skip;
    skip, failed := CheckOne(env, plan, query, byId, store, id, checkSchema, checkDuplicate);
    if failed {
      return;
    }
    if skip.None? || skip == Some(Duplicate) {
      newValidated := validated + 1;
    }
    if skip == Some(Duplicate) {
      newDuplicates := duplicates + 1;
    }
    newSkips := skips + AsSkipped(id, skip);
  }

  /** The loop over the planned IDs. */
  method CheckAll(env: Env, plan: Plan, query: bool, byId: map<string, Message>, store: Store)
    returns (skips: seq<SkippedMessage>, validated: nat, duplicates: nat, failed: bool)
    requires forall id :: id in byId ==> byId[id].id == id
    ensures failed <==> query && AnyAsksForEvidence(env, plan, byId, plan.messageIds)
    ensures !failed ==> Checked(env, plan, byId, store.entries, |plan.messageIds|, skips, validated, duplicates)
  {
    skips, validated, duplicates, failed := [], 0, 0, false;
    NothingChecked(env, plan, byId, store.entries);
    var checkSchema := Contains(plan.checks, SchemaValidated);
    var checkDuplicate := Contains(plan.checks, DuplicateChecked);
    for i := 0 to |plan.messageIds|
      invariant Checked(env, plan, byId, store.entries, i, skips, validated, duplicates)
      invariant query ==> !AnyAsksForEvidence(env, plan, byId, plan.messageIds[..i])
    {
      AsksNext(env, plan, byId, plan.messageIds, i);
      skips, validated, duplicates, failed := CheckNext(env, plan, query, byId, store, i, checkSchema, checkDuplicate,
                                                        skips, validated, duplicates);
      if failed {
        AsksSoon(env, plan, byId, plan.messageIds, i + 1);
        return;
      }
    }
    assert plan.messageIds[..|plan.messageIds|] == plan.messageIds;
  }

  predicate Backlogged(plan: Plan, threshold: int, faults: Faults, queues: map<string, seq<Delivery>>) {
    DestinationChecked in plan.checks && plan.destination in queues && faults.pending >= PendingThreshold(threshold)
  }

  /** Strictly read-only: the report is a function of the plan, the queue and the audit trail. */
  method Validate(env: Env, plan: Plan, threshold: int, faults: Faults, queues: map<string, seq<Delivery>>,
                  store: Store)
    returns (v: Validation)
    ensures v.Rejected? <==> ValidationError(env, plan, faults, queues).Some?
    ensures v.Rejected? ==> ValidationError(env, plan, faults, queues) == Some(v.error)
    ensures v.Valid? ==>
      && v.report.skippedMessages == Skips(env, plan, queues, store.entries)
      && v.report.selected == |plan.messageIds|
      && v.report.skipped == |v.report.skippedMessages|
      && v.report.toReplay == |plan.messageIds| - v.report.skipped >= 0
      && v.report.duplicates == Count(v.report.skippedMessages, IsDuplicate())
      && v.report.validated + v.report.skipped == |plan.messageIds| + v.report.duplicates
      && v.report.destinationMissing == (DestinationChecked in plan.checks && plan.destination !in queues)
      && v.report.destinationPending ==
           (if DestinationChecked in plan.checks && plan.destination in queues
               && faults.pending >= (if threshold >= 1 then threshold else 100)
            then faults.pending else 0)
      && v.report.warnings == (if v.report.destinationMissing then [NoSuchDestination(plan.destination)]
                               else if Backlogged(plan, threshold, faults, queues)
                                 then [Backlog(plan.destination, faults.pending)]
                               else [])
  {
    if |plan.checks| == 0 {
      return Rejected(NoSafetyChecks);
    }
    if faults.scan {
      return Rejected(ScanFailed);
    }
    var missing, pending, warnings := false, 0, [];
    var checkDestination := Contains(plan.checks, DestinationChecked);
    if checkDestination {
      if plan.destination == "" {
        return Rejected(NoDestination);
      }
      if faults.stats {
        return Rejected(StatsFailed);
      }
      if plan.destination !in queues {
        missing, warnings := true, [NoSuchDestination(plan.destination)];
      } else if faults.pending >= PendingThreshold(threshold) {
        pending, warnings := faults.pending, [Backlog(plan.destination, faults.pending)];
      }
    }
    var byId := ById(env.hash, Scanned(plan, queues), plan.queue);
    var skips, validated, duplicates, failed := CheckAll(env, plan, faults.query, byId, store);
    if failed {
      return Rejected(DuplicateCheckFailed);
    }
    EverythingChecked(env, plan, byId, store.entries, skips, validated, duplicates);
    return Valid(Report(|plan.messageIds|, validated, duplicates, |skips|, |plan.messageIds| - |skips|, skips,
                        missing, pending, warnings));
  }
}
