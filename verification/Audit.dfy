// internal/audit/store.go: the append-only audit and snapshot tables and their queries.
module Audit {
  import opened Seqs

  datatype Operation = Patch | Replay | Recover | Rollback

  datatype Result =
    | Success | FailedPublish | FailedAck | Skipped | Refused | Tripped | Completed | Failed

  datatype Entry = Entry(action: Operation, planId: string, messageId: string, sourceQueue: string,
                         destination: string, confirmed: bool, result: Result, detail: string)

  datatype Snapshot = Snapshot(planId: string, messageId: string, sourceQueue: string,
                               destination: string, payload: string, contentType: string,
                               headers: map<string, string>, takenAt: int)

  /** The two tables, and how many writes have been attempted so far. */
  datatype Tables = Tables(entries: seq<Entry>, snapshots: seq<Snapshot>, writes: nat)

  const EMPTY := Tables([], [], 0)

  /** Which of the store's writes succeed, by ordinal: a failed write is ignored by every caller. */
  type Writable = nat -> bool

  /** What the clock says when the n-th write is made. */
  type Clock = nat -> int

  function Append(writable: Writable, t: Tables, e: Entry): Tables {
    t.(entries := if writable(t.writes) then t.entries + [e] else t.entries, writes := t.writes + 1)
  }

  function SaveSnapshot(writable: Writable, t: Tables, s: Snapshot): Tables {
    t.(snapshots := if writable(t.writes) then t.snapshots + [s] else t.snapshots, writes := t.writes + 1)
  }

  function AppendAll(writable: Writable, t: Tables, es: seq<Entry>): Tables {
    if es == [] then t
    else Append(writable, AppendAll(writable, t, es[..|es| - 1]), es[|es| - 1])
  }

  /** Duplicate evidence: a confirmed, successful replay or recovery of this message. */
  predicate IsReplayOf(e: Entry, id: string) {
    e.messageId == id && (e.action == Replay || e.action == Recover) && e.confirmed && e.result == Success
  }

  function ReplayOf(id: string): Entry -> bool {
    (e: Entry) => IsReplayOf(e, id)
  }

  function IsOfPlan(planId: string): Snapshot -> bool {
    (s: Snapshot) => s.planId == planId
  }

  function Reverse<T>(s: seq<T>): seq<T> {
    if s == [] then [] else [s[|s| - 1]] + Reverse(s[..|s| - 1])
  }

  function ReplayedEntries(entries: seq<Entry>, id: string): seq<Entry> {
    Reverse(Filter(entries, ReplayOf(id)))
  }

  lemma {:induction false} ReverseSize<T>(s: seq<T>)
    ensures |Reverse(s)| == |s|
  {
    if s != [] {
      ReverseSize(s[..|s| - 1]);
    }
  }

  /** What was written last comes first. */
  lemma {:induction false} ReverseIndex<T>(s: seq<T>)
    ensures |Reverse(s)| == |s| && forall i :: 0 <= i < |s| ==> Reverse(s)[i] == s[|s| - 1 - i]
  {
    if s != [] {
      ReverseIndex(s[..|s| - 1]);
    }
  }

  /** There is duplicate evidence for an ID exactly when some entry is a replay of it. */
  lemma EvidenceIsCount(entries: seq<Entry>, id: string)
    ensures |ReplayedEntries(entries, id)| == Count(entries, ReplayOf(id))
  {
    FilterSize(entries, ReplayOf(id));
    ReverseSize(Filter(entries, ReplayOf(id)));
  }

  class Store {
    var entries: seq<Entry>
    var snapshots: seq<Snapshot>
    var writes: nat
    const writable: Writable

    function Contents(): Tables
      reads this
    {
      Tables(entries, snapshots, writes)
    }

    constructor (writable: Writable)
      ensures Contents() == EMPTY && this.writable == writable
    {
      entries, snapshots, writes := [], [], 0;
      this.writable := writable;
    }

    method AppendEntry(e: Entry) returns (ok: bool)
      modifies this
      ensures Contents() == Append(writable, old(Contents()), e)
      ensures ok == writable(old(writes)) && writes == old(writes) + 1 && snapshots == old(snapshots)
      ensures entries == if ok then old(entries) + [e] else old(entries)
    {
      ok := writable(writes);
      writes := writes + 1;
      if ok {
        entries := entries + [e];
      }
    }

    method Save(s: Snapshot) returns (ok: bool)
      modifies this
      ensures Contents() == SaveSnapshot(writable, old(Contents()), s)
      ensures ok == writable(old(writes)) && writes == old(writes) + 1 && entries == old(entries)
      ensures snapshots == if ok then old(snapshots) + [s] else old(snapshots)
    {
      ok := writable(writes);
      writes := writes + 1;
      if ok {
        snapshots := snapshots + [s];
      }
    }

    /** Oldest first: exactly the snapshots of one plan, in the order they were taken. */
    method Snapshots(planId: string) returns (out: seq<Snapshot>)
      ensures out == Filter(snapshots, IsOfPlan(planId))
      ensures forall s :: s in out <==> s in snapshots && s.planId == planId
    {
      out := [];
      for i := 0 to |snapshots|
        invariant out == Filter(snapshots[..i], IsOfPlan(planId))
      {
        assert snapshots[..i + 1][..i] == snapshots[..i];
        if snapshots[i].planId == planId {
          out := out + [snapshots[i]];
        }
      }
      assert snapshots[..|snapshots|] == snapshots;
      FilterSize(snapshots, IsOfPlan(planId));
    }

    /** Newest first. */
    method Replayed(id: string) returns (out: seq<Entry>)
      ensures out == ReplayedEntries(entries, id)
      ensures |out| == Count(entries, ReplayOf(id))
      ensures var found := Filter(entries, ReplayOf(id));
              |out| == |found| && forall i :: 0 <= i < |out| ==> out[i] == found[|out| - 1 - i]
    {
      out := [];
      for i := 0 to |entries|
        invariant out == ReplayedEntries(entries[..i], id)
      {
        assert entries[..i + 1][..i] == entries[..i];
        ghost var kept := Filter(entries[..i], ReplayOf(id));
        if IsReplayOf(entries[i], id) {
          assert (kept + [entries[i]])[..|kept|] == kept;
          out := [entries[i]] + out;
        } else {
          assert Filter(entries[..i + 1], ReplayOf(id)) == kept;
        }
      }
      assert entries[..|entries|] == entries;
      EvidenceIsCount(entries, id);
      ReverseIndex(Filter(entries, ReplayOf(id)));
    }
  }
}
