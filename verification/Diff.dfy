// internal/patch/diff.go: the structural difference of two documents, as edits at key paths.
module Diff {
  import opened Seqs
  import opened Text
  import opened Json
  import opened Patch

  datatype Edit = Remove(path: Path, value: Json) | Add(path: Path, value: Json)

  /** The same edits below a location. */
  function Below(path: Path, es: seq<Edit>): (r: seq<Edit>)
    ensures |r| == |es|
    ensures forall i :: 0 <= i < |es| ==> r[i] == es[i].(path := path + es[i].path)
  {
    seq(|es|, i requires 0 <= i < |es| => es[i].(path := path + es[i].path))
  }

  /** Changed, removed and added paths: keys in sorted order, arrays compared as a whole. */
  function DiffOf(o: Json, n: Json): seq<Edit>
    decreases o, 1, 0
  {
    if o.Obj? && n.Obj? then DiffKeys(o, n, SortedKeys(o.fields.Keys + n.fields.Keys))
    else if o != n then [Remove([], o), Add([], n)]
    else []
  }

  function DiffKeys(o: Json, n: Json, keys: seq<string>): seq<Edit>
    requires o.Obj? && n.Obj?
    decreases o, 0, |keys|
  {
    if keys == [] then []
    else DiffKeys(o, n, keys[..|keys| - 1]) + DiffKey(o, n, keys[|keys| - 1])
  }

  function DiffKey(o: Json, n: Json, k: string): seq<Edit>
    requires o.Obj? && n.Obj?
    decreases o, 0, 0
  {
    if k in o.fields && k in n.fields then Below([k], DiffOf(o.fields[k], n.fields[k]))
    else if k in n.fields then [Add([k], n.fields[k])]
    else if k in o.fields then [Remove([k], o.fields[k])]
    else []
  }

  // --- As the code does it: one shared slice of lines ------------------------------------------

  class Lines {
    var edits: seq<Edit>

    constructor ()
      ensures edits == []
    {
      edits := [];
    }

    /** The sorted union of the keys: collected in a set, then sorted. */
    method SortedUnion(a: map<string, Json>, b: map<string, Json>) returns (keys: seq<string>)
      ensures keys == SortedKeys(a.Keys + b.Keys)
    {
      var seen := a.Keys + b.Keys;
      var rest := seen;
      keys := [];
      while rest != {}
        invariant rest <= seen && multiset(keys) + multiset(rest) == multiset(seen)
        decreases |rest|
      {
        var k :| k in rest;
        keys := keys + [k];
        rest := rest - {k};
      }
      SortingKeys(keys, seen);
      keys := SortStrings(keys);
    }

    method DiffValue(path: Path, o: Json, n: Json)
      modifies this
      ensures edits == old(edits) + Below(path, DiffOf(o, n))
      decreases o, 1
    {
      if o.Obj? && n.Obj? {
        var keys := SortedUnion(o.fields, n.fields);
        DiffMembers(path, o, n, keys);
      } else if o != n {
        edits := edits + [Remove(path, o), Add(path, n)];
        assert path + [] == path;
        assert Below(path, DiffOf(o, n)) == [Remove(path, o), Add(path, n)];
      }
    }

    /** The walk over the sorted keys. */
    method DiffMembers(path: Path, o: Json, n: Json, keys: seq<string>)
      requires o.Obj? && n.Obj? && forall k :: k in keys ==> k in o.fields || k in n.fields
      modifies this
      ensures edits == old(edits) + Below(path, DiffKeys(o, n, keys))
      decreases o, 0, 1
    {
      ghost var start := edits;
      for i := 0 to |keys|
        invariant edits == start + Below(path, DiffKeys(o, n, keys[..i]))
      {
        KeysGrow(start, path, o, n, keys, i);
        DiffMember(path, o, n, keys[i]);
      }
      assert keys[..|keys|] == keys;
    }

    /** The switch for one key: added, removed, or compared in turn. */
    method DiffMember(path: Path, o: Json, n: Json, k: string)
      requires o.Obj? && n.Obj? && (k in o.fields || k in n.fields)
      modifies this
      ensures edits == old(edits) + Below(path, DiffKey(o, n, k))
      decreases o, 0, 0
    {
      if k !in o.fields {
        edits := edits + [Add(path + [k], n.fields[k])];
      } else if k !in n.fields {
        edits := edits + [Remove(path + [k], o.fields[k])];
      } else {
        DiffValue(path + [k], o.fields[k], n.fields[k]);
        BelowBelow(path, k, DiffOf(o.fields[k], n.fields[k]));
      }
    }
  }

  lemma BelowConcat(path: Path, a: seq<Edit>, b: seq<Edit>)
    ensures Below(path, a + b) == Below(path, a) + Below(path, b)
  {
  }

  lemma KeysGrow(start: seq<Edit>, path: Path, o: Json, n: Json, keys: seq<string>, i: nat)
    requires o.Obj? && n.Obj? && i < |keys|
    ensures start + Below(path, DiffKeys(o, n, keys[..i + 1]))
         == start + Below(path, DiffKeys(o, n, keys[..i])) + Below(path, DiffKey(o, n, keys[i]))
  {
    assert keys[..i + 1][..i] == keys[..i];
    BelowConcat(path, DiffKeys(o, n, keys[..i]), DiffKey(o, n, keys[i]));
  }

  lemma BelowBelow(path: Path, k: string, es: seq<Edit>)
    ensures Below(path, Below([k], es)) == Below(path + [k], es)
  {
    forall i | 0 <= i < |es| ensures path + ([k] + es[i].path) == path + [k] + es[i].path { }
  }

  // --- Applying edits --------------------------------------------------------------------------

  /** One edit on a document that may be absent. */
  function ApplyEdit(d: Option<Json>, path: Path, e: Edit): Option<Json>
    decreases |path|
  {
    if path == [] then (if e.Add? then Some(e.value) else None)
    else if d.Some? && d.value.Obj? then
      var m := d.value.fields;
      Some(Obj(WithMember(m, path[0], ApplyEdit(Member(m, path[0]), path[1..], e))))
    else d
  }

  function Apply(d: Option<Json>, es: seq<Edit>): Option<Json> {
    if es == [] then d
    else
      var e := es[|es| - 1];
      ApplyEdit(Apply(d, es[..|es| - 1]), e.path, e)
  }

  lemma {:induction false} ApplyConcat(d: Option<Json>, a: seq<Edit>, b: seq<Edit>)
    ensures Apply(d, a + b) == Apply(Apply(d, a), b)
  {
    if b == [] {
      assert a + b == a;
    } else {
      assert (a + b)[..|a + b| - 1] == a + b[..|b| - 1];
      ApplyConcat(d, a, b[..|b| - 1]);
    }
  }

  /** An edit at a path only looks at its own path and kind. */
  lemma {:induction false} ApplyEditPath(d: Option<Json>, path: Path, e: Edit, p: Path)
    ensures ApplyEdit(d, path, e) == ApplyEdit(d, path, e.(path := p))
    decreases |path|
  {
    if path != [] && d.Some? && d.value.Obj? {
      ApplyEditPath(Member(d.value.fields, path[0]), path[1..], e, p);
    }
  }

  /** Edits below a key change that member and nothing else. */
  lemma {:induction false} ApplyBelow(m: map<string, Json>, k: string, es: seq<Edit>)
    ensures Apply(Some(Obj(m)), Below([k], es)) == Some(Obj(WithMember(m, k, Apply(Member(m, k), es))))
  {
    if es == [] {
      assert WithMember(m, k, Member(m, k)) == m;
    } else {
      var init, e := es[..|es| - 1], es[|es| - 1];
      ApplyBelow(m, k, init);
      assert Below([k], es)[..|es| - 1] == Below([k], init);
      ApplyOneBelow(m, k, Apply(Member(m, k), init), e);
    }
  }

  lemma ApplyOneBelow(m: map<string, Json>, k: string, x: Option<Json>, e: Edit)
    ensures ApplyEdit(Some(Obj(WithMember(m, k, x))), [k] + e.path, e.(path := [k] + e.path))
         == Some(Obj(WithMember(m, k, ApplyEdit(x, e.path, e))))
  {
    var m' := WithMember(m, k, x);
    assert Member(m', k) == x;
    assert ([k] + e.path)[1..] == e.path;
    ApplyEditPath(x, e.path, e, [k] + e.path);
    assert WithMember(m', k, ApplyEdit(x, e.path, e)) == WithMember(m, k, ApplyEdit(x, e.path, e));
  }

  /** After the edits for some keys, those members are the new document's, the others the old's. */
  ghost predicate Mixed(o: map<string, Json>, n: map<string, Json>, m: map<string, Json>, keys: seq<string>) {
    forall k :: Member(m, k) == if k in keys then Member(n, k) else Member(o, k)
  }

  lemma {:induction false} ApplyDiffKeys(o: Json, n: Json, keys: seq<string>) returns (m: map<string, Json>)
    requires o.Obj? && n.Obj? && Distinct(keys)
    ensures Apply(Some(o), DiffKeys(o, n, keys)) == Some(Obj(m)) && Mixed(o.fields, n.fields, m, keys)
    decreases o, 0, |keys|
  {
    if keys == [] {
      m := o.fields;
    } else {
      var init, k := keys[..|keys| - 1], keys[|keys| - 1];
      assert forall x :: x in keys <==> x in init || x == k;
      assert k !in init;
      var m0 := ApplyDiffKeys(o, n, init);
      ApplyConcat(Some(o), DiffKeys(o, n, init), DiffKey(o, n, k));
      m := WithMember(m0, k, Member(n.fields, k));
      assert Member(m0, k) == Member(o.fields, k);
      if k in o.fields && k in n.fields {
        RoundTrip(o.fields[k], n.fields[k]);
        ApplyBelow(m0, k, DiffOf(o.fields[k], n.fields[k]));
      } else {
        ApplyOne(m0, k, DiffKey(o, n, k), Member(n.fields, k));
      }
    }
  }

  lemma ApplyOne(m: map<string, Json>, k: string, es: seq<Edit>, v: Option<Json>)
    requires
      || (es == [] && v == Member(m, k))
      || (v.Some? && es == [Add([k], v.value)])
      || (v.None? && |es| == 1 && es[0].Remove? && es[0].path == [k])
    ensures Apply(Some(Obj(m)), es) == Some(Obj(WithMember(m, k, v)))
  {
    if es == [] {
      assert WithMember(m, k, v) == m;
    } else {
      assert es[..|es| - 1] == [];
      var path: Path := [k];
      assert path[1..] == [];
      assert ApplyEdit(Member(m, k), [], es[0]) == v;
    }
  }

  lemma SameMembers(m: map<string, Json>, n: map<string, Json>)
    requires forall k :: Member(m, k) == Member(n, k)
    ensures m == n
  {
    forall k ensures k in m <==> k in n {
      assert k in m <==> Member(m, k).Some?;
    }
    forall k | k in n ensures m[k] == n[k] {
      assert Member(m, k) == Some(n[k]);
    }
  }

  lemma FullyMixed(o: map<string, Json>, n: map<string, Json>, m: map<string, Json>)
    requires Mixed(o, n, m, SortedKeys(o.Keys + n.Keys))
    ensures m == n
  {
    forall k ensures Member(m, k) == Member(n, k) {
      assert k in SortedKeys(o.Keys + n.Keys) <==> k in o || k in n;
    }
    SameMembers(m, n);
  }

  /** Applying the difference to the old document yields the new one. */
  lemma {:induction false} RoundTrip(o: Json, n: Json)
    ensures Apply(Some(o), DiffOf(o, n)) == Some(n)
    decreases o, 1, 0
  {
    if o.Obj? && n.Obj? {
      var m := ApplyDiffKeys(o, n, SortedKeys(o.fields.Keys + n.fields.Keys));
      FullyMixed(o.fields, n.fields, m);
    } else if o != n {
      var es := DiffOf(o, n);
      assert es[..1] == [Remove([], o)] && es[..1][..0] == [];
    }
  }

  lemma {:induction false} SameHasNoEdits(o: Json)
    ensures DiffOf(o, o) == []
    decreases o, 1, 0
  {
    if o.Obj? {
      NoEditsAmong(o, SortedKeys(o.fields.Keys + o.fields.Keys));
    }
  }

  lemma {:induction false} NoEditsAmong(o: Json, keys: seq<string>)
    requires o.Obj?
    ensures DiffKeys(o, o, keys) == []
    decreases o, 0, |keys|
  {
    if keys != [] {
      NoEditsAmong(o, keys[..|keys| - 1]);
      if keys[|keys| - 1] in o.fields {
        SameHasNoEdits(o.fields[keys[|keys| - 1]]);
      }
    }
  }

  /** There are no edits exactly when the documents are equal. */
  lemma NoEditsIffEqual(o: Json, n: Json)
    ensures DiffOf(o, n) == [] <==> o == n
  {
    RoundTrip(o, n);
    SameHasNoEdits(o);
  }

  // --- Exactly the changes, in order -----------------------------------------------------------

  predicate BothObjects(o: Option<Json>, n: Option<Json>) {
    o.Some? && n.Some? && o.value.Obj? && n.value.Obj?
  }

  /** A change: the two documents read differently here, both are objects all the way to here, and
      they are not both objects here, where the changes would be further down. */
  ghost predicate Changed(o: Json, n: Json, p: Path) {
    && Lookup(o, p) != Lookup(n, p) && !BothObjects(Lookup(o, p), Lookup(n, p))
    && forall i :: 0 <= i < |p| ==> BothObjects(Lookup(o, p[..i]), Lookup(n, p[..i]))
  }

  /** The edit that reports a change: the old value is removed, the new one added. */
  ghost predicate Reports(o: Json, n: Json, e: Edit) {
    Changed(o, n, e.path) && Lookup(if e.Remove? then o else n, e.path) == Some(e.value)
  }

  lemma ChangedUnfolds(o: Json, n: Json, p: Path)
    requires o.Obj? && n.Obj? && p != []
    ensures var k := p[0];
            Changed(o, n, p) <==>
              if k in o.fields && k in n.fields then Changed(o.fields[k], n.fields[k], p[1..])
              else (k in o.fields || k in n.fields) && |p| == 1
  {
    var k := p[0];
    if k in o.fields && k in n.fields {
      ChangedBelow(o, n, p);
    } else if k in o.fields || k in n.fields {
      if |p| > 1 {
        assert !BothObjects(Lookup(o, p[..1]), Lookup(n, p[..1]));
      } else {
        OneKeyReads(o, n, p);
        assert p[..0] == [] && BothObjects(Lookup(o, p[..0]), Lookup(n, p[..0]));
      }
    }
  }

  lemma OneKeyReads(o: Json, n: Json, p: Path)
    requires o.Obj? && n.Obj? && |p| == 1
    ensures Lookup(o, p) == Member(o.fields, p[0]) && Lookup(n, p) == Member(n.fields, p[0])
  {
    assert p[1..] == [];
  }

  lemma ChangedBelow(o: Json, n: Json, p: Path)
    requires o.Obj? && n.Obj? && p != [] && p[0] in o.fields && p[0] in n.fields
    ensures Changed(o, n, p) <==> Changed(o.fields[p[0]], n.fields[p[0]], p[1..])
  {
    var oc, nc := o.fields[p[0]], n.fields[p[0]];
    forall i | 0 <= i < |p[1..]|
      ensures BothObjects(Lookup(o, p[..i + 1]), Lookup(n, p[..i + 1]))
         <==> BothObjects(Lookup(oc, p[1..][..i]), Lookup(nc, p[1..][..i]))
    {
      assert p[..i + 1][0] == p[0] && p[..i + 1][1..] == p[1..][..i];
    }
    if Changed(oc, nc, p[1..]) {
      forall i | 0 <= i < |p| ensures BothObjects(Lookup(o, p[..i]), Lookup(n, p[..i])) {
        if i > 0 {
          assert BothObjects(Lookup(oc, p[1..][..i - 1]), Lookup(nc, p[1..][..i - 1]));
        }
      }
    }
  }

  /** The difference holds an edit exactly when it reports a change: nothing is missed, nothing is
      reported above or below where it happened. */
  lemma {:induction false} EditsAreTheChanges(o: Json, n: Json, e: Edit)
    ensures e in DiffOf(o, n) <==> Reports(o, n, e)
    decreases o, 1, 0
  {
    if o.Obj? && n.Obj? {
      var keys := SortedKeys(o.fields.Keys + n.fields.Keys);
      EditsAmong(o, n, keys, e);
      if e.path == [] {
        assert BothObjects(Lookup(o, e.path), Lookup(n, e.path));
      } else {
        KeyEdits(o, n, e);
      }
    } else if e.path != [] {
      assert e.path[..0] == [] && !BothObjects(Lookup(o, e.path[..0]), Lookup(n, e.path[..0]));
    }
  }

  lemma {:induction false} EditsAmong(o: Json, n: Json, keys: seq<string>, e: Edit)
    requires o.Obj? && n.Obj?
    ensures e in DiffKeys(o, n, keys) <==> e.path != [] && e.path[0] in keys && e in DiffKey(o, n, e.path[0])
  {
    if keys != [] {
      var init, k := keys[..|keys| - 1], keys[|keys| - 1];
      EditsAmong(o, n, init, e);
      EditsOfKey(o, n, k, e);
      assert forall x :: x in keys <==> x in init || x == k;
    }
  }

  lemma EditsOfKey(o: Json, n: Json, k: string, e: Edit)
    requires o.Obj? && n.Obj?
    ensures e in DiffKey(o, n, k) ==> e.path != [] && e.path[0] == k
  {
  }

  lemma {:induction false} KeyEdits(o: Json, n: Json, e: Edit)
    requires o.Obj? && n.Obj? && e.path != []
    ensures e in DiffKey(o, n, e.path[0]) <==> Reports(o, n, e)
    decreases o, 0, 0
  {
    var k := e.path[0];
    ChangedUnfolds(o, n, e.path);
    if k in o.fields && k in n.fields {
      var sub := DiffOf(o.fields[k], n.fields[k]);
      var below := e.(path := e.path[1..]);
      EditsAreTheChanges(o.fields[k], n.fields[k], below);
      InBelow([k], sub, below);
      assert [k] + below.path == e.path;
    } else if |e.path| == 1 {
      assert e.path == [k];
      OneKeyReads(o, n, e.path);
    }
  }

  lemma InBelow(path: Path, es: seq<Edit>, e: Edit)
    ensures e in es <==> e.(path := path + e.path) in Below(path, es)
  {
    var r := Below(path, es);
    var moved := e.(path := path + e.path);
    if i :| 0 <= i < |es| && es[i] == e {
      assert r[i] == moved;
    }
    if i :| 0 <= i < |r| && r[i] == moved {
      assert path + es[i].path == path + e.path;
      assert es[i].path == (path + es[i].path)[|path|..] == e.path;
      assert es[i] == e;
    }
  }

  /** One path before another in a depth-first walk over sorted keys. */
  ghost predicate WalkedBefore(p: Path, q: Path) {
    exists k :: 0 <= k < |p| && k < |q| && p[..k] == q[..k] && Compare(p[k], q[k]) < 0
  }

  /** Edits come in the order of the walk, the removal of a value before the addition. */
  ghost predicate Before(a: Edit, b: Edit) {
    WalkedBefore(a.path, b.path) || (a.path == b.path && a.Remove? && b.Add?)
  }

  ghost predicate InOrder(es: seq<Edit>) {
    forall i, j :: 0 <= i < j < |es| ==> Before(es[i], es[j])
  }

  lemma BeforeBelow(path: Path, a: Edit, b: Edit)
    requires Before(a, b)
    ensures Before(a.(path := path + a.path), b.(path := path + b.path))
  {
    var p, q := path + a.path, path + b.path;
    if k :| 0 <= k < |a.path| && k < |b.path| && a.path[..k] == b.path[..k] && Compare(a.path[k], b.path[k]) < 0 {
      var m := |path| + k;
      assert p[..m] == path + a.path[..k] && q[..m] == path + b.path[..k];
      assert p[m] == a.path[k] && q[m] == b.path[k];
    }
  }

  lemma {:induction false} EditsInOrder(o: Json, n: Json)
    ensures InOrder(DiffOf(o, n))
    decreases o, 1, 0
  {
    if o.Obj? && n.Obj? {
      KeysInOrder(o, n, SortedKeys(o.fields.Keys + n.fields.Keys));
    }
  }

  lemma {:induction false} KeysInOrder(o: Json, n: Json, keys: seq<string>)
    requires o.Obj? && n.Obj? && Sorted(keys) && Distinct(keys)
    ensures InOrder(DiffKeys(o, n, keys))
    decreases o, 0, |keys|
  {
    if keys != [] {
      var init, k := keys[..|keys| - 1], keys[|keys| - 1];
      KeysInOrder(o, n, init);
      KeyInOrder(o, n, k, |keys|);
      var es, last := DiffKeys(o, n, init), DiffKey(o, n, k);
      forall i, j | 0 <= i < |es| && 0 <= j < |last| ensures Before(es[i], last[j]) {
        EditsAmong(o, n, init, es[i]);
        EditsOfKey(o, n, k, last[j]);
        EarlierKey(keys, es[i].path, last[j].path);
      }
      JoinOrder(es, last);
    }
  }

  lemma EarlierKey(keys: seq<string>, p: Path, q: Path)
    requires keys != [] && Sorted(keys) && Distinct(keys) && p != [] && q != []
    requires p[0] in keys[..|keys| - 1] && q[0] == keys[|keys| - 1]
    ensures WalkedBefore(p, q)
  {
    var i :| 0 <= i < |keys| - 1 && keys[i] == p[0];
    CompareZero(p[0], q[0]);
    assert p[..0] == q[..0];
  }

  lemma JoinOrder(a: seq<Edit>, b: seq<Edit>)
    requires InOrder(a) && InOrder(b)
    requires forall i, j :: 0 <= i < |a| && 0 <= j < |b| ==> Before(a[i], b[j])
    ensures InOrder(a + b)
  {
  }

  lemma {:induction false} KeyInOrder(o: Json, n: Json, k: string, rank: nat)
    requires o.Obj? && n.Obj? && rank > 0
    ensures InOrder(DiffKey(o, n, k))
    decreases o, 0, rank - 1
  {
    if k in o.fields && k in n.fields {
      var es := DiffOf(o.fields[k], n.fields[k]);
      EditsInOrder(o.fields[k], n.fields[k]);
      forall i, j | 0 <= i < j < |es| ensures Before(Below([k], es)[i], Below([k], es)[j]) {
        BeforeBelow([k], es[i], es[j]);
      }
    }
  }

  // --- Footprint -------------------------------------------------------------------------------

  /** A location that appears in the difference really reads differently. */
  lemma {:induction false} EditsReadDifferently(o: Json, n: Json, i: nat)
    requires i < |DiffOf(o, n)|
    ensures Lookup(o, DiffOf(o, n)[i].path) != Lookup(n, DiffOf(o, n)[i].path)
    decreases o, 1, 0
  {
    if o.Obj? && n.Obj? {
      KeyEditsReadDifferently(o, n, SortedKeys(o.fields.Keys + n.fields.Keys), i);
    }
  }

  lemma {:induction false} KeyEditsReadDifferently(o: Json, n: Json, keys: seq<string>, i: nat)
    requires o.Obj? && n.Obj? && i < |DiffKeys(o, n, keys)|
    ensures Lookup(o, DiffKeys(o, n, keys)[i].path) != Lookup(n, DiffKeys(o, n, keys)[i].path)
    decreases o, 0, |keys|
  {
    var init, k := keys[..|keys| - 1], keys[|keys| - 1];
    var before := DiffKeys(o, n, init);
    if i < |before| {
      KeyEditsReadDifferently(o, n, init, i);
    } else {
      var j := i - |before|;
      assert DiffKeys(o, n, keys)[i] == DiffKey(o, n, k)[j];
      if k in o.fields && k in n.fields {
        var sub := DiffOf(o.fields[k], n.fields[k]);
        EditsReadDifferently(o.fields[k], n.fields[k], j);
        assert DiffKey(o, n, k)[j].path == [k] + sub[j].path;
        assert ([k] + sub[j].path)[1..] == sub[j].path;
      }
    }
  }

  /** Every path in the difference between a payload and its patched form is a prefix or an
      extension of some operation's path. */
  lemma PatchFootprint(codec: Codec, j: Json, ops: seq<SetOp>, i: nat)
    requires SetAll(codec, j, ops).Some? && i < |DiffOf(j, SetAll(codec, j, ops).value)|
    ensures var path := DiffOf(j, SetAll(codec, j, ops).value)[i].path;
            exists op :: op in ops && !Unrelated(Split(op.path, '.'), path)
  {
    var path := DiffOf(j, SetAll(codec, j, ops).value)[i].path;
    EditsReadDifferently(j, SetAll(codec, j, ops).value, i);
    if forall op :: op in ops ==> Unrelated(Split(op.path, '.'), path) {
      SetAllKeepsUnrelated(codec, j, ops, path);
    }
  }
}
