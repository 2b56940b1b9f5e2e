// internal/patch/patch.go: assigning values at dotted paths in a JSON object payload.
module Patch {
  import opened Seqs
  import opened Text
  import opened Json

  datatype SetOp = SetOp(path: string, value: string)

  predicate IsContainer(j: Json) {
    j.Obj? || j.Arr?
  }

  /** One assignment: the new document, or None where the walk hits a type conflict or an index
      out of range. Missing intermediate objects are created. */
  function Set(j: Json, segs: Path, v: Json): Option<Json>
    requires segs != []
    decreases |segs|
  {
    var seg := segs[0];
    match j
    case Obj(fields) =>
      if |segs| == 1 then Some(Obj(fields[seg := v]))
      else
        var child := if seg in fields then fields[seg] else Obj(map[]);
        if !IsContainer(child) then None
        else
          var c := Set(child, segs[1..], v);
          if c.Some? then Some(Obj(fields[seg := c.value])) else None
    case Arr(items) =>
      if !IndexIn(seg, items) then None
      else
        var i := IndexSegment(seg).value;
        if |segs| == 1 then Some(Arr(items[i := v]))
        else if !items[i].Obj? then None
        else
          var c := Set(items[i], segs[1..], v);
          if c.Some? then Some(Arr(items[i := c.value])) else None
    case _ => None
  }

  // --- One segment -----------------------------------------------------------------------------

  /** On an array a segment names an element exactly when it is a run of digits below the length. */
  lemma SegmentsOfArrays(items: seq<Json>, seg: string)
    ensures Get(Arr(items), [seg]).Some? <==> AllDigits(seg) && Decimal(seg) < |items| && Decimal(seg) <= MAX_INT
    ensures Get(Arr(items), [seg]).Some? ==> Get(Arr(items), [seg]) == Some(items[Decimal(seg)])
  {
    assert [seg][1..] == [];
  }

  /** The decimal text of an index reads and assigns that element; on an object it is a plain key. */
  lemma IndexesAndKeys(items: seq<Json>, n: nat, fields: map<string, Json>, v: Json)
    requires n < |items| && n <= MAX_INT
    ensures Get(Arr(items), [Digits(n)]) == Some(items[n])
    ensures Set(Arr(items), [Digits(n)], v) == Some(Arr(items[n := v]))
    ensures Set(Obj(fields), [Digits(n)], v) == Some(Obj(fields[Digits(n) := v]))
  {
    SegmentsOfArrays(items, Digits(n));
  }

  // --- Exactly when an assignment is refused -------------------------------------------------

  /** The walk cannot go through `cur` by `seg`: it is no container, or an array in which the
      segment is no index in range or, unless it is the last, names something other than an object. */
  predicate Blocks(cur: Json, seg: string, last: bool) {
    || !IsContainer(cur)
    || (cur.Arr? && (!IndexIn(seg, cur.items) || (!last && !cur.items[IndexSegment(seg).value].Obj?)))
  }

  /** Some existing location on the way blocks. */
  ghost predicate Refused(j: Json, segs: Path) {
    exists i :: 0 <= i < |segs| && BlocksAt(j, segs, i)
  }

  predicate BlocksAt(j: Json, segs: Path, i: nat)
    requires i < |segs|
  {
    Get(j, segs[..i]).Some? && Blocks(Get(j, segs[..i]).value, segs[i], i + 1 == |segs|)
  }

  lemma BlocksBelow(j: Json, segs: Path, i: nat)
    requires i + 1 < |segs| && Child(j, segs[0]).Some?
    ensures BlocksAt(j, segs, i + 1) <==> BlocksAt(Child(j, segs[0]).value, segs[1..], i)
  {
    assert segs[..i + 1][0] == segs[0] && segs[..i + 1][1..] == segs[1..][..i];
  }

  lemma RefusedUnfolds(j: Json, segs: Path)
    requires segs != []
    ensures Refused(j, segs) <==>
              || Blocks(j, segs[0], |segs| == 1)
              || (|segs| > 1 && Child(j, segs[0]).Some? && Refused(Child(j, segs[0]).value, segs[1..]))
  {
    assert segs[..0] == [];
    if Blocks(j, segs[0], |segs| == 1) {
      assert BlocksAt(j, segs, 0);
    } else if |segs| > 1 && Child(j, segs[0]).Some? && Refused(Child(j, segs[0]).value, segs[1..]) {
      var i :| 0 <= i < |segs[1..]| && BlocksAt(Child(j, segs[0]).value, segs[1..], i);
      BlocksBelow(j, segs, i);
    }
    if Refused(j, segs) {
      var i :| 0 <= i < |segs| && BlocksAt(j, segs, i);
      if i > 0 {
        assert segs[..i][0] == segs[0];
        BlocksBelow(j, segs, i - 1);
      }
    }
  }

  /** An assignment is refused exactly when an existing location on the way blocks: a missing key
      never does, and neither does a value that is already there. */
  lemma {:induction false} SetRefusedIff(j: Json, segs: Path, v: Json)
    requires segs != []
    ensures Set(j, segs, v).None? <==> Refused(j, segs)
    decreases |segs|
  {
    RefusedUnfolds(j, segs);
    if |segs| > 1 {
      if Child(j, segs[0]).Some? {
        SetRefusedIff(Child(j, segs[0]).value, segs[1..], v);
        if !IsContainer(Child(j, segs[0]).value) {
          RefusedUnfolds(Child(j, segs[0]).value, segs[1..]);
        }
      } else {
        SetInEmptyObject(segs[1..], v);
      }
    }
  }

  /** A freshly created object takes any further path: no later step can fail. */
  lemma {:induction false} SetInEmptyObject(segs: Path, v: Json)
    requires segs != []
    ensures Set(Obj(map[]), segs, v).Some?
  {
    if |segs| > 1 {
      SetInEmptyObject(segs[1..], v);
    }
  }

  /** On success the path reads back the value. */
  lemma {:induction false} SetThenGet(j: Json, segs: Path, v: Json)
    requires segs != [] && Set(j, segs, v).Some?
    ensures Get(Set(j, segs, v).value, segs) == Some(v)
    decreases |segs|
  {
    var seg := segs[0];
    var rest := segs[1..];
    var child := if Child(j, seg).Some? then Child(j, seg).value else Obj(map[]);
    if |segs| == 1 {
      assert Set(j, segs, v).value == WithChild(j, seg, v);
      ChildOfWithChild(j, seg, v);
      assert rest == [];
    } else {
      SetThenGet(child, rest, v);
      assert Set(j, segs, v).value == WithChild(j, seg, Set(child, rest, v).value);
      ChildOfWithChild(j, seg, Set(child, rest, v).value);
    }
  }

  /** Two segments name the same slot of a container: array segments compare by index. */
  predicate SameSlot(j: Json, a: string, b: string) {
    if j.Arr? then IndexSegment(a) == IndexSegment(b) else a == b
  }

  /** At some container on the way the two paths part. */
  predicate Parts(j: Json, p: Path, q: Path)
    decreases |p|
  {
    && p != [] && q != []
    && (SameSlot(j, p[0], q[0]) ==>
          Parts(if Child(j, p[0]).Some? then Child(j, p[0]).value else Obj(map[]), p[1..], q[1..]))
  }

  lemma OtherSlot(j: Json, a: string, b: string, c: Json)
    requires !SameSlot(j, a, b)
    ensures Child(WithChild(j, a, c), b) == Child(j, b)
  {
  }

  /** On success every location off the path is unchanged, present or absent. */
  lemma {:induction false} SetFrame(j: Json, p: Path, v: Json, q: Path)
    requires p != [] && Set(j, p, v).Some? && Parts(j, p, q)
    ensures Get(Set(j, p, v).value, q) == Get(j, q)
    decreases |p|
  {
    var child := if Child(j, p[0]).Some? then Child(j, p[0]).value else Obj(map[]);
    if |p| == 1 {
      assert Set(j, p, v).value == WithChild(j, p[0], v);
      OtherSlot(j, p[0], q[0], v);
    } else {
      var c := Set(child, p[1..], v).value;
      assert Set(j, p, v).value == WithChild(j, p[0], c);
      if SameSlot(j, p[0], q[0]) {
        SetFrame(child, p[1..], v, q[1..]);
        ChildOfWithChild(j, p[0], c);
        assert Child(WithChild(j, p[0], c), q[0]) == Some(c) && Child(j, q[0]) == Child(j, p[0]);
      } else {
        OtherSlot(j, p[0], q[0], c);
      }
    }
  }

  /** The same frame for lookups by key, which never look inside arrays. */
  lemma {:induction false} SetKeepsUnrelated(j: Json, p: Path, v: Json, q: Path)
    requires p != [] && Set(j, p, v).Some? && Unrelated(p, q)
    ensures Lookup(Set(j, p, v).value, q) == Lookup(j, q)
    decreases |p|
  {
    UnrelatedTails(p, q);
    if j.Obj? && p[0] == q[0] {
      var child := if p[0] in j.fields then j.fields[p[0]] else Obj(map[]);
      UnrelatedTails(p[1..], q[1..]);
      SetKeepsUnrelated(child, p[1..], v, q[1..]);
    }
  }

  // --- In place ------------------------------------------------------------------------------

  /** With the cursor at segs[..i], finishing there finishes the whole assignment. */
  ghost predicate Continues(r0: Json, segs: Path, v: Json, root: Json, i: nat)
    requires i < |segs|
  {
    && Get(root, segs[..i]).Some?
    && var rest := Set(Get(root, segs[..i]).value, segs[i..], v);
       && (Set(r0, segs, v).Some? <==> rest.Some?)
       && (rest.Some? ==> Set(r0, segs, v).value == Put(root, segs[..i], rest.value))
  }

  /** Moving the cursor into an existing child. */
  lemma Descend(r0: Json, segs: Path, v: Json, root: Json, i: nat)
    requires i + 1 < |segs| && Continues(r0, segs, v, root, i)
    requires var cur := Get(root, segs[..i]).value;
             && Child(cur, segs[i]).Some? && IsContainer(Child(cur, segs[i]).value)
             && (cur.Arr? ==> Child(cur, segs[i]).value.Obj?)
    ensures Get(root, segs[..i + 1]) == Child(Get(root, segs[..i]).value, segs[i])
    ensures Continues(r0, segs, v, root, i + 1)
  {
    var cur := Get(root, segs[..i]).value;
    var child := Child(cur, segs[i]).value;
    assert segs[..i + 1] == segs[..i] + [segs[i]];
    assert segs[i..][0] == segs[i] && segs[i..][1..] == segs[i + 1..];
    GetSnoc(root, segs[..i], segs[i]);
    var rest := Set(child, segs[i + 1..], v);
    if rest.Some? {
      assert Set(cur, segs[i..], v) == Some(WithChild(cur, segs[i], rest.value));
      PutSnoc(root, segs[..i], segs[i], rest.value);
    }
  }

  /** Creating a missing child changes nothing about the outcome. */
  lemma Create(r0: Json, segs: Path, v: Json, root: Json, i: nat)
    requires i + 1 < |segs| && Continues(r0, segs, v, root, i)
    requires var cur := Get(root, segs[..i]).value; cur.Obj? && segs[i] !in cur.fields
    ensures var cur := Get(root, segs[..i]).value;
            var made := Obj(cur.fields[segs[i] := Obj(map[])]);
            var next := Put(root, segs[..i], made);
            Continues(r0, segs, v, next, i) && Get(next, segs[..i]) == Some(made)
  {
    var cur := Get(root, segs[..i]).value;
    var made := Obj(cur.fields[segs[i] := Obj(map[])]);
    GetPut(root, segs[..i], made);
    assert segs[i..][0] == segs[i] && segs[i..][1..] == segs[i + 1..];
    var rest := Set(cur, segs[i..], v);
    if rest.Some? {
      var c := Child(rest.value, segs[i]).value;
      assert cur.fields[segs[i] := Obj(map[])][segs[i] := c] == cur.fields[segs[i] := c];
    }
    assert Set(made, segs[i..], v) == rest;
    if rest.Some? {
      PutPut(root, segs[..i], made, rest.value);
    }
  }

  /** The decoded payload a patch works on. A cursor into it is a location; assigning through the
      cursor overwrites that location. */
  class Document {
    var root: Json

    constructor (root: Json)
      ensures this.root == root
    {
      this.root := root;
    }

    /** applySet: on failure the document is as it was, although objects may be created on the way. */
    method ApplySet(segs: Path, v: Json) returns (ok: bool)
      requires segs != [] && root.Obj?
      modifies this
      ensures ok <==> !Refused(old(root), segs)
      ensures ok <==> Set(old(root), segs, v).Some?
      ensures ok ==> root == Set(old(root), segs, v).value
      ensures !ok ==> root == old(root)
    {
      ghost var r0 := root;
      SetRefusedIff(root, segs, v);
      var at: Path, cur := [], root;
      for i := 0 to |segs| - 1
        invariant at == segs[..i] && Get(root, at) == Some(cur) && IsContainer(cur)
        invariant Continues(r0, segs, v, root, i)
        invariant root == r0 || cur == Obj(map[])
      {
        var seg := segs[i];
        assert segs[i..][0] == seg && segs[i..][1..] == segs[i + 1..];
        if cur.Obj? {
          if seg !in cur.fields {
            Create(r0, segs, v, root, i);
            cur := Obj(cur.fields[seg := Obj(map[])]);
            root := Put(root, at, cur);
          } else if !IsContainer(cur.fields[seg]) {
            return false;
          }
          Descend(r0, segs, v, root, i);
          cur := cur.fields[seg];
        } else {
          if !IndexIn(seg, cur.items) || !cur.items[IndexSegment(seg).value].Obj? {
            return false;
          }
          Descend(r0, segs, v, root, i);
          cur := cur.items[IndexSegment(seg).value];
        }
        at := at + [seg];
      }
      var last := segs[|segs| - 1];
      assert segs[|segs| - 1..] == [last];
      if cur.Obj? {
        root := Put(root, at, Obj(cur.fields[last := v]));
      } else {
        if !IndexIn(last, cur.items) {
          return false;
        }
        root := Put(root, at, Arr(cur.items[IndexSegment(last).value := v]));
      }
      return true;
    }
  }

  // --- The whole command ---------------------------------------------------------------------

  /** Valid JSON is used as it is, if it decodes; anything else is a plain string. */
  function ParseValue(codec: Codec, raw: string): Option<Json> {
    if codec.valid(raw) then codec.decode(raw) else Some(Str(raw))
  }

  /** Operations in order, later ones seeing earlier ones; None if any is an error. */
  function SetAll(codec: Codec, j: Json, ops: seq<SetOp>): Option<Json> {
    if ops == [] then Some(j)
    else
      var before := SetAll(codec, j, ops[..|ops| - 1]);
      var op := ops[|ops| - 1];
      var v := ParseValue(codec, op.value);
      if before.None? || op.path == "" || v.None? then None
      else Set(before.value, Split(op.path, '.'), v.value)
  }

  lemma {:induction false} SetAllIsObject(codec: Codec, j: Json, ops: seq<SetOp>)
    requires j.Obj? && SetAll(codec, j, ops).Some?
    ensures SetAll(codec, j, ops).value.Obj?
  {
    if ops != [] {
      SetAllIsObject(codec, j, ops[..|ops| - 1]);
    }
  }

  lemma {:induction false} SetAllPrefix(codec: Codec, j: Json, ops: seq<SetOp>, n: nat)
    requires n <= |ops| && SetAll(codec, j, ops[..n]).None?
    ensures SetAll(codec, j, ops).None?
  {
    if n < |ops| {
      assert ops[..|ops| - 1][..n] == ops[..n];
      SetAllPrefix(codec, j, ops[..|ops| - 1], n);
    } else {
      assert ops[..n] == ops;
    }
  }

  /** What an operation assigns. */
  ghost predicate Assigns(codec: Codec, op: SetOp, v: Json) {
    if codec.valid(op.value) then codec.decode(op.value) == Some(v) else v == Str(op.value)
  }

  /** Operation `i` is the first that fails, and how. */
  ghost predicate FailsAt(codec: Codec, j: Json, ops: seq<SetOp>, i: nat, e: PatchError) {
    && i < |ops| && SetAll(codec, j, ops[..i]).Some?
    && match e
       case EmptyPath => ops[i].path == ""
       case BadValue => ops[i].path != "" && codec.valid(ops[i].value) && codec.decode(ops[i].value).None?
       case Conflict =>
         && ops[i].path != "" && (codec.valid(ops[i].value) ==> codec.decode(ops[i].value).Some?)
         && Refused(SetAll(codec, j, ops[..i]).value, Split(ops[i].path, '.'))
       case _ => false
  }

  lemma FailedStep(codec: Codec, j: Json, ops: seq<SetOp>, i: nat, e: PatchError)
    requires FailsAt(codec, j, ops, i, e)
    ensures SetAll(codec, j, ops).None?
  {
    assert ops[..i + 1][..i] == ops[..i];
    if e.Conflict? {
      SetRefusedIff(SetAll(codec, j, ops[..i]).value, Split(ops[i].path, '.'), ParseValue(codec, ops[i].value).value);
    }
    SetAllPrefix(codec, j, ops, i + 1);
  }

  /** A list of operations fails exactly when some operation is the first to fail. */
  lemma {:induction false} SetAllFailsIff(codec: Codec, j: Json, ops: seq<SetOp>)
    ensures SetAll(codec, j, ops).None? <==> exists i: nat, e :: FailsAt(codec, j, ops, i, e)
  {
    if i: nat, e :| FailsAt(codec, j, ops, i, e) {
      FailedStep(codec, j, ops, i, e);
    }
    if ops != [] && SetAll(codec, j, ops).None? {
      var n := |ops| - 1;
      SetAllFailsIff(codec, j, ops[..n]);
      if SetAll(codec, j, ops[..n]).None? {
        var i: nat, e :| FailsAt(codec, j, ops[..n], i, e);
        assert ops[..n][..i] == ops[..i];
        assert FailsAt(codec, j, ops, i, e);
      } else {
        LastFails(codec, j, ops);
      }
    }
  }

  lemma LastFails(codec: Codec, j: Json, ops: seq<SetOp>)
    requires ops != [] && SetAll(codec, j, ops).None? && SetAll(codec, j, ops[..|ops| - 1]).Some?
    ensures exists i: nat, e :: FailsAt(codec, j, ops, i, e)
  {
    var n := |ops| - 1;
    var op := ops[n];
    if op.path == "" {
      assert FailsAt(codec, j, ops, n, EmptyPath);
    } else if codec.valid(op.value) && codec.decode(op.value).None? {
      assert FailsAt(codec, j, ops, n, BadValue);
    } else {
      SetRefusedIff(SetAll(codec, j, ops[..n]).value, Split(op.path, '.'), ParseValue(codec, op.value).value);
      assert FailsAt(codec, j, ops, n, Conflict);
    }
  }

  /** What an operation assigned reads back right after it, and still does after later operations
      on unrelated paths when the path goes by keys. */
  lemma {:induction false} SetAllReadsBack(codec: Codec, j: Json, ops: seq<SetOp>, i: nat)
    requires i < |ops| && SetAll(codec, j, ops).Some?
    ensures SetAll(codec, j, ops[..i + 1]).Some?
    ensures ReadsBack(codec, SetAll(codec, j, ops[..i + 1]).value, ops[i])
    ensures (forall k :: i < k < |ops| ==> Unrelated(Split(ops[k].path, '.'), Split(ops[i].path, '.'))) ==>
              Lookup(SetAll(codec, j, ops).value, Split(ops[i].path, '.'))
              == Lookup(SetAll(codec, j, ops[..i + 1]).value, Split(ops[i].path, '.'))
  {
    var n := |ops| - 1;
    if i == n {
      assert ops[..n + 1] == ops;
      LastReadsBack(codec, j, ops);
    } else {
      SetAllReadsBack(codec, j, ops[..n], i);
      assert ops[..n][..i + 1] == ops[..i + 1];
      LastKeepsUnrelated(codec, j, ops, Split(ops[i].path, '.'));
    }
  }

  /** The path of an operation reads the value it gives. */
  ghost predicate ReadsBack(codec: Codec, j: Json, op: SetOp) {
    exists v :: Assigns(codec, op, v) && Get(j, Split(op.path, '.')) == Some(v)
  }

  lemma LastReadsBack(codec: Codec, j: Json, ops: seq<SetOp>)
    requires ops != [] && SetAll(codec, j, ops).Some?
    ensures ReadsBack(codec, SetAll(codec, j, ops).value, ops[|ops| - 1])
  {
    var op := ops[|ops| - 1];
    var v := ParseValue(codec, op.value).value;
    SetThenGet(SetAll(codec, j, ops[..|ops| - 1]).value, Split(op.path, '.'), v);
    assert Assigns(codec, op, v);
  }

  lemma LastKeepsUnrelated(codec: Codec, j: Json, ops: seq<SetOp>, p: seq<string>)
    requires ops != [] && SetAll(codec, j, ops).Some?
    ensures Unrelated(Split(ops[|ops| - 1].path, '.'), p) ==>
              Lookup(SetAll(codec, j, ops).value, p) == Lookup(SetAll(codec, j, ops[..|ops| - 1]).value, p)
  {
    var op := ops[|ops| - 1];
    if Unrelated(Split(op.path, '.'), p) {
      SetKeepsUnrelated(SetAll(codec, j, ops[..|ops| - 1]).value, Split(op.path, '.'),
                        ParseValue(codec, op.value).value, p);
    }
  }

  datatype PatchError = NoOperations | NotAnObject | EmptyPath | BadValue | Conflict

  datatype Patched = Patched(payload: string) | Failed(error: PatchError)

  /** ApplySet: a payload that is not a JSON object, an empty path, a value that is valid but does not
      decode, a type conflict or an index out of range is an error, and there is a new payload only if every
      operation succeeds. */
  method ApplySet(codec: Codec, payload: string, ops: seq<SetOp>) returns (r: Patched)
    requires codec.decode(payload) != Some(Null)
    ensures r.Patched? <==>
              && ops != [] && codec.decode(payload).Some? && codec.decode(payload).value.Obj?
              && SetAll(codec, codec.decode(payload).value, ops).Some?
    ensures r.Patched? ==> r.payload == codec.encode(SetAll(codec, codec.decode(payload).value, ops).value)
    ensures r == Failed(NoOperations) <==> ops == []
    ensures r == Failed(NotAnObject) <==>
              ops != [] && (codec.decode(payload).None? || !codec.decode(payload).value.Obj?)
    ensures r.Failed? && r.error != NoOperations && r.error != NotAnObject ==>
              exists i: nat :: FailsAt(codec, codec.decode(payload).value, ops, i, r.error)
  {
    if |ops| == 0 {
      return Failed(NoOperations);
    }
    var decoded := codec.decode(payload);
    if decoded.None? || !decoded.value.Obj? {
      return Failed(NotAnObject);
    }
    var doc := new Document(decoded.value);
    for i := 0 to |ops|
      invariant SetAll(codec, decoded.value, ops[..i]) == Some(doc.root) && doc.root.Obj?
      invariant fresh(doc)
    {
      assert ops[..i + 1][..i] == ops[..i];
      if ops[i].path == "" {
        assert FailsAt(codec, decoded.value, ops, i, EmptyPath);
        FailedStep(codec, decoded.value, ops, i, EmptyPath);
        return Failed(EmptyPath);
      }
      var v := ParseValue(codec, ops[i].value);
      if v.None? {
        assert FailsAt(codec, decoded.value, ops, i, BadValue);
        FailedStep(codec, decoded.value, ops, i, BadValue);
        return Failed(BadValue);
      }
      var ok := doc.ApplySet(Split(ops[i].path, '.'), v.value);
      if !ok {
        assert FailsAt(codec, decoded.value, ops, i, Conflict);
        FailedStep(codec, decoded.value, ops, i, Conflict);
        return Failed(Conflict);
      }
    }
    assert ops[..|ops|] == ops;
    return Patched(codec.encode(doc.root));
  }

  /** A lookup unrelated to every operation's path is the same before and after. */
  lemma {:induction false} SetAllKeepsUnrelated(codec: Codec, j: Json, ops: seq<SetOp>, q: Path)
    requires SetAll(codec, j, ops).Some?
    requires forall op :: op in ops ==> Unrelated(Split(op.path, '.'), q)
    ensures Lookup(SetAll(codec, j, ops).value, q) == Lookup(j, q)
  {
    if ops != [] {
      var init, op := ops[..|ops| - 1], ops[|ops| - 1];
      assert op in ops && forall x :: x in init ==> x in ops;
      SetAllKeepsUnrelated(codec, j, init, q);
      SetKeepsUnrelated(SetAll(codec, j, init).value, Split(op.path, '.'), ParseValue(codec, op.value).value, q);
    }
  }
}
