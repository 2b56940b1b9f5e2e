// internal/message/redact.go: masking configured payload fields.
module Redact {
  import opened Seqs
  import opened Text
  import opened Json
  import opened Patch

  const DEFAULT_MASK := "[REDACTED]"

  /** The document with the value at one path masked, if there is one. */
  function RedactPath(doc: Json, parts: Path, mask: string): Json
    decreases |parts|
  {
    if parts == [] || !doc.Obj? || parts[0] !in doc.fields then doc
    else if |parts| == 1 then Obj(doc.fields[parts[0] := Str(mask)])
    else Obj(doc.fields[parts[0] := RedactPath(doc.fields[parts[0]], parts[1..], mask)])
  }

  /** All configured paths, in the order they are listed. */
  function RedactAll(doc: Json, paths: seq<Path>, mask: string): Json {
    if paths == [] then doc
    else RedactPath(RedactAll(doc, paths[..|paths| - 1], mask), paths[|paths| - 1], mask)
  }

  // --- One path --------------------------------------------------------------------------------

  lemma {:induction false} MaskedOrMissing(doc: Json, p: Path, mask: string)
    requires p != []
    ensures Lookup(RedactPath(doc, p, mask), p) == if Lookup(doc, p).Some? then Some(Str(mask)) else None
    decreases |p|
  {
    if doc.Obj? && p[0] in doc.fields && |p| > 1 {
      MaskedOrMissing(doc.fields[p[0]], p[1..], mask);
    } else if |p| == 1 {
      assert p[1..] == [];
    }
  }

  lemma {:induction false} UnrelatedUntouched(doc: Json, p: Path, q: Path, mask: string)
    requires Unrelated(p, q)
    ensures Lookup(RedactPath(doc, p, mask), q) == Lookup(doc, q)
    decreases |p|
  {
    UnrelatedTails(p, q);
    if doc.Obj? && p[0] in doc.fields && p[0] == q[0] {
      UnrelatedTails(p[1..], q[1..]);
      UnrelatedUntouched(doc.fields[p[0]], p[1..], q[1..], mask);
    }
  }

  lemma {:induction false} RedactTwice(doc: Json, p: Path, mask: string)
    ensures RedactPath(RedactPath(doc, p, mask), p, mask) == RedactPath(doc, p, mask)
    decreases |p|
  {
    if p != [] && doc.Obj? && p[0] in doc.fields && |p| > 1 {
      RedactTwice(doc.fields[p[0]], p[1..], mask);
    }
  }

  lemma {:induction false} RedactionsCommute(doc: Json, p: Path, q: Path, mask: string)
    ensures RedactPath(RedactPath(doc, p, mask), q, mask) == RedactPath(RedactPath(doc, q, mask), p, mask)
    decreases |p|
  {
    if p != [] && q != [] && doc.Obj? && p[0] in doc.fields && q[0] in doc.fields {
      var m := doc.fields;
      if p[0] == q[0] {
        if |p| > 1 && |q| > 1 {
          RedactionsCommute(m[p[0]], p[1..], q[1..], mask);
        }
      } else {
        var v := RedactPath(doc, p, mask).fields[p[0]];
        var w := RedactPath(doc, q, mask).fields[q[0]];
        var mv: map<string, Json> := m[p[0] := v];
        var mw: map<string, Json> := m[q[0] := w];
        assert mv[q[0] := w] == mw[p[0] := v];
      }
    }
  }

  /** A path that reads as the mask or as missing stays so under further redactions. */
  lemma {:induction false} StaysMasked(doc: Json, p: Path, q: Path, mask: string)
    requires p != [] && (Lookup(doc, p) == Some(Str(mask)) || Lookup(doc, p) == None)
    ensures Lookup(RedactPath(doc, q, mask), p) == Some(Str(mask)) || Lookup(RedactPath(doc, q, mask), p) == None
    decreases |p|
  {
    if q != [] && doc.Obj? && q[0] in doc.fields && p[0] == q[0] {
      if |p| > 1 && |q| > 1 {
        StaysMasked(doc.fields[p[0]], p[1..], q[1..], mask);
      } else if |p| == 1 {
        assert p[1..] == [];
      }
    }
  }

  // --- All fields --------------------------------------------------------------------------------

  /** After redaction, looking up any configured path gives "missing" or the mask. */
  lemma {:induction false} ConfiguredAreMasked(doc: Json, paths: seq<Path>, p: Path, mask: string)
    requires p in paths && p != []
    ensures var r := Lookup(RedactAll(doc, paths, mask), p); r == None || r == Some(Str(mask))
  {
    var init, last := paths[..|paths| - 1], paths[|paths| - 1];
    if last == p {
      MaskedOrMissing(RedactAll(doc, init, mask), p, mask);
    } else {
      assert p in init;
      ConfiguredAreMasked(doc, init, p, mask);
      StaysMasked(RedactAll(doc, init, mask), p, last, mask);
    }
  }

  /** Paths not prefix-related to a configured one are unchanged. */
  lemma {:induction false} OthersAreUntouched(doc: Json, paths: seq<Path>, q: Path, mask: string)
    requires forall p :: p in paths ==> Unrelated(p, q)
    ensures Lookup(RedactAll(doc, paths, mask), q) == Lookup(doc, q)
  {
    if paths != [] {
      var init, last := paths[..|paths| - 1], paths[|paths| - 1];
      assert last in paths && forall p :: p in init ==> p in paths;
      OthersAreUntouched(doc, init, q, mask);
      UnrelatedUntouched(RedactAll(doc, init, mask), last, q, mask);
    }
  }

  lemma {:induction false} CommutesWithAll(doc: Json, paths: seq<Path>, p: Path, mask: string)
    ensures RedactAll(RedactPath(doc, p, mask), paths, mask) == RedactPath(RedactAll(doc, paths, mask), p, mask)
  {
    if paths != [] {
      var init, last := paths[..|paths| - 1], paths[|paths| - 1];
      CommutesWithAll(doc, init, p, mask);
      RedactionsCommute(RedactAll(doc, init, mask), p, last, mask);
    }
  }

  /** A configured path is absorbed. */
  lemma {:induction false} Absorbs(doc: Json, paths: seq<Path>, p: Path, mask: string)
    requires p in paths
    ensures RedactPath(RedactAll(doc, paths, mask), p, mask) == RedactAll(doc, paths, mask)
  {
    var init, last := paths[..|paths| - 1], paths[|paths| - 1];
    var before := RedactAll(doc, init, mask);
    if last == p {
      RedactTwice(before, p, mask);
    } else {
      assert p in init;
      Absorbs(doc, init, p, mask);
      RedactionsCommute(before, last, p, mask);
    }
  }

  lemma {:induction false} AbsorbsAll(doc: Json, paths: seq<Path>, more: seq<Path>, mask: string)
    requires forall p :: p in more ==> p in paths
    ensures RedactAll(RedactAll(doc, paths, mask), more, mask) == RedactAll(doc, paths, mask)
  {
    if more != [] {
      var init, last := more[..|more| - 1], more[|more| - 1];
      assert last in more && forall p :: p in init ==> p in more;
      AbsorbsAll(doc, paths, init, mask);
      Absorbs(doc, paths, last, mask);
    }
  }

  lemma {:induction false} AllCommute(doc: Json, a: seq<Path>, b: seq<Path>, mask: string)
    ensures RedactAll(RedactAll(doc, a, mask), b, mask) == RedactAll(RedactAll(doc, b, mask), a, mask)
  {
    if a != [] {
      var init, last := a[..|a| - 1], a[|a| - 1];
      AllCommute(doc, init, b, mask);
      CommutesWithAll(RedactAll(doc, init, mask), b, last, mask);
    }
  }

  /** Redaction is idempotent. */
  lemma RedactionIsIdempotent(doc: Json, paths: seq<Path>, mask: string)
    ensures RedactAll(RedactAll(doc, paths, mask), paths, mask) == RedactAll(doc, paths, mask)
  {
    AbsorbsAll(doc, paths, paths, mask);
  }

  /** Redaction depends only on which fields are configured, not on their order or repetition. */
  lemma OrderIsIrrelevant(doc: Json, a: seq<Path>, b: seq<Path>, mask: string)
    requires forall p :: p in a <==> p in b
    ensures RedactAll(doc, a, mask) == RedactAll(doc, b, mask)
  {
    AbsorbsAll(doc, a, b, mask);
    AbsorbsAll(doc, b, a, mask);
    AllCommute(doc, a, b, mask);
  }

  // --- What every path reads afterwards --------------------------------------------------------

  predicate ProperPrefix(p: Path, q: Path) {
    p != [] && p < q
  }

  /** Some configured path is properly above `q`. */
  ghost predicate Covered(paths: seq<Path>, q: Path) {
    exists p :: p in paths && ProperPrefix(p, q)
  }

  /** Below the masked value there is nothing any more. */
  lemma {:induction false} MaskCutsBelow(doc: Json, p: Path, q: Path, mask: string)
    requires ProperPrefix(p, q)
    ensures Lookup(RedactPath(doc, p, mask), q).None?
    decreases |p|
  {
    assert q[0] == p[0] && p[1..] <= q[1..];
    if doc.Obj? && p[0] in doc.fields {
      if |p| > 1 {
        MaskCutsBelow(doc.fields[p[0]], p[1..], q[1..], mask);
      } else {
        assert q[1..] != [];
      }
    }
  }

  /** Redaction makes no location appear. */
  lemma {:induction false} NothingAppears(doc: Json, p: Path, q: Path, mask: string)
    requires Lookup(doc, q).None?
    ensures Lookup(RedactPath(doc, p, mask), q).None?
    decreases |p|
  {
    if p != [] && doc.Obj? && p[0] in doc.fields && q[0] == p[0] {
      if |p| > 1 {
        NothingAppears(doc.fields[p[0]], p[1..], q[1..], mask);
      } else {
        assert q[1..] != [] by { assert Lookup(doc.fields[p[0]], q[1..]).None?; }
      }
    }
  }

  /** A location that is not below the path stays one. */
  lemma {:induction false} StaysThere(doc: Json, p: Path, q: Path, mask: string)
    requires Lookup(doc, q).Some? && !ProperPrefix(p, q)
    ensures Lookup(RedactPath(doc, p, mask), q).Some?
    decreases |p|
  {
    if p != [] && q != [] && doc.Obj? && p[0] in doc.fields && q[0] == p[0] {
      assert p == [p[0]] + p[1..] && q == [q[0]] + q[1..];
      if |p| > 1 {
        StaysThere(doc.fields[p[0]], p[1..], q[1..], mask);
      } else {
        assert p < q || q == p;
        assert q[1..] == [];
      }
    }
  }

  /** Which locations are left: those that were there with no configured path above them. */
  lemma {:induction false} LeftIff(doc: Json, paths: seq<Path>, q: Path, mask: string)
    ensures Lookup(RedactAll(doc, paths, mask), q).Some? <==> Lookup(doc, q).Some? && !Covered(paths, q)
  {
    if paths != [] {
      var init, last := paths[..|paths| - 1], paths[|paths| - 1];
      var before := RedactAll(doc, init, mask);
      LeftIff(doc, init, q, mask);
      assert forall p :: p in paths <==> p in init || p == last;
      if Lookup(before, q).None? {
        NothingAppears(before, last, q, mask);
      } else if ProperPrefix(last, q) {
        MaskCutsBelow(before, last, q, mask);
      } else {
        StaysThere(before, last, q, mask);
      }
    }
  }

  /** An object that stays an object, or any other value that stays as it is. */
  predicate SameKind(x: Json, y: Json) {
    if x.Obj? then y.Obj? else y == x
  }

  lemma PrefixTails(p: Path, q: Path)
    requires p != [] && q != [] && p[0] == q[0]
    ensures p <= q <==> p[1..] <= q[1..]
  {
    assert p == [p[0]] + p[1..] && q == [q[0]] + q[1..];
  }

  lemma {:induction false} KindStays(doc: Json, p: Path, q: Path, mask: string)
    requires Lookup(doc, q).Some? && (p == [] || !(p <= q))
    ensures var after := Lookup(RedactPath(doc, p, mask), q);
            after.Some? && SameKind(Lookup(doc, q).value, after.value)
    decreases |p|
  {
    if p != [] && q != [] && doc.Obj? && p[0] in doc.fields && q[0] == p[0] && |p| > 1 {
      PrefixTails(p, q);
      KindStays(doc.fields[p[0]], p[1..], q[1..], mask);
    }
  }

  lemma {:induction false} KindsStay(doc: Json, paths: seq<Path>, q: Path, mask: string)
    requires Lookup(doc, q).Some? && !Covered(paths, q) && (q in paths ==> q == [])
    ensures var after := Lookup(RedactAll(doc, paths, mask), q);
            after.Some? && SameKind(Lookup(doc, q).value, after.value)
  {
    if paths != [] {
      var init, last := paths[..|paths| - 1], paths[|paths| - 1];
      assert forall p :: p in paths <==> p in init || p == last;
      KindsStay(doc, init, q, mask);
      assert !ProperPrefix(last, q);
      KindStays(RedactAll(doc, init, mask), last, q, mask);
    }
  }

  /** The redacted document against the original: a location is left exactly when it was there with
      no configured path above it; a configured one that is left reads the mask; any other keeps its
      value, or stays an object; one unrelated to all configured paths reads as before. */
  ghost predicate Masks(before: Json, after: Json, paths: seq<Path>, mask: string) {
    forall q: Path ::
      && (Lookup(after, q).Some? <==> Lookup(before, q).Some? && !Covered(paths, q))
      && (q in paths && q != [] && Lookup(after, q).Some? ==> Lookup(after, q) == Some(Str(mask)))
      && (!(q in paths && q != []) && Lookup(after, q).Some? ==>
            SameKind(Lookup(before, q).value, Lookup(after, q).value))
      && ((forall p :: p in paths ==> Unrelated(p, q)) ==> Lookup(after, q) == Lookup(before, q))
  }

  lemma RedactAllMasks(doc: Json, paths: seq<Path>, mask: string)
    ensures Masks(doc, RedactAll(doc, paths, mask), paths, mask)
  {
    var after := RedactAll(doc, paths, mask);
    forall q: Path
      ensures Lookup(after, q).Some? <==> Lookup(doc, q).Some? && !Covered(paths, q)
      ensures q in paths && q != [] && Lookup(after, q).Some? ==> Lookup(after, q) == Some(Str(mask))
      ensures !(q in paths && q != []) && Lookup(after, q).Some? ==>
                SameKind(Lookup(doc, q).value, Lookup(after, q).value)
      ensures (forall p :: p in paths ==> Unrelated(p, q)) ==> Lookup(after, q) == Lookup(doc, q)
    {
      LeftIff(doc, paths, q, mask);
      if q in paths && q != [] {
        ConfiguredAreMasked(doc, paths, q, mask);
      } else if Lookup(after, q).Some? {
        KindsStay(doc, paths, q, mask);
      }
      if forall p :: p in paths ==> Unrelated(p, q) {
        OthersAreUntouched(doc, paths, q, mask);
      }
    }
  }

  lemma {:induction false} LookupSnoc(j: Json, q: Path, k: string)
    ensures Lookup(j, q + [k]) ==
            if Lookup(j, q).Some? && Lookup(j, q).value.Obj? then Member(Lookup(j, q).value.fields, k) else None
  {
    if q == [] {
      assert ([] + [k])[1..] == [];
    } else if j.Obj? && q[0] in j.fields {
      assert (q + [k])[1..] == q[1..] + [k];
      LookupSnoc(j.fields[q[0]], q[1..], k);
    }
  }

  /** This leaves no choice: there is one such document. */
  lemma {:induction false} MasksDetermine(before: Json, a: Json, b: Json, paths: seq<Path>, mask: string)
    requires Masks(before, a, paths, mask) && Masks(before, b, paths, mask)
    ensures a == b
  {
    DeterminedAt(before, a, b, paths, mask, []);
  }

  lemma {:induction false} DeterminedAt(before: Json, a: Json, b: Json, paths: seq<Path>, mask: string, q: Path)
    requires Lookup(before, q).Some?
    ensures Masks(before, a, paths, mask) && Masks(before, b, paths, mask) ==> Lookup(a, q) == Lookup(b, q)
    decreases Lookup(before, q).value
  {
    var was := Lookup(before, q).value;
    if Masks(before, a, paths, mask) && Masks(before, b, paths, mask)
       && Lookup(a, q).Some? && !(q in paths && q != []) && was.Obj? {
      var x, y := Lookup(a, q).value.fields, Lookup(b, q).value.fields;
      forall k ensures Member(x, k) == Member(y, k) {
        LookupSnoc(before, q, k);
        LookupSnoc(a, q, k);
        LookupSnoc(b, q, k);
        if k in was.fields {
          DeterminedAt(before, a, b, paths, mask, q + [k]);
        }
      }
      SameMembers(x, y);
    }
  }

  lemma SameMembers(x: map<string, Json>, y: map<string, Json>)
    requires forall k :: Member(x, k) == Member(y, k)
    ensures x == y
  {
    forall k ensures (k in x <==> k in y) && (k in x ==> x[k] == y[k]) { assert Member(x, k) == Member(y, k); }
  }

  // --- In place ------------------------------------------------------------------------------

  /** redactPath: walk the parts from the node at `at`, overwriting the leaf where it is. */
  method RedactInPlace(doc: Document, at: Path, parts: Path, mask: string)
    requires Get(doc.root, at).Some?
    modifies doc
    ensures doc.root == Put(old(doc.root), at, RedactPath(Get(old(doc.root), at).value, parts, mask))
    decreases |parts|
  {
    PutSame(doc.root, at);
    if |parts| == 0 {
      return;
    }
    var node := Get(doc.root, at).value;
    if !node.Obj? || parts[0] !in node.fields {
      return;
    }
    var key := parts[0];
    if |parts| == 1 {
      doc.root := Put(doc.root, at, Obj(node.fields[key := Str(mask)]));
      return;
    }
    GetSnoc(doc.root, at, key);
    PutSnoc(doc.root, at, key, RedactPath(node.fields[key], parts[1..], mask));
    RedactInPlace(doc, at + [key], parts[1..], mask);
  }

  function Fields(fields: seq<string>): (paths: seq<Path>)
    ensures |paths| == |fields| && forall i :: 0 <= i < |fields| ==> paths[i] == Split(fields[i], '.')
  {
    seq(|fields|, i requires 0 <= i < |fields| => Split(fields[i], '.'))
  }

  function MaskOf(mask: string): string {
    if mask == "" then DEFAULT_MASK else mask
  }

  function Redacted(codec: Codec, payload: string, fields: seq<string>, mask: string): string {
    if fields == [] || codec.decode(payload).None? then payload
    else codec.encode(RedactAll(codec.decode(payload).value, Fields(fields), MaskOf(mask)))
  }

  /** Apply: payloads that are not JSON, and all payloads when nothing is configured, pass through
      unchanged; others are masked at the configured paths and nowhere else. */
  method Apply(codec: Codec, payload: string, fields: seq<string>, mask: string) returns (out: string)
    ensures fields == [] || codec.decode(payload).None? ==> out == payload
    ensures fields != [] && codec.decode(payload).Some? ==>
              exists after: Json ::
                && out == codec.encode(after)
                && Masks(codec.decode(payload).value, after, Fields(fields), if mask == "" then "[REDACTED]" else mask)
    ensures out == Redacted(codec, payload, fields, mask)
  {
    if |fields| == 0 {
      return payload;
    }
    var decoded := codec.decode(payload);
    if decoded.None? {
      return payload;
    }
    var doc := new Document(decoded.value);
    for i := 0 to |fields|
      invariant doc.root == RedactAll(decoded.value, Fields(fields)[..i], MaskOf(mask))
    {
      assert Fields(fields)[..i + 1][..i] == Fields(fields)[..i];
      RedactInPlace(doc, [], Split(fields[i], '.'), MaskOf(mask));
    }
    assert Fields(fields)[..|fields|] == Fields(fields);
    RedactAllMasks(decoded.value, Fields(fields), MaskOf(mask));
    out := codec.encode(doc.root);
  }

  /** The document that redacting a payload writes. */
  function Written(codec: Codec, payload: string, fields: seq<string>, mask: string): Option<Json> {
    if codec.decode(payload).None? then None
    else Some(RedactAll(codec.decode(payload).value, Fields(fields), MaskOf(mask)))
  }

  /** On payload texts redacting twice is redacting once, provided the one document that is written
      reads back. */
  lemma ApplyIsIdempotent(codec: Codec, payload: string, fields: seq<string>, mask: string)
    requires var d := Written(codec, payload, fields, mask); d.Some? ==> codec.decode(codec.encode(d.value)) == d
    ensures Redacted(codec, Redacted(codec, payload, fields, mask), fields, mask)
              == Redacted(codec, payload, fields, mask)
  {
    if codec.decode(payload).Some? {
      RedactionIsIdempotent(codec.decode(payload).value, Fields(fields), MaskOf(mask));
    }
  }

  /** The order and the repetition of the fields do not matter, whatever the codec. */
  lemma ApplyIsUnordered(codec: Codec, payload: string, a: seq<string>, b: seq<string>, mask: string)
    requires forall f :: f in a <==> f in b
    ensures Redacted(codec, payload, a, mask) == Redacted(codec, payload, b, mask)
  {
    assert a != [] ==> a[0] in b;
    assert b != [] ==> b[0] in a;
    if codec.decode(payload).Some? {
      SameFields(a, b);
      OrderIsIrrelevant(codec.decode(payload).value, Fields(a), Fields(b), MaskOf(mask));
    }
  }

  lemma SameFields(a: seq<string>, b: seq<string>)
    requires forall f :: f in a <==> f in b
    ensures forall p :: p in Fields(a) <==> p in Fields(b)
  {
    forall p ensures p in Fields(a) <==> p in Fields(b) {
      if i :| 0 <= i < |a| && Fields(a)[i] == p {
        assert a[i] in b;
        var j :| 0 <= j < |b| && b[j] == a[i];
        assert Fields(b)[j] == p;
      }
      if j :| 0 <= j < |b| && Fields(b)[j] == p {
        assert b[j] in a;
        var i :| 0 <= i < |a| && a[i] == b[j];
        assert Fields(a)[i] == p;
      }
    }
  }

  /** What somebody who decodes the redacted text sees, when the document that was written reads back:
      a configured field that was there is missing, because another configured field is above it,
      or reads the mask; the others, and everything unrelated, read as before. */
  lemma RedactedTextReads(codec: Codec, payload: string, fields: seq<string>, mask: string, f: string)
    requires fields != [] && codec.decode(payload).Some? && f in fields
    requires var d := Written(codec, payload, fields, mask); codec.decode(codec.encode(d.value)) == d
    ensures var before, after := codec.decode(payload).value, codec.decode(Redacted(codec, payload, fields, mask));
            && after.Some?
            && (Lookup(before, Split(f, '.')).None? ==> Lookup(after.value, Split(f, '.')).None?)
            && (Lookup(before, Split(f, '.')).Some? && !Covered(Fields(fields), Split(f, '.')) ==>
                  Lookup(after.value, Split(f, '.')) == Some(Str(if mask == "" then "[REDACTED]" else mask)))
            && (Covered(Fields(fields), Split(f, '.')) ==> Lookup(after.value, Split(f, '.')).None?)
  {
    var i :| 0 <= i < |fields| && fields[i] == f;
    assert Fields(fields)[i] == Split(f, '.') && Split(f, '.') in Fields(fields);
    RedactAllMasks(codec.decode(payload).value, Fields(fields), MaskOf(mask));
  }
}
