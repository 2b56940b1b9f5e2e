// internal/selfupdate/version.go: the order on release versions, and how it relates to the
// precedence of Semantic Versioning 2.0.0, section 11.
module Semver {
  import opened Seqs
  import opened Text

  datatype Version = Version(major: int, minor: int, patch: int, pre: seq<string>)

  function CmpInt(a: int, b: int): int {
    if a < b then -1 else if a > b then 1 else 0
  }

  /** An identifier is numeric for the code when strconv.Atoi takes it. */
  function CmpIdentifier(a: string, b: string): int {
    match (Atoi(a), Atoi(b))
    case (Some(m), Some(n)) => CmpInt(m, n)
    case (Some(_), None) => -1
    case (None, Some(_)) => 1
    case (None, None) => Text.Compare(a, b)
  }

  /** The first pair of identifiers that differ decides, then the number of identifiers. */
  function CmpFields(a: seq<string>, b: seq<string>): int {
    if a == [] || b == [] then CmpInt(|a|, |b|)
    else
      var c := CmpIdentifier(a[0], b[0]);
      if c != 0 then c else CmpFields(a[1..], b[1..])
  }

  function CmpPre(a: seq<string>, b: seq<string>): int {
    if a == [] && b == [] then 0 else if a == [] then 1 else if b == [] then -1 else CmpFields(a, b)
  }

  function Order(v: Version, w: Version): int {
    if v.major != w.major then CmpInt(v.major, w.major)
    else if v.minor != w.minor then CmpInt(v.minor, w.minor)
    else if v.patch != w.patch then CmpInt(v.patch, w.patch)
    else CmpPre(v.pre, w.pre)
  }

  method CmpPrerelease(a: seq<string>, b: seq<string>) returns (c: int)
    ensures c == CmpPre(a, b)
  {
    if |a| == 0 && |b| == 0 { return 0; }
    if |a| == 0 { return 1; }
    if |b| == 0 { return -1; }
    var i := 0;
    while i < |a| && i < |b|
      invariant i <= |a| && i <= |b|
      invariant CmpFields(a, b) == CmpFields(a[i..], b[i..])
    {
      var d := CmpIdentifier(a[i], b[i]);
      if d != 0 {
        return d;
      }
      assert a[i..][1..] == a[i + 1..] && b[i..][1..] == b[i + 1..];
      i := i + 1;
    }
    return CmpInt(|a|, |b|);
  }

  /** semver.Compare: negative, zero or positive exactly as section 11 asks, on plain identifiers. */
  method Compare(v: Version, w: Version) returns (c: int)
    ensures c == Order(v, w) && -1 <= c <= 1
    ensures AllPlain(v.pre) && AllPlain(w.pre) ==> (c < 0 <==> Precedes(v, w)) && (c > 0 <==> Precedes(w, v))
  {
    OrderIsASign(v, w);
    if AllPlain(v.pre) && AllPlain(w.pre) {
      AgreesWithSection11(v, w);
    }
    c := CmpInt(v.major, w.major);
    if c != 0 { return; }
    c := CmpInt(v.minor, w.minor);
    if c != 0 { return; }
    c := CmpInt(v.patch, w.patch);
    if c != 0 { return; }
    c := CmpPrerelease(v.pre, w.pre);
  }

  // --- A total preorder on all versions ------------------------------------------------------------

  lemma IdentifierFlip(a: string, b: string)
    ensures CmpIdentifier(b, a) == -CmpIdentifier(a, b) && -1 <= CmpIdentifier(a, b) <= 1
  {
    CompareFlip(a, b);
  }

  lemma IdentifierTransitive(a: string, b: string, c: string)
    requires CmpIdentifier(a, b) <= 0 && CmpIdentifier(b, c) <= 0
    ensures CmpIdentifier(a, c) <= 0
    ensures CmpIdentifier(a, c) == 0 <==> CmpIdentifier(a, b) == 0 && CmpIdentifier(b, c) == 0
  {
    if Atoi(a).None? && Atoi(b).None? && Atoi(c).None? {
      CompareTransitive(a, b, c);
      CompareZero(a, b);
      CompareZero(b, c);
    }
  }

  lemma {:induction false} FieldsFlip(a: seq<string>, b: seq<string>)
    ensures CmpFields(b, a) == -CmpFields(a, b) && -1 <= CmpFields(a, b) <= 1
  {
    if a != [] && b != [] {
      IdentifierFlip(a[0], b[0]);
      FieldsFlip(a[1..], b[1..]);
    }
  }

  lemma {:induction false} FieldsTransitive(a: seq<string>, b: seq<string>, c: seq<string>)
    requires CmpFields(a, b) <= 0 && CmpFields(b, c) <= 0
    ensures CmpFields(a, c) <= 0
  {
    if a != [] && b != [] && c != [] {
      IdentifierFlip(a[0], b[0]);
      IdentifierFlip(b[0], c[0]);
      IdentifierTransitive(a[0], b[0], c[0]);
      if CmpIdentifier(a[0], c[0]) == 0 {
        FieldsTransitive(a[1..], b[1..], c[1..]);
      }
    }
  }

  lemma OrderIsASign(v: Version, w: Version)
    ensures -1 <= Order(v, w) <= 1
  {
    FieldsFlip(v.pre, w.pre);
  }

  lemma OrderReflexive(v: Version)
    ensures Order(v, v) == 0
  {
    FieldsFlip(v.pre, v.pre);
  }

  lemma OrderAntisymmetric(v: Version, w: Version)
    ensures Order(w, v) == -Order(v, w)
  {
    FieldsFlip(v.pre, w.pre);
  }

  lemma OrderTransitive(u: Version, v: Version, w: Version)
    requires Order(u, v) <= 0 && Order(v, w) <= 0
    ensures Order(u, w) <= 0
  {
    if (u.major, u.minor, u.patch) == (v.major, v.minor, v.patch) == (w.major, w.minor, w.patch) {
      if u.pre != [] && v.pre != [] && w.pre != [] {
        FieldsTransitive(u.pre, v.pre, w.pre);
      }
    }
  }

  // --- Section 11, written down independently ------------------------------------------------------

  /** ASCII order: the first character that differs decides, and a proper prefix comes first. */
  ghost predicate AsciiLess(a: string, b: string) {
    exists k :: 0 <= k <= |a| && k <= |b| && a[..k] == b[..k] && AsciiStep(a, b, k)
  }

  predicate AsciiStep(a: string, b: string, k: nat)
    requires k <= |a| && k <= |b|
  {
    (k == |a| && k < |b|) || (k < |a| && k < |b| && a[k] < b[k])
  }

  /** Clauses 11.4.1 to 11.4.3 for two identifiers. */
  ghost predicate LowerIdentifier(a: string, b: string) {
    if AllDigits(a) && AllDigits(b) then Decimal(a) < Decimal(b)
    else if AllDigits(a) then true
    else !AllDigits(b) && AsciiLess(a, b)
  }

  ghost predicate SameRank(a: string, b: string) {
    !LowerIdentifier(a, b) && !LowerIdentifier(b, a)
  }

  /** Field by field until a difference is found; a larger set of fields is higher. */
  ghost predicate LowerFields(a: seq<string>, b: seq<string>) {
    exists k :: 0 <= k <= |a| && k <= |b| && SameUpTo(a, b, k) && FieldStep(a, b, k)
  }

  ghost predicate SameUpTo(a: seq<string>, b: seq<string>, k: nat)
    requires k <= |a| && k <= |b|
  {
    forall i :: 0 <= i < k ==> SameRank(a[i], b[i])
  }

  ghost predicate FieldStep(a: seq<string>, b: seq<string>, k: nat)
    requires k <= |a| && k <= |b|
  {
    (k == |a| && k < |b|) || (k < |a| && k < |b| && LowerIdentifier(a[k], b[k]))
  }

  /** Section 11: `v` has lower precedence than `w`. */
  ghost predicate Precedes(v: Version, w: Version) {
    || v.major < w.major
    || (v.major == w.major && v.minor < w.minor)
    || (v.major == w.major && v.minor == w.minor && v.patch < w.patch)
    || (v.major == w.major && v.minor == w.minor && v.patch == w.patch
        && v.pre != [] && (w.pre == [] || LowerFields(v.pre, w.pre)))
  }

  /** Section 9: letters, digits and hyphens, not empty, no leading zero in a number. */
  predicate IsIdentifier(s: string) {
    && s != []
    && (forall i :: 0 <= i < |s| ==> IdentifierChar(s[i]))
    && (AllDigits(s) && |s| > 1 ==> s[0] != '0')
  }

  predicate IdentifierChar(c: char) {
    '0' <= c <= '9' || 'a' <= c <= 'z' || 'A' <= c <= 'Z' || c == '-'
  }

  /** Digits that fit an int, or something other than a sign followed by digits that fit one. */
  predicate Plain(s: string) {
    if AllDigits(s) then Decimal(s) <= MAX_INT
    else !(s != [] && s[0] == '-' && AllDigits(s[1..]) && Decimal(s[1..]) <= MAX_INT + 1)
         && !(s != [] && s[0] == '+' && AllDigits(s[1..]) && Decimal(s[1..]) <= MAX_INT)
  }

  predicate AllPlain(pre: seq<string>) {
    forall i :: 0 <= i < |pre| ==> Plain(pre[i])
  }

  predicate AllIdentifiers(pre: seq<string>) {
    forall i :: 0 <= i < |pre| ==> IsIdentifier(pre[i])
  }

  lemma PlainMeansAtoiIsRight(s: string)
    ensures Plain(s) <==> (Atoi(s).Some? <==> AllDigits(s))
    ensures AllDigits(s) && Plain(s) ==> Atoi(s) == Some(Decimal(s))
  {
    if s != [] && AllDigits(s) {
      assert '0' <= s[0] <= '9';
    }
  }

  // --- Agreement ---------------------------------------------------------------------------------------

  lemma {:induction false} CompareIsAscii(a: string, b: string)
    ensures Text.Compare(a, b) < 0 <==> AsciiLess(a, b)
  {
    if a == [] || b == [] {
      if a == [] && b != [] {
        assert a[..0] == b[..0] && AsciiStep(a, b, 0);
      }
    } else {
      CompareIsAscii(a[1..], b[1..]);
      AsciiUnfolds(a, b);
    }
  }

  lemma AsciiUnfolds(a: string, b: string)
    requires a != [] && b != []
    ensures AsciiLess(a, b) <==> a[0] < b[0] || (a[0] == b[0] && AsciiLess(a[1..], b[1..]))
  {
    if a[0] < b[0] {
      assert a[..0] == b[..0] && AsciiStep(a, b, 0);
    } else if a[0] == b[0] && AsciiLess(a[1..], b[1..]) {
      var k :| 0 <= k <= |a[1..]| && k <= |b[1..]| && a[1..][..k] == b[1..][..k] && AsciiStep(a[1..], b[1..], k);
      assert a[..k + 1] == [a[0]] + a[1..][..k] && b[..k + 1] == [b[0]] + b[1..][..k];
      assert AsciiStep(a, b, k + 1);
    }
    if AsciiLess(a, b) {
      var k :| 0 <= k <= |a| && k <= |b| && a[..k] == b[..k] && AsciiStep(a, b, k);
      if k > 0 {
        assert a[0] == a[..k][0] == b[..k][0] == b[0];
        assert a[1..][..k - 1] == a[..k][1..] == b[..k][1..] == b[1..][..k - 1];
        assert AsciiStep(a[1..], b[1..], k - 1);
      }
    }
  }

  lemma IdentifierAgrees(a: string, b: string)
    requires Plain(a) && Plain(b)
    ensures CmpIdentifier(a, b) < 0 <==> LowerIdentifier(a, b)
    ensures CmpIdentifier(a, b) > 0 <==> LowerIdentifier(b, a)
  {
    PlainMeansAtoiIsRight(a);
    PlainMeansAtoiIsRight(b);
    CompareIsAscii(a, b);
    CompareIsAscii(b, a);
    CompareFlip(a, b);
  }

  lemma LowerFieldsUnfolds(a: seq<string>, b: seq<string>)
    requires a != [] && b != []
    ensures LowerFields(a, b) <==> LowerIdentifier(a[0], b[0]) || (SameRank(a[0], b[0]) && LowerFields(a[1..], b[1..]))
  {
    if LowerIdentifier(a[0], b[0]) {
      assert SameUpTo(a, b, 0) && FieldStep(a, b, 0);
    } else if SameRank(a[0], b[0]) && LowerFields(a[1..], b[1..]) {
      var k :| 0 <= k <= |a[1..]| && k <= |b[1..]| && SameUpTo(a[1..], b[1..], k) && FieldStep(a[1..], b[1..], k);
      forall i | 0 <= i < k + 1 ensures SameRank(a[i], b[i]) {
        if i > 0 { assert a[i] == a[1..][i - 1] && b[i] == b[1..][i - 1]; }
      }
      assert SameUpTo(a, b, k + 1) && FieldStep(a, b, k + 1);
    }
    if LowerFields(a, b) {
      var k :| 0 <= k <= |a| && k <= |b| && SameUpTo(a, b, k) && FieldStep(a, b, k);
      if k > 0 {
        forall i | 0 <= i < k - 1 ensures SameRank(a[1..][i], b[1..][i]) {
          assert SameRank(a[i + 1], b[i + 1]);
        }
        assert SameUpTo(a[1..], b[1..], k - 1) && FieldStep(a[1..], b[1..], k - 1);
      }
    }
  }

  lemma {:induction false} FieldsAgree(a: seq<string>, b: seq<string>)
    requires AllPlain(a) && AllPlain(b)
    ensures CmpFields(a, b) < 0 <==> LowerFields(a, b)
    ensures CmpFields(a, b) > 0 <==> LowerFields(b, a)
  {
    if a == [] || b == [] {
      if |a| < |b| { assert SameUpTo(a, b, 0) && FieldStep(a, b, 0); }
      if |b| < |a| { assert SameUpTo(b, a, 0) && FieldStep(b, a, 0); }
    } else {
      IdentifierAgrees(a[0], b[0]);
      FieldsAgree(a[1..], b[1..]);
      LowerFieldsUnfolds(a, b);
      LowerFieldsUnfolds(b, a);
    }
  }

  ghost predicate Agrees(v: Version, w: Version) {
    && (Order(v, w) < 0 <==> Precedes(v, w))
    && (Order(v, w) > 0 <==> Precedes(w, v))
  }

  /** On plain identifiers the code's order is the precedence of section 11. */
  lemma AgreesWithSection11(v: Version, w: Version)
    requires AllPlain(v.pre) && AllPlain(w.pre)
    ensures Agrees(v, w)
  {
    FieldsAgree(v.pre, w.pre);
  }

  // --- Exactly when ------------------------------------------------------------------------------------

  /** An identifier on which the code ranks `x` wrongly, for any `x` that is not plain. */
  function Witness(x: string): string {
    if AllDigits(x) then "-" else "1"
  }

  lemma WitnessIsPlain(x: string)
    ensures Plain(Witness(x)) && IsIdentifier(Witness(x))
  {
    assert Decimal("1") == 1 by { assert "1"[..0] == ""; }
  }

  lemma WitnessDisagrees(x: string)
    requires IsIdentifier(x) && !Plain(x)
    ensures AllDigits(x) ==> CmpIdentifier(x, Witness(x)) > 0 && LowerIdentifier(x, Witness(x))
    ensures !AllDigits(x) ==> CmpIdentifier(x, Witness(x)) < 0 && LowerIdentifier(Witness(x), x)
  {
    PlainMeansAtoiIsRight(x);
    if AllDigits(x) {
      assert x[0] > '-';
      assert Text.Compare(x, "-") > 0;
    } else {
      assert IdentifierChar(x[0]);
      assert Atoi("1") == Some(1) by { assert "1"[..0] == ""; }
    }
  }

  lemma SameRankWithItself(a: string)
    ensures SameRank(a, a)
    ensures CmpIdentifier(a, a) == 0
  {
    CompareIsAscii(a, a);
    CompareZero(a, a);
  }

  /** Two field lists that first differ at position `k` are ordered by what stands there. */
  lemma {:induction false} DecidedAt(a: seq<string>, b: seq<string>, k: nat)
    requires k < |a| && k < |b| && a[..k] == b[..k]
    ensures CmpIdentifier(a[k], b[k]) != 0 ==> CmpFields(a, b) == CmpIdentifier(a[k], b[k])
    ensures LowerIdentifier(a[k], b[k]) ==> LowerFields(a, b)
    ensures LowerIdentifier(b[k], a[k]) ==> LowerFields(b, a)
  {
    forall i | 0 <= i < k ensures SameRank(a[i], b[i]) {
      assert a[..k][i] == b[..k][i];
      SameRankWithItself(a[i]);
    }
    assert SameUpTo(a, b, k) && SameUpTo(b, a, k);
    assert LowerIdentifier(a[k], b[k]) ==> FieldStep(a, b, k);
    assert LowerIdentifier(b[k], a[k]) ==> FieldStep(b, a, k);
    if k > 0 {
      assert a[0] == a[..k][0] == b[..k][0] == b[0];
      SameRankWithItself(a[0]);
      assert a[1..][..k - 1] == a[..k][1..] == b[..k][1..] == b[1..][..k - 1];
      DecidedAt(a[1..], b[1..], k - 1);
    }
  }

  /** The code agrees with section 11 against every well-formed version whose identifiers are plain
      exactly when the version's own identifiers are plain. */
  lemma AgreesIffPlain(v: Version)
    requires AllIdentifiers(v.pre)
    ensures AllPlain(v.pre) <==> forall w: Version :: AllIdentifiers(w.pre) && AllPlain(w.pre) ==> Agrees(v, w)
  {
    if AllPlain(v.pre) {
      forall w: Version | AllIdentifiers(w.pre) && AllPlain(w.pre) ensures Agrees(v, w) {
        AgreesWithSection11(v, w);
      }
    } else {
      var k := FirstNotPlain(v.pre);
      var w := v.(pre := v.pre[..k] + [Witness(v.pre[k])]);
      WitnessIsPlain(v.pre[k]);
      assert AllIdentifiers(w.pre) && AllPlain(w.pre);
      MisrankedAt(v, w, k);
    }
  }

  lemma MisrankedAt(v: Version, w: Version, k: nat)
    requires k < |v.pre| && IsIdentifier(v.pre[k]) && !Plain(v.pre[k])
    requires w == v.(pre := v.pre[..k] + [Witness(v.pre[k])])
    ensures !Agrees(v, w)
  {
    var x := v.pre[k];
    WitnessDisagrees(x);
    DecidedAt(v.pre, w.pre, k);
    assert if AllDigits(x) then Precedes(v, w) && Order(v, w) > 0 else Precedes(w, v) && Order(v, w) < 0;
  }

  function FirstNotPlain(pre: seq<string>): (k: nat)
    requires !AllPlain(pre)
    ensures k < |pre| && !Plain(pre[k]) && AllPlain(pre[..k])
  {
    if !Plain(pre[0]) then 0
    else
      assert exists i :: 0 <= i < |pre[1..]| && !Plain(pre[1..][i]) by {
        var i :| 0 <= i < |pre| && !Plain(pre[i]);
        assert pre[1..][i - 1] == pre[i];
      }
      var k := FirstNotPlain(pre[1..]);
      assert forall i :: 0 < i < k + 1 ==> pre[i] == pre[1..][..k][i - 1];
      1 + k
  }

  /** A version that shows it: "-5" and "-6" are compared as the numbers -5 and -6, so 1.0.0--5
      comes out above 1.0.0--6, while section 11 orders them as text. */
  lemma SignedIdentifiersMisrank()
    ensures var v, w := Version(1, 0, 0, ["-5"]), Version(1, 0, 0, ["-6"]);
            AllIdentifiers(v.pre) && AllIdentifiers(w.pre) && Order(v, w) > 0 && Precedes(v, w)
  {
    assert "-5"[1..] == "5" && "-6"[1..] == "6" && "5"[..0] == "" && "6"[..0] == "";
    assert Decimal("5") == 5 && Decimal("6") == 6;
    assert Atoi("-5") == Some(-5) && Atoi("-6") == Some(-6);
    assert !AllDigits("-5") by { assert "-5"[0] == '-'; }
    assert !AllDigits("-6") by { assert "-6"[0] == '-'; }
    assert "-5"[..1] == "-6"[..1] && AsciiStep("-5", "-6", 1);
    assert LowerIdentifier("-5", "-6");
    assert SameUpTo(["-5"], ["-6"], 0) && FieldStep(["-5"], ["-6"], 0);
    assert LowerFields(["-5"], ["-6"]);
  }
}
