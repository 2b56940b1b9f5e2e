// internal/selfupdate/version.go: reading a release tag.
module SemverText {
  import opened Seqs
  import opened Text
  import opened Semver

  /** unicode.IsSpace. */
  predicate IsSpace(c: char) {
    var n := c as int;
    9 <= n <= 13 || 0x2000 <= n <= 0x200A || n in {0x20, 0x85, 0xA0, 0x1680, 0x2028, 0x2029, 0x202F, 0x205F, 0x3000}
  }

  function TrimLeft(s: string): string {
    if s != [] && IsSpace(s[0]) then TrimLeft(s[1..]) else s
  }

  function TrimRight(s: string): string {
    if s != [] && IsSpace(s[|s| - 1]) then TrimRight(s[..|s| - 1]) else s
  }

  function TrimPrefix(s: string, c: char): string {
    if s != [] && s[0] == c then s[1..] else s
  }

  /** strings.IndexByte, with the length for a character that does not occur. */
  function IndexOf(s: string, c: char): (i: nat)
    ensures i <= |s| && c !in s[..i] && (i < |s| ==> s[i] == c)
  {
    if s == [] || s[0] == c then 0
    else
      var i := 1 + IndexOf(s[1..], c);
      assert s[..i] == [s[0]] + s[1..][..i - 1];
      i
  }

  method ParseSemver(text: string) returns (r: Option<Version>)
    ensures r == Parsed(text)
    ensures r.Some? ==> 0 <= r.value.major <= MAX_INT && 0 <= r.value.minor <= MAX_INT && 0 <= r.value.patch <= MAX_INT
  {
    var s := TrimPrefix(TrimPrefix(TrimRight(TrimLeft(text)), 'v'), 'V');
    s := s[..IndexOf(s, '+')];
    var dash := IndexOf(s, '-');
    var core, pre := s[..dash], if dash < |s| then s[dash + 1..] else "";
    var parts := Split(core, '.');
    assert Parsed(text) == ParsedParts(core, pre);
    if |parts| != 3 {
      return None;
    }
    var nums: seq<int> := [];
    for i := 0 to 3
      invariant |nums| == i
      invariant forall j :: 0 <= j < i ==> Atoi(parts[j]) == Some(nums[j]) && 0 <= nums[j] <= MAX_INT
    {
      var n := Atoi(parts[i]);
      if n.None? || n.value < 0 {
        return None;
      }
      nums := nums + [n.value];
    }
    return Some(Version(nums[0], nums[1], nums[2], if pre != "" then Split(pre, '.') else []));
  }

  function Parsed(text: string): Option<Version> {
    WithoutBuild(TrimPrefix(TrimPrefix(TrimRight(TrimLeft(text)), 'v'), 'V'))
  }

  function WithoutBuild(s: string): Option<Version> {
    WithPrerelease(s[..IndexOf(s, '+')])
  }

  function WithPrerelease(s: string): Option<Version> {
    var dash := IndexOf(s, '-');
    ParsedParts(s[..dash], if dash < |s| then s[dash + 1..] else "")
  }

  function ParsedParts(core: string, pre: string): Option<Version> {
    var parts := Split(core, '.');
    if |parts| == 3 && (forall i :: 0 <= i < 3 ==> Atoi(parts[i]).Some? && Atoi(parts[i]).value >= 0)
    then Some(Version(Atoi(parts[0]).value, Atoi(parts[1]).value, Atoi(parts[2]).value,
                      if pre != "" then Split(pre, '.') else []))
    else None
  }

  // --- Writing a version, and reading it back --------------------------------------------------------

  function Render(v: Version): string
    requires v.major >= 0 && v.minor >= 0 && v.patch >= 0
  {
    Join([Digits(v.major), Digits(v.minor), Digits(v.patch)], '.')
      + (if v.pre == [] then "" else "-" + Join(v.pre, '.'))
  }

  lemma {:induction false} SplitPiece(p: string, rest: string, c: char)
    requires c !in p
    ensures Split(p, c) == [p]
    ensures Split(p + [c] + rest, c) == [p] + Split(rest, c)
  {
    if p == [] {
      assert [] + [c] + rest == [c] + rest;
      assert ([c] + rest)[1..] == rest;
    } else {
      assert p[0] in p && forall x :: x in p[1..] ==> x in p;
      SplitPiece(p[1..], rest, c);
      assert (p + [c] + rest)[1..] == p[1..] + [c] + rest;
      assert p == [p[0]] + p[1..];
    }
  }

  lemma {:induction false} SplitUndoesJoin(parts: seq<string>, c: char)
    requires parts != [] && forall i :: 0 <= i < |parts| ==> c !in parts[i]
    ensures Split(Join(parts, c), c) == parts
  {
    if |parts| == 1 {
      SplitPiece(parts[0], "", c);
    } else {
      SplitUndoesJoin(parts[1..], c);
      SplitPiece(parts[0], Join(parts[1..], c), c);
    }
  }

  lemma {:induction false} JoinChars(parts: seq<string>, c: char, x: char)
    requires parts != [] && x in Join(parts, c)
    ensures x == c || exists i :: 0 <= i < |parts| && x in parts[i]
  {
    if |parts| > 1 && x != c && x !in parts[0] {
      JoinChars(parts[1..], c, x);
      var i :| 0 <= i < |parts[1..]| && x in parts[1..][i];
      assert x in parts[i + 1];
    }
  }

  lemma {:induction false} IndexOfFirst(a: string, c: char, b: string)
    requires c !in a
    ensures IndexOf(a, c) == |a|
    ensures IndexOf(a + [c] + b, c) == |a|
  {
    if a != [] {
      assert a[0] in a && forall x :: x in a[1..] ==> x in a;
      IndexOfFirst(a[1..], c, b);
      assert (a + [c] + b)[1..] == a[1..] + [c] + b;
    }
  }

  lemma NothingToTrim(s: string)
    requires s != [] && !IsSpace(s[0]) && !IsSpace(s[|s| - 1])
    ensures TrimRight(TrimLeft(s)) == s
  {
  }

  predicate IsBuild(b: string) {
    forall x :: x in b ==> IdentifierChar(x) || x == '.'
  }

  function Meta(build: Option<string>): string {
    if build.Some? then "+" + build.value else ""
  }

  /** Reading back a written version gives the version: with or without a leading v, and with any
      build metadata, which leaves no trace. */
  lemma ReadsBack(v: Version, prefix: string, build: Option<string>)
    requires 0 <= v.major <= MAX_INT && 0 <= v.minor <= MAX_INT && 0 <= v.patch <= MAX_INT
    requires AllIdentifiers(v.pre) && prefix in ["", "v", "V"] && (build.Some? ==> IsBuild(build.value))
    ensures Parsed(prefix + (Render(v) + Meta(build))) == Some(v)
  {
    RenderedChars(v);
    MetaShape(build);
    PrefixesGo(prefix, Render(v), Meta(build));
    BuildGoes(Render(v), build);
    PartsReadBack(v);
  }

  lemma MetaShape(build: Option<string>)
    requires build.Some? ==> IsBuild(build.value)
    ensures Meta(build) == "" || (Meta(build)[0] == '+' && IsBuild(Meta(build)[1..]))
  {
    if build.Some? { assert Meta(build)[1..] == build.value; }
  }

  lemma BuildGoes(text: string, build: Option<string>)
    requires '+' !in text
    ensures WithoutBuild(text + Meta(build)) == WithPrerelease(text)
  {
    var s := text + Meta(build);
    if build.Some? {
      IndexOfFirst(text, '+', build.value);
      assert s == text + ['+'] + build.value;
    } else {
      IndexOfFirst(text, '+', "");
      assert s == text;
    }
    assert s[..IndexOf(s, '+')] == text;
  }

  lemma RenderedChars(v: Version)
    requires v.major >= 0 && v.minor >= 0 && v.patch >= 0 && AllIdentifiers(v.pre)
    ensures Render(v) != [] && '0' <= Render(v)[0] <= '9'
    ensures forall x :: x in Render(v) ==> IdentifierChar(x) || x == '.'
  {
    var nums := [Digits(v.major), Digits(v.minor), Digits(v.patch)];
    assert Join(nums, '.')[0] == nums[0][0];
    forall x | x in Render(v) ensures IdentifierChar(x) || x == '.' {
      if x in Join(nums, '.') {
        JoinChars(nums, '.', x);
      } else if v.pre != [] && x != '-' {
        JoinChars(v.pre, '.', x);
      }
    }
  }

  lemma PrefixesGo(prefix: string, text: string, meta: string)
    requires prefix in ["", "v", "V"] && text != [] && '0' <= text[0] <= '9'
    requires forall x :: x in text ==> IdentifierChar(x) || x == '.'
    requires meta == "" || (meta[0] == '+' && IsBuild(meta[1..]))
    ensures TrimPrefix(TrimPrefix(TrimRight(TrimLeft(prefix + (text + meta))), 'v'), 'V') == text + meta
  {
    var body := text + meta;
    var all := prefix + body;
    assert all[|prefix|..] == body;
    var last := all[|all| - 1];
    assert last == body[|body| - 1];
    if meta == "" {
      assert last == text[|text| - 1];
    } else {
      assert last == meta[|meta| - 1];
      assert |meta| > 1 ==> meta[|meta| - 1] == meta[1..][|meta| - 2];
    }
    assert IdentifierChar(last) || last == '.' || last == '+';
    NothingToTrim(all);
    assert body[0] == text[0];
  }

  lemma PartsReadBack(v: Version)
    requires 0 <= v.major <= MAX_INT && 0 <= v.minor <= MAX_INT && 0 <= v.patch <= MAX_INT
    requires AllIdentifiers(v.pre)
    ensures WithPrerelease(Render(v)) == Some(v)
  {
    var core := Join([Digits(v.major), Digits(v.minor), Digits(v.patch)], '.');
    NumbersReadBack(v);
    if v.pre == [] {
      CutAtHyphen(core, None);
    } else {
      CutAtHyphen(core, Some(Join(v.pre, '.')));
      assert Render(v) == core + ("-" + Join(v.pre, '.'));
      IdentifiersReadBack(v.pre);
    }
  }

  lemma IdentifiersReadBack(pre: seq<string>)
    requires pre != [] && AllIdentifiers(pre)
    ensures Join(pre, '.') != "" && Split(Join(pre, '.'), '.') == pre
  {
    assert IsIdentifier(pre[0]) && pre[0] != "";
    forall i | 0 <= i < |pre| ensures '.' !in pre[i] {
      assert IsIdentifier(pre[i]);
    }
    SplitUndoesJoin(pre, '.');
  }

  lemma CutAtHyphen(core: string, pre: Option<string>)
    requires '-' !in core
    ensures WithPrerelease(core + (if pre.Some? then "-" + pre.value else ""))
         == ParsedParts(core, if pre.Some? then pre.value else "")
  {
    if pre.Some? {
      var s := core + ("-" + pre.value);
      IndexOfFirst(core, '-', pre.value);
      assert s == core + ['-'] + pre.value;
      assert s[..|core|] == core && s[|core| + 1..] == pre.value;
    } else {
      IndexOfFirst(core, '-', "");
      assert core + "" == core && core[..|core|] == core;
    }
  }

  lemma NumbersReadBack(v: Version)
    requires 0 <= v.major <= MAX_INT && 0 <= v.minor <= MAX_INT && 0 <= v.patch <= MAX_INT
    ensures var nums := [Digits(v.major), Digits(v.minor), Digits(v.patch)];
            && '-' !in Join(nums, '.') && Split(Join(nums, '.'), '.') == nums
            && Atoi(nums[0]) == Some(v.major) && Atoi(nums[1]) == Some(v.minor) && Atoi(nums[2]) == Some(v.patch)
  {
    var nums := [Digits(v.major), Digits(v.minor), Digits(v.patch)];
    forall i | 0 <= i < 3 ensures '.' !in nums[i] && '-' !in nums[i] {
    }
    SplitUndoesJoin(nums, '.');
    if '-' in Join(nums, '.') {
      JoinChars(nums, '.', '-');
    }
    DigitsReadBack(v.major);
    DigitsReadBack(v.minor);
    DigitsReadBack(v.patch);
  }

  lemma DigitsReadBack(n: nat)
    requires n <= MAX_INT
    ensures Atoi(Digits(n)) == Some(n)
  {
    assert '0' <= Digits(n)[0] <= '9';
  }

  predicate Spaces(s: string) {
    forall c :: c in s ==> IsSpace(c)
  }

  lemma {:induction false} LeadGoes(lead: string, s: string)
    requires Spaces(lead)
    ensures TrimLeft(lead + s) == TrimLeft(s)
  {
    if lead == "" {
      assert lead + s == s;
    } else {
      assert (lead + s)[1..] == lead[1..] + s;
      LeadGoes(lead[1..], s);
    }
  }

  lemma {:induction false} TrailGoes(s: string, trail: string)
    requires Spaces(trail)
    ensures TrimRight(s + trail) == TrimRight(s)
  {
    if trail == "" {
      assert s + trail == s;
    } else {
      var n := |trail| - 1;
      assert trail[n] in trail && (s + trail)[..|s + trail| - 1] == s + trail[..n];
      TrailGoes(s, trail[..n]);
    }
  }

  lemma {:induction false} TrailGoesToo(s: string, trail: string)
    requires Spaces(trail)
    ensures TrimRight(TrimLeft(s + trail)) == TrimRight(TrimLeft(s))
  {
    if s == "" {
      LeadGoes(trail, "");
      assert s + trail == trail + "";
    } else if IsSpace(s[0]) {
      assert (s + trail)[1..] == s[1..] + trail;
      TrailGoesToo(s[1..], trail);
    } else {
      TrailGoes(s, trail);
    }
  }

  /** Space around a tag does not count: blanks, tabs, line ends and what else Unicode has. */
  lemma SpaceIsIgnored(lead: string, text: string, trail: string)
    requires forall c :: c in lead + trail ==> IsSpace(c) || c in " \t\n\r"
    ensures Parsed(lead + (text + trail)) == Parsed(text)
  {
    forall c | c in lead || c in trail ensures IsSpace(c) { assert c in lead + trail; }
    LeadGoes(lead, text + trail);
    TrailGoesToo(text, trail);
  }

  /** What is left of a tag without surrounding space, leading v and build metadata. */
  function BodyOf(text: string): string {
    var s := TrimPrefix(TrimPrefix(TrimRight(TrimLeft(text)), 'v'), 'V');
    s[..IndexOf(s, '+')]
  }

  /** The dotted parts before the first hyphen. */
  function CoreOf(text: string): seq<string> {
    Split(BodyOf(text)[..IndexOf(BodyOf(text), '-')], '.')
  }

  /** Exactly what the parser lets through: three runs of digits that fit an int, which become the
      three numbers; leading zeros are accepted. No identifier holds a character that ends one. */
  lemma AcceptsExactly(text: string)
    ensures Parsed(text).Some? <==>
              |CoreOf(text)| == 3 && forall i :: 0 <= i < 3 ==>
                AllDigits(CoreOf(text)[i]) && Decimal(CoreOf(text)[i]) <= MAX_INT
    ensures Parsed(text).Some? ==>
              var v := Parsed(text).value;
              && v.major == Decimal(CoreOf(text)[0]) && v.minor == Decimal(CoreOf(text)[1])
                 && v.patch == Decimal(CoreOf(text)[2])
              && forall i :: 0 <= i < |v.pre| ==> '.' !in v.pre[i] && '+' !in v.pre[i]
  {
    var body := BodyOf(text);
    var dash := IndexOf(body, '-');
    assert Parsed(text) == ParsedParts(body[..dash], if dash < |body| then body[dash + 1..] else "");
    assert '+' !in body && '-' !in body[..dash];
    CoreNumbers(body[..dash]);
    if dash < |body| {
      CleanPieces(body[dash + 1..]);
    }
  }

  lemma CleanPieces(pre: string)
    requires '+' !in pre
    ensures forall i :: 0 <= i < |Split(pre, '.')| ==> '.' !in Split(pre, '.')[i] && '+' !in Split(pre, '.')[i]
  {
    forall i | 0 <= i < |Split(pre, '.')| ensures '.' !in Split(pre, '.')[i] && '+' !in Split(pre, '.')[i] {
      PiecesAreParts(pre, '.', i);
    }
  }

  /** In a text without signs the numbers strconv.Atoi accepts are the digit runs that fit. */
  lemma CoreNumbers(core: string)
    requires '+' !in core && '-' !in core
    ensures forall i :: 0 <= i < |Split(core, '.')| ==>
              var p := Split(core, '.')[i];
              Atoi(p) == if AllDigits(p) && Decimal(p) <= MAX_INT then Some(Decimal(p)) else None
  {
    forall i | 0 <= i < |Split(core, '.')|
      ensures var p := Split(core, '.')[i];
              Atoi(p) == if AllDigits(p) && Decimal(p) <= MAX_INT then Some(Decimal(p)) else None
    {
      PiecesAreParts(core, '.', i);
      var p := Split(core, '.')[i];
      assert p != [] ==> p[0] in core;
    }
  }

  lemma {:induction false} PiecesAreParts(s: string, c: char, i: nat)
    requires i < |Split(s, c)|
    ensures forall x :: x in Split(s, c)[i] ==> x in s && x != c
  {
    if s != [] {
      assert forall x :: x in s[1..] ==> x in s;
      var r := Split(s[1..], c);
      if s[0] == c {
        if i > 0 { PiecesAreParts(s[1..], c, i - 1); }
      } else {
        PiecesAreParts(s[1..], c, i);
        PiecesAreParts(s[1..], c, 0);
        assert Split(s, c) == [[s[0]] + r[0]] + r[1..];
        assert i > 0 ==> Split(s, c)[i] == r[i];
        assert i == 0 ==> Split(s, c)[i] == [s[0]] + r[0];
      }
    }
  }
}
