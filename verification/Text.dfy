// The string operations of the Go standard library that the recovery code relies on:
// byte-wise comparison, sorting, splitting, prefix and substring tests, decimal parsing.
module Text {
  import opened Seqs

  /** strings.Compare: -1, 0 or 1, comparing character by character. */
  function Compare(a: string, b: string): (c: int)
    ensures -1 <= c <= 1
  {
    if a == [] then (if b == [] then 0 else -1)
    else if b == [] then 1
    else if a[0] < b[0] then -1
    else if a[0] > b[0] then 1
    else Compare(a[1..], b[1..])
  }

  lemma {:induction false} CompareZero(a: string, b: string)
    ensures Compare(a, b) == 0 <==> a == b
  {
    if a != [] && b != [] && a[0] == b[0] {
      CompareZero(a[1..], b[1..]);
      assert a == [a[0]] + a[1..] && b == [b[0]] + b[1..];
    }
  }

  lemma {:induction false} CompareFlip(a: string, b: string)
    ensures Compare(b, a) == -Compare(a, b)
  {
    if a != [] && b != [] && a[0] == b[0] {
      CompareFlip(a[1..], b[1..]);
    }
  }

  lemma {:induction false} CompareTransitive(a: string, b: string, c: string)
    requires Compare(a, b) <= 0 && Compare(b, c) <= 0
    ensures Compare(a, c) <= 0
    ensures Compare(a, c) == 0 ==> Compare(a, b) == 0 && Compare(b, c) == 0
  {
    if a != [] && b != [] && c != [] && a[0] == b[0] == c[0] {
      CompareTransitive(a[1..], b[1..], c[1..]);
    }
  }

  predicate Sorted(s: seq<string>) {
    forall i, j :: 0 <= i < j < |s| ==> Compare(s[i], s[j]) <= 0
  }

  lemma SortedCons(x: string, s: seq<string>)
    requires Sorted(s) && forall y :: y in s ==> Compare(x, y) <= 0
    ensures Sorted([x] + s)
  {
  }

  lemma LeastGoesFirst(x: string, s: seq<string>)
    requires Sorted(s) && s != [] && Compare(x, s[0]) <= 0
    ensures Sorted([x] + s)
  {
    forall j | 0 < j < |s| ensures Compare(x, s[j]) <= 0 { CompareTransitive(x, s[0], s[j]); }
    SortedCons(x, s);
  }

  lemma HeadStaysFirst(x: string, s: seq<string>, t: seq<string>)
    requires Sorted(s) && s != [] && Compare(x, s[0]) > 0 && Sorted(t) && multiset(t) == multiset(s[1..]) + multiset{x}
    ensures Sorted([s[0]] + t)
  {
    CompareFlip(x, s[0]);
    forall y | y in t ensures Compare(s[0], y) <= 0 {
      assert y in multiset(t);
      assert y == x || y in s[1..];
    }
    SortedCons(s[0], t);
  }

  function Insert(x: string, s: seq<string>): (r: seq<string>)
    requires Sorted(s)
    ensures Sorted(r) && multiset(r) == multiset(s) + multiset{x}
  {
    if s == [] then [x]
    else if Compare(x, s[0]) <= 0 then
      LeastGoesFirst(x, s);
      [x] + s
    else
      var t := Insert(x, s[1..]);
      HeadStaysFirst(x, s, t);
      assert s == [s[0]] + s[1..];
      [s[0]] + t
  }

  /** sort.Strings. */
  function SortStrings(s: seq<string>): (r: seq<string>)
    ensures Sorted(r) && multiset(r) == multiset(s)
  {
    if s == [] then []
    else
      assert s == [s[0]] + s[1..];
      Insert(s[0], SortStrings(s[1..]))
  }

  lemma {:induction false} SortedIsUnique(a: seq<string>, b: seq<string>)
    requires Sorted(a) && Sorted(b) && multiset(a) == multiset(b)
    ensures a == b
  {
    assert |multiset(a)| == |a| && |multiset(b)| == |b|;
    if a != [] {
      assert a[0] in multiset(b) && b[0] in multiset(a);
      CompareFlip(a[0], b[0]);
      CompareZero(a[0], b[0]);
      assert a == [a[0]] + a[1..] && b == [b[0]] + b[1..];
      assert multiset(a[1..]) == multiset(a) - multiset{a[0]};
      assert multiset(b[1..]) == multiset(b) - multiset{b[0]};
      SortedIsUnique(a[1..], b[1..]);
    }
  }

  predicate IsLeast(s: set<string>, k: string) {
    k in s && forall x :: x in s ==> Compare(k, x) <= 0
  }

  lemma LeastOfMore(s: set<string>, y: string, k: string) returns (l: string)
    requires IsLeast(s, k)
    ensures IsLeast(s + {y}, l)
  {
    CompareZero(y, y);
    CompareFlip(y, k);
    l := if Compare(y, k) <= 0 then y else k;
    forall x | x in s ensures Compare(l, x) <= 0 {
      if l == y { CompareTransitive(y, k, x); }
    }
  }

  lemma {:induction false} LeastExists(s: set<string>)
    requires s != {}
    ensures exists k :: k in s && IsLeast(s, k)
  {
    var y :| y in s;
    var rest := s - {y};
    assert s == rest + {y};
    if rest == {} {
      CompareZero(y, y);
      assert IsLeast(s, y);
    } else {
      LeastExists(rest);
      var k :| k in rest && IsLeast(rest, k);
      var l := LeastOfMore(rest, y, k);
      assert IsLeast(s, l);
    }
  }

  lemma LeastIsUnique(s: set<string>, k: string, l: string)
    requires IsLeast(s, k) && IsLeast(s, l)
    ensures k == l
  {
    CompareFlip(k, l);
    CompareZero(k, l);
  }

  function Least(s: set<string>): (k: string)
    requires s != {}
    ensures k in s && forall x :: x in s ==> Compare(k, x) <= 0
  {
    LeastExists(s);
    assert forall k, l | IsLeast(s, k) && IsLeast(s, l) :: k == l by {
      forall k, l | IsLeast(s, k) && IsLeast(s, l) ensures k == l {
        LeastIsUnique(s, k, l);
      }
    }
    var k :| k in s && IsLeast(s, k);
    k
  }

  /** The elements of a set in sorted order: the order every map walk of the source uses. */
  function SortedKeys(s: set<string>): (r: seq<string>)
    ensures forall k :: k in r <==> k in s
    ensures Sorted(r)
    ensures Distinct(r)
    decreases |s|
  {
    if s == {} then [] else [Least(s)] + SortedKeys(s - {Least(s)})
  }

  lemma {:induction false} SortedKeysMultiset(s: set<string>)
    ensures multiset(SortedKeys(s)) == multiset(s)
    decreases |s|
  {
    if s != {} {
      SortedKeysMultiset(s - {Least(s)});
    }
  }

  /** Collecting the keys in any order and sorting them gives the sorted keys. */
  lemma SortingKeys(keys: seq<string>, s: set<string>)
    requires multiset(keys) == multiset(s)
    ensures SortStrings(keys) == SortedKeys(s)
  {
    SortedKeysMultiset(s);
    SortedIsUnique(SortStrings(keys), SortedKeys(s));
  }

  /** strings.Split on a one-character separator: never empty. */
  function Split(s: string, c: char): (r: seq<string>)
    ensures |r| >= 1
  {
    if s == [] then [[]]
    else
      var r := Split(s[1..], c);
      if s[0] == c then [[]] + r else [[s[0]] + r[0]] + r[1..]
  }

  /** strings.Join on a one-character separator. */
  function Join(parts: seq<string>, c: char): string
    requires parts != []
  {
    if |parts| == 1 then parts[0] else parts[0] + [c] + Join(parts[1..], c)
  }

  predicate HasPrefix(s: string, p: string) {
    p <= s
  }

  predicate Contains(s: string, sub: string) {
    |sub| <= |s| && (s[..|sub|] == sub || (s != [] && Contains(s[1..], sub)))
  }

  predicate AllDigits(s: string) {
    s != [] && forall i :: 0 <= i < |s| ==> '0' <= s[i] <= '9'
  }

  /** The value of a run of decimal digits. */
  function Decimal(s: string): (n: int)
    requires forall i :: 0 <= i < |s| ==> '0' <= s[i] <= '9'
    ensures n >= 0
  {
    if s == [] then 0 else 10 * Decimal(s[..|s| - 1]) + (s[|s| - 1] as int - '0' as int)
  }

  /** strconv.Itoa of a number that is not negative. */
  function Digits(n: nat): (s: string)
    ensures AllDigits(s) && Decimal(s) == n
  {
    var last := ['0' + (n % 10) as char];
    if n < 10 then
      assert last[..0] == "";
      last
    else
      var front := Digits(n / 10);
      assert (front + last)[..|front|] == front;
      front + last
  }

  const MAX_INT := 0x7FFF_FFFF_FFFF_FFFF

  /** strconv.Atoi on a 64-bit platform: optional sign, decimal digits, range check. */
  function Atoi(s: string): Option<int> {
    if s == [] then None
    else if s[0] == '-' then
      if AllDigits(s[1..]) && Decimal(s[1..]) <= MAX_INT + 1 then Some(0 - Decimal(s[1..])) else None
    else
      var digits := if s[0] == '+' then s[1..] else s;
      if AllDigits(digits) && Decimal(digits) <= MAX_INT then Some(Decimal(digits)) else None
  }
}
