// Decoded JSON documents and the locations in them, shared by patch, diff and redaction.
module Json {
  import opened Seqs
  import opened Text

  datatype Json =
    | Null | Bool(b: bool) | Num(n: real) | Str(s: string)
    | Arr(items: seq<Json>) | Obj(fields: map<string, Json>)

  type Path = seq<string>

  /** The text form: decoding may fail, even on valid text (a number too large for a float), and
      encoding does not. */
  datatype Codec = Codec(valid: string -> bool, decode: string -> Option<Json>, encode: Json -> string)

  function Member(m: map<string, Json>, k: string): Option<Json> {
    if k in m then Some(m[k]) else None
  }

  function WithMember(m: map<string, Json>, k: string, v: Option<Json>): map<string, Json> {
    if v.Some? then m[k := v.value] else m - {k}
  }

  /** A segment that can index an array: digits only, within the range of an int. */
  function IndexSegment(seg: string): Option<nat> {
    if AllDigits(seg) && Decimal(seg) <= MAX_INT then Some(Decimal(seg)) else None
  }

  /** The array slot a segment names, if it is an index in range. */
  predicate IndexIn(seg: string, items: seq<Json>) {
    IndexSegment(seg).Some? && IndexSegment(seg).value < |items|
  }

  function Child(j: Json, seg: string): Option<Json> {
    match j
    case Obj(fields) => Member(fields, seg)
    case Arr(items) => if IndexIn(seg, items) then Some(items[IndexSegment(seg).value]) else None
    case _ => None
  }

  function WithChild(j: Json, seg: string, c: Json): Json {
    match j
    case Obj(fields) => Obj(fields[seg := c])
    case Arr(items) => if IndexIn(seg, items) then Arr(items[IndexSegment(seg).value := c]) else j
    case _ => j
  }

  /** The value at a location, walking objects by key and arrays by index. */
  function Get(j: Json, path: Path): Option<Json> {
    if path == [] then Some(j)
    else if Child(j, path[0]).Some? then Get(Child(j, path[0]).value, path[1..])
    else None
  }

  /** Overwriting an existing location: the effect of assigning through a reference to it. */
  function Put(j: Json, path: Path, x: Json): Json
    requires Get(j, path).Some?
  {
    if path == [] then x else WithChild(j, path[0], Put(Child(j, path[0]).value, path[1..], x))
  }

  /** lookupPath: objects only. */
  function Lookup(j: Json, path: Path): Option<Json> {
    if path == [] then Some(j)
    else if j.Obj? && path[0] in j.fields then Lookup(j.fields[path[0]], path[1..])
    else None
  }

  /** Neither location contains the other. */
  predicate Unrelated(p: Path, q: Path) {
    !(p <= q) && !(q <= p)
  }

  lemma UnrelatedTails(p: Path, q: Path)
    requires Unrelated(p, q)
    ensures p != [] && q != []
    ensures p[0] == q[0] ==> Unrelated(p[1..], q[1..])
  {
    if p[0] == q[0] {
      assert p == [p[0]] + p[1..] && q == [q[0]] + q[1..];
    }
  }

  lemma {:induction false} GetSnoc(j: Json, path: Path, seg: string)
    requires Get(j, path).Some?
    ensures Get(j, path + [seg]) == Child(Get(j, path).value, seg)
  {
    if path != [] {
      assert (path + [seg])[1..] == path[1..] + [seg];
      GetSnoc(Child(j, path[0]).value, path[1..], seg);
    }
  }

  lemma {:induction false} PutSnoc(j: Json, path: Path, seg: string, x: Json)
    requires Get(j, path).Some? && Get(j, path + [seg]).Some?
    ensures Put(j, path + [seg], x) == Put(j, path, WithChild(Get(j, path).value, seg, x))
  {
    GetSnoc(j, path, seg);
    if path != [] {
      assert (path + [seg])[1..] == path[1..] + [seg];
      PutSnoc(Child(j, path[0]).value, path[1..], seg, x);
    }
  }

  lemma {:induction false} PutSame(j: Json, path: Path)
    requires Get(j, path).Some?
    ensures Put(j, path, Get(j, path).value) == j
  {
    if path != [] {
      PutSame(Child(j, path[0]).value, path[1..]);
    }
  }

  lemma ChildOfWithChild(j: Json, seg: string, c: Json)
    requires j.Obj? || (j.Arr? && IndexIn(seg, j.items))
    ensures Child(WithChild(j, seg, c), seg) == Some(c)
  {
  }

  lemma {:induction false} GetPut(j: Json, path: Path, x: Json)
    requires Get(j, path).Some?
    ensures Get(Put(j, path, x), path) == Some(x)
  {
    if path != [] {
      GetPut(Child(j, path[0]).value, path[1..], x);
      ChildOfWithChild(j, path[0], Put(Child(j, path[0]).value, path[1..], x));
    }
  }

  lemma {:induction false} PutPut(j: Json, path: Path, x: Json, y: Json)
    requires Get(j, path).Some?
    ensures Get(Put(j, path, x), path).Some? && Put(Put(j, path, x), path, y) == Put(j, path, y)
  {
    GetPut(j, path, x);
    if path != [] {
      var c := Child(j, path[0]).value;
      PutPut(c, path[1..], x, y);
      ChildOfWithChild(j, path[0], Put(c, path[1..], x));
    }
  }
}
