/** The values a job record holds: a small model of Python's dynamically
    typed objects, with the truthiness, `dict.get` and ordering rules the
    catalog and the matcher depend on. */
module PyValue {

  /** `None`, an `int`, a `str` or a `list`. Floats, booleans and nested
      dictionaries do not occur in job records and are not modelled. */
  datatype Value = PyNone | PyInt(n: int) | PyStr(s: string) | PyList(items: seq<Value>)

  /** Python's truth test: `None`, `0`, `''` and `[]` are false. */
  predicate Truthy(v: Value) {
    match v
    case PyNone => false
    case PyInt(n) => n != 0
    case PyStr(s) => |s| > 0
    case PyList(xs) => |xs| > 0
  }

  /** A record: a dictionary from key to value. */
  type Record = map<string, Value>

  /** `d.get(key, default)`. */
  function Get(d: Record, key: string, default: Value): Value {
    if key in d then d[key] else default
  }

  /** Python's `<` on two strings: lexicographic by code point, a proper
      prefix being smaller. */
  predicate StrLess(a: string, b: string)
    decreases |a|
  {
    if |a| == 0 then |b| > 0
    else if |b| == 0 then false
    else if a[0] != b[0] then a[0] < b[0]
    else StrLess(a[1..], b[1..])
  }

  lemma {:induction false} StrLessIrreflexive(a: string)
    ensures !StrLess(a, a)
    decreases |a|
  {
    if |a| > 0 {
      StrLessIrreflexive(a[1..]);
    }
  }

  lemma {:induction false} StrLessTransitive(a: string, b: string, c: string)
    requires StrLess(a, b) && StrLess(b, c)
    ensures StrLess(a, c)
    decreases |a|
  {
    if |a| > 0 && a[0] == b[0] && b[0] == c[0] {
      StrLessTransitive(a[1..], b[1..], c[1..]);
    }
  }

  lemma {:induction false} StrLessTotal(a: string, b: string)
    requires a != b
    ensures StrLess(a, b) || StrLess(b, a)
    decreases |a|
  {
    if |a| > 0 && |b| > 0 && a[0] == b[0] {
      assert a == [a[0]] + a[1..] && b == [b[0]] + b[1..];
      StrLessTotal(a[1..], b[1..]);
    }
  }

  /** Values that a Python `set` can hold: lists are unhashable. */
  predicate Hashable(v: Value) {
    !v.PyList?
  }

  function Rank(v: Value): nat {
    match v
    case PyNone => 0
    case PyInt(_) => 1
    case PyStr(_) => 2
    case PyList(_) => 3
  }

  /** A strict total order on hashable values. On two `int`s or two
      `str`s it is Python's own `<`; across kinds Python refuses to
      compare, and the catalog reports that case before sorting. */
  predicate ValueLess(a: Value, b: Value) {
    if Rank(a) != Rank(b) then Rank(a) < Rank(b)
    else match a
      case PyInt(x) => x < b.n
      case PyStr(x) => StrLess(x, b.s)
      case _ => false
  }

  lemma ValueLessIrreflexive(a: Value)
    ensures !ValueLess(a, a)
  {
    if a.PyStr? {
      StrLessIrreflexive(a.s);
    }
  }

  lemma ValueLessTransitive(a: Value, b: Value, c: Value)
    requires ValueLess(a, b) && ValueLess(b, c)
    ensures ValueLess(a, c)
  {
    if a.PyStr? && b.PyStr? && c.PyStr? {
      StrLessTransitive(a.s, b.s, c.s);
    }
  }

  lemma ValueLessTotal(a: Value, b: Value)
    requires Hashable(a) && Hashable(b) && a != b
    ensures ValueLess(a, b) || ValueLess(b, a)
  {
    if a.PyStr? && b.PyStr? {
      StrLessTotal(a.s, b.s);
    }
  }

  /** Each element is below its successor. */
  predicate Ascending(r: seq<Value>) {
    forall i :: 0 <= i < |r| - 1 ==> ValueLess(r[i], r[i + 1])
  }

  /** Every earlier element is below every later one: sorted, no duplicates. */
  predicate StrictlyIncreasing(r: seq<Value>) {
    forall i, j :: 0 <= i < j < |r| ==> ValueLess(r[i], r[j])
  }

  lemma {:induction false} AscendingIsStrictlyIncreasing(r: seq<Value>)
    requires Ascending(r)
    ensures StrictlyIncreasing(r)
    decreases |r|
  {
    if |r| > 1 {
      AscendingIsStrictlyIncreasing(r[1..]);
      forall j | 1 <= j < |r|
        ensures ValueLess(r[0], r[j])
      {
        if j > 1 {
          assert ValueLess(r[1..][0], r[1..][j - 1]);
          ValueLessTransitive(r[0], r[1], r[j]);
        }
      }
      forall i, j | 0 <= i < j < |r|
        ensures ValueLess(r[i], r[j])
      {
        if i > 0 {
          assert ValueLess(r[1..][i - 1], r[1..][j - 1]);
        }
      }
    }
  }

  /** Insert `x` into an ascending sequence that does not hold it. */
  function InsertSorted(r: seq<Value>, x: Value): (r': seq<Value>)
    requires Ascending(r) && x !in r
    requires Hashable(x) && forall v :: v in r ==> Hashable(v)
    ensures Ascending(r')
    ensures |r'| == |r| + 1
    ensures forall v :: v in r' <==> v in r || v == x
    ensures |r| == 0 ==> r' == [x]
    ensures |r| > 0 ==> r'[0] == x || r'[0] == r[0]
    decreases |r|
  {
    if |r| == 0 then [x]
    else if ValueLess(x, r[0]) then [x] + r
    else
      ValueLessTotal(x, r[0]);
      assert forall v :: v in r[1..] ==> v in r;
      [r[0]] + InsertSorted(r[1..], x)
  }

  /** `sorted(list(s))` for a set of hashable values: the unique
      ascending sequence of exactly the elements of `s`. */
  method SortSet(s: set<Value>) returns (r: seq<Value>)
    requires forall v :: v in s ==> Hashable(v)
    ensures StrictlyIncreasing(r)
    ensures forall v :: v in r <==> v in s
  {
    r := [];
    var rest := s;
    while rest != {}
      invariant rest <= s
      invariant Ascending(r)
      invariant forall v :: v in r <==> v in s && v !in rest
      decreases |rest|
    {
      var x :| x in rest;
      r := InsertSorted(r, x);
      rest := rest - {x};
    }
    AscendingIsStrictlyIncreasing(r);
  }
}
