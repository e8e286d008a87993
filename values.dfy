/** The Python values the client handles. `PyValue` is a Python object as
    `str()`, truthiness and `str.join` see it; `Json` is a decoded JSON
    payload, whose list and object structure the client inspects. */
module Values {
  import opened Wrappers
  import opened Decimal

  /** What `str()` gives for a built-in object other than a string: never
      the empty string. */
  type Printed = s: string | s != "" witness "?"

  /** A Python object. Objects whose `str()` the model does not compute
      (floats, lists, dicts, ...) are `PyOther`, carrying their truthiness
      and the text `str()` gives for them. */
  datatype PyValue =
    | PyNone
    | PyBool(b: bool)
    | PyInt(i: int)
    | PyStr(s: string)
    | PyOther(truthy: bool, text: Printed)

  /** Python truthiness: `None`, `False`, `0` and `""` are false. */
  predicate Truthy(v: PyValue)
  {
    match v
    case PyNone => false
    case PyBool(b) => b
    case PyInt(i) => i != 0
    case PyStr(s) => s != ""
    case PyOther(t, _) => t
  }

  /** `str(v)`, which is also what an f-string writes for `v`. */
  function Str(v: PyValue): string
  {
    match v
    case PyNone => "None"
    case PyBool(b) => if b then "True" else "False"
    case PyInt(i) => IntToString(i)
    case PyStr(s) => s
    case PyOther(_, text) => text
  }

  /** Only the empty string prints as nothing, so a truthy value never does. */
  lemma TruthyPrints(v: PyValue)
    ensures Truthy(v) ==> Str(v) != ""
  {
    if v.PyInt? {
      assert |Decimal.NatToString(if v.i < 0 then -v.i else v.i)| > 0;
    }
  }

  /** Every element of `items` is a `str`. */
  predicate AllStr(items: seq<PyValue>)
  {
    forall k :: 0 <= k < |items| ==> items[k].PyStr?
  }

  /** `d.get(key, default)` on a dict keyed by strings. */
  function Get(d: map<string, PyValue>, key: string, default: PyValue): (v: PyValue)
    ensures key in d ==> v == d[key]
    ensures key !in d ==> v == default
  {
    if key in d then d[key] else default
  }

  /** The truthy elements of `items`, in order: `(p for p in items if p)`. */
  function TruthyOnly(items: seq<PyValue>): (r: seq<PyValue>)
    ensures forall k :: 0 <= k < |r| ==> Truthy(r[k])
    ensures |r| <= |items|
  {
    if items == [] then []
    else (if Truthy(items[0]) then [items[0]] else []) + TruthyOnly(items[1..])
  }

  /** Filtering three values keeps the truthy ones, in order. */
  lemma TruthyOnlyThree(a: PyValue, b: PyValue, c: PyValue)
    ensures TruthyOnly([a, b, c])
      == (if Truthy(a) then [a] else []) + (if Truthy(b) then [b] else []) + (if Truthy(c) then [c] else [])
  {
    assert [a, b, c][1..] == [b, c];
    assert [b, c][1..] == [c];
    assert [c][1..] == [];
    assert TruthyOnly([c]) == (if Truthy(c) then [c] else []);
    assert TruthyOnly([b, c]) == (if Truthy(b) then [b] else []) + TruthyOnly([c]);
  }

  /** The strings of a concatenation are the concatenated strings. */
  lemma {:induction false} StringsAppend(a: seq<PyValue>, b: seq<PyValue>)
    requires AllStr(a) && AllStr(b)
    ensures AllStr(a + b) && Strings(a + b) == Strings(a) + Strings(b)
  {
    if a != [] {
      assert (a + b)[1..] == a[1..] + b;
      StringsAppend(a[1..], b);
    }
  }

  /** `sep.join(xs)` for a sequence of strings. */
  function Join(sep: string, xs: seq<string>): string
  {
    if xs == [] then ""
    else if |xs| == 1 then xs[0]
    else xs[0] + sep + Join(sep, xs[1..])
  }

  /** `sep.join(items)`: `None` stands for the `TypeError` Python raises when
      an element is not a `str`. */
  function StrJoin(sep: string, items: seq<PyValue>): (r: Option<string>)
    ensures r.Some? <==> AllStr(items)
  {
    if items == [] then Some("")
    else if !items[0].PyStr? then None
    else match StrJoin(sep, items[1..])
      case None => None
      case Some(rest) => Some(if |items| == 1 then items[0].s else items[0].s + sep + rest)
  }

  /** The strings held by a sequence of `PyStr` values. */
  function Strings(items: seq<PyValue>): (r: seq<string>)
    requires AllStr(items)
    ensures |r| == |items| && forall k :: 0 <= k < |r| ==> r[k] == items[k].s
  {
    if items == [] then [] else [items[0].s] + Strings(items[1..])
  }

  /** `s.split(" ")`: the pieces between single spaces, empty pieces kept. */
  function Split(s: string): (parts: seq<string>)
    ensures |parts| > 0
  {
    if s == [] then [""]
    else
      var rest := Split(s[1..]);
      if s[0] == ' ' then [""] + rest else [[s[0]] + rest[0]] + rest[1..]
  }

  /** A decoded JSON payload as the client holds it. Numbers with a fraction
      or an exponent are `JReal`. */
  datatype Json =
    | JNull
    | JBool(b: bool)
    | JInt(i: int)
    | JReal(r: real)
    | JStr(s: string)
    | JArr(items: seq<Json>)
    | JObj(fields: map<string, Json>)

  // ---------------------------------------------------------------------
  // Join and Split
  // ---------------------------------------------------------------------

  /** `StrJoin` agrees with joining the strings it holds. */
  lemma {:induction false} StrJoinIsJoin(sep: string, items: seq<PyValue>)
    requires AllStr(items)
    ensures StrJoin(sep, items) == Some(Join(sep, Strings(items)))
  {
    if items != [] {
      StrJoinIsJoin(sep, items[1..]);
      assert Strings(items)[1..] == Strings(items[1..]);
    }
  }

  /** Splitting `a + " " + b` at its first space, when `a` has none. */
  lemma {:induction false} SplitAfterWord(a: string, b: string)
    requires forall k :: 0 <= k < |a| ==> a[k] != ' '
    ensures Split(a + " " + b) == [a] + Split(b)
  {
    if a == [] {
      assert (a + " " + b)[1..] == b;
    } else {
      assert (a + " " + b)[1..] == a[1..] + " " + b;
      SplitAfterWord(a[1..], b);
      assert [a[0]] + a[1..] == a;
    }
  }

  /** A word without spaces splits to itself. */
  lemma {:induction false} SplitWord(a: string)
    requires forall k :: 0 <= k < |a| ==> a[k] != ' '
    ensures Split(a) == [a]
  {
    if a != [] {
      SplitWord(a[1..]);
      assert [a[0]] + a[1..] == a;
    }
  }

  /** Joining words that contain no space with single spaces and splitting
      the result on spaces gives back exactly those words: no separator is
      lost, doubled, or added at either end. */
  lemma {:induction false} SplitJoin(xs: seq<string>)
    requires |xs| > 0
    requires forall i, k :: 0 <= i < |xs| && 0 <= k < |xs[i]| ==> xs[i][k] != ' '
    ensures Split(Join(" ", xs)) == xs
  {
    if |xs| == 1 {
      SplitWord(xs[0]);
    } else {
      SplitAfterWord(xs[0], Join(" ", xs[1..]));
      SplitJoin(xs[1..]);
    }
  }

  /** Joining non-empty strings yields a non-empty string unless there are none. */
  lemma {:induction false} JoinNonEmpty(sep: string, xs: seq<string>)
    requires |xs| > 0 && xs[0] != ""
    ensures Join(sep, xs) != ""
  {
    if |xs| > 1 {
      assert |Join(sep, xs)| >= |xs[0]|;
    }
  }
}
