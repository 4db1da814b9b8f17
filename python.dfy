/** The Python value semantics the add-on relies on: values decoded from JSON,
    truthiness and `or`, `dict.get`, `==` and `in` on lists, `str()` and `int()`,
    iteration that calls `.get` on every element, insertion-ordered dict literals
    merged with `{**a, **b}`, and exceptions escaping a call. */
module Python {
  import Text

  datatype Option<+T> = None | Some(value: T)

  /** What a Python call does: it returns a value, or an exception escapes it. */
  datatype Outcome<+T> = Returned(value: T) | Raised

  /** A value as `json.load` or `Response.json()` produce it. Floats are kept as
      their real value (NaN and the infinities are not modelled); objects are maps,
      so the key order of a decoded dict is not modelled. */
  datatype Json =
    | JNull
    | JBool(b: bool)
    | JInt(i: int)
    | JFloat(r: real)
    | JStr(s: string)
    | JArr(items: seq<Json>)
    | JObj(fields: map<string, Json>)

  type Dict = map<string, Json>

  /** `bool(v)` */
  predicate Truthy(v: Json) {
    match v
    case JNull => false
    case JBool(b) => b
    case JInt(i) => i != 0
    case JFloat(r) => r != 0.0
    case JStr(s) => s != ""
    case JArr(items) => items != []
    case JObj(fields) => fields != map[]
  }

  /** `a or b`: the first operand when it is truthy, the second otherwise. */
  function Or(a: Json, b: Json): (r: Json)
    ensures Truthy(r) <==> Truthy(a) || Truthy(b)
    ensures Truthy(a) ==> r == a
    ensures !Truthy(a) ==> r == b
  {
    if Truthy(a) then a else b
  }

  /** `d.get(k)` */
  function Get(d: Dict, k: string): Json {
    if k in d then d[k] else JNull
  }

  /** `d.get(k, default)` */
  function GetOr(d: Dict, k: string, default: Json): Json {
    if k in d then d[k] else default
  }

  predicate IsNumber(v: Json) {
    v.JBool? || v.JInt? || v.JFloat?
  }

  function NumberValue(v: Json): real
    requires IsNumber(v)
  {
    match v
    case JBool(b) => if b then 1.0 else 0.0
    case JInt(i) => i as real
    case JFloat(r) => r
  }

  /** `a == b` on decoded JSON: booleans, ints and floats compare by numeric value
      (`True == 1 == 1.0`), lists element by element, dicts key by key. */
  predicate PyEq(a: Json, b: Json) {
    match (a, b)
    case (JNull, JNull) => true
    case (JStr(x), JStr(y)) => x == y
    case (JArr(x), JArr(y)) => |x| == |y| && forall i :: 0 <= i < |x| ==> PyEq(x[i], y[i])
    case (JObj(x), JObj(y)) => x.Keys == y.Keys && forall k :: k in x ==> PyEq(x[k], y[k])
    case _ => IsNumber(a) && IsNumber(b) && NumberValue(a) == NumberValue(b)
  }

  /** Every value equals itself. */
  lemma {:induction false} PyEqReflexive(a: Json)
    ensures PyEq(a, a)
  {
    match a
    case JArr(x) =>
      forall i | 0 <= i < |x| ensures PyEq(x[i], x[i]) {
        PyEqReflexive(x[i]);
      }
    case JObj(x) =>
      forall k | k in x ensures PyEq(x[k], x[k]) {
        PyEqReflexive(x[k]);
      }
    case _ =>
  }

  /** `x in xs` for a list. */
  predicate PyIn(x: Json, xs: seq<Json>) {
    exists i :: 0 <= i < |xs| && PyEq(xs[i], x)
  }

  /** `str(v)`, as an f-string renders `v`. The repr of a float, list or dict is not
      modelled: such a value renders as the marker "<repr>". */
  function Str(v: Json): string {
    match v
    case JNull => "None"
    case JBool(b) => if b then "True" else "False"
    case JInt(i) => Text.Decimal(i)
    case JStr(s) => s
    case _ => "<repr>"
  }

  /** `int(r)` for a finite float: truncation toward zero. */
  function Truncate(r: real): int {
    if r >= 0.0 then r.Floor else -((-r).Floor)
  }

  /** `int(s)` for a string: optional surrounding whitespace, an optional sign and
      ASCII digits; None where Python raises ValueError (digit separators `_` and
      non-ASCII digits are not modelled). */
  function ParseInt(s: string): Option<int> {
    var t := Text.Strip(s);
    if |t| > 0 && (t[0] == '-' || t[0] == '+') then
      if Text.IsDigits(t[1..]) then
        Some(if t[0] == '-' then 0 - Text.DigitsValue(t[1..]) else Text.DigitsValue(t[1..]) as int)
      else None
    else if Text.IsDigits(t) then Some(Text.DigitsValue(t))
    else None
  }

  /** `int(v)`; None where Python raises. */
  function IntOf(v: Json): Option<int> {
    match v
    case JBool(b) => Some(if b then 1 else 0)
    case JInt(i) => Some(i)
    case JFloat(r) => Some(Truncate(r))
    case JStr(s) => ParseInt(s)
    case _ => None
  }

  /** `int()` of a minus sign before digits. */
  lemma ParseNegative(n: string)
    requires Text.IsDigits(n)
    ensures ParseInt("-" + n) == Some(0 - Text.DigitsValue(n))
  {
    var t := "-" + n;
    assert t[0] == '-' && t[1..] == n && t[|t| - 1] == n[|n| - 1];
    assert Text.IsDigit(n[|n| - 1]);
    Text.StripUnpadded(t);
  }

  /** `int()` of digits alone. */
  lemma ParseDigits(t: string)
    requires Text.IsDigits(t)
    ensures ParseInt(t) == Some(Text.DigitsValue(t))
  {
    assert Text.IsDigit(t[0]) && Text.IsDigit(t[|t| - 1]);
    Text.StripUnpadded(t);
  }

  /** `int()` reads back what `str()` writes for an integer. */
  lemma ParseIntDecimal(i: int)
    ensures ParseInt(Text.Decimal(i)) == Some(i)
    ensures IntOf(JStr(Str(JInt(i)))) == Some(i)
  {
    if i < 0 {
      var n := Text.NatDigits(-i);
      assert Text.Decimal(i) == "-" + n;
      Text.NatDigitsValue(-i);
      ParseNegative(n);
      assert 0 - Text.DigitsValue(n) == i;
    } else {
      var n := Text.NatDigits(i);
      assert Text.Decimal(i) == n;
      Text.NatDigitsValue(i);
      ParseDigits(n);
    }
  }

  function FieldsOf(items: seq<Json>): (ds: seq<Dict>)
    requires forall i :: 0 <= i < |items| ==> items[i].JObj?
    ensures |ds| == |items|
    ensures forall i :: 0 <= i < |items| ==> ds[i] == items[i].fields
  {
    if items == [] then [] else [items[0].fields] + FieldsOf(items[1..])
  }

  /** The dicts that `for it in v: it.get(...)` visits, or Raised when that loop
      raises: `v` is not iterable, or the loop reaches an element that is not a dict
      (every character of a string and every key of a dict is a `str`). */
  function ForEachDict(v: Json): Outcome<seq<Dict>> {
    match v
    case JArr(items) =>
      if forall i :: 0 <= i < |items| ==> items[i].JObj? then Returned(FieldsOf(items)) else Raised
    case JStr(s) => if s == [] then Returned([]) else Raised
    case JObj(m) => if m == map[] then Returned([]) else Raised
    case _ => Raised
  }

  /** A dict whose iteration order matters: its entries in insertion order. */
  type Table<V> = seq<(string, V)>

  function KeysOf<V>(t: Table<V>): (ks: seq<string>)
    ensures |ks| == |t|
    ensures forall i :: 0 <= i < |t| ==> ks[i] == t[i].0
  {
    if t == [] then [] else [t[0].0] + KeysOf(t[1..])
  }

  predicate Distinct<T(==)>(s: seq<T>) {
    forall i, j :: 0 <= i < j < |s| ==> s[i] != s[j]
  }

  /** `d[k] = v`: an existing key keeps its place, a new key goes last. */
  function Put<V>(t: Table<V>, k: string, v: V): Table<V> {
    if t == [] then [(k, v)]
    else if t[0].0 == k then [(k, v)] + t[1..]
    else [t[0]] + Put(t[1..], k, v)
  }

  /** `{**a, **b}` */
  function Merge<V>(a: Table<V>, b: Table<V>): Table<V>
    decreases |b|
  {
    if b == [] then a else Merge(Put(a, b[0].0, b[0].1), b[1..])
  }

  lemma {:induction false} PutAbsent<V>(t: Table<V>, k: string, v: V)
    requires k !in KeysOf(t)
    ensures Put(t, k, v) == t + [(k, v)]
  {
    if t != [] {
      assert KeysOf(t)[0] == t[0].0;
      assert k !in KeysOf(t[1..]) by {
        forall i | 0 <= i < |t[1..]| ensures KeysOf(t[1..])[i] != k {
          assert KeysOf(t[1..])[i] == KeysOf(t)[i + 1];
        }
      }
      PutAbsent(t[1..], k, v);
      assert [t[0]] + (t[1..] + [(k, v)]) == t + [(k, v)];
    }
  }

  lemma DistinctDrop<T>(s: seq<T>)
    requires Distinct(s) && s != []
    ensures Distinct(s[1..])
    ensures forall j :: 1 <= j < |s| ==> s[0] != s[j]
  {
    forall i, j | 0 <= i < j < |s[1..]| ensures s[1..][i] != s[1..][j] {
      assert s[i + 1] != s[j + 1];
    }
  }

  /** Keys of `a` that none of `b` shares. */
  predicate KeysApart<V>(a: Table<V>, b: Table<V>) {
    forall i, j :: 0 <= i < |a| && 0 <= j < |b| ==> a[i].0 != b[j].0
  }

  /** `{**a, **b}` takes the first entry of `b` when its key is new to `a`. */
  lemma MergeStep<V>(a: Table<V>, b: Table<V>)
    requires b != [] && KeysApart(a, b)
    ensures Merge(a, b) == Merge(a + [b[0]], b[1..])
  {
    assert b[0].0 !in KeysOf(a) by {
      forall i | 0 <= i < |a| ensures KeysOf(a)[i] != b[0].0 {
        assert a[i].0 != b[0].0;
      }
    }
    PutAbsent(a, b[0].0, b[0].1);
  }

  /** Moving the first entry of `b` to the end of `a` keeps the two apart. */
  lemma KeysApartShift<V>(a: Table<V>, b: Table<V>)
    requires b != [] && KeysApart(a, b) && Distinct(KeysOf(b))
    ensures KeysApart(a + [b[0]], b[1..]) && Distinct(KeysOf(b[1..]))
  {
    var kb := KeysOf(b);
    DistinctDrop(kb);
    assert KeysOf(b[1..]) == kb[1..];
    var a' := a + [b[0]];
    forall i, j | 0 <= i < |a'| && 0 <= j < |b[1..]| ensures a'[i].0 != b[1..][j].0 {
      if i < |a| {
        assert a[i].0 != b[j + 1].0;
      } else {
        assert kb[0] != kb[j + 1];
      }
    }
  }

  /** Merging dicts whose keys are all different keeps every entry, in order. */
  lemma {:induction false} MergeDisjoint<V>(a: Table<V>, b: Table<V>)
    requires Distinct(KeysOf(b))
    requires KeysApart(a, b)
    ensures Merge(a, b) == a + b
    decreases |b|
  {
    if b != [] {
      MergeStep(a, b);
      KeysApartShift(a, b);
      MergeDisjoint(a + [b[0]], b[1..]);
      assert a + [b[0]] + b[1..] == a + b;
    }
  }

  lemma DistinctSplit<T>(x: seq<T>, y: seq<T>)
    requires Distinct(x + y)
    ensures Distinct(x) && Distinct(y)
    ensures forall i, j :: 0 <= i < |x| && 0 <= j < |y| ==> x[i] != y[j]
  {
    var xy := x + y;
    forall i, j | 0 <= i < j < |x| ensures x[i] != x[j] {
      assert xy[i] != xy[j];
    }
    forall i, j | 0 <= i < j < |y| ensures y[i] != y[j] {
      assert xy[|x| + i] != xy[|x| + j];
    }
    forall i, j | 0 <= i < |x| && 0 <= j < |y| ensures x[i] != y[j] {
      assert xy[i] != xy[|x| + j];
    }
  }

  lemma KeysOfAppend<V>(a: Table<V>, b: Table<V>)
    ensures KeysOf(a + b) == KeysOf(a) + KeysOf(b)
  {
    var l, r := KeysOf(a + b), KeysOf(a) + KeysOf(b);
    forall i | 0 <= i < |l| ensures l[i] == r[i] {
      if i < |a| {
        assert (a + b)[i] == a[i];
      } else {
        assert (a + b)[i] == b[i - |a|];
      }
    }
  }

  /** The keys of `a` and `b` being all different splits into the keys of each being
      all different and no key shared. */
  lemma KeysSplit<V>(a: Table<V>, b: Table<V>)
    requires Distinct(KeysOf(a) + KeysOf(b))
    ensures Distinct(KeysOf(a)) && Distinct(KeysOf(b)) && KeysApart(a, b)
  {
    DistinctSplit(KeysOf(a), KeysOf(b));
    ApartByKeys(a, b);
  }

  lemma ApartByKeys<V>(a: Table<V>, b: Table<V>)
    requires forall i, j :: 0 <= i < |a| && 0 <= j < |b| ==> KeysOf(a)[i] != KeysOf(b)[j]
    ensures KeysApart(a, b)
  {
    var ka, kb := KeysOf(a), KeysOf(b);
    forall i, j | 0 <= i < |a| && 0 <= j < |b| ensures a[i].0 != b[j].0 {
      assert ka[i] != kb[j];
    }
  }

  /** `{**a, **b, **c}` of tables whose keys are all different is their concatenation. */
  lemma MergeThreeDistinct<V>(a: Table<V>, b: Table<V>, c: Table<V>)
    requires Distinct(KeysOf(a + b + c))
    ensures Merge(Merge(Merge([], a), b), c) == a + b + c
  {
    KeysOfAppend(a + b, c);
    KeysSplit(a + b, c);
    KeysOfAppend(a, b);
    KeysSplit(a, b);
    MergeDisjoint([], a);
    assert [] + a == a;
    MergeDisjoint(a, b);
    MergeDisjoint(a + b, c);
  }
}
