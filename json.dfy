/**
 * Decoded JSON as the Python code sees it after `await r.json()`: a closed tagged union
 * (object as an ordered sequence of key/value pairs, array, string, int, float, bool, null),
 * together with the Python operations the bot applies to such values: truthiness, `a or b`,
 * `dict.get`, `int(v)` and `float(v)`.
 */
module Json {
  import opened Wrappers
  import opened Text

  datatype Json =
    | JNull
    | JBool(b: bool)
    | JInt(i: int)
    | JFloat(f: real)
    | JStr(s: string)
    | JArr(items: seq<Json>)
    | JObj(fields: seq<(string, Json)>)

  const EmptyObj: Json := JObj([])
  const EmptyArr: Json := JArr([])

  /** Python's `bool(v)`: `None`, `False`, zero, and empty strings, lists and dicts are falsy. */
  predicate Truthy(j: Json)
  {
    match j
    case JNull => false
    case JBool(b) => b
    case JInt(i) => i != 0
    case JFloat(f) => f != 0.0
    case JStr(s) => s != []
    case JArr(xs) => xs != []
    case JObj(fs) => fs != []
  }

  /** Python's `a or b`: the first operand when it is truthy, otherwise the second. */
  function PyOr(a: Json, b: Json): (r: Json)
    ensures Truthy(r) <==> Truthy(a) || Truthy(b)
    ensures r == a || r == b
  {
    if Truthy(a) then a else b
  }

  /**
   * The value stored under `k`, if any. A decoded dict holds each key once; an object that
   * repeats a key is not one `json.loads` produces, and for it the first pair is taken.
   */
  function Lookup(fs: seq<(string, Json)>, k: string): Option<Json>
  {
    if fs == [] then None
    else if fs[0].0 == k then Some(fs[0].1)
    else Lookup(fs[1..], k)
  }

  /**
   * `for x in v` / `sorted(v)`: a list yields its items, a dict its keys and a string its
   * characters; iterating `None`, a bool or a number raises.
   */
  function PyIter(j: Json): (r: Result<seq<Json>>)
    ensures r.Ok? <==> j.JArr? || j.JObj? || j.JStr?
    ensures j.JArr? ==> r == Ok(j.items)
    ensures r.Ok? && !j.JArr? ==> forall k | 0 <= k < |r.value| :: r.value[k].JStr?
    ensures r.Ok? ==> (|r.value| == 0 <==> !Truthy(j))
  {
    match j
    case JArr(xs) => Ok(xs)
    case JObj(fs) => Ok(seq(|fs|, k requires 0 <= k < |fs| => JStr(fs[k].0)))
    case JStr(s) => Ok(seq(|s|, k requires 0 <= k < |s| => JStr([s[k]])))
    case _ => Err
  }

  /** `d.get(k)` on a dict `d`: `None` when the key is missing. */
  function Get(d: Json, k: string): Json
    requires d.JObj?
  {
    Lookup(d.fields, k).GetOr(JNull)
  }

  /** `d.get(k, default)` on a dict `d`. */
  function GetOr(d: Json, k: string, default: Json): Json
    requires d.JObj?
  {
    Lookup(d.fields, k).GetOr(default)
  }

  /** `isinstance(v, (int, float))`; a Python `bool` is an `int`. */
  predicate IsNumber(j: Json)
  {
    j.JBool? || j.JInt? || j.JFloat?
  }

  /** `float(v)` for a number. */
  function NumberValue(j: Json): real
    requires IsNumber(j)
  {
    match j
    case JBool(b) => if b then 1.0 else 0.0
    case JInt(i) => i as real
    case JFloat(f) => f
  }

  /** `int(x)` for a float: truncation toward zero. */
  function TruncateTowardZero(r: real): (n: int)
    ensures r >= 0.0 ==> n as real <= r < n as real + 1.0
    ensures r < 0.0 ==> n as real - 1.0 < r <= n as real
  {
    if r >= 0.0 then r.Floor else -((-r).Floor)
  }

  /** `int(s)` on an already stripped string: an optional sign followed by decimal digits. */
  function ParseIntLiteral(t: string): Option<int>
  {
    if t != [] && (t[0] == '-' || t[0] == '+') then
      var d := t[1..];
      if d != [] && AllDigits(d) then
        var v: int := DigitsValue(d);
        var n := if t[0] == '-' then -v else v;
        Some(n)
      else None
    else if t != [] && AllDigits(t) then Some(DigitsValue(t))
    else None
  }

  /**
   * Python's `int(v)` applied to a decoded JSON value: `None` where Python raises, and also for
   * the string forms this model does not read (digit underscores, non-ASCII decimal digits).
   */
  function PyInt(j: Json): Option<int>
  {
    match j
    case JBool(b) => Some(if b then 1 else 0)
    case JInt(i) => Some(i)
    case JFloat(f) => Some(TruncateTowardZero(f))
    case JStr(s) => ParseIntLiteral(Strip(s))
    case _ => None
  }

  /** Index of the first `.` in `s`, or `|s|` when there is none. */
  function DotIndex(s: string): (d: nat)
    ensures d <= |s| && (d < |s| ==> s[d] == '.')
    ensures forall i | 0 <= i < d :: s[i] != '.'
  {
    if s == [] || s[0] == '.' then 0 else 1 + DotIndex(s[1..])
  }

  /** `s.replace(".", "", 1)`. */
  function RemoveFirstDot(s: string): string
  {
    var d := DotIndex(s);
    if d == |s| then s else s[..d] + s[d + 1..]
  }

  /** `s and s.replace(".", "", 1).isdigit()`: digits with at most one `.` and at least one digit. */
  predicate IsDecimalLiteral(s: string)
  {
    s != [] && RemoveFirstDot(s) != [] && AllDigits(RemoveFirstDot(s))
  }

  /** `float(s)` for a string accepted by `IsDecimalLiteral`. */
  function DecimalValue(s: string): (r: real)
    requires IsDecimalLiteral(s)
    ensures r >= 0.0
  {
    var d := DotIndex(s);
    if d == |s| then DigitsValue(s) as real
    else
      var whole, frac := s[..d], s[d + 1..];
      AllDigitsSplit(whole, frac);
      DigitsValue(whole) as real + DigitsValue(frac) as real / Pow10(|frac|) as real
  }

  lemma {:induction false} AllDigitsSplit(a: string, b: string)
    requires AllDigits(a + b)
    ensures AllDigits(a) && AllDigits(b)
  {
    assert forall i | 0 <= i < |a| :: a[i] == (a + b)[i];
    assert forall i | 0 <= i < |b| :: b[i] == (a + b)[|a| + i];
  }

  /** The value of digits `a` followed by digits `b`: `a` shifted by `|b|` places, plus `b`. */
  lemma {:induction false} DigitsValueAppend(a: string, b: string)
    requires AllDigits(a) && AllDigits(b)
    ensures AllDigits(a + b)
    ensures DigitsValue(a + b) == DigitsValue(a) * Pow10(|b|) + DigitsValue(b)
    decreases |b|
  {
    assert forall i | 0 <= i < |a + b| :: (a + b)[i] == if i < |a| then a[i] else b[i - |a|];
    if b == [] {
      assert a + b == a;
    } else {
      var b' := b[..|b| - 1];
      assert AllDigits(b');
      assert (a + b)[..|a + b| - 1] == a + b';
      DigitsValueAppend(a, b');
      var c := b[|b| - 1] as int - '0' as int;
      assert DigitsValue(a + b) == 10 * DigitsValue(a + b') + c;
      assert DigitsValue(b) == 10 * DigitsValue(b') + c;
      assert Pow10(|b|) == 10 * Pow10(|b'|);
      ShiftStep(DigitsValue(a), Pow10(|b'|), DigitsValue(b'), c);
    }
  }

  /** One more digit `c` after `x * q + y`, as plain arithmetic. */
  lemma ShiftStep(x: int, q: int, y: int, c: int)
    ensures 10 * (x * q + y) + c == x * (10 * q) + (10 * y + c)
  {
  }

  /**
   * What `float(s)` of a decimal literal is: the number its digits denote once the `.` is
   * removed, divided by ten to the number of digits after the `.`.
   */
  lemma {:induction false} DecimalValueScaled(s: string)
    requires IsDecimalLiteral(s)
    ensures DotIndex(s) == |s| ==> DecimalValue(s) == DigitsValue(RemoveFirstDot(s)) as real
    ensures DotIndex(s) < |s| ==>
      DecimalValue(s) == DigitsValue(RemoveFirstDot(s)) as real / Pow10(|s| - DotIndex(s) - 1) as real
  {
    var d := DotIndex(s);
    if d < |s| {
      var whole, frac := s[..d], s[d + 1..];
      AllDigitsSplit(whole, frac);
      DigitsValueAppend(whole, frac);
      assert RemoveFirstDot(s) == whole + frac;
      assert |frac| == |s| - d - 1;
      ShiftedSum(DigitsValue(whole), DigitsValue(frac), Pow10(|frac|));
    }
  }

  /** Adding `f / p` to `w` is dividing `w * p + f` by `p`. */
  lemma ShiftedSum(w: int, f: int, p: int)
    requires p > 0
    ensures w as real + f as real / p as real == (w * p + f) as real / p as real
  {
  }

  /** `float(s)` on an already stripped string: an optional sign and a decimal literal. */
  function ParseFloatLiteral(t: string): Option<real>
  {
    if t != [] && (t[0] == '-' || t[0] == '+') then
      var d := t[1..];
      if IsDecimalLiteral(d) then Some(if t[0] == '-' then -DecimalValue(d) else DecimalValue(d)) else None
    else if IsDecimalLiteral(t) then Some(DecimalValue(t))
    else None
  }

  /**
   * Python's `float(v)` for an int, float, bool or str: `None` where Python raises, and also for
   * the string forms this model does not read (exponents, digit underscores, non-ASCII decimal
   * digits, `inf` and `nan`).
   */
  function PyFloat(j: Json): Option<real>
  {
    if IsNumber(j) then Some(NumberValue(j))
    else if j.JStr? then ParseFloatLiteral(Strip(j.s))
    else None
  }

  /** Digits contain no `.`, so a run of digits is a decimal literal worth its digits. */
  lemma {:induction false} DigitsAreDecimal(d: string)
    requires d != [] && AllDigits(d)
    ensures IsDecimalLiteral(d) && DecimalValue(d) == DigitsValue(d) as real
  {
    if DotIndex(d) < |d| {
      assert IsDigit(d[DotIndex(d)]);
    }
  }

  /**
   * Whatever `int(v)` accepts, `float(v)` accepts too: for a bool, an int or a numeral string
   * both give the same number, and for a float `int` truncates what `float` gives.
   */
  lemma {:induction false} PyIntAgreesWithPyFloat(j: Json)
    requires PyInt(j).Some?
    ensures PyFloat(j).Some?
    ensures !j.JFloat? ==> PyFloat(j).value == PyInt(j).value as real
    ensures j.JFloat? ==> PyInt(j).value == TruncateTowardZero(PyFloat(j).value)
  {
    if j.JStr? {
      var t := Strip(j.s);
      if t != [] && (t[0] == '-' || t[0] == '+') {
        DigitsAreDecimal(t[1..]);
      } else {
        DigitsAreDecimal(t);
      }
    }
  }
}
