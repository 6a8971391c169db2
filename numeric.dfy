/** Numbers as the converter uses them: exact reals in place of Python floats, the unit
    conversion shared by the footprint and symbol handlers, Python's modulo operators and
    the decimal rendering of integers. */
module Numeric {
  import opened Wrappers

  /** Python built-ins that the model keeps abstract: `float()` and `int()` on strings
      (None where Python raises ValueError) and the transcendental functions of `math`. */
  datatype Py = Py(
    toFloat: string -> Option<real>,
    toInt: string -> Option<int>,
    sqrt: real -> real,
    sin: real -> real,
    cos: real -> real,
    acos: real -> real)

  const FloatError: string := "ValueError: could not convert string to float"
  const IntError: string := "ValueError: invalid literal for int()"
  const ZeroDivision: string := "ZeroDivisionError: float division by zero"

  /** Python's `float(s)`, raising on a malformed field. */
  function Float(py: Py, s: string): (r: Result<real>)
    ensures r.Ok? <==> py.toFloat(s).Some?
    ensures r.Ok? ==> r.value == py.toFloat(s).value
  {
    Need(py.toFloat(s), FloatError)
  }

  /** Python's `int(s)`, raising on a malformed field. */
  function Int(py: Py, s: string): (r: Result<int>)
    ensures r.Ok? <==> py.toInt(s).Some?
    ensures r.Ok? ==> r.value == py.toInt(s).value
  {
    Need(py.toInt(s), IntError)
  }

  datatype Point = Point(x: real, y: real)

  /** `math.pi` as written in the IEEE double nearest to it. */
  const Pi: real := 3.141592653589793

  /** Mils (EasyEDA units of 10 mil) to millimetres: division by 3.937. */
  function Mil2mm(x: real): (r: real)
    ensures r * 3.937 == x
  {
    x / 3.937
  }

  /** A whole number of thousandths. */
  predicate Thousandths(x: real) {
    (x * 1000.0).Floor as real == x * 1000.0
  }

  /** Python's `round(x, 3)` on the exact value: the nearest multiple of 0.001, a tie going
      to the even multiple. */
  function Round3(x: real): (r: real)
    ensures -0.0005 <= r - x <= 0.0005
    ensures Thousandths(r)
    ensures x >= 0.0 ==> r >= 0.0
  {
    var n := (x * 1000.0).Floor;
    var frac := x * 1000.0 - n as real;
    var m := if frac > 0.5 || (frac == 0.5 && n % 2 != 0) then n + 1 else n;
    assert (m as real / 1000.0) * 1000.0 == m as real;
    m as real / 1000.0
  }

  /** Rounding keeps a value that is already a whole number of thousandths, so rounding
      twice is rounding once. */
  lemma Round3Idempotent(x: real)
    ensures Thousandths(x) ==> Round3(x) == x
    ensures Round3(Round3(x)) == Round3(x)
  {
    if Thousandths(x) {
      assert x * 1000.0 - (x * 1000.0).Floor as real == 0.0;
    }
    var y := Round3(x);
    assert y * 1000.0 - (y * 1000.0).Floor as real == 0.0;
  }

  function Abs(x: real): (r: real)
    ensures r >= 0.0 && (r == x || r == -x)
  {
    if x < 0.0 then -x else x
  }

  function Max(a: real, b: real): (r: real)
    ensures r >= a && r >= b && (r == a || r == b)
  {
    if a >= b then a else b
  }

  function Min(a: real, b: real): (r: real)
    ensures r <= a && r <= b && (r == a || r == b)
  {
    if a <= b then a else b
  }

  /** Python's `x % m` on ints with `m > 0`; Dafny's Euclidean `%` agrees with Python's
      floored one for a positive modulus. */
  function IntMod(x: int, m: int): (r: int)
    requires m > 0
    ensures 0 <= r < m
    ensures 0 <= x < m ==> r == x
  {
    x % m
  }

  /** Python's `abs()` on ints. */
  function IntAbs(x: int): (r: nat)
    ensures r == x || r == -x
  {
    if x < 0 then -x else x
  }

  // ---------------------------------------------------------------------------
  // Decimal rendering of integers (Python's `str(n)`)
  // ---------------------------------------------------------------------------

  predicate IsDigit(c: char) { '0' <= c <= '9' }

  function DigitChar(d: nat): (c: char)
    requires d < 10
    ensures IsDigit(c) && (c as int) - ('0' as int) == d
  {
    ['0', '1', '2', '3', '4', '5', '6', '7', '8', '9'][d]
  }

  function NatToString(n: nat): (s: string)
    ensures |s| >= 1
    ensures forall k :: 0 <= k < |s| ==> IsDigit(s[k])
    ensures |s| > 1 ==> s[0] != '0'
  {
    if n < 10 then [DigitChar(n)] else NatToString(n / 10) + [DigitChar(n % 10)]
  }

  function DigitValue(c: char): (d: nat)
    requires IsDigit(c)
    ensures d < 10 && DigitChar(d) == c
  {
    (c as int) - ('0' as int)
  }

  /** The value of a string of decimal digits, most significant first. */
  function DigitsValue(s: string): nat
    requires forall k :: 0 <= k < |s| ==> IsDigit(s[k])
  {
    if |s| == 0 then 0
    else DigitsValue(s[..|s| - 1]) * 10 + DigitValue(s[|s| - 1])
  }

  /** Reading back the decimal rendering of `n` gives `n`. */
  lemma {:induction false} NatToStringRoundTrip(n: nat)
    ensures DigitsValue(NatToString(n)) == n
  {
    if n >= 10 {
      NatToStringRoundTrip(n / 10);
      var s := NatToString(n);
      assert s[..|s| - 1] == NatToString(n / 10);
    }
  }

  function IntToString(i: int): (s: string)
    ensures i >= 0 ==> s == NatToString(i)
    ensures i < 0 ==> s == "-" + NatToString(-i)
  {
    if i >= 0 then NatToString(i) else "-" + NatToString(-i)
  }
}
