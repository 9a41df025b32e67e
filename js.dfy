/** The few JavaScript number and string built-ins the pages rely on, over
    Dafny's exact `real`s (floating-point rounding is not modelled). */
module Js {

  /** `Math.floor`. */
  function Floor(x: real): (r: int)
    ensures r as real <= x < r as real + 1.0
  {
    x.Floor
  }

  /** `Math.min` and `Math.max` on two numbers. */
  function Min(a: real, b: real): (r: real)
    ensures r <= a && r <= b && (r == a || r == b)
  {
    if a <= b then a else b
  }

  function Max(a: real, b: real): (r: real)
    ensures r >= a && r >= b && (r == a || r == b)
  {
    if a >= b then a else b
  }

  // Steps of real arithmetic the solver takes more reliably one at a time.
  lemma MulLe(m: real, a: real, b: real)
    requires m > 0.0 && a <= b
    ensures m * a <= m * b
  {}

  lemma MulLt(m: real, a: real, b: real)
    requires m > 0.0 && a < b
    ensures m * a < m * b
  {}

  lemma MulDiv(m: real, x: real)
    requires m > 0.0
    ensures m * (x / m) == x
  {}

  lemma MulPlusOne(m: real, f: real)
    ensures m * (f + 1.0) == m * f + m
  {}

  lemma {:induction false} FloorDivBounds(x: real, m: real)
    requires m > 0.0
    ensures m * (Floor(x / m) as real) <= x < m * (Floor(x / m) as real) + m
  {
    var q := x / m;
    var f := Floor(q) as real;
    MulDiv(m, x);
    MulLe(m, f, q);
    MulLt(m, q, f + 1.0);
    assert m * q < m * (f + 1.0);
    MulPlusOne(m, f);
    assert m * q < m * f + m;
    assert x < m * f + m;
  }

  /** A number in [0, m) divided by m lies in [0, 1). */
  lemma {:induction false} DivBelowOne(y: real, m: real)
    requires m > 0.0 && 0.0 <= y < m
    ensures 0.0 <= y / m < 1.0 && Floor(y / m) == 0
  {
    var q := y / m;
    MulDiv(m, y);
    if q < 0.0 { MulLt(m, q, 0.0); }
    if q >= 1.0 { MulLe(m, 1.0, q); }
  }

  lemma DivOfMul(m: real, y: real)
    requires m > 0.0
    ensures (m * y) / m == y
  {}

  /** `y` is a whole number. */
  predicate IsWhole(y: real)
  {
    y.Floor as real == y
  }

  /** Remainder of a non-negative number by a positive one: `x - m * floor(x / m)`. */
  function FloorRem(x: real, m: real): (r: real)
    requires 0.0 <= x && m > 0.0
    ensures 0.0 <= r < m
    ensures (x - r) / m == Floor(x / m) as real
  {
    FloorDivBounds(x, m);
    var f := Floor(x / m) as real;
    DivOfMul(m, f);
    assert x - (x - m * f) == m * f;
    x - m * f
  }

  lemma WholeOfInt(k: int)
    ensures IsWhole(k as real)
  {}

  lemma NegDiv(a: real, m: real)
    requires m > 0.0
    ensures (-a) / m == -(a / m)
  {}

  /** JavaScript's `x % m` for a positive `m`: the remainder of truncated division, so
      the result carries the sign of `x` (unlike Dafny's Euclidean `%`). */
  function Rem(x: real, m: real): (r: real)
    requires m > 0.0
    ensures -m < r < m
    ensures 0.0 <= x ==> 0.0 <= r
    ensures x <= 0.0 ==> r <= 0.0
    ensures IsWhole((x - r) / m)
  {
    if x >= 0.0 then
      WholeOfInt(Floor(x / m));
      FloorRem(x, m)
    else
      var r := FloorRem(-x, m);
      var k := Floor(-x / m);
      assert x - -r == -(-x - r);
      NegDiv(-x - r, m);
      WholeOfInt(-k);
      -r
  }

  /** A number already strictly inside (-m, m) is its own remainder. */
  lemma {:induction false} RemOfSmall(x: real, m: real)
    requires m > 0.0 && -m < x < m
    ensures Rem(x, m) == x
  {
    if x >= 0.0 { DivBelowOne(x, m); } else { DivBelowOne(-x, m); }
  }

  /** `%` is idempotent. */
  lemma RemIdempotent(x: real, m: real)
    requires m > 0.0
    ensures Rem(Rem(x, m), m) == Rem(x, m)
  {
    RemOfSmall(Rem(x, m), m);
  }

  /** Whole turns do not change the remainder of a non-negative number. */
  lemma {:induction false} RemAddMultiple(x: real, m: real, k: nat)
    requires m > 0.0 && 0.0 <= x
    ensures Rem(x + m * k as real, m) == Rem(x, m)
  {
    var y := x + m * k as real;
    MulDiv(m, x);
    assert y == m * (x / m + k as real);
    assert y / m == x / m + k as real;
    assert Floor(y / m) == Floor(x / m) + k;
  }

  /** JavaScript's `a % n` on integers with `n > 0`: truncated, sign of `a`. */
  function IntRem(a: int, n: int): (r: int)
    requires n > 0
    ensures -n < r < n
    ensures 0 <= a ==> 0 <= r
    ensures a <= 0 ==> r <= 0
    ensures (a - r) % n == 0
  {
    if a >= 0 then
      RemDifference(a, n);
      a % n
    else
      RemDifference(-a, n);
      NegatedMultiple(n, -a - (-a) % n);
      -((-a) % n)
  }

  /** A number less its Euclidean remainder is a whole multiple. */
  lemma RemDifference(a: int, n: int)
    requires n > 0
    ensures (a - a % n) % n == 0
  {
    var q := a / n;
    assert a - a % n == n * q;
    MultipleRem(n, q);
  }

  /** The negation of a whole multiple is one. */
  lemma NegatedMultiple(n: int, x: int)
    requires n > 0 && x % n == 0
    ensures (-x) % n == 0
  {
    var q := x / n;
    assert x == n * q;
    assert -x == n * -q;
    MultipleRem(n, -q);
  }

  /** A whole multiple of `n` leaves no remainder. */
  lemma MultipleRem(n: int, q: int)
    requires n > 0
    ensures (n * q) % n == 0
  {
    var p, r := (n * q) / n, (n * q) % n;
    assert n * q == n * p + r;
    assert n * (q - p) == r;
    if q - p >= 1 { MulLeInt(n, 1, q - p); }
    if q - p <= -1 { MulLeInt(n, q - p, -1); }
  }

  /** The only multiple of `n` strictly between `-n` and `n` is 0. */
  lemma {:induction false} SmallMultiple(n: int, d: int)
    requires n > 0 && -n < d < n && d % n == 0
    ensures d == 0
  {
    var q := d / n;
    assert d == n * q;
    if q >= 1 { MulLeInt(n, 1, q); }
    if q <= -1 { MulLeInt(n, q, -1); }
  }

  /** Range, sign and a whole-multiple difference determine JavaScript's integer `%`. */
  lemma {:induction false} IntRemUnique(a: int, n: int, r: int)
    requires n > 0 && -n < r < n
    requires 0 <= a ==> 0 <= r
    requires a <= 0 ==> r <= 0
    requires (a - r) % n == 0
    ensures r == IntRem(a, n)
  {
    var t := IntRem(a, n);
    var d := t - r;
    assert d == (a - r) - (a - t);
    MultipleDifference(n, a - r, a - t);
    SmallMultiple(n, d);
  }

  lemma {:induction false} MultipleDifference(n: int, x: int, y: int)
    requires n > 0 && x % n == 0 && y % n == 0
    ensures (x - y) % n == 0
  {
    var p, q := x / n, y / n;
    assert x == n * p && y == n * q;
    assert x - y == n * (p - q);
    MultipleRem(n, p - q);
  }

  lemma IntRemOfSmall(a: int, n: int)
    requires 0 <= a < n
    ensures IntRem(a, n) == a
  {
    var q, r := a / n, a % n;
    assert a == n * q + r;
    if q >= 1 { MulLeInt(n, 1, q); }
    if q < 0 { MulLeInt(n, q, -1); }
  }

  lemma MulLeInt(n: int, a: int, b: int)
    requires n > 0 && a <= b
    ensures n * a <= n * b
  {}

  /** The characters `String.prototype.trim` strips: ECMAScript WhiteSpace and
      LineTerminator code points. */
  predicate IsSpace(c: char)
  {
    || c == ' ' || c == '\t' || c == '\n' || c == '\r'
    || c == '\U{000B}' || c == '\U{000C}' || c == '\U{00A0}' || c == '\U{1680}'
    || ('\U{2000}' <= c <= '\U{200A}')
    || c == '\U{2028}' || c == '\U{2029}' || c == '\U{202F}' || c == '\U{205F}'
    || c == '\U{3000}' || c == '\U{FEFF}'
  }

  function TrimStart(s: string): (r: string)
    ensures |r| <= |s| && r == s[|s| - |r|..]
    ensures forall i :: 0 <= i < |s| - |r| ==> IsSpace(s[i])
    ensures r == [] || !IsSpace(r[0])
  {
    if s != [] && IsSpace(s[0]) then TrimStart(s[1..]) else s
  }

  function TrimEnd(s: string): (r: string)
    ensures |r| <= |s| && r == s[..|r|]
    ensures forall i :: |r| <= i < |s| ==> IsSpace(s[i])
    ensures r == [] || !IsSpace(r[|r| - 1])
  {
    if s != [] && IsSpace(s[|s| - 1]) then TrimEnd(s[..|s| - 1]) else s
  }

  /** `String.prototype.trim`: an infix of `s` that neither starts nor ends with
      white space, everything cut off on either side being white space. */
  function Trim(s: string): (r: string)
    ensures r == [] || (!IsSpace(r[0]) && !IsSpace(r[|r| - 1]))
    ensures |r| <= |s|
    ensures var i := |s| - |TrimStart(s)|;
      && i + |r| <= |s| && r == s[i..i + |r|]
      && (forall k :: 0 <= k < i ==> IsSpace(s[k]))
      && (forall k :: i + |r| <= k < |s| ==> IsSpace(s[k]))
  {
    TrimEnd(TrimStart(s))
  }

  /** Trimming twice is trimming once. */
  lemma {:induction false} TrimIdempotent(s: string)
    ensures Trim(Trim(s)) == Trim(s)
  {
    var r := Trim(s);
    assert TrimStart(r) == r;
    assert TrimEnd(r) == r;
  }
}
