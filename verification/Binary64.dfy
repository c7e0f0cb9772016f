/** Correctly rounded binary64 arithmetic on the reals: 53-bit significands, round to
    nearest, ties to even. The exponent is unbounded (no subnormals, no overflow). */
module Binary64 {
  const TWO52 := 0x10_0000_0000_0000
  const TWO53 := 0x20_0000_0000_0000

  /** x · 2^e */
  function Scale(x: real, e: int): real
    decreases if e < 0 then -e else e
  {
    if e == 0 then x else if e > 0 then 2.0 * Scale(x, e - 1) else Scale(x, e + 1) / 2.0
  }

  function Float(m: int, e: int): real { Scale(m as real, e) }

  /** The values with a significand of at most 53 bits. */
  ghost predicate Representable(y: real) { exists m, e :: -TWO53 < m < TWO53 && y == Float(m, e) }

  function Abs(x: real): real { if x < 0.0 then -x else x }

  /** The nearest integer; the even one when two are equally near. */
  function RoundInt(x: real): int {
    var n := x.Floor;
    var r := x - n as real;
    if r < 0.5 || (r == 0.5 && n % 2 == 0) then n else n + 1
  }

  /** Shifts x until its integer part has 53 bits, rounds there, and shifts back. */
  function RoundPos(x: real): real
    requires x > 0.0
    decreases if x >= TWO53 as real then x.Floor else if x < TWO52 as real then (TWO52 as real / x).Floor else 0
  {
    if x >= TWO53 as real then 2.0 * RoundPos(x / 2.0)
    else if x < TWO52 as real then
      HalvingQuotient(x);
      RoundPos(2.0 * x) / 2.0
    else RoundInt(x) as real
  }

  function Round(x: real): real {
    if x == 0.0 then 0.0 else if x > 0.0 then RoundPos(x) else -RoundPos(-x)
  }

  lemma {:induction false} HalvingQuotient(x: real)
    requires 0.0 < x < TWO52 as real
    ensures 1 <= (TWO52 as real / x).Floor
    ensures (TWO52 as real / (2.0 * x)).Floor < (TWO52 as real / x).Floor
  {
  }

  // ---- Round against the definition of section 4.3.1 of IEEE 754-2008 ----

  lemma {:induction false} ScaleStep(x: real, e: int)
    ensures Scale(x, e + 1) == 2.0 * Scale(x, e) == Scale(2.0 * x, e)
    decreases if e < 0 then -e else e
  {
    if e > 0 { ScaleStep(x, e - 1); } else if e < 0 { ScaleStep(x, e + 1); }
  }

  lemma {:induction false} Rescaled(y: real)
    requires Representable(y)
    ensures Representable(2.0 * y) && Representable(y / 2.0)
  {
    var m, e :| -TWO53 < m < TWO53 && y == Float(m, e);
    ScaleStep(m as real, e);
    ScaleStep(m as real, e - 1);
    assert 2.0 * y == Float(m, e + 1) && y / 2.0 == Float(m, e - 1);
  }

  /** y's full-width significand can be taken even. */
  ghost predicate EvenSignificand(y: real) {
    exists k, e :: TWO52 <= k <= TWO53 && k % 2 == 0 && y == Float(k, e)
  }

  lemma {:induction false} EvenRescaled(y: real)
    requires EvenSignificand(y)
    ensures EvenSignificand(2.0 * y) && EvenSignificand(y / 2.0)
  {
    var k, e :| TWO52 <= k <= TWO53 && k % 2 == 0 && y == Float(k, e);
    ScaleStep(k as real, e);
    ScaleStep(k as real, e - 1);
    assert 2.0 * y == Float(k, e + 1) && y / 2.0 == Float(k, e - 1);
  }

  /** y is no farther from x than z is; on a tie with another value y is the even one. */
  ghost predicate NoFarther(x: real, y: real, z: real) {
    Abs(x - y) <= Abs(x - z) && (z != y && Abs(x - z) == Abs(x - y) ==> EvenSignificand(y))
  }

  ghost predicate NearestEven(x: real, y: real) {
    Representable(y) && forall z :: Representable(z) ==> NoFarther(x, y, z)
  }

  lemma {:induction false} ScaledIntegers(m: int, e: int) returns (j: int)
    requires -TWO53 < m < TWO53
    ensures if e >= 0 then Float(m, e) == j as real else -(TWO52 as real) < Float(m, e) < TWO52 as real
    decreases if e < 0 then -e else e
  {
    if e == 0 {
      j := m;
    } else if e > 0 {
      j := ScaledIntegers(m, e - 1);
      j := 2 * j;
    } else {
      j := ScaledIntegers(m, e + 1);
    }
  }

  lemma {:induction false} RoundIntIsNearest(x: real, j: int)
    ensures var k := RoundInt(x);
      Abs(x - k as real) <= Abs(x - j as real) && (j != k && Abs(x - j as real) == Abs(x - k as real) ==> k % 2 == 0)
  {
  }

  /** In the binade [2^52, 2^53) the representable values are the integers and values below it. */
  lemma {:induction false} NearestInBinade(x: real)
    requires TWO52 as real <= x < TWO53 as real
    ensures NearestEven(x, RoundInt(x) as real)
  {
    var k := RoundInt(x);
    assert TWO52 <= k <= TWO53;
    assert k as real == Float(k, 0);
    if k == TWO53 { assert k as real == Float(TWO52, 1); }
    assert Representable(k as real);
    forall z | Representable(z) ensures NoFarther(x, k as real, z) {
      var m, e :| -TWO53 < m < TWO53 && z == Float(m, e);
      var j := ScaledIntegers(m, e);
      RoundIntIsNearest(x, j);
      RoundIntIsNearest(x, TWO52);
    }
  }

  lemma {:induction false} NearestRescaled(x: real, y: real)
    requires NearestEven(x, y)
    ensures NearestEven(2.0 * x, 2.0 * y) && NearestEven(x / 2.0, y / 2.0)
  {
    Rescaled(y);
    if EvenSignificand(y) { EvenRescaled(y); }
    forall z | Representable(z) ensures NoFarther(2.0 * x, 2.0 * y, z) && NoFarther(x / 2.0, y / 2.0, z) {
      Rescaled(z);
      assert NoFarther(x, y, z / 2.0) && NoFarther(x, y, 2.0 * z);
    }
  }

  lemma {:induction false} RoundIsNearestEven(x: real)
    requires x > 0.0
    ensures NearestEven(x, Round(x))
    decreases if x >= TWO53 as real then x.Floor else if x < TWO52 as real then (TWO52 as real / x).Floor else 0
  {
    hide NearestEven;
    if x >= TWO53 as real {
      RoundIsNearestEven(x / 2.0);
      NearestRescaled(x / 2.0, Round(x / 2.0));
    } else if x < TWO52 as real {
      HalvingQuotient(x);
      RoundIsNearestEven(2.0 * x);
      NearestRescaled(2.0 * x, Round(2.0 * x));
    } else {
      NearestInBinade(x);
    }
  }

  /** Rounding leaves a representable value alone. */
  lemma {:induction false} RoundExact(x: real)
    requires x >= 0.0 && Representable(x)
    ensures Round(x) == x
  {
    if x > 0.0 {
      RoundIsNearestEven(x);
      assert NoFarther(x, Round(x), x);
    }
  }

  /** n doublings that land in the 53-bit binade show where the rounding happens. */
  lemma {:induction false} RoundShifted(x: real, n: nat)
    requires x > 0.0 && TWO52 as real <= Scale(x, n) < TWO53 as real
    ensures Round(x) == Float(RoundInt(Scale(x, n)), -(n as int))
    decreases n
  {
    if n > 0 {
      ScaleStep(x, n - 1);
      ScaleGrows(x, n - 1);
      RoundShifted(2.0 * x, n - 1);
      ScaleStep(RoundInt(Scale(x, n)) as real, -(n as int));
    }
  }

  lemma {:induction false} ScaleGrows(x: real, n: nat)
    requires x > 0.0
    ensures Scale(x, n) >= x
  {
    if n > 0 { ScaleGrows(x, n - 1); }
  }
}
