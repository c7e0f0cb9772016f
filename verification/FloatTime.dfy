/** The converter that goes through a float64, and how far it is from the exact one. */
module FloatTime {
  import opened Model
  import opened Timestamps
  import opened Binary64

  const UNITS := 0x40_0000   // 2^22: float64 steps per second for instants in [2^30, 2^31)
  const SEC_MIN := 0x4000_0000
  const SEC_MAX := 0x8000_0000

  function Trunc(y: real): int { if y >= 0.0 then y.Floor else -(-y).Floor }

  function Decimal(s: string, f: string): real
    requires AllDigits(s) && AllDigits(f)
  {
    ValBound(f);
    Val(s) as real + Val(f) as real / Pow10(|f|) as real
  }

  /** strconv.ParseFloat on plain decimals: an optional sign, digits, an optional fraction. */
  function ParseFloat(ts: string): Option<real> {
    var signed := ts != "" && (ts[0] == '-' || ts[0] == '+');
    var body := if signed then ts[1..] else ts;
    var s, f := SecPart(body), FracPart(body);
    if s + f == "" || !AllDigits(s) || !AllDigits(f) then None
    else
      var v := Round(Decimal(s, f));
      Some(if signed && ts[0] == '-' then -v else v)
  }

  /** time.Unix(int64(sec), int64((sec - float64(int64(sec))) * 1e9)). */
  function FloatUnix(sec: real): Time {
    var frac := Round(sec - Round(Trunc(sec) as real));
    Unix(Trunc(sec), Trunc(Round(frac * 1e9)))
  }

  function ParseTs(ts: string): Option<Time> {
    var v := ParseFloat(ts);
    if v.None? then None else Some(FloatUnix(v.value))
  }

  /** A timestamp in Slack's format: seconds in [2^30, 2^31) and six fraction digits. */
  predicate SlackTs(s: string, f: string) {
    AllDigits(s) && s != "" && AllDigits(f) && |f| == 6 && SEC_MIN <= Val(s) < SEC_MAX
  }

  /** The fraction in steps of 2^-22 second, as float64 rounds it. */
  function Steps(m: nat): int { RoundInt(m as real * 4.194304) }

  lemma {:induction false} StepsNear(m: nat)
    requires m < 1_000_000
    ensures 0 <= Steps(m) < UNITS
    ensures -500_000 <= Steps(m) * 1_000_000 - m * UNITS <= 500_000
  {
  }

  lemma {:induction false} Shift22(x: real)
    ensures Scale(x, 22) == 4194304.0 * x
    ensures Scale(x, -22) == x / 4194304.0
    ensures Scale(x, -13) == x / 8192.0
  {
    assert Scale(x, 11) == 2048.0 * x;
    assert Scale(x, 22) == 2048.0 * Scale(x, 11);
    assert Scale(x, -11) == x / 2048.0;
    assert Scale(x, -13) == Scale(x, -11) / 4.0;
    assert Scale(x, -22) == Scale(x, -11) / 2048.0;
  }

  lemma {:induction false} ScaledBy22(s: int, m: nat)
    ensures Scale(s as real + m as real / 1000000.0, 22) == m as real * 4.194304 + (s * UNITS) as real
  {
    var x := s as real + m as real / 1000000.0;
    Shift22(x);
    hide Scale;
    assert (s * UNITS) as real == 4194304.0 * s as real;
    assert 4194304.0 * x == 4194304.0 * s as real + m as real * 4.194304;
  }

  lemma {:induction false} InBinade(s: int, m: nat, w: real)
    requires SEC_MIN <= s < SEC_MAX && m < 1_000_000 && w == m as real * 4.194304 + (s * UNITS) as real
    ensures TWO52 as real <= w < TWO53 as real
  {
  }

  lemma {:induction false} RoundOfShifted(m: nat, s: int, w: real)
    requires w == m as real * 4.194304 + (s * UNITS) as real
    ensures RoundInt(w) == Steps(m) + s * UNITS
  {
  }

  /** The nearest float64 to s + m/10^6 is s plus a whole number of steps. */
  lemma {:induction false} ParsedValue(s: int, m: nat)
    requires SEC_MIN <= s < SEC_MAX && m < 1_000_000
    ensures Round(s as real + m as real / 1000000.0) == s as real + Steps(m) as real / 4194304.0
  {
    hide RoundInt, Scale, Round, Steps;
    var x := s as real + m as real / 1000000.0;
    ScaledBy22(s, m);
    InBinade(s, m, Scale(x, 22));
    RoundOfShifted(m, s, Scale(x, 22));
    RoundShifted(x, 22);
    FloatBack(s, Steps(m));
  }

  lemma {:induction false} FloatBack(s: int, r: int)
    ensures Float(r + s * UNITS, -22) == s as real + r as real / 4194304.0
  {
    Shift22((r + s * UNITS) as real);
  }

  lemma {:induction false} ExactSubtraction(s: int, r: int, sec: real)
    requires SEC_MIN <= s < SEC_MAX && 0 <= r < UNITS && sec == s as real + r as real / 4194304.0
    ensures Trunc(sec) == s && Round(s as real) == s as real && Round(sec - s as real) == r as real / 4194304.0
  {
    assert s as real == Float(s, 0);
    RoundExact(s as real);
    Shift22(r as real);
    assert r as real / 4194304.0 == Float(r, -22);
    RoundExact(r as real / 4194304.0);
    assert sec - s as real == r as real / 4194304.0;
  }

  lemma {:induction false} ExactProduct(r: int)
    requires 0 <= r < UNITS
    ensures Trunc(Round(r as real / 4194304.0 * 1e9)) == r * NANOS / UNITS < NANOS
  {
    var prod := r as real / 4194304.0 * 1e9;
    var c := r * 1_953_125;
    Shift22(c as real);
    assert prod == c as real / 8192.0 == Float(c, -13);
    RoundExact(prod);
    FloorDiv(c, 8192, prod);
  }

  /** Both the subtraction and the multiplication by 10^9 are exact. */
  lemma {:induction false} ExactTail(s: int, r: int, sec: real)
    requires SEC_MIN <= s < SEC_MAX && 0 <= r < UNITS && sec == s as real + r as real / 4194304.0
    ensures FloatUnix(sec) == Time(s, r * NANOS / UNITS)
  {
    ExactSubtraction(s, r, sec);
    ExactProduct(r);
    UnixOfNanos(s, r * NANOS / UNITS);
  }

  lemma {:induction false} FloorDiv(c: nat, d: nat, y: real)
    requires d == 8192 && y == c as real / 8192.0
    ensures y.Floor == c / d
  {
  }

  lemma {:induction false} PlainDecimal(s: string, f: string)
    requires AllDigits(s) && AllDigits(f) && s != ""
    ensures ParseTs(s + "." + f) == Some(FloatUnix(Round(Decimal(s, f))))
  {
    DotAfterDigits(s, f);
    assert (s + "." + f)[0] == s[0] && IsDigit(s[0]);
  }

  lemma {:induction false} Pow10Six()
    ensures Pow10(6) == 1_000_000
  {
  }

  /** The whole computation: same second, and the steps of the fraction in nanoseconds. */
  lemma {:induction false} ParseTsValue(s: string, f: string)
    requires SlackTs(s, f)
    ensures Val(f) < 1_000_000
    ensures ParseTs(s + "." + f) == Some(Time(Val(s), Steps(Val(f)) * NANOS / UNITS))
  {
    RoundedDecimal(s, f);
    PlainDecimal(s, f);
    ExactTail(Val(s), Steps(Val(f)), Round(Decimal(s, f)));
  }

  lemma {:induction false} RoundedDecimal(s: string, f: string)
    requires SlackTs(s, f)
    ensures Val(f) < 1_000_000 && 0 <= Steps(Val(f)) < UNITS
    ensures Round(Decimal(s, f)) == Val(s) as real + Steps(Val(f)) as real / 4194304.0
  {
    SixDigits(s, f);
    ParsedValue(Val(s), Val(f));
    StepsNear(Val(f));
  }

  lemma {:induction false} SixDigits(s: string, f: string)
    requires AllDigits(s) && AllDigits(f) && |f| == 6
    ensures Val(f) < 1_000_000
    ensures Decimal(s, f) == Val(s) as real + Val(f) as real / 1000000.0
  {
    Pow10Six();
    ValBound(f);
  }

  lemma {:induction false} TimeOfValue(s: string, f: string)
    requires SlackTs(s, f)
    ensures TimeOf(s + "." + f) == Some(Time(Val(s), 1000 * Val(f)))
  {
    Pow10Six();
    TimeOfIsExact(s, f);
    DivIs(Val(f) * NANOS, 1_000_000, 1000 * Val(f), 0);
  }

  /** Same second, no carry, and at most 120 ns below or 119 ns above the exact value;
      rounding to the nearest microsecond recovers the original digits. */
  lemma {:induction false} FloatBound(s: string, f: string)
    requires SlackTs(s, f)
    ensures TimeOf(s + "." + f).Some? && ParseTs(s + "." + f).Some?
    ensures var exact, float := TimeOf(s + "." + f).value, ParseTs(s + "." + f).value;
      && float.sec == exact.sec == Val(s)
      && exact.nsec == 1000 * Val(f)
      && 0 <= float.nsec < NANOS
      && exact.nsec - 120 <= float.nsec <= exact.nsec + 119
      && (float.nsec + 500) / 1000 == Val(f)
  {
    ParseTsValue(s, f);
    TimeOfValue(s, f);
    StepsNear(Val(f));
  }

  lemma {:induction false} StepsAgree(m: nat)
    requires m < 1_000_000
    ensures Steps(m) * NANOS / UNITS == 1000 * m
       <==> (m * UNITS) % 1_000_000 == 0 || (m * UNITS) % 1_000_000 >= 995_806
  {
    StepsNear(m);
    NanosAgree(Steps(m), m);
  }

  lemma {:induction false} NanosAgree(r: int, m: nat)
    requires 0 <= r < UNITS && -500_000 <= r * 1_000_000 - m * UNITS <= 500_000
    ensures r * NANOS / UNITS == 1000 * m
       <==> (m * UNITS) % 1_000_000 == 0 || (m * UNITS) % 1_000_000 >= 995_806
  {
    var q, t := (m * UNITS) / 1_000_000, (m * UNITS) % 1_000_000;
    assert m * UNITS == q * 1_000_000 + t;
    assert r == q || r == q + 1;
    assert r * NANOS / UNITS == 1000 * m <==> 0 <= r * 1_000_000 - m * UNITS <= 4194;
  }

  /** The two columns agree exactly when m·2^22 is, or is just below, a multiple of 10^6. */
  lemma {:induction false} AgreeExactly(s: string, f: string)
    requires SlackTs(s, f)
    ensures ParseTs(s + "." + f) == TimeOf(s + "." + f)
       <==> (Val(f) * UNITS) % 1_000_000 == 0 || (Val(f) * UNITS) % 1_000_000 >= 995_806
  {
    ParseTsValue(s, f);
    TimeOfValue(s, f);
    StepsAgree(Val(f));
  }

  lemma {:induction false} StepsKeepOrder(m: nat, m': nat)
    requires m < m' < 1_000_000
    ensures Steps(m) * NANOS / UNITS < Steps(m') * NANOS / UNITS
  {
  }

  /** The float converter keeps the order of instants strictly. */
  lemma {:induction false} FloatKeepsOrder(s: string, f: string, s': string, f': string)
    requires SlackTs(s, f) && SlackTs(s', f')
    ensures ParseTs(s + "." + f).Some? && ParseTs(s' + "." + f').Some?
    ensures TimeOf(s + "." + f).Some? && TimeOf(s' + "." + f').Some?
    ensures Before(ParseTs(s + "." + f).value, ParseTs(s' + "." + f').value)
       <==> Before(TimeOf(s + "." + f).value, TimeOf(s' + "." + f').value)
  {
    ParseTsValue(s, f);
    ParseTsValue(s', f');
    TimeOfValue(s, f);
    TimeOfValue(s', f');
    OrderOfPairs(Val(s), Val(f), Val(s'), Val(f'));
  }

  lemma {:induction false} OrderOfPairs(s: int, m: nat, s': int, m': nat)
    requires m < 1_000_000 && m' < 1_000_000
    ensures Before(Time(s, Steps(m) * NANOS / UNITS), Time(s', Steps(m') * NANOS / UNITS))
       <==> Before(Time(s, 1000 * m), Time(s', 1000 * m'))
  {
    if m < m' { StepsKeepOrder(m, m'); } else if m' < m { StepsKeepOrder(m', m); }
  }

  // ---- signs and malformed stamps ----

  /** int64(y) of a float truncates toward zero. */
  lemma {:induction false} TruncTowardZero(y: real)
    ensures Trunc(-y) == -Trunc(y) && (y >= 0.0 ==> Trunc(y) as real <= y < Trunc(y) as real + 1.0)
    ensures Round(-y) == -Round(y)
  {
    hide RoundPos;
  }

  lemma {:induction false} ParsePlain(s: string, f: string)
    requires AllDigits(s) && AllDigits(f) && s != ""
    ensures var ts := s + "." + f;
      SecPart(ts) == s && FracPart(ts) == f && s + f != "" && IsDigit(ts[0]) && ParseFloat(ts) == Some(Round(Decimal(s, f)))
  {
    hide Round, Decimal;
    DotAfterDigits(s, f);
    assert (s + "." + f)[0] == s[0] && (s + f)[0] == s[0];
  }

  /** A sign in front of a plain decimal is the sign of its rounded value. */
  lemma {:induction false} ParseFloatExact(s: string, f: string)
    requires AllDigits(s) && AllDigits(f) && s != ""
    ensures ParseFloat(s + "." + f) == ParseFloat("+" + (s + "." + f)) == Some(Round(Decimal(s, f)))
    ensures ParseFloat("-" + (s + "." + f)) == Some(-Round(Decimal(s, f)))
  {
    hide Round, Decimal, SecPart, FracPart, DotAt, AllDigits;
    var ts := s + "." + f;
    ParsePlain(s, f);
    assert ("+" + ts)[1..] == ts && ("-" + ts)[1..] == ts;
  }

  lemma {:induction false} ParseFloatRejects(ts: string)
    requires ParseFloat(ts).Some?
    ensures ts != "" && (IsDigit(ts[0]) || ts[0] == '.' || ts[0] == '-' || ts[0] == '+')
    ensures forall i :: 1 <= i < |ts| ==> IsDigit(ts[i]) || ts[i] == '.'
    ensures exists i :: 0 <= i < |ts| && IsDigit(ts[i])
  {
    hide Round, Decimal;
    var signed := ts != "" && (ts[0] == '-' || ts[0] == '+');
    var body := if signed then ts[1..] else ts;
    var s, f, d := SecPart(body), FracPart(body), DotAt(body);
    assert body == if d < |body| then s + "." + f else s;
    forall i | 0 <= i < |body| ensures IsDigit(body[i]) || body[i] == '.' {
      if i < d { assert body[i] == s[i]; } else if i > d { assert body[i] == f[i - d - 1]; }
    }
    assert |s + f| > 0;
    if |s| > 0 { assert IsDigit(body[0]) && body[0] == s[0]; } else { assert IsDigit(f[0]) && f[0] == body[d + 1]; }
    assert forall i :: 0 <= i < |body| ==> body[i] == ts[i + |ts| - |body|];
  }

  // ---- where the product's own rounding shows ----

  lemma {:induction false} Shift54(x: real)
    ensures Scale(x, 24) == 16777216.0 * x && Scale(x, -24) == x / 16777216.0
    ensures Scale(x, 54) == 18014398509481984.0 * x && Scale(x, -54) == x / 18014398509481984.0
  {
    assert Scale(x, 8) == 256.0 * x && Scale(x, -8) == x / 256.0;
    assert Scale(x, 16) == 256.0 * Scale(x, 8) && Scale(x, -16) == Scale(x, -8) / 256.0;
    assert Scale(x, 24) == 256.0 * Scale(x, 16) && Scale(x, -24) == Scale(x, -16) / 256.0;
    assert Scale(x, 32) == 256.0 * Scale(x, 24) && Scale(x, -32) == Scale(x, -24) / 256.0;
    assert Scale(x, 40) == 256.0 * Scale(x, 32) && Scale(x, -40) == Scale(x, -32) / 256.0;
    assert Scale(x, 48) == 256.0 * Scale(x, 40) && Scale(x, -48) == Scale(x, -40) / 256.0;
    assert Scale(x, 54) == 64.0 * Scale(x, 48) && Scale(x, -54) == Scale(x, -48) / 64.0;
  }

  const TENTHS := 5_404_319_552_844_595     // 0.3 is nearest to this many 2^-54

  lemma {:induction false} RoundTenths()
    ensures Round(0.3) == TENTHS as real / 18014398509481984.0
  {
    Shift54(0.3);
    Shift54(TENTHS as real);
    hide Scale, Round;
    RoundShifted(0.3, 54);
  }

  lemma {:induction false} RoundProduct()
    ensures Round(TENTHS as real / 18014398509481984.0 * 1e9) == 300_000_000.0
  {
    var y := TENTHS as real / 18014398509481984.0 * 1e9;
    Shift54(y);
    Shift54(5_033_164_800_000_000.0);
    hide Scale, Round;
    RoundShifted(y, 24);
  }

  lemma {:induction false} DecimalTenths()
    ensures AllDigits("0") && AllDigits("3") && Decimal("0", "3") == 0.3
  {
    DigitVal('0');
    DigitVal('3');
    assert Pow10(1) == 10;
  }

  lemma {:induction false} TailOfTenths(sec: real)
    requires sec == TENTHS as real / 18014398509481984.0
    ensures FloatUnix(sec) == Time(0, 300_000_000)
  {
    RoundProduct();
    Shift54(TENTHS as real);
    assert sec == Float(TENTHS, -54);
    RoundExact(sec);
    hide RoundPos, Scale;
    assert 0.0 < sec < 1.0 && sec.Floor == 0 && Trunc(sec) == 0;
    assert sec - Round(0 as real) == sec;
  }

  /** Below 2^30 seconds the product is not exact, and its rounding up to the next integer is
      what keeps "0.3" at 300 million nanoseconds: the float itself is a little less. */
  lemma {:induction false} ThreeTenths()
    ensures ParseTs("0.3") == Some(Time(0, 300_000_000)) && Round(0.3) * 1e9 < 300_000_000.0
  {
    hide Round, FloatUnix, Decimal, ParseTs;
    DecimalTenths();
    PlainDecimal("0", "3");
    assert "0" + "." + "3" == "0.3";
    RoundTenths();
    TailOfTenths(Round(0.3));
  }
}
