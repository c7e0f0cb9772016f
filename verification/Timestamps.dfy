/** The exact converter from a Slack timestamp "seconds.fraction" to an instant. */
module Timestamps {
  import opened Model

  const NANOS := 1_000_000_000
  const INT64_MAX := 0x7FFF_FFFF_FFFF_FFFF

  // ---- decimal digits ----

  predicate IsDigit(c: char) { '0' <= c <= '9' }
  predicate AllDigits(s: string) { forall i :: 0 <= i < |s| ==> IsDigit(s[i]) }

  function Val(s: string): nat
    requires AllDigits(s)
  {
    if s == "" then 0 else Val(s[..|s| - 1]) * 10 + (s[|s| - 1] - '0') as int
  }

  function Pow10(n: nat): nat { if n == 0 then 1 else 10 * Pow10(n - 1) }

  function Zeros(n: nat): string { seq(n, _ => '0') }

  /** strconv.ParseInt(s, 10, 64): an optional sign, then digits, within int64. */
  function ParseInt64(s: string): Option<int> {
    var signed := s != "" && (s[0] == '-' || s[0] == '+');
    var digits := if signed then s[1..] else s;
    if digits == "" || !AllDigits(digits) then None
    else
      var v: int := if signed && s[0] == '-' then -(Val(digits) as int) else Val(digits);
      if -INT64_MAX - 1 <= v <= INT64_MAX then Some(v) else None
  }

  /** time.Unix: carries nanoseconds outside [0, 10^9) into the seconds. */
  function Unix(sec: int, nsec: int): Time { Time(sec + nsec / NANOS, nsec % NANOS) }

  /** Position of the first '.', or the length when there is none. */
  function DotAt(ts: string): (d: nat)
    ensures d <= |ts| && (d < |ts| ==> ts[d] == '.') && '.' !in ts[..d]
  {
    if ts == "" || ts[0] == '.' then 0
    else
      var d := DotAt(ts[1..]);
      assert ts[..d + 1] == [ts[0]] + ts[1..][..d];
      d + 1
  }

  /** The fraction cut or zero-padded to nine digits. */
  function Pad9(f: string): string {
    if |f| > 9 then f[..9] else f + Zeros(9 - |f|)
  }

  function SecPart(ts: string): string { ts[..DotAt(ts)] }
  function FracPart(ts: string): string { if DotAt(ts) < |ts| then ts[DotAt(ts) + 1..] else "" }

  function FromParts(secPart: string, fracPart: string): Option<Time> {
    var sec := ParseInt64(secPart);
    if sec.None? then None
    else if fracPart == "" then Some(Unix(sec.value, 0))
    else
      var nsec := ParseInt64(Pad9(fracPart));
      if nsec.None? then None else Some(Unix(sec.value, nsec.value))
  }

  function TimeOf(ts: string): Option<Time> { FromParts(SecPart(ts), FracPart(ts)) }

  method TsToTime(ts: string) returns (r: Option<Time>)
    ensures r == TimeOf(ts)
  {
    var dot := DotAt(ts);
    var secPart, fracPart := ts, "";
    if dot < |ts| {
      secPart, fracPart := ts[..dot], ts[dot + 1..];
    }
    assert secPart == SecPart(ts) && fracPart == FracPart(ts);
    var sec := ParseInt64(secPart);
    if sec.None? { return None; }
    var nsec := Some(0);
    if fracPart != "" {
      ghost var frac := fracPart;
      if |fracPart| > 9 { fracPart := fracPart[..9]; }
      ghost var cut := fracPart;
      while |fracPart| < 9
        invariant |cut| <= |fracPart| <= 9
        invariant fracPart == cut + Zeros(|fracPart| - |cut|)
      {
        fracPart := fracPart + "0";
      }
      assert fracPart == Pad9(frac);
      nsec := ParseInt64(fracPart);
      if nsec.None? { return None; }
    }
    return Some(Unix(sec.value, nsec.value));
  }

  // ---- arithmetic of digit strings ----

  lemma {:induction false} Pow10Add(a: nat, b: nat)
    ensures Pow10(a + b) == Pow10(a) * Pow10(b)
  {
    if a > 0 { Pow10Add(a - 1, b); }
  }

  lemma {:induction false} TimesTen(v: nat, p: nat, w: nat)
    ensures (v * p + w) * 10 == v * (10 * p) + w * 10
  {
  }

  lemma {:induction false} MulMono(a: int, b: int, d: int)
    requires a <= b && 0 <= d
    ensures a * d <= b * d
  {
  }

  lemma {:induction false} ValConcat(a: string, b: string)
    requires AllDigits(a) && AllDigits(b)
    ensures AllDigits(a + b) && Val(a + b) == Val(a) * Pow10(|b|) + Val(b)
  {
    if b == "" {
      assert a + b == a;
    } else {
      var b' := b[..|b| - 1];
      ValConcat(a, b');
      assert (a + b)[..|a + b| - 1] == a + b';
      assert (a + b)[|a + b| - 1] == b[|b| - 1];
      TimesTen(Val(a), Pow10(|b'|), Val(b'));
    }
  }

  lemma {:induction false} ValBound(s: string)
    requires AllDigits(s)
    ensures Val(s) < Pow10(|s|)
  {
    if s != "" { ValBound(s[..|s| - 1]); }
  }

  lemma {:induction false} ZerosVal(n: nat)
    ensures AllDigits(Zeros(n)) && Val(Zeros(n)) == 0
  {
    if n > 0 {
      ZerosVal(n - 1);
      assert Zeros(n)[..n - 1] == Zeros(n - 1);
    }
  }

  lemma {:induction false} Pow10Nine()
    ensures Pow10(9) == NANOS
  {
  }

  /** Cutting or padding to nine digits takes the floor of the fraction in nanoseconds. */
  lemma {:induction false} Pad9IsFloor(f: string)
    requires AllDigits(f)
    ensures Pow10(|f|) > 0 && AllDigits(Pad9(f)) && |Pad9(f)| == 9
    ensures Val(Pad9(f)) == Val(f) * NANOS / Pow10(|f|) < NANOS
  {
    Pow10Nine();
    ValBound(f);
    if |f| > 9 { CutIsFloor(f); } else { PadIsFloor(f); }
    ValBound(Pad9(f));
  }

  lemma {:induction false} CutIsFloor(f: string)
    requires AllDigits(f) && |f| > 9
    ensures Pow10(|f|) > 0 && Val(f[..9]) == Val(f) * NANOS / Pow10(|f|)
  {
    var cut, rest := f[..9], f[9..];
    assert f == cut + rest;
    ValConcat(cut, rest);
    ValBound(rest);
    Pow10Nine();
    Pow10Add(9, |rest|);
    FloorOfScaled(Val(cut), Val(rest), Pow10(|rest|));
  }

  lemma {:induction false} PaddedVal(f: string)
    requires AllDigits(f) && |f| <= 9
    ensures AllDigits(Pad9(f)) && Val(Pad9(f)) == Val(f) * Pow10(9 - |f|)
  {
    ZerosVal(9 - |f|);
    ValConcat(f, Zeros(9 - |f|));
  }

  lemma {:induction false} NineSplit(n: nat)
    requires n <= 9
    ensures Pow10(n) > 0 && Pow10(9 - n) * Pow10(n) == NANOS
  {
    Pow10Nine();
    Pow10Add(9 - n, n);
    ZerosVal(n);
    ValBound(Zeros(n));
  }

  lemma {:induction false} PadIsFloor(f: string)
    requires AllDigits(f) && |f| <= 9
    ensures AllDigits(Pad9(f)) && Pow10(|f|) > 0 && Val(Pad9(f)) == Val(f) * NANOS / Pow10(|f|)
  {
    PaddedVal(f);
    NineSplit(|f|);
    ExactScaled(Val(f), Pow10(9 - |f|), Pow10(|f|));
  }

  lemma {:induction false} FloorOfScaled(c: nat, r: nat, p: nat)
    requires r < p
    ensures NANOS * p > 0 && (c * p + r) * NANOS / (NANOS * p) == c
  {
    var n, d := (c * p + r) * NANOS, NANOS * p;
    assert n == c * d + r * NANOS;
    DivIs(n, d, c, r * NANOS);
  }

  lemma {:induction false} ExactScaled(v: nat, k: nat, p: nat)
    requires p > 0 && k * p == NANOS
    ensures v * NANOS / p == v * k
  {
  }

  lemma {:induction false} DivIs(n: nat, d: nat, q: nat, r: nat)
    requires d > 0 && n == q * d + r && r < d
    ensures n / d == q
  {
    var q' := n / d;
    assert n == q' * d + n % d;
    if q < q' { MulMono(q + 1, q', d); } else if q' < q { MulMono(q' + 1, q, d); }
  }

  // ---- the converter is exact ----

  lemma {:induction false} FirstDot(ts: string, d: nat)
    requires d < |ts| && ts[d] == '.' && forall i :: 0 <= i < d ==> ts[i] != '.'
    ensures DotAt(ts) == d
  {
    if d > 0 { FirstDot(ts[1..], d - 1); }
  }

  lemma {:induction false} DotAfterDigits(s: string, rest: string)
    requires AllDigits(s)
    ensures SecPart(s + "." + rest) == s && FracPart(s + "." + rest) == rest
  {
    var ts := s + "." + rest;
    assert ts[|s|] == '.';
    forall i | 0 <= i < |s| ensures ts[i] != '.' { assert ts[i] == s[i] && IsDigit(s[i]); }
    FirstDot(ts, |s|);
    assert ts[..|s|] == s && ts[|s| + 1..] == rest;
  }

  lemma {:induction false} ParseDigits(s: string)
    requires AllDigits(s) && s != "" && Val(s) <= INT64_MAX
    ensures ParseInt64(s) == Some(Val(s))
  {
    assert IsDigit(s[0]);
  }

  lemma {:induction false} NineDigits(f: string)
    requires AllDigits(f)
    ensures AllDigits(Pad9(f)) && |Pad9(f)| == 9 && Val(Pad9(f)) < NANOS
  {
    ValBound(Pad9(f));
    Pow10Nine();
  }

  lemma {:induction false} FractionParsed(f: string)
    requires AllDigits(f) && f != ""
    ensures AllDigits(Pad9(f)) && ParseInt64(Pad9(f)) == Some(Val(Pad9(f))) && Val(Pad9(f)) < NANOS
  {
    NineDigits(f);
    ParseDigits(Pad9(f));
  }

  lemma {:induction false} UnixOfNanos(sec: int, nsec: int)
    requires 0 <= nsec < NANOS
    ensures Unix(sec, nsec) == Time(sec, nsec)
  {
  }

  lemma {:induction false} NoFraction()
    ensures AllDigits(Pad9("")) && Val(Pad9("")) == 0
  {
    ZerosVal(9);
    assert Pad9("") == Zeros(9);
  }

  /** The seconds and the padded fraction are parsed separately. */
  lemma {:induction false} TimeOfParts(s: string, f: string)
    requires AllDigits(s) && AllDigits(f) && s != "" && Val(s) <= INT64_MAX
    ensures AllDigits(Pad9(f)) && Val(Pad9(f)) < NANOS
    ensures TimeOf(s + "." + f) == Some(Time(Val(s), Val(Pad9(f))))
  {
    DotAfterDigits(s, f);
    ParseDigits(s);
    if f == "" { NoFraction(); } else { FractionParsed(f); }
    UnixOfNanos(Val(s), Val(Pad9(f)));
  }

  /** "s.f" is s seconds and ⌊0.f · 10^9⌋ nanoseconds, for a fraction of any length. */
  lemma {:induction false} TimeOfIsExact(s: string, f: string)
    requires AllDigits(s) && AllDigits(f) && s != "" && Val(s) <= INT64_MAX
    ensures Pow10(|f|) > 0 && 0 <= Val(f) * NANOS / Pow10(|f|) < NANOS
    ensures TimeOf(s + "." + f) == Some(Time(Val(s), Val(f) * NANOS / Pow10(|f|)))
  {
    TimeOfParts(s, f);
    Pad9IsFloor(f);
  }

  /** Carrying keeps the instant and brings the nanoseconds into range. */
  lemma {:induction false} UnixExact(sec: int, nsec: int)
    ensures var t := Unix(sec, nsec); t.sec * NANOS + t.nsec == sec * NANOS + nsec && 0 <= t.nsec < NANOS
  {
  }

  // ---- which strings are accepted, and signs ----

  function RenderNat(n: nat): string {
    if n < 10 then [('0' as int + n) as char] else RenderNat(n / 10) + [('0' as int + n % 10) as char]
  }

  /** A number in decimal, as strconv.FormatInt writes it. */
  function Render(v: int): string { if v < 0 then "-" + RenderNat(-v) else RenderNat(v) }

  lemma {:induction false} RenderNatVal(n: nat)
    ensures RenderNat(n) != "" && AllDigits(RenderNat(n)) && Val(RenderNat(n)) == n
  {
    if n < 10 {
      DigitVal(('0' as int + n) as char);
    } else {
      RenderNatVal(n / 10);
      var r := RenderNat(n);
      assert r[..|r| - 1] == RenderNat(n / 10);
    }
  }

  /** Parsing undoes printing, for exactly the numbers of int64. */
  lemma {:induction false} ParseRender(v: int)
    ensures ParseInt64(Render(v)) == if -INT64_MAX - 1 <= v <= INT64_MAX then Some(v) else None
    ensures 0 <= v <= INT64_MAX ==> ParseInt64("+" + Render(v)) == Some(v)
  {
    var digits := RenderNat(if v < 0 then -v else v);
    RenderNatVal(if v < 0 then -v else v);
    assert IsDigit(digits[0]);
    assert ("-" + digits)[1..] == digits && ("+" + digits)[1..] == digits;
    hide Val, RenderNat;
  }

  /** Only an optional sign followed by at least one digit, and nothing else, parses. */
  lemma {:induction false} ParseInt64Rejects(s: string)
    requires ParseInt64(s).Some?
    ensures s != "" && (forall i :: 1 <= i < |s| ==> IsDigit(s[i])) && (IsDigit(s[0]) || s[0] == '-' || s[0] == '+')
    ensures IsDigit(s[|s| - 1])
  {
    var digits := if s[0] == '-' || s[0] == '+' then s[1..] else s;
    assert AllDigits(digits) && digits != "";
    assert forall i :: 1 <= i < |s| ==> s[i] == digits[i - (|s| - |digits|)];
  }

  lemma {:induction false} NoDot(s: string)
    requires forall i :: 0 <= i < |s| ==> s[i] != '.'
    ensures DotAt(s) == |s|
  {
    if s != "" { NoDot(s[1..]); }
  }

  /** A whole number of seconds, of either sign, is that instant. */
  lemma {:induction false} TimeOfWhole(v: int)
    requires -INT64_MAX - 1 <= v <= INT64_MAX
    ensures TimeOf(Render(v)) == Some(Time(v, 0))
  {
    hide ParseInt64;
    var s := Render(v);
    ParseRender(v);
    RenderNatVal(if v < 0 then -v else v);
    forall i | 0 <= i < |s| ensures s[i] != '.' {
      assert IsDigit(s[i]) || s[i] == '-';
    }
    NoDot(s);
    assert s[..|s|] == s;
  }

  /** Seconds that do not parse, or a character that is no digit among the fraction's first
      nine (a leading sign excepted), are an error. */
  lemma {:induction false} TimeOfRejects(s: string, f: string)
    requires forall i :: 0 <= i < |s| ==> s[i] != '.'
    ensures ParseInt64(s).None? ==> TimeOf(s).None? && TimeOf(s + "." + f).None?
    ensures (exists i :: 1 <= i < |f| && i < 9 && !IsDigit(f[i])) ==> TimeOf(s + "." + f).None?
  {
    hide ParseInt64;
    NoDot(s);
    var ts := s + "." + f;
    assert s[..|s|] == s && ts[|s|] == '.' && forall i :: 0 <= i < |s| ==> ts[i] == s[i];
    FirstDot(ts, |s|);
    assert ts[..|s|] == s && ts[|s| + 1..] == f;
    if i :| 1 <= i < |f| && i < 9 && !IsDigit(f[i]) {
      assert Pad9(f)[i] == f[i];
      if ParseInt64(Pad9(f)).Some? { ParseInt64Rejects(Pad9(f)); }
    }
  }

  // ---- ORDER BY ts ----

  predicate LexLess(a: string, b: string) {
    if a == "" || b == "" then a == "" && b != ""
    else a[0] < b[0] || (a[0] == b[0] && LexLess(a[1..], b[1..]))
  }

  predicate Before(a: Time, b: Time) { a.sec < b.sec || (a.sec == b.sec && a.nsec < b.nsec) }

  lemma {:induction false} DigitVal(c: char)
    requires IsDigit(c)
    ensures Val([c]) == (c - '0') as int
  {
  }

  lemma {:induction false} ValHead(a: string)
    requires AllDigits(a) && a != ""
    ensures Val(a) == (a[0] - '0') as int * Pow10(|a| - 1) + Val(a[1..])
  {
    assert a == [a[0]] + a[1..];
    ValConcat([a[0]], a[1..]);
    DigitVal(a[0]);
  }

  lemma {:induction false} HeadDecides(x: nat, y: nat, p: nat, v: nat, w: nat)
    requires v < p && w < p
    ensures x * p + v < y * p + w <==> x < y || (x == y && v < w)
  {
    if x < y { MulMono(x + 1, y, p); } else if y < x { MulMono(y + 1, x, p); }
  }

  lemma {:induction false} LexIsNumeric(a: string, b: string)
    requires |a| == |b| && AllDigits(a) && AllDigits(b)
    ensures LexLess(a, b) <==> Val(a) < Val(b)
  {
    if a != "" {
      LexIsNumeric(a[1..], b[1..]);
      ValHead(a);
      ValHead(b);
      ValBound(a[1..]);
      ValBound(b[1..]);
      HeadDecides((a[0] - '0') as int, (b[0] - '0') as int, Pow10(|a| - 1), Val(a[1..]), Val(b[1..]));
    }
  }

  lemma {:induction false} LexOfPair(a: string, b: string, c: string, d: string)
    requires |a| == |c|
    ensures LexLess(a + b, c + d) <==> LexLess(a, c) || (a == c && LexLess(b, d))
  {
    if a == "" {
      assert a + b == b && c + d == d;
    } else {
      assert (a + b)[1..] == a[1..] + b && (c + d)[1..] == c[1..] + d;
      LexOfPair(a[1..], b, c[1..], d);
      assert a == [a[0]] + a[1..] && c == [c[0]] + c[1..];
    }
  }

  lemma {:induction false} LexOfTimestamp(s: string, f: string, s': string, f': string)
    requires |s| == |s'|
    ensures LexLess(s + "." + f, s' + "." + f') <==> LexLess(s, s') || (s == s' && LexLess(f, f'))
  {
    assert s + "." + f == s + ("." + f) && s' + "." + f' == s' + ("." + f');
    LexOfPair(s, "." + f, s', "." + f');
    LexOfPair(".", f, ".", f');
  }

  lemma {:induction false} LexIrreflexive(a: string)
    ensures !LexLess(a, a)
  {
    if a != "" { LexIrreflexive(a[1..]); }
  }

  lemma {:induction false} SameVal(a: string, b: string)
    requires |a| == |b| && AllDigits(a) && AllDigits(b)
    ensures Val(a) == Val(b) <==> a == b
  {
    if a != "" {
      var n := |a| - 1;
      SameVal(a[..n], b[..n]);
      assert a == a[..n] + [a[n]] && b == b[..n] + [b[n]];
    }
  }

  /** The seconds of an instant as Slack writes them: no leading zero, within int64. */
  predicate Seconds(s: string, width: nat) {
    && |s| == width > 0 && AllDigits(s) && Val(s) <= INT64_MAX && (s[0] == '0' ==> width == 1)
  }

  predicate Fraction(f: string, width: nat) { |f| == width && AllDigits(f) }

  predicate Earlier(x: string, y: string) {
    TimeOf(x).Some? && TimeOf(y).Some? && Before(TimeOf(x).value, TimeOf(y).value)
  }

  /** Whether x = "s.f" sorts before y = "s'.f'" exactly when it is earlier. */
  predicate InOrder(s: string, f: string, s': string, f': string) {
    LexLess(s + "." + f, s' + "." + f') <==> Earlier(s + "." + f, s' + "." + f')
  }

  /** Every timestamp with `a` second and `n` fraction digits sorts before one with `b` and
      `m` exactly when it is earlier. */
  ghost predicate Sorts(a: nat, n: nat, b: nat, m: nat) {
    forall s, f, s', f' :: Seconds(s, a) && Fraction(f, n) && Seconds(s', b) && Fraction(f', m) ==> InOrder(s, f, s', f')
  }

  lemma {:induction false} InOrderMeans(s: string, f: string, s': string, f': string)
    requires AllDigits(s) && AllDigits(f) && AllDigits(s') && AllDigits(f') && s != "" && s' != ""
    requires Val(s) <= INT64_MAX && Val(s') <= INT64_MAX
    ensures AllDigits(Pad9(f)) && AllDigits(Pad9(f'))
    ensures Earlier(s + "." + f, s' + "." + f') <==> Val(s) < Val(s') || (Val(s) == Val(s') && Val(Pad9(f)) < Val(Pad9(f')))
  {
    TimeOfParts(s, f);
    TimeOfParts(s', f');
  }

  lemma {:induction false} NothingBelowZeros(f: string, n: nat)
    requires AllDigits(f) && |f| == n
    ensures !LexLess(f, Zeros(n))
  {
    ZerosVal(n);
    LexIsNumeric(f, Zeros(n));
  }

  /** A fraction against one that is no longer, and not cut: padding keeps their order. */
  lemma {:induction false} LexOfShorter(f: string, f': string)
    requires AllDigits(f) && AllDigits(f') && |f'| <= |f| && |f'| <= 9
    ensures LexLess(f, f') <==> LexLess(Pad9(f), Pad9(f'))
  {
    var m := |f'|;
    var g, r, r9 := f[..m], f[m..], Pad9(f)[m..];
    NineDigits(f);
    assert f == g + r && f' == f' + "" && Pad9(f) == g + r9;
    LexOfPair(g, r, f', "");
    LexOfPair(g, r9, f', Zeros(9 - m));
    NothingBelowZeros(r9, 9 - m);
  }

  lemma {:induction false} SortsWithin(s: string, f: string, s': string, f': string)
    requires AllDigits(s) && AllDigits(f) && AllDigits(s') && AllDigits(f') && s != "" && |s| == |s'|
    requires Val(s) <= INT64_MAX && Val(s') <= INT64_MAX && |f'| <= |f| && |f'| <= 9
    ensures InOrder(s, f, s', f')
  {
    InOrderMeans(s, f, s', f');
    LexOfTimestamp(s, f, s', f');
    LexIsNumeric(s, s');
    SameVal(s, s');
    LexOfShorter(f, f');
    LexIsNumeric(Pad9(f), Pad9(f'));
  }

  /** For timestamps of one width with at most nine fraction digits, string order is
      chronological order and equal instants mean equal strings. */
  lemma {:induction false} LexOrderIsChronological(s: string, f: string, s': string, f': string)
    requires AllDigits(s) && AllDigits(f) && AllDigits(s') && AllDigits(f')
    requires |s| == |s'| && s != "" && |f| == |f'| <= 9
    requires Val(s) <= INT64_MAX && Val(s') <= INT64_MAX
    ensures TimeOf(s + "." + f).Some? && TimeOf(s' + "." + f').Some?
    ensures LexLess(s + "." + f, s' + "." + f')
       <==> Before(TimeOf(s + "." + f).value, TimeOf(s' + "." + f').value)
    ensures TimeOf(s + "." + f) == TimeOf(s' + "." + f') ==> s == s' && f == f'
  {
    SortsWithin(s, f, s', f');
    TimeOfParts(s, f);
    TimeOfParts(s', f');
    SameVal(s, s');
    SameVal(Pad9(f), Pad9(f'));
    assert f == Pad9(f)[..|f|] && f' == Pad9(f')[..|f|];
  }

  // The counterexamples.

  function Nines(n: nat): string { seq(n, _ => '9') }

  lemma {:induction false} Pow10Mono(a: nat, b: nat)
    requires a <= b
    ensures 0 < Pow10(a) <= Pow10(b)
    decreases b
  {
    if a < b { Pow10Mono(a, b - 1); } else if a > 0 { Pow10Mono(a - 1, a - 1); }
  }

  lemma {:induction false} Pow10Eighteen()
    ensures Pow10(18) <= INT64_MAX
  {
    Pow10Nine();
    Pow10Add(9, 9);
  }

  /** 10…0 and 9…9 are seconds of their width. */
  lemma {:induction false} RoundSeconds(a: nat)
    requires 1 <= a <= 19
    ensures Seconds("1" + Zeros(a - 1), a) && Val("1" + Zeros(a - 1)) == Pow10(a - 1)
    ensures a < 19 ==> Seconds(Nines(a), a) && Val(Nines(a)) < Pow10(a)
  {
    ZerosVal(a - 1);
    DigitVal('1');
    ValConcat("1", Zeros(a - 1));
    Pow10Mono(a - 1, 18);
    Pow10Eighteen();
    if a < 19 {
      ValBound(Nines(a));
      Pow10Mono(a, 18);
    }
  }

  /** Seconds whose first digits differ in the wrong direction. */
  lemma {:induction false} FirstDecides(s: string, f: string, s': string, f': string)
    requires AllDigits(s) && AllDigits(f) && AllDigits(s') && AllDigits(f') && s != "" && s' != ""
    requires Val(s) <= INT64_MAX && Val(s') <= INT64_MAX
    requires s[0] != s'[0] && (s[0] < s'[0] <==> Val(s) >= Val(s')) && Val(s) != Val(s')
    ensures !InOrder(s, f, s', f')
  {
    InOrderMeans(s, f, s', f');
    var x, y := s + "." + f, s' + "." + f';
    assert x[0] == s[0] && y[0] == s'[0];
  }

  /** More second digits: 9…9 sorts after 10…0, whichever of the two widths comes first. */
  lemma {:induction false} SecondsOfTwoWidths(a: nat, n: nat, b: nat, m: nat)
    requires 1 <= a <= 19 && 1 <= b <= 19 && a != b
    ensures !Sorts(a, n, b, m)
  {
    hide Val, Pow10, InOrder, AllDigits;
    var s := if a < b then Nines(a) else "1" + Zeros(a - 1);
    var s' := if a < b then "1" + Zeros(b - 1) else Nines(b);
    RoundSeconds(a);
    RoundSeconds(b);
    if a < b { Pow10Mono(a, b - 1); } else { Pow10Mono(b, a - 1); }
    ZerosVal(n);
    ZerosVal(m);
    FirstDecides(s, Zeros(n), s', Zeros(m));
    assert Fraction(Zeros(n), n) && Fraction(Zeros(m), m);
  }

  /** 0…01: beyond nine digits the last one is cut, so it tells strings but not instants apart. */
  function Tail(m: nat): string
    requires m > 0
  {
    Zeros(m - 1) + "1"
  }

  /** The second is the same instant but sorts later: it is longer, or cut. */
  lemma {:induction false} SameInstantSorts(a: nat, n: nat, m: nat)
    requires 1 <= a <= 19 && (n < m || 9 < m)
    ensures !Sorts(a, n, a, m)
  {
    var s := "1" + Zeros(a - 1);
    var f, f' := Zeros(n), if n < m then Zeros(m) else Tail(m);
    RoundSeconds(a);
    ZerosVal(n);
    ZerosVal(m);
    if n < m { ZerosBelow(n, m); } else { CutTail(n, m); }
    InOrderMeans(s, f, s, f');
    PadZeros(n);
    if n < m { PadZeros(m); }
    LexOfTimestamp(s, f, s, f');
    LexIrreflexive(s);
    assert !InOrder(s, f, s, f');
  }

  lemma {:induction false} PadZeros(n: nat)
    ensures Pad9(Zeros(n)) == Zeros(9)
  {
  }

  lemma {:induction false} ZerosBelow(n: nat, m: nat)
    requires n < m
    ensures LexLess(Zeros(n), Zeros(m))
  {
    if n > 0 {
      ZerosBelow(n - 1, m - 1);
      assert Zeros(n)[1..] == Zeros(n - 1) && Zeros(m)[1..] == Zeros(m - 1);
    }
  }

  lemma {:induction false} CutTail(n: nat, m: nat)
    requires 9 < m <= n
    ensures AllDigits(Tail(m)) && LexLess(Zeros(n), Tail(m)) && Pad9(Tail(m)) == Zeros(9)
  {
    var r := Zeros(n - m + 1);
    assert Zeros(n) == Zeros(m - 1) + r;
    LexOfPair(Zeros(m - 1), r, Zeros(m - 1), "1");
    assert r[0] == '0' && "1"[0] == '1';
  }

  /** Timestamps of one kind sort before those of another exactly when they are earlier if and
      only if both have equally many second digits and the second kind has no more fraction
      digits than the first, and at most nine. */
  lemma {:induction false} SortsExact(a: nat, n: nat, b: nat, m: nat)
    requires 1 <= a <= 19 && 1 <= b <= 19
    ensures Sorts(a, n, b, m) <==> a == b && m <= n && m <= 9
  {
    if a != b {
      SecondsOfTwoWidths(a, n, b, m);
    } else if n < m || 9 < m {
      SameInstantSorts(a, n, m);
    } else {
      forall s, f, s', f' | Seconds(s, a) && Fraction(f, n) && Seconds(s', b) && Fraction(f', m) ensures InOrder(s, f, s', f') {
        SortsWithin(s, f, s', f');
      }
    }
  }

  /** `ORDER BY ts` over timestamps of two kinds is chronological exactly when the kinds
      agree in both widths and have at most nine fraction digits. */
  lemma {:induction false} OrderByTsExact(a: nat, n: nat, b: nat, m: nat)
    requires 1 <= a <= 19 && 1 <= b <= 19
    ensures Sorts(a, n, b, m) && Sorts(b, m, a, n) <==> a == b && n == m <= 9
  {
    SortsExact(a, n, b, m);
    SortsExact(b, m, a, n);
  }
}
