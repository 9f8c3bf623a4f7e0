/** RFC3339Nano timestamps as the session table stores them: fixed-width date
    and time, a fraction without trailing zeros, a zone. Instants are
    nanoseconds on the wall clock of one fixed offset, from the start of year 0. */
module Stamps {
  import opened Common
  import opened Text

  const SECOND: nat := 1_000_000_000
  const DAY: nat := 86400

  // ----- the calendar

  predicate Leap(y: nat) { y % 4 == 0 && (y % 100 != 0 || y % 400 == 0) }

  function YearDays(y: nat): nat { if Leap(y) then 366 else 365 }

  function MonthDays(y: nat, m: nat): (n: nat)
    requires 1 <= m <= 12
    ensures 28 <= n <= 31
  {
    if m == 2 then (if Leap(y) then 29 else 28)
    else if m == 4 || m == 6 || m == 9 || m == 11 then 30
    else 31
  }

  /** The year holding day `d`, counted from the start of year `y`, and the day within it. */
  function YearFrom(y: nat, d: nat): (r: (nat, nat))
    ensures r.0 >= y && r.1 < YearDays(r.0)
    decreases d
  {
    if d < YearDays(y) then (y, d) else YearFrom(y + 1, d - YearDays(y))
  }

  function MonthFrom(y: nat, m: nat, d: nat): (r: (nat, nat))
    requires 1 <= m <= 12
    ensures m <= r.0 <= 12
    decreases 12 - m
  {
    if m == 12 || d < MonthDays(y, m) then (m, d) else MonthFrom(y, m + 1, d - MonthDays(y, m))
  }

  /** Year, month and day of month. */
  function DateOf(day: nat): seq<nat> {
    var (y, d) := YearFrom(0, day);
    var (m, dom) := MonthFrom(y, 1, d);
    [y, m, dom + 1]
  }

  function ClockOf(s: nat): seq<nat> { [s / 3600, s / 60 % 60, s % 60] }

  /** Instants whose year is written with four digits. */
  predicate FourDigitYear(t: nat) { YearFrom(0, t / SECOND / DAY).0 <= 9999 }

  type Instant = t: nat | FourDigitYear(t)

  // ----- the text

  datatype Zone = Utc | Offset(negative: bool, hours: nat, minutes: nat)

  function ZoneText(z: Zone): (s: string)
    ensures s != [] && !IsDigit(s[0]) && s[0] != '.'
  {
    match z
    case Utc => "Z"
    case Offset(negative, h, m) => [if negative then '-' else '+'] + Pad(h, 2) + ":" + Pad(m, 2)
  }

  function TrimZeros(s: string): string {
    if s != [] && s[|s| - 1] == '0' then TrimZeros(s[..|s| - 1]) else s
  }

  function Fraction(nanos: nat): string {
    var digits := TrimZeros(Pad(nanos, 9));
    if digits == [] then [] else "." + digits
  }

  datatype FieldShape = FieldShape(width: nat, sep: string)

  const SHAPES: seq<FieldShape> := [
    FieldShape(4, "-"), FieldShape(2, "-"), FieldShape(2, "T"),
    FieldShape(2, ":"), FieldShape(2, ":"), FieldShape(2, "")]

  function Render(values: seq<nat>, shapes: seq<FieldShape>): string
    requires |values| == |shapes|
  {
    if values == [] then [] else Pad(values[0], shapes[0].width) + shapes[0].sep + Render(values[1..], shapes[1..])
  }

  function FieldsOf(seconds: nat): (v: seq<nat>)
    ensures |v| == 6
  {
    DateOf(seconds / DAY) + ClockOf(seconds % DAY)
  }

  function Format(t: nat, z: Zone): string {
    Render(FieldsOf(t / SECOND), SHAPES) + Fraction(t % SECOND) + ZoneText(z)
  }

  // ----- whole seconds: text order is time order

  predicate LexLess(a: seq<nat>, b: seq<nat>) {
    a != [] && b != [] && (a[0] < b[0] || (a[0] == b[0] && LexLess(a[1..], b[1..])))
  }

  lemma {:induction false} YearOrder(y: nat, d: nat, e: nat)
    requires d < e
    ensures var a, b := YearFrom(y, d), YearFrom(y, e); a.0 < b.0 || (a.0 == b.0 && a.1 < b.1)
    decreases d
  {
    if d >= YearDays(y) {
      YearOrder(y + 1, d - YearDays(y), e - YearDays(y));
    }
  }

  lemma {:induction false} MonthOrder(y: nat, m: nat, d: nat, e: nat)
    requires 1 <= m <= 12 && d < e
    ensures var a, b := MonthFrom(y, m, d), MonthFrom(y, m, e); a.0 < b.0 || (a.0 == b.0 && a.1 < b.1)
    decreases 12 - m
  {
    if m < 12 && d >= MonthDays(y, m) {
      MonthOrder(y, m + 1, d - MonthDays(y, m), e - MonthDays(y, m));
    }
  }

  /** The days of the months from `m` to the end of the year. */
  function DaysLeft(y: nat, m: nat): nat
    requires 1 <= m <= 13
    decreases 13 - m
  {
    if m == 13 then 0 else MonthDays(y, m) + DaysLeft(y, m + 1)
  }

  lemma YearHasTwelveMonths(y: nat)
    ensures DaysLeft(y, 1) == YearDays(y)
  {
    assert DaysLeft(y, 10) == 92;
    assert DaysLeft(y, 7) == 184;
    assert DaysLeft(y, 4) == 275;
  }

  lemma {:induction false} DayOfMonthRange(y: nat, m: nat, d: nat)
    requires 1 <= m <= 12 && d < DaysLeft(y, m)
    ensures var r := MonthFrom(y, m, d); r.1 < MonthDays(y, r.0)
    decreases 12 - m
  {
    if m < 12 && d >= MonthDays(y, m) {
      DayOfMonthRange(y, m + 1, d - MonthDays(y, m));
    } else if m == 12 {
      assert DaysLeft(y, 13) == 0;
    }
  }

  lemma DateOrder(d: nat, e: nat, x: seq<nat>, y: seq<nat>)
    requires d < e
    ensures LexLess(DateOf(d) + x, DateOf(e) + y)
  {
    var (y1, d1) := YearFrom(0, d);
    var (y2, d2) := YearFrom(0, e);
    YearOrder(0, d, e);
    if y1 == y2 {
      MonthOrder(y1, 1, d1, d2);
    }
    Unfold3(DateOf(d), x, DateOf(e), y);
  }

  lemma Unfold3(a: seq<nat>, x: seq<nat>, b: seq<nat>, y: seq<nat>)
    requires |a| == |b| == 3
    requires a[0] < b[0] || (a[0] == b[0] && (a[1] < b[1] || (a[1] == b[1] && a[2] < b[2])))
    ensures LexLess(a + x, b + y)
  {
    var u, v := a + x, b + y;
    assert u[1..][0] == a[1] && v[1..][0] == b[1];
    assert u[1..][1..][0] == a[2] && v[1..][1..][0] == b[2];
    assert a[2] < b[2] ==> LexLess(u[1..][1..], v[1..][1..]);
  }

  lemma {:induction false} LexAfterPrefix(p: seq<nat>, a: seq<nat>, b: seq<nat>)
    requires LexLess(a, b)
    ensures LexLess(p + a, p + b)
  {
    if p == [] {
      assert p + a == a && p + b == b;
    } else {
      assert (p + a)[1..] == p[1..] + a && (p + b)[1..] == p[1..] + b;
      LexAfterPrefix(p[1..], a, b);
    }
  }

  lemma ClockOrder(s: nat, t: nat)
    requires s < t
    ensures LexLess(ClockOf(s), ClockOf(t))
  {
    var a, b := ClockOf(s), ClockOf(t);
    HourMinuteSecond(s);
    HourMinuteSecond(t);
    Unfold3(a, [], b, []);
    assert a + [] == a && b + [] == b;
  }

  lemma HourMinuteSecond(s: nat)
    ensures s == 3600 * (s / 3600) + 60 * (s / 60 % 60) + s % 60
    ensures s / 60 % 60 < 60 && s % 60 < 60
  {
    assert s / 60 / 60 == s / 3600;
  }

  lemma FieldsOrder(s: nat, t: nat)
    requires s < t
    ensures LexLess(FieldsOf(s), FieldsOf(t))
  {
    if s / DAY < t / DAY {
      DateOrder(s / DAY, t / DAY, ClockOf(s % DAY), ClockOf(t % DAY));
    } else {
      ClockOrder(s % DAY, t % DAY);
      LexAfterPrefix(DateOf(s / DAY), ClockOf(s % DAY), ClockOf(t % DAY));
    }
  }

  ghost predicate Fits(values: seq<nat>, shapes: seq<FieldShape>) {
    |values| == |shapes| && forall i :: 0 <= i < |values| ==> values[i] < Pow10(shapes[i].width)
  }

  lemma RenderStep(a: seq<nat>, shapes: seq<FieldShape>, x: string)
    requires |a| == |shapes| > 0
    ensures Render(a, shapes) + x
            == Pad(a[0], shapes[0].width) + (shapes[0].sep + (Render(a[1..], shapes[1..]) + x))
  {
    var p, q, r := Pad(a[0], shapes[0].width), shapes[0].sep, Render(a[1..], shapes[1..]);
    Regroup(p + q, r, x);
    Regroup(p, q, r + x);
  }

  lemma {:induction false} RenderLess(a: seq<nat>, b: seq<nat>, shapes: seq<FieldShape>, x: string, y: string)
    requires Fits(a, shapes) && Fits(b, shapes) && LexLess(a, b)
    ensures Less(Render(a, shapes) + x, Render(b, shapes) + y)
    decreases |a|
  {
    var w, sep := shapes[0].width, shapes[0].sep;
    var p, q := Render(a[1..], shapes[1..]) + x, Render(b[1..], shapes[1..]) + y;
    RenderStep(a, shapes, x);
    RenderStep(b, shapes, y);
    if a[0] < b[0] {
      PadLess(a[0], b[0], w, sep + p, sep + q);
    } else {
      RenderLess(a[1..], b[1..], shapes[1..], x, y);
      LessAfterPrefix(sep, p, q);
      LessAfterPrefix(Pad(a[0], w), sep + p, sep + q);
    }
  }

  lemma DateFits(day: nat)
    requires YearFrom(0, day).0 <= 9999
    ensures var v := DateOf(day); v[0] <= 9999 && v[1] <= 12 && v[2] <= 31
  {
    var (y, d) := YearFrom(0, day);
    YearHasTwelveMonths(y);
    DayOfMonthRange(y, 1, d);
  }

  lemma ClockFits(s: nat)
    requires s < DAY
    ensures var v := ClockOf(s); v[0] < 24 && v[1] < 60 && v[2] < 60
  {}

  lemma WidthsFit(v: seq<nat>)
    requires |v| == 6 && v[0] <= 9999 && forall i :: 1 <= i < 6 ==> v[i] < 100
    ensures Fits(v, SHAPES)
  {
    assert Pow10(1) == 10 && Pow10(2) == 100 && Pow10(3) == 1000 && Pow10(4) == 10000;
    forall i | 0 <= i < 6 ensures v[i] < Pow10(SHAPES[i].width) {
      assert i > 0 ==> SHAPES[i].width == 2;
    }
  }

  lemma FieldsFit(t: Instant)
    ensures Fits(FieldsOf(t / SECOND), SHAPES)
  {
    var day, clock := t / SECOND / DAY, t / SECOND % DAY;
    assert FourDigitYear(t);
    DateFits(day);
    ClockFits(clock);
    var a, b := DateOf(day), ClockOf(clock);
    var v := a + b;
    assert v[0] == a[0] && v[1] == a[1] && v[2] == a[2] && v[3] == b[0] && v[4] == b[1] && v[5] == b[2];
    WidthsFit(v);
  }

  // ----- fractions

  lemma {:induction false} TrimOfDigits(s: string)
    ensures TrimZeros(s) <= s
    ensures forall i :: |TrimZeros(s)| <= i < |s| ==> s[i] == '0'
    ensures TrimZeros(s) == [] || TrimZeros(s)[|TrimZeros(s)| - 1] != '0'
  {
    if s != [] && s[|s| - 1] == '0' {
      TrimOfDigits(s[..|s| - 1]);
    }
  }

  /** Trimming trailing zeros keeps the order of equally long digit strings. */
  lemma {:induction false} TrimKeepsOrder(s: string, u: string, a: string, b: string)
    requires |s| == |u| && a <= s && b <= u
    requires forall i :: |a| <= i < |s| ==> s[i] == '0'
    requires forall i :: |b| <= i < |u| ==> u[i] == '0'
    requires forall i :: 0 <= i < |s| ==> IsDigit(s[i]) && IsDigit(u[i])
    requires (a == [] || a[|a| - 1] != '0') && (b == [] || b[|b| - 1] != '0')
    ensures Less(a, b) <==> Less(s, u)
  {
    if s != [] && a != [] && b != [] {
      TrimKeepsOrder(s[1..], u[1..], a[1..], b[1..]);
    } else if a == [] && b != [] {
      ZerosLess(s, u, |b| - 1);
    } else if b == [] {
      NothingBelowZeros(s, u);
    }
  }

  lemma {:induction false} ZerosLess(s: string, u: string, k: nat)
    requires |s| == |u| && k < |u| && u[k] != '0'
    requires forall i :: 0 <= i < |s| ==> s[i] == '0' && IsDigit(u[i])
    ensures Less(s, u)
  {
    if u[0] == '0' {
      ZerosLess(s[1..], u[1..], k - 1);
    }
  }

  lemma {:induction false} NothingBelowZeros(s: string, u: string)
    requires |s| == |u| && forall i :: 0 <= i < |s| ==> IsDigit(s[i]) && u[i] == '0'
    ensures !Less(s, u)
  {
    if s != [] {
      NothingBelowZeros(s[1..], u[1..]);
    }
  }

  lemma FractionOrder(m: nat, n: nat)
    requires m < SECOND && n < SECOND
    ensures m < n <==> Less(Fraction(m), Fraction(n))
    ensures m == n <==> Fraction(m) == Fraction(n)
  {
    var s, u := Pad(m, 9), Pad(n, 9);
    var a, b := TrimZeros(s), TrimZeros(u);
    TrimOfDigits(s);
    TrimOfDigits(u);
    TrimKeepsOrder(s, u, a, b);
    TrimKeepsOrder(u, s, b, a);
    assert Pow10(9) == SECOND;
    if m < n {
      PadLess(m, n, 9, [], []);
    } else if n < m {
      PadLess(n, m, 9, [], []);
    }
    assert s + [] == s && u + [] == u;
    LessTotal(s, u);
    LessTotal(a, b);
    LessAfterPrefix(".", a, b);
  }

  // ----- the zone decides when one fraction extends the other

  lemma {:induction false} SuffixOrder(x: string, y: string, z: string)
    requires z != []
    ensures x < y && z[0] != y[|x|] ==> (Less(x + z, y + z) <==> z[0] < y[|x|])
    ensures !(x <= y) && !(y <= x) ==> (Less(x + z, y + z) <==> Less(x, y))
  {
    if x != [] && y != [] && x[0] == y[0] {
      assert (x + z)[1..] == x[1..] + z && (y + z)[1..] == y[1..] + z;
      SuffixOrder(x[1..], y[1..], z);
      assert x[1..] <= y[1..] <==> x <= y;
      assert y[1..] <= x[1..] <==> y <= x;
    }
  }

  /** Text order and time order disagree: the zone is UTC, the whole seconds
      are equal, and one fraction (without its trailing zeros) extends the other. */
  ghost predicate Flipped(s: nat, t: nat, z: Zone) {
    var f, g := Fraction(s % SECOND), Fraction(t % SECOND);
    z.Utc? && s / SECOND == t / SECOND && (f < g || g < f)
  }

  lemma FractionChars(n: nat, i: nat)
    requires n < SECOND && i < |Fraction(n)|
    ensures Fraction(n)[i] == '.' || IsDigit(Fraction(n)[i])
  {
    TrimOfDigits(Pad(n, 9));
  }

  lemma SameSecondOrder(m: nat, n: nat, z: Zone)
    requires m < n < SECOND
    ensures var f, g := Fraction(m), Fraction(n);
            Less(f + ZoneText(z), g + ZoneText(z)) <==> !(z.Utc? && f < g)
    ensures Less(Fraction(n) + ZoneText(z), Fraction(m) + ZoneText(z)) <==> z.Utc? && Fraction(m) < Fraction(n)
    ensures !(Fraction(n) <= Fraction(m))
  {
    var f, g, zone := Fraction(m), Fraction(n), ZoneText(z);
    FractionOrder(m, n);
    if g <= f {
      PrefixNotAbove(g, f);
    }
    LessTotal(f, g);
    SuffixOrder(f, g, zone);
    LessTotal(f + zone, g + zone);
    if f < g {
      FractionChars(n, |f|);
      assert f + zone != g + zone by {
        assert (f + zone)[|f|] == zone[0] && (g + zone)[|f|] == g[|f|];
      }
    }
  }

  lemma {:induction false} PrefixNotAbove(a: string, b: string)
    requires a <= b
    ensures !Less(b, a)
  {
    if a != [] {
      PrefixNotAbove(a[1..], b[1..]);
    }
  }

  lemma FormatParts(t: nat, z: Zone)
    ensures Format(t, z) == Render(FieldsOf(t / SECOND), SHAPES) + (Fraction(t % SECOND) + ZoneText(z))
  {}

  lemma EarlierSecond(s: Instant, t: Instant, z: Zone)
    requires s / SECOND < t / SECOND
    ensures Less(Format(s, z), Format(t, z))
  {
    var a, b := FieldsOf(s / SECOND), FieldsOf(t / SECOND);
    FieldsOrder(s / SECOND, t / SECOND);
    FieldsFit(s);
    FieldsFit(t);
    FormatParts(s, z);
    FormatParts(t, z);
    RenderLess(a, b, SHAPES, Fraction(s % SECOND) + ZoneText(z), Fraction(t % SECOND) + ZoneText(z));
  }

  lemma SameSecond(s: Instant, t: Instant, z: Zone)
    requires s / SECOND == t / SECOND && s < t
    ensures Less(Format(s, z), Format(t, z)) <==> !Flipped(s, t, z)
    ensures Less(Format(t, z), Format(s, z)) <==> Flipped(s, t, z)
  {
    var m, n := s % SECOND, t % SECOND;
    assert m < n;
    var r := Render(FieldsOf(s / SECOND), SHAPES);
    var x, y := Fraction(m) + ZoneText(z), Fraction(n) + ZoneText(z);
    assert Format(s, z) == r + x && Format(t, z) == r + y;
    SameSecondOrder(m, n, z);
    LessAfterPrefix(r, x, y);
    LessAfterPrefix(r, y, x);
  }

  /** Text order is time order, except exactly where it is flipped. */
  lemma TextOrder(s: Instant, t: Instant, z: Zone)
    requires s < t
    ensures Less(Format(s, z), Format(t, z)) <==> !Flipped(s, t, z)
    ensures Less(Format(t, z), Format(s, z)) <==> Flipped(s, t, z)
  {
    if s / SECOND < t / SECOND {
      EarlierSecond(s, t, z);
      LessTotal(Format(s, z), Format(t, z));
    } else {
      SameSecond(s, t, z);
    }
  }

  /** The disagreement is real: in UTC, half a second past a whole second
      sorts before it. With a numeric offset it never happens. */
  lemma FlipIsReachable()
    ensures Flipped(0, 500_000_000, Utc)
    ensures forall s: nat, t: nat, z: Zone :: z.Offset? ==> !Flipped(s, t, z)
  {
    PadOfZero(9);
    TrimOfDigits(Pad(0, 9));
    FractionOrder(0, 500_000_000);
  }

  lemma HalfASecond(t: nat)
    requires t % SECOND == 0
    ensures (t + SECOND / 2) % SECOND == 500_000_000 && (t + SECOND / 2) / SECOND == t / SECOND
  {}

  /** In UTC half a second past a whole second sorts before it. */
  lemma HalfSecondFlips(t: nat)
    requires t % SECOND == 0
    ensures Flipped(t + SECOND / 2, t, Utc)
  {
    HalfASecond(t);
    FlipIsReachable();
  }

  lemma {:induction false} PadOfZero(w: nat)
    ensures forall i :: 0 <= i < w ==> Pad(0, w)[i] == '0'
  {
    if w > 0 {
      PadOfZero(w - 1);
    }
  }

  // ----- reading a timestamp back

  function DaysSince(y0: nat, y: nat): nat
    decreases y - y0
  {
    if y0 >= y then 0 else YearDays(y0) + DaysSince(y0 + 1, y)
  }

  function MonthsSince(y: nat, m0: nat, m: nat): nat
    requires 1 <= m0 && m <= 12
    decreases m - m0
  {
    if m0 >= m then 0 else MonthDays(y, m0) + MonthsSince(y, m0 + 1, m)
  }

  predicate AllDigits(s: string) { forall i :: 0 <= i < |s| ==> IsDigit(s[i]) }

  function ParseFields(s: string, shapes: seq<FieldShape>): Option<(seq<nat>, string)>
    decreases |shapes|, |s|
  {
    if shapes == [] then Some(([], s))
    else
      var w, sep := shapes[0].width, shapes[0].sep;
      if |s| < w + |sep| || !AllDigits(s[..w]) || s[w..w + |sep|] != sep then None
      else
        match ParseFields(s[w + |sep|..], shapes[1..])
        case None => None
        case Some((values, rest)) => Some(([Number(s[..w])] + values, rest))
  }

  function DigitRun(s: string): (n: nat)
    ensures n <= |s| && AllDigits(s[..n])
    ensures n < |s| ==> !IsDigit(s[n])
  {
    if s == [] || !IsDigit(s[0]) then 0 else 1 + DigitRun(s[1..])
  }

  /** The nanoseconds a run of fraction digits stands for; digits past the ninth are dropped. */
  function Nanos(digits: string): nat
    requires AllDigits(digits)
  {
    if |digits| <= 9 then Number(digits) * Pow10(9 - |digits|) else Number(digits[..9])
  }

  /** The nanoseconds after the whole seconds, and the text behind them. */
  function ParseFraction(s: string): (nat, string) {
    if s == [] || s[0] != '.' then (0, s)
    else
      var n := DigitRun(s[1..]);
      (Nanos(s[1..][..n]), s[1..][n..])
  }

  predicate InRange(v: seq<nat>) {
    |v| == 6 && 1 <= v[1] <= 12 && 1 <= v[2] <= MonthDays(v[0], v[1]) && v[3] < 24 && v[4] < 60 && v[5] < 60
  }

  function Seconds(v: seq<nat>): nat
    requires InRange(v)
  {
    (DaysSince(0, v[0]) + MonthsSince(v[0], 1, v[1]) + v[2] - 1) * DAY + v[3] * 3600 + v[4] * 60 + v[5]
  }

  function Parse(s: string, z: Zone): Option<nat> {
    match ParseFields(s, SHAPES)
    case None => None
    case Some((v, rest)) =>
      var (nanos, zone) := ParseFraction(rest);
      if InRange(v) && zone == ZoneText(z) then Some(Seconds(v) * SECOND + nanos) else None
  }

  lemma {:induction false} ParseRendered(values: seq<nat>, shapes: seq<FieldShape>, rest: string)
    requires Fits(values, shapes)
    ensures ParseFields(Render(values, shapes) + rest, shapes) == Some((values, rest))
    decreases |shapes|
  {
    var s := Render(values, shapes) + rest;
    if values == [] {
      assert s == rest;
    } else {
      var w, sep := shapes[0].width, shapes[0].sep;
      var more := Render(values[1..], shapes[1..]) + rest;
      assert s == Pad(values[0], w) + sep + more;
      assert s[..w] == Pad(values[0], w) && s[w..w + |sep|] == sep && s[w + |sep|..] == more;
      NumberOfPad(values[0], w);
      ParseRendered(values[1..], shapes[1..], rest);
      assert [values[0]] + values[1..] == values;
    }
  }

  lemma {:induction false} YearFromSum(y: nat, d: nat)
    ensures var r := YearFrom(y, d); d == DaysSince(y, r.0) + r.1
    decreases d
  {
    if d >= YearDays(y) {
      YearFromSum(y + 1, d - YearDays(y));
    }
  }

  lemma {:induction false} MonthFromSum(y: nat, m: nat, d: nat)
    requires 1 <= m <= 12
    ensures var r := MonthFrom(y, m, d); d == MonthsSince(y, m, r.0) + r.1
    decreases 12 - m
  {
    if m < 12 && d >= MonthDays(y, m) {
      MonthFromSum(y, m + 1, d - MonthDays(y, m));
    }
  }

  lemma {:induction false} DigitRunIs(a: string, rest: string)
    requires AllDigits(a) && (rest == [] || !IsDigit(rest[0]))
    ensures DigitRun(a + rest) == |a|
  {
    if a != [] {
      assert (a + rest)[1..] == a[1..] + rest;
      DigitRunIs(a[1..], rest);
    }
  }

  lemma {:induction false} NumberWithZeros(s: string, n: nat)
    requires AllDigits(s) && n <= |s| && forall i :: n <= i < |s| ==> s[i] == '0'
    ensures Number(s) == Number(s[..n]) * Pow10(|s| - n)
    decreases |s|
  {
    if n < |s| {
      var front := s[..|s| - 1];
      NumberWithZeros(front, n);
      assert front[..n] == s[..n];
      assert Number(s) == 10 * Number(front);
    } else {
      assert s[..n] == s;
    }
  }

  lemma TrimmedNumber(n: nat)
    requires n < SECOND
    ensures var a := TrimZeros(Pad(n, 9));
            |a| <= 9 && AllDigits(a) && Nanos(a) == n
  {
    var digits := Pad(n, 9);
    var a := TrimZeros(digits);
    TrimOfDigits(digits);
    assert a == digits[..|a|];
    NumberWithZeros(digits, |a|);
    assert Pow10(9) == SECOND;
    NumberOfPad(n, 9);
  }

  lemma ReadsDigits(a: string, zone: string)
    requires AllDigits(a) && zone != [] && !IsDigit(zone[0])
    ensures ParseFraction("." + a + zone) == (Nanos(a), zone)
  {
    var s := "." + a + zone;
    assert s[1..] == a + zone;
    DigitRunIs(a, zone);
    assert (a + zone)[..|a|] == a && (a + zone)[|a|..] == zone;
  }

  lemma FractionRoundTrip(n: nat, z: Zone)
    requires n < SECOND
    ensures ParseFraction(Fraction(n) + ZoneText(z)) == (n, ZoneText(z))
  {
    var a := TrimZeros(Pad(n, 9));
    TrimmedNumber(n);
    ReadsDigits(a, ZoneText(z));
    if a == [] {
      assert [] + ZoneText(z) == ZoneText(z);
      assert Nanos([]) == 0;
    }
  }

  lemma ParseFrom(s: string, z: Zone, v: seq<nat>, rest: string, t: nat)
    requires ParseFields(s, SHAPES) == Some((v, rest)) && ParseFraction(rest) == (t % SECOND, ZoneText(z))
    requires InRange(v) && Seconds(v) == t / SECOND
    ensures Parse(s, z) == Some(t)
  {}

  lemma FieldsReadBack(t: Instant, rest: string)
    ensures var v := FieldsOf(t / SECOND); ParseFields(Render(v, SHAPES) + rest, SHAPES) == Some((v, rest))
  {
    FieldsFit(t);
    ParseRendered(FieldsOf(t / SECOND), SHAPES, rest);
  }

  lemma ReadsText(t: Instant, z: Zone, s: string)
    requires s == Render(FieldsOf(t / SECOND), SHAPES) + (Fraction(t % SECOND) + ZoneText(z))
    ensures Parse(s, z) == Some(t)
  {
    var tail := Fraction(t % SECOND) + ZoneText(z);
    FieldsReadBack(t, tail);
    FractionRoundTrip(t % SECOND, z);
    FieldsSum(t / SECOND);
    ParseFrom(s, z, FieldsOf(t / SECOND), tail, t);
  }

  /** A stored timestamp reads back as the instant that was written. */
  lemma StampRoundTrip(t: Instant, z: Zone)
    ensures Parse(Format(t, z), z) == Some(t)
  {
    FormatParts(t, z);
    ReadsText(t, z, Format(t, z));
  }

  lemma FieldsSum(seconds: nat)
    ensures InRange(FieldsOf(seconds)) && Seconds(FieldsOf(seconds)) == seconds
  {
    var v, day := FieldsOf(seconds), seconds / DAY;
    var (y, d) := YearFrom(0, day);
    YearFromSum(0, day);
    MonthFromSum(y, 1, d);
    YearHasTwelveMonths(y);
    DayOfMonthRange(y, 1, d);
    ClockSum(seconds % DAY);
    assert DaysSince(0, v[0]) + MonthsSince(v[0], 1, v[1]) + v[2] - 1 == day;
  }

  lemma ClockSum(s: nat)
    requires s < DAY
    ensures ClockOf(s)[0] * 3600 + ClockOf(s)[1] * 60 + ClockOf(s)[2] == s && ClockOf(s)[0] < 24
  {}

  // ----- the format in terms of the Gregorian calendar

  lemma {:induction false} DaysUpTo(y0: nat, y: nat)
    requires y0 <= y
    ensures DaysSince(y0, y + 1) == DaysSince(y0, y) + YearDays(y)
    decreases y - y0
  {
    if y0 < y {
      DaysUpTo(y0 + 1, y);
    } else {
      assert DaysSince(y0 + 1, y + 1) == 0;
    }
  }

  lemma NextFourth(n: nat)
    ensures (n + 4) / 4 == (n + 3) / 4 + (if n % 4 == 0 then 1 else 0)
  {}

  lemma NextHundredth(n: nat)
    ensures (n + 100) / 100 == (n + 99) / 100 + (if n % 100 == 0 then 1 else 0)
  {}

  lemma NextFourHundredth(n: nat)
    ensures (n + 400) / 400 == (n + 399) / 400 + (if n % 400 == 0 then 1 else 0)
  {}

  lemma LeapRules(n: nat)
    ensures n % 400 == 0 ==> n % 100 == 0
    ensures n % 100 == 0 ==> n % 4 == 0
  {
    if n % 400 == 0 {
      var q := n / 400;
      assert n == 100 * (4 * q);
    }
    if n % 100 == 0 {
      var q := n / 100;
      assert n == 4 * (25 * q);
    }
  }

  /** The days before year `y`: the three leap-year rules counted at once. */
  lemma {:induction false} GregorianDays(y: nat)
    ensures DaysSince(0, y) == 365 * y + (y + 3) / 4 - (y + 99) / 100 + (y + 399) / 400
  {
    if y > 0 {
      var n := y - 1;
      GregorianDays(n);
      DaysUpTo(0, n);
      NextFourth(n);
      NextHundredth(n);
      NextFourHundredth(n);
      LeapRules(n);
      assert y + 3 == n + 4 && y + 99 == n + 100 && y + 399 == n + 400;
    }
  }

  const MONTH_STARTS: seq<nat> := [0, 31, 59, 90, 120, 151, 181, 212, 243, 273, 304, 334]

  lemma {:induction false} MonthsUpTo(y: nat, m0: nat, m: nat)
    requires 1 <= m0 <= m < 12
    ensures MonthsSince(y, m0, m + 1) == MonthsSince(y, m0, m) + MonthDays(y, m)
    decreases m - m0
  {
    if m0 < m {
      MonthsUpTo(y, m0 + 1, m);
    } else {
      assert MonthsSince(y, m0 + 1, m + 1) == 0;
    }
  }

  /** The days before month `m` of year `y`. */
  lemma {:induction false} MonthStart(y: nat, m: nat)
    requires 1 <= m <= 12
    ensures MonthsSince(y, 1, m) == MONTH_STARTS[m - 1]
              + (if m > 2 && y % 4 == 0 && (y % 100 != 0 || y % 400 == 0) then 1 else 0)
  {
    if m > 1 {
      MonthStart(y, m - 1);
      MonthsUpTo(y, 1, m - 1);
    }
  }

  /** The second of the calendar date and clock time. */
  function CivilSecond(y: nat, m: nat, d: nat, hour: nat, minute: nat, second: nat): int
    requires 1 <= m <= 12
  {
    var leap := if m > 2 && y % 4 == 0 && (y % 100 != 0 || y % 400 == 0) then 1 else 0;
    var days := 365 * y + (y + 3) / 4 - (y + 99) / 100 + (y + 399) / 400 + MONTH_STARTS[m - 1] + leap + d - 1;
    days * 86400 + hour * 3600 + minute * 60 + second
  }

  lemma FieldsAreCivil(seconds: nat)
    ensures var v := FieldsOf(seconds);
            && 1 <= v[1] <= 12 && 1 <= v[2] <= 31 && v[3] < 24 && v[4] < 60 && v[5] < 60
            && seconds == CivilSecond(v[0], v[1], v[2], v[3], v[4], v[5])
  {
    var v := FieldsOf(seconds);
    FieldsSum(seconds);
    GregorianDays(v[0]);
    MonthStart(v[0], v[1]);
  }

  /** Year, month and day, hour, minute and second, as RFC 3339 writes them. */
  function Civil(v: seq<nat>): string
    requires |v| == 6
  {
    Pad(v[0], 4) + "-" + Pad(v[1], 2) + "-" + Pad(v[2], 2) + "T"
    + Pad(v[3], 2) + ":" + Pad(v[4], 2) + ":" + Pad(v[5], 2)
  }

  function Written(n: nat, shape: FieldShape): string { Pad(n, shape.width) + shape.sep }

  lemma RenderNext(v: seq<nat>, shapes: seq<FieldShape>, a: FieldShape, w: seq<nat>, rest: seq<FieldShape>)
    requires |v| == |shapes| && shapes == [a] + rest && w == v[1..]
    ensures Render(v, shapes) == Written(v[0], a) + Render(w, rest)
  {
    assert shapes[1..] == rest;
  }

  lemma RenderThree(v: seq<nat>, shapes: seq<FieldShape>, a: FieldShape, b: FieldShape, c: FieldShape,
      rest: seq<FieldShape>)
    requires |v| == |shapes| && shapes == [a, b, c] + rest
    ensures Render(v, shapes) == Written(v[0], a) + Written(v[1], b) + Written(v[2], c) + Render(v[3..], rest)
  {
    var w, x := v[1..], v[2..];
    assert [a, b, c] + rest == [a] + ([b] + ([c] + rest));
    RenderNext(v, shapes, a, w, [b] + ([c] + rest));
    RenderNext(w, [b] + ([c] + rest), b, x, [c] + rest);
    RenderNext(x, [c] + rest, c, v[3..], rest);
    InARow(Render(v, shapes), Render(w, [b] + ([c] + rest)), Render(x, [c] + rest), Render(v[3..], rest),
           Written(v[0], a), Written(v[1], b), Written(v[2], c));
  }

  lemma InARow(x0: string, x1: string, x2: string, x3: string, p: string, q: string, r: string)
    requires x0 == p + x1 && x1 == q + x2 && x2 == r + x3
    ensures x0 == p + q + r + x3
  {}

  lemma RenderIs(v: seq<nat>)
    requires |v| == 6
    ensures Render(v, SHAPES) == Civil(v)
  {
    var dash, tee, colon, last := FieldShape(2, "-"), FieldShape(2, "T"), FieldShape(2, ":"), FieldShape(2, "");
    assert SHAPES == [FieldShape(4, "-"), dash, tee] + [colon, colon, last];
    RenderThree(v, SHAPES, FieldShape(4, "-"), dash, tee, [colon, colon, last]);
    RenderThree(v[3..], [colon, colon, last], colon, colon, last, []);
    DateAndTime(Written(v[0], FieldShape(4, "-")), Written(v[1], dash), Written(v[2], tee),
                Written(v[3], colon), Written(v[4], colon), Pad(v[5], 2));
  }

  lemma DateAndTime(a: string, b: string, c: string, d: string, e: string, f: string)
    ensures a + b + c + (d + e + (f + "") + []) == a + b + c + d + e + f
  {
    assert f + "" + [] == f;
  }

  /** No fraction for a whole second; otherwise a point and digits that spell the
      nanoseconds, the last of them not a zero. */
  lemma FractionIs(n: nat)
    requires n < SECOND
    ensures n == 0 <==> Fraction(n) == ""
    ensures n > 0 ==> var f := Fraction(n); f[0] == '.' && |f| > 1 && f[|f| - 1] != '0'
                                            && AllDigits(f[1..]) && Nanos(f[1..]) == n
  {
    TrimmedNumber(n);
    TrimOfDigits(Pad(n, 9));
    var a := TrimZeros(Pad(n, 9));
    if n == 0 {
      PadOfZero(9);
    }
    assert a == [] ==> Nanos(a) == 0;
    assert ("." + a)[1..] == a;
  }

  lemma ZoneIs(hours: nat, minutes: nat)
    ensures ZoneText(Utc) == "Z"
    ensures ZoneText(Offset(true, hours, minutes)) == "-" + Pad(hours, 2) + ":" + Pad(minutes, 2)
    ensures ZoneText(Offset(false, hours, minutes)) == "+" + Pad(hours, 2) + ":" + Pad(minutes, 2)
  {}

  /** A stored timestamp spells the Gregorian date and the clock time of its
      instant, then the fraction, then the zone. */
  lemma FormatIsCivil(t: nat, z: Zone) returns (y: nat, m: nat, d: nat, hour: nat, minute: nat, second: nat)
    ensures 1 <= m <= 12 && 1 <= d <= 31 && hour < 24 && minute < 60 && second < 60
    ensures t / SECOND == CivilSecond(y, m, d, hour, minute, second)
    ensures Format(t, z) == Civil([y, m, d, hour, minute, second]) + Fraction(t % SECOND) + ZoneText(z)
  {
    var v := FieldsOf(t / SECOND);
    FieldsAreCivil(t / SECOND);
    RenderIs(v);
    y, m, d, hour, minute, second := v[0], v[1], v[2], v[3], v[4], v[5];
    assert [y, m, d, hour, minute, second] == v;
  }
}
