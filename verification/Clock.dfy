/** Instants and the ISO text they are stored as. An instant counts the
    microseconds since 0001-01-01T00:00:00 UTC; rows hold its text, and every
    SQL comparison of timestamps compares those texts. */
module Clock {
  import opened Text

  const US := 1000000
  const DAY := 86400
  const LAST_DAY := 3652059

  type Instant = t: int | 0 <= t < LAST_DAY * DAY * US

  // ---- the proleptic Gregorian calendar ----

  predicate IsLeap(y: int) {
    y % 4 == 0 && (y % 100 != 0 || y % 400 == 0)
  }

  function YearLength(y: int): nat {
    if IsLeap(y) then 366 else 365
  }

  function MonthLength(y: int, m: int): nat {
    if m == 2 then (if IsLeap(y) then 29 else 28)
    else if m == 4 || m == 6 || m == 9 || m == 11 then 30
    else 31
  }

  // The year that the day d days after 1 January of year y falls in, and the
  // day's position in that year.
  function SplitYear(y: nat, d: nat): (r: (nat, nat))
    ensures r.0 >= y && r.1 < YearLength(r.0)
    decreases d
  {
    if d < YearLength(y) then (y, d) else SplitYear(y + 1, d - YearLength(y))
  }

  function SplitMonth(y: nat, m: nat, d: nat): (r: (nat, nat))
    requires 1 <= m <= 12
    ensures m <= r.0 <= 12 && r.1 <= d
    decreases 12 - m
  {
    if m == 12 || d < MonthLength(y, m) then (m, d) else SplitMonth(y, m + 1, d - MonthLength(y, m))
  }

  datatype Date = Date(year: nat, month: nat, day: nat)

  function DateOf(d: nat): Date {
    var (y, inYear) := SplitYear(1, d);
    var (m, inMonth) := SplitMonth(y, 1, inYear);
    Date(y, m, inMonth + 1)
  }

  function DaysBeforeYear(y: int): int {
    365 * (y - 1) + (y - 1) / 4 - (y - 1) / 100 + (y - 1) / 400
  }

  function DaysBeforeMonth(y: int, m: nat): nat
    requires 1 <= m <= 12
  {
    if m == 1 then 0 else DaysBeforeMonth(y, m - 1) + MonthLength(y, m - 1)
  }

  // The closed form of the day count, the reference for DateOf.
  function Ordinal(d: Date): int
    requires 1 <= d.month <= 12
  {
    DaysBeforeYear(d.year) + DaysBeforeMonth(d.year, d.month) + d.day - 1
  }

  lemma DaysBeforeNextYear(y: nat)
    requires y > 0
    ensures DaysBeforeYear(y + 1) == DaysBeforeYear(y) + YearLength(y)
  {
    assert y / 4 == (y - 1) / 4 + if y % 4 == 0 then 1 else 0;
    assert y / 100 == (y - 1) / 100 + if y % 100 == 0 then 1 else 0;
    assert y / 400 == (y - 1) / 400 + if y % 400 == 0 then 1 else 0;
    assert y % 400 == 0 ==> y % 100 == 0;
    assert y % 100 == 0 ==> y % 4 == 0;
  }

  lemma {:induction false} SplitYearCounts(y: nat, d: nat)
    requires y > 0
    ensures var (y', d') := SplitYear(y, d); DaysBeforeYear(y') + d' == DaysBeforeYear(y) + d
    decreases d
  {
    if d >= YearLength(y) {
      DaysBeforeNextYear(y);
      SplitYearCounts(y + 1, d - YearLength(y));
    }
  }

  lemma {:induction false} DaysBeforeYearGrows(y: nat, z: nat)
    requires 0 < y <= z
    ensures DaysBeforeYear(y) <= DaysBeforeYear(z)
    decreases z - y
  {
    if y < z {
      DaysBeforeNextYear(y);
      DaysBeforeYearGrows(y + 1, z);
    }
  }

  lemma FourDigitYear(d: nat)
    requires d < LAST_DAY
    ensures SplitYear(1, d).0 < 10000
  {
    SplitYearCounts(1, d);
    if SplitYear(1, d).0 >= 10000 {
      DaysBeforeYearGrows(10000, SplitYear(1, d).0);
    }
  }

  lemma YearOfMonths(y: int)
    ensures DaysBeforeMonth(y, 12) + 31 == YearLength(y)
  {
    assert DaysBeforeMonth(y, 2) == 31;
    assert DaysBeforeMonth(y, 4) == DaysBeforeMonth(y, 3) + 31;
    assert DaysBeforeMonth(y, 6) == DaysBeforeMonth(y, 5) + 31;
    assert DaysBeforeMonth(y, 8) == DaysBeforeMonth(y, 7) + 31;
    assert DaysBeforeMonth(y, 10) == DaysBeforeMonth(y, 9) + 30;
  }

  lemma {:induction false} SplitMonthCounts(y: nat, m: nat, d: nat)
    requires 1 <= m <= 12 && DaysBeforeMonth(y, m) + d < YearLength(y)
    ensures var (m', d') := SplitMonth(y, m, d);
            && DaysBeforeMonth(y, m') + d' == DaysBeforeMonth(y, m) + d
            && d' < MonthLength(y, m')
    decreases 12 - m
  {
    if m == 12 {
      YearOfMonths(y);
    } else if d >= MonthLength(y, m) {
      SplitMonthCounts(y, m + 1, d - MonthLength(y, m));
    }
  }

  // DateOf inverts the closed form and always gives a real calendar date.
  lemma DateOfOrdinal(d: nat)
    ensures var date := DateOf(d);
            && 1 <= date.month <= 12 && 1 <= date.day <= MonthLength(date.year, date.month)
            && Ordinal(date) == d
  {
    SplitYearCounts(1, d);
    var (y, inYear) := SplitYear(1, d);
    SplitMonthCounts(y, 1, inYear);
  }

  lemma {:induction false} SplitYearOrder(y: nat, c: nat, d: nat)
    requires c < d
    ensures var (yc, rc) := SplitYear(y, c); var (yd, rd) := SplitYear(y, d); yc < yd || (yc == yd && rc < rd)
    decreases d
  {
    if c >= YearLength(y) {
      SplitYearOrder(y + 1, c - YearLength(y), d - YearLength(y));
    }
  }

  lemma {:induction false} SplitMonthOrder(y: nat, m: nat, c: nat, d: nat)
    requires 1 <= m <= 12 && c < d
    ensures var (mc, rc) := SplitMonth(y, m, c); var (md, rd) := SplitMonth(y, m, d); mc < md || (mc == md && rc < rd)
    decreases 12 - m
  {
    if m < 12 && c >= MonthLength(y, m) {
      SplitMonthOrder(y, m + 1, c - MonthLength(y, m), d - MonthLength(y, m));
    }
  }

  // ---- text ----

  function Pad(n: nat, w: nat): (s: string)
    ensures |s| == w && AllDigits(s)
  {
    if w == 0 then "" else Pad(n / 10, w - 1) + [Digit(n % 10)]
  }

  function Pow10(w: nat): nat {
    if w == 0 then 1 else 10 * Pow10(w - 1)
  }

  lemma {:induction false} PadOrder(m: nat, n: nat, w: nat)
    requires m < n < Pow10(w)
    ensures Less(Pad(m, w), Pad(n, w))
  {
    if w > 0 {
      if m / 10 < n / 10 {
        PadOrder(m / 10, n / 10, w - 1);
        LessByPrefix(Pad(m / 10, w - 1), [Digit(m % 10)], Pad(n / 10, w - 1), [Digit(n % 10)]);
      } else {
        LessBySuffix(Pad(m / 10, w - 1), [Digit(m % 10)], [Digit(n % 10)]);
      }
    }
  }

  function DateText(day: nat): (s: string)
    ensures |s| == 10
  {
    var d := DateOf(day);
    Pad(d.year, 4) + ("-" + (Pad(d.month, 2) + ("-" + Pad(d.day, 2))))
  }

  function MinuteText(second: nat): (s: string)
    ensures |s| == 5
  {
    Pad(second / 60 % 60, 2) + (":" + Pad(second % 60, 2))
  }

  function TimeText(second: nat): (s: string)
    ensures |s| == 8
  {
    Pad(second / 3600, 2) + (":" + MinuteText(second))
  }

  // isoformat drops the fraction when there are no microseconds.
  function Fraction(micro: nat): string {
    if micro == 0 then "" else "." + Pad(micro, 6)
  }

  function Stamp(day: nat, second: nat, micro: nat): (s: string)
    ensures |s| > 10
  {
    DateText(day) + ("T" + (TimeText(second) + (Fraction(micro) + "+00:00")))
  }

  function Iso(t: Instant): (s: string)
    ensures |s| > 10
  {
    Stamp(t / US / DAY, t / US % DAY, t % US)
  }

  lemma FieldOrder(m: nat, n: nat, w: nat, x: string, y: string)
    requires m <= n < Pow10(w) && (m == n ==> Less(x, y))
    ensures Less(Pad(m, w) + x, Pad(n, w) + y)
  {
    if m < n {
      PadOrder(m, n, w);
      LessByPrefix(Pad(m, w), x, Pad(n, w), y);
    } else {
      LessBySuffix(Pad(m, w), x, y);
    }
  }

  // A two-digit field, a separator and the fields after it.
  lemma PairOrder(m: nat, n: nat, c: char, x: string, y: string)
    requires m <= n < 100 && (m == n ==> Less(x, y))
    ensures Less(Pad(m, 2) + ([c] + x), Pad(n, 2) + ([c] + y))
  {
    hide Pad;
    assert Pow10(2) == 100;
    if m == n { LessBySuffix([c], x, y); }
    FieldOrder(m, n, 2, [c] + x, [c] + y);
  }

  lemma LastOrder(m: nat, n: nat)
    requires m < n < 100
    ensures Less(Pad(m, 2), Pad(n, 2))
  {
    assert Pow10(2) == 100;
    PadOrder(m, n, 2);
  }

  lemma MonthDayOrder(m: nat, x: nat, n: nat, y: nat)
    requires m < 100 && x < 100 && n < 100 && y < 100 && (m < n || (m == n && x < y))
    ensures Less("-" + (Pad(m, 2) + ("-" + Pad(x, 2))), "-" + (Pad(n, 2) + ("-" + Pad(y, 2))))
  {
    hide Pad;
    hide Less;
    if m == n { LastOrder(x, y); }
    PairOrder(m, n, '-', Pad(x, 2), Pad(y, 2));
    LessBySuffix("-", Pad(m, 2) + ("-" + Pad(x, 2)), Pad(n, 2) + ("-" + Pad(y, 2)));
  }

  predicate Earlier(a: Date, b: Date) {
    a.year < b.year || (a.year == b.year && (a.month < b.month || (a.month == b.month && a.day < b.day)))
  }

  lemma DateOfOrder(c: nat, d: nat)
    requires c < d
    ensures Earlier(DateOf(c), DateOf(d))
  {
    var (yc, rc) := SplitYear(1, c);
    var (yd, rd) := SplitYear(1, d);
    SplitYearOrder(1, c, d);
    if yc == yd { SplitMonthOrder(yc, 1, rc, rd); }
  }

  lemma DateTextOrder(c: nat, d: nat)
    requires c < d < LAST_DAY
    ensures Less(DateText(c), DateText(d))
  {
    var a, b := DateOf(c), DateOf(d);
    DateOfOrder(c, d);
    DateOfOrdinal(c);
    DateOfOrdinal(d);
    FourDigitYear(d);
    if a.year == b.year { MonthDayOrder(a.month, a.day, b.month, b.day); }
    assert Pow10(4) == 10000 by { assert Pow10(2) == 100; }
    FieldOrder(a.year, b.year, 4, "-" + (Pad(a.month, 2) + ("-" + Pad(a.day, 2))),
               "-" + (Pad(b.month, 2) + ("-" + Pad(b.day, 2))));
  }

  lemma SplitSeconds(c: nat)
    ensures c == 3600 * (c / 3600) + 60 * (c / 60 % 60) + c % 60
  {
    var m := c / 60;
    assert c == 60 * m + c % 60;
    assert m == 60 * (m / 60) + m % 60;
    assert c / 3600 == m / 60;
  }

  lemma MinuteTextOrder(c: nat, d: nat)
    requires c / 3600 == d / 3600 && c < d
    ensures Less(MinuteText(c), MinuteText(d))
  {
    hide Pad;
    hide Less;
    SplitSeconds(c);
    SplitSeconds(d);
    if c / 60 % 60 == d / 60 % 60 { LastOrder(c % 60, d % 60); }
    PairOrder(c / 60 % 60, d / 60 % 60, ':', Pad(c % 60, 2), Pad(d % 60, 2));
  }

  lemma TimeTextOrder(c: nat, d: nat)
    requires c < d < DAY
    ensures Less(TimeText(c), TimeText(d))
  {
    hide Pad;
    hide Less;
    hide MinuteText;
    if c / 3600 == d / 3600 { MinuteTextOrder(c, d); }
    PairOrder(c / 3600, d / 3600, ':', MinuteText(c), MinuteText(d));
  }

  // A whole second sorts before every later instant of it: '+' before '.'.
  lemma FractionOrder(m: nat, n: nat)
    requires m < n < US
    ensures Less(Fraction(m) + "+00:00", Fraction(n) + "+00:00")
  {
    if m > 0 {
      assert Pow10(6) == US by {
        assert Pow10(3) == 1000;
      }
      PadOrder(m, n, 6);
      LessBySuffix(".", Pad(m, 6), Pad(n, 6));
      LessByPrefix("." + Pad(m, 6), "+00:00", "." + Pad(n, 6), "+00:00");
    }
  }

  lemma StampOrder(c: nat, sc: nat, fc: nat, d: nat, sd: nat, fd: nat)
    requires c < LAST_DAY && d < LAST_DAY && sc < DAY && sd < DAY && fc < US && fd < US
    requires c < d || (c == d && (sc < sd || (sc == sd && fc < fd)))
    ensures Less(Stamp(c, sc, fc), Stamp(d, sd, fd))
  {
    var x, y := Fraction(fc) + "+00:00", Fraction(fd) + "+00:00";
    var tc, td := TimeText(sc), TimeText(sd);
    if c < d {
      DateTextOrder(c, d);
      LessByPrefix(DateText(c), "T" + (tc + x), DateText(d), "T" + (td + y));
    } else {
      if sc < sd {
        TimeTextOrder(sc, sd);
        LessByPrefix(tc, x, td, y);
      } else {
        FractionOrder(fc, fd);
        LessBySuffix(tc, x, y);
      }
      LessBySuffix("T", tc + x, td + y);
      LessBySuffix(DateText(c), "T" + (tc + x), "T" + (td + y));
    }
  }

  lemma IsoIncreases(a: Instant, b: Instant)
    requires a < b
    ensures Less(Iso(a), Iso(b))
  {
    var sa, sb := a / US, b / US;
    StampOrder(sa / DAY, sa % DAY, a % US, sb / DAY, sb % DAY, b % US);
  }

  // The texts compare as the instants do, for every pair of instants.
  lemma IsoOrder(a: Instant, b: Instant)
    ensures Less(Iso(a), Iso(b)) <==> a < b
    ensures Iso(a) == Iso(b) <==> a == b
  {
    LessIrreflexive(Iso(a));
    if a < b {
      IsoIncreases(a, b);
    } else if b < a {
      IsoIncreases(b, a);
      if Less(Iso(a), Iso(b)) { LessAsymmetric(Iso(a), Iso(b)); }
    }
  }

  function DayNumber(t: Instant): nat {
    t / US / DAY
  }

  // The first ten characters are the UTC day.
  lemma IsoDay(a: Instant, b: Instant)
    ensures Iso(a)[..10] == DateText(DayNumber(a))
    ensures Iso(a)[..10] == Iso(b)[..10] <==> DayNumber(a) == DayNumber(b)
  {
    var c, d := DayNumber(a), DayNumber(b);
    if c < d {
      DateTextOrder(c, d);
      LessIrreflexive(DateText(c));
    } else if d < c {
      DateTextOrder(d, c);
      LessIrreflexive(DateText(d));
    }
  }

  lemma JoinNoBar(a: string, c: char, b: string)
    requires NoBar(a) && c != '|' && NoBar(b)
    ensures NoBar(a + ([c] + b))
  {
  }

  lemma DigitsNoBar(s: string)
    requires AllDigits(s)
    ensures NoBar(s)
  {
  }

  lemma IsoNoBar(t: Instant)
    ensures NoBar(Iso(t))
  {
    hide Pad;
    var d, second, micro := DateOf(t / US / DAY), t / US % DAY, t % US;
    forall n: nat, w: nat ensures NoBar(Pad(n, w)) {
      DigitsNoBar(Pad(n, w));
    }
    JoinNoBar(Pad(d.month, 2), '-', Pad(d.day, 2));
    JoinNoBar(Pad(d.year, 4), '-', Pad(d.month, 2) + ("-" + Pad(d.day, 2)));
    JoinNoBar(Pad(second / 60 % 60, 2), ':', Pad(second % 60, 2));
    JoinNoBar(Pad(second / 3600, 2), ':', MinuteText(second));
    assert NoBar(Fraction(micro) + "+00:00");
    JoinNoBar(DateText(t / US / DAY), 'T', TimeText(second) + (Fraction(micro) + "+00:00"));
  }

  function WindowCutoff(now: Instant, seconds: nat): string
    requires seconds * US <= now
  {
    Iso(now - seconds * US)
  }
}
