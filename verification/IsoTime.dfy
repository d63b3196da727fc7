/**
 `now_iso` (`endpoint/protocol.py`, lines 41-42): the UTC text of a clock reading, cut to whole seconds.
 SQLite compares these texts byte by byte; the last lemma says that this is comparing the seconds.
 Seconds count from 0001-01-01T00:00:00Z, the least `datetime`.
 */
module IsoTime {
  import CodePoints

  // ----- the calendar -----

  function IsLeap(year: nat): bool {
    year % 4 == 0 && (year % 100 != 0 || year % 400 == 0)
  }

  /** The days before the first of January of `year`. */
  function DaysBeforeYear(year: nat): nat
    requires year >= 1
  {
    (year - 1) * 365 + (year - 1) / 4 - (year - 1) / 100 + (year - 1) / 400
  }

  lemma YearLength(year: nat)
    requires year >= 1
    ensures DaysBeforeYear(year + 1) == DaysBeforeYear(year) + if IsLeap(year) then 366 else 365
  {
    EveryFour(year);
    EveryHundred(year);
    EveryFourHundred(year);
  }

  lemma EveryFour(year: nat)
    requires year >= 1
    ensures year / 4 == (year - 1) / 4 + if year % 4 == 0 then 1 else 0
  {
  }

  lemma EveryHundred(year: nat)
    requires year >= 1
    ensures year / 100 == (year - 1) / 100 + if year % 100 == 0 then 1 else 0
    ensures year % 100 == 0 ==> year % 4 == 0
  {
  }

  lemma EveryFourHundred(year: nat)
    requires year >= 1
    ensures year / 400 == (year - 1) / 400 + if year % 400 == 0 then 1 else 0
    ensures year % 400 == 0 ==> year % 100 == 0
  {
  }

  lemma {:induction false} YearsGrow(a: nat, b: nat)
    requires 1 <= a <= b
    ensures DaysBeforeYear(a) + 365 * (b - a) <= DaysBeforeYear(b)
    decreases b
  {
    if a < b {
      YearsGrow(a, b - 1);
      YearLength(b - 1);
    }
  }

  function YearFrom(day: nat, year: nat): (y: nat)
    requires year >= 1 && DaysBeforeYear(year) <= day
    ensures y >= year && DaysBeforeYear(y) <= day < DaysBeforeYear(y + 1)
    decreases day - DaysBeforeYear(year)
  {
    YearLength(year);
    if day < DaysBeforeYear(year + 1) then year else YearFrom(day, year + 1)
  }

  function MonthLength(year: nat, month: nat): nat
    requires 1 <= month <= 12
  {
    if month == 2 then (if IsLeap(year) then 29 else 28)
    else if month == 4 || month == 6 || month == 9 || month == 11 then 30
    else 31
  }

  function DaysBeforeMonth(year: nat, month: nat): nat
    requires 1 <= month <= 13
  {
    if month == 1 then 0 else DaysBeforeMonth(year, month - 1) + MonthLength(year, month - 1)
  }

  lemma {:induction false} MonthsGrow(year: nat, a: nat, b: nat)
    requires 1 <= a <= b <= 13
    ensures DaysBeforeMonth(year, a) <= DaysBeforeMonth(year, b)
    decreases b
  {
    if a < b {
      MonthsGrow(year, a, b - 1);
    }
  }

  lemma MonthsFillYear(year: nat)
    ensures DaysBeforeMonth(year, 13) == if IsLeap(year) then 366 else 365
  {
    var extra := if IsLeap(year) then 1 else 0;
    assert DaysBeforeMonth(year, 2) == 31;
    assert DaysBeforeMonth(year, 3) == 59 + extra;
    assert DaysBeforeMonth(year, 5) == 120 + extra;
    assert DaysBeforeMonth(year, 7) == 181 + extra;
    assert DaysBeforeMonth(year, 9) == 243 + extra;
    assert DaysBeforeMonth(year, 11) == 304 + extra;
  }

  function MonthFrom(year: nat, day: nat, month: nat): (m: nat)
    requires 1 <= month <= 12 && DaysBeforeMonth(year, month) <= day < DaysBeforeMonth(year, 13)
    ensures month <= m <= 12 && DaysBeforeMonth(year, m) <= day < DaysBeforeMonth(year, m + 1)
    decreases 12 - month
  {
    if day < DaysBeforeMonth(year, month + 1) then month else MonthFrom(year, day, month + 1)
  }

  datatype Date = Date(year: nat, month: nat, day: nat)

  function DateOf(day: nat): (d: Date)
    ensures d.year >= 1 && 1 <= d.month <= 12 && 1 <= d.day <= MonthLength(d.year, d.month)
    ensures day == DaysBeforeYear(d.year) + DaysBeforeMonth(d.year, d.month) + d.day - 1
  {
    var year := YearFrom(day, 1);
    YearLength(year);
    MonthsFillYear(year);
    var inYear := day - DaysBeforeYear(year);
    var month := MonthFrom(year, inYear, 1);
    Date(year, month, inYear - DaysBeforeMonth(year, month) + 1)
  }

  predicate DateLess(a: Date, b: Date) {
    a.year < b.year || (a.year == b.year && (a.month < b.month || (a.month == b.month && a.day < b.day)))
  }

  lemma EarlierDate(a: nat, b: nat)
    requires DateLess(DateOf(a), DateOf(b))
    ensures a < b
  {
    var x, y := DateOf(a), DateOf(b);
    DayInYear(a);
    DayInYear(b);
    if x.year < y.year {
      YearsGrow(x.year + 1, y.year);
    } else if x.month < y.month {
      MonthsGrow(x.year, x.month + 1, y.month);
    }
  }

  lemma DateOrder(a: nat, b: nat)
    ensures DateLess(DateOf(a), DateOf(b)) <==> a < b
    ensures DateOf(a) == DateOf(b) <==> a == b
  {
    if DateLess(DateOf(a), DateOf(b)) {
      EarlierDate(a, b);
    } else if DateLess(DateOf(b), DateOf(a)) {
      EarlierDate(b, a);
    }
  }

  lemma DayInYear(day: nat)
    ensures DaysBeforeYear(DateOf(day).year) <= day < DaysBeforeYear(DateOf(day).year + 1)
  {
    var d := DateOf(day);
    YearLength(d.year);
    MonthsFillYear(d.year);
    MonthsGrow(d.year, d.month + 1, 13);
  }

  // ----- the text -----

  function Digit(d: nat): char
    requires d < 10
  {
    ('0' as int + d) as char
  }

  /** Exactly `width` decimal digits. */
  function Padded(width: nat, n: nat): (t: string)
    ensures |t| == width
  {
    if width == 0 then "" else Padded(width - 1, n / 10) + [Digit(n % 10)]
  }

  function Power10(width: nat): nat {
    if width == 0 then 1 else 10 * Power10(width - 1)
  }

  lemma {:induction false} PaddedOrder(width: nat, m: nat, n: nat)
    requires m < Power10(width) && n < Power10(width)
    ensures CodePoints.Less(Padded(width, m), Padded(width, n)) <==> m < n
    ensures Padded(width, m) == Padded(width, n) <==> m == n
  {
    if width > 0 {
      var a, b := Padded(width - 1, m / 10), Padded(width - 1, n / 10);
      PaddedOrder(width - 1, m / 10, n / 10);
      DigitOrder(m, n);
      CodePoints.LessByParts(a, b, [Digit(m % 10)], [Digit(n % 10)]);
      SplitLast(a, b, Digit(m % 10), Digit(n % 10));
    }
  }

  lemma DigitOrder(m: nat, n: nat)
    ensures m < n <==> m / 10 < n / 10 || (m / 10 == n / 10 && m % 10 < n % 10)
    ensures CodePoints.Less([Digit(m % 10)], [Digit(n % 10)]) <==> m % 10 < n % 10
  {
  }

  lemma SplitLast(a: string, b: string, c: char, d: char)
    requires |a| == |b|
    ensures a + [c] == b + [d] <==> a == b && c == d
  {
    if a + [c] == b + [d] {
      assert a == (a + [c])[..|a|] && b == (b + [d])[..|b|];
      assert (a + [c])[|a|] == c && (b + [d])[|b|] == d;
    }
  }

  const SECONDS_PER_DAY: nat := 86400
  const MICROSECONDS: nat := 1000000

  /** The first second after 9999-12-31, where `datetime` ends. */
  const END_OF_TIME: nat := DaysBeforeYear(10000) * SECONDS_PER_DAY

  function IsoDate(d: Date): string {
    Padded(4, d.year) + ("-" + (Padded(2, d.month) + ("-" + Padded(2, d.day))))
  }

  function IsoMinute(second: nat): string {
    Padded(2, second / 60 % 60) + (":" + (Padded(2, second % 60) + "Z"))
  }

  function IsoClock(second: nat): string {
    Padded(2, second / 3600) + (":" + IsoMinute(second))
  }

  function Iso(second: nat): string {
    IsoDate(DateOf(second / SECONDS_PER_DAY)) + ("T" + IsoClock(second % SECONDS_PER_DAY))
  }

  /** `now_iso()` at clock reading `micros`. */
  function NowIso(micros: nat): string {
    Iso(micros / MICROSECONDS)
  }

  lemma FieldOrder(width: nat, m: nat, n: nat, sep: string, x: string, y: string)
    requires m < Power10(width) && n < Power10(width) && |sep| == 1
    ensures CodePoints.Less(Padded(width, m) + (sep + x), Padded(width, n) + (sep + y)) <==>
            m < n || (m == n && CodePoints.Less(x, y))
  {
    PaddedOrder(width, m, n);
    CodePoints.LessByParts(Padded(width, m), Padded(width, n), sep + x, sep + y);
    CodePoints.LessByParts(sep, sep, x, y);
    CodePoints.Total(sep, sep);
  }

  lemma Powers()
    ensures Power10(2) == 100 && Power10(4) == 10000
  {
    assert Power10(0) == 1 && Power10(1) == 10 && Power10(3) == 1000;
  }

  lemma IsoDateOrder(a: Date, b: Date)
    requires a.year < 10000 && b.year < 10000
    requires a.month < 100 && b.month < 100 && a.day < 100 && b.day < 100
    ensures CodePoints.Less(IsoDate(a), IsoDate(b)) <==> DateLess(a, b)
    ensures |IsoDate(a)| == 10
  {
    Powers();
    PaddedOrder(2, a.day, b.day);
    FieldOrder(2, a.month, b.month, "-", Padded(2, a.day), Padded(2, b.day));
    FieldOrder(4, a.year, b.year, "-", Padded(2, a.month) + ("-" + Padded(2, a.day)), Padded(2, b.month) + ("-" + Padded(2, b.day)));
  }

  lemma MinuteOrder(a: nat, b: nat)
    ensures CodePoints.Less(IsoMinute(a), IsoMinute(b)) <==> a % 3600 < b % 3600
  {
    Powers();
    assert "Z" + "" == "Z";
    FieldOrder(2, a % 60, b % 60, "Z", "", "");
    FieldOrder(2, a / 60 % 60, b / 60 % 60, ":", Padded(2, a % 60) + "Z", Padded(2, b % 60) + "Z");
    MinuteParts(a);
    MinuteParts(b);
  }

  lemma MinuteParts(s: nat)
    ensures s % 3600 == s / 60 % 60 * 60 + s % 60
    ensures s / 60 % 60 < 60 && s % 60 < 60
  {
    var h, rest := s / 3600, s % 3600;
    assert s == 3600 * h + rest;
    assert s / 60 == 60 * h + rest / 60;
    assert s % 60 == rest % 60;
  }

  lemma IsoClockOrder(a: nat, b: nat)
    requires a < SECONDS_PER_DAY && b < SECONDS_PER_DAY
    ensures CodePoints.Less(IsoClock(a), IsoClock(b)) <==> a < b
  {
    Powers();
    MinuteOrder(a, b);
    FieldOrder(2, a / 3600, b / 3600, ":", IsoMinute(a), IsoMinute(b));
  }

  lemma YearInRange(second: nat)
    requires second < END_OF_TIME
    ensures DateOf(second / SECONDS_PER_DAY).year < 10000
  {
    var d := DateOf(second / SECONDS_PER_DAY);
    DayInYear(second / SECONDS_PER_DAY);
    if d.year >= 10000 {
      YearsGrow(10000, d.year);
    }
  }

  lemma IsoLess(a: nat, b: nat)
    requires a < END_OF_TIME && b < END_OF_TIME
    ensures CodePoints.Less(Iso(a), Iso(b)) <==> a < b
  {
    var x, y := DateOf(a / SECONDS_PER_DAY), DateOf(b / SECONDS_PER_DAY);
    YearInRange(a);
    YearInRange(b);
    IsoDateOrder(x, y);
    IsoDateOrder(y, x);
    DateOrder(a / SECONDS_PER_DAY, b / SECONDS_PER_DAY);
    var s, t := IsoClock(a % SECONDS_PER_DAY), IsoClock(b % SECONDS_PER_DAY);
    IsoClockOrder(a % SECONDS_PER_DAY, b % SECONDS_PER_DAY);
    CodePoints.LessByParts(IsoDate(x), IsoDate(y), "T" + s, "T" + t);
    CodePoints.LessByParts("T", "T", s, t);
    CodePoints.Total("T", "T");
    CodePoints.Total(IsoDate(x), IsoDate(y));
  }

  /** Comparing the texts is comparing the seconds, over the whole range of `datetime`. */
  lemma IsoOrder(a: nat, b: nat)
    requires a < END_OF_TIME && b < END_OF_TIME
    ensures CodePoints.AtMost(Iso(a), Iso(b)) <==> a <= b
  {
    IsoLess(a, b);
    IsoLess(b, a);
    CodePoints.Total(Iso(a), Iso(b));
  }
}
