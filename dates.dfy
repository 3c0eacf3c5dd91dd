/** Calendar dates as proleptic Gregorian day numbers, the representation of
    Python's `datetime.date`: day 1 is 0001-01-01 (`date.toordinal()`).
    `Ymd2Ord` and `Ord2Ymd` follow the standard library's `_ymd2ord` and
    `_ord2ymd`; `IsoDate` is `date.isoformat()`. */
module Dates {
  import opened Wrappers
  import opened Text

  /** Day number of a date (`date.toordinal()`). */
  type Day = int

  const MaxYear := 9999
  /** `date(9999, 12, 31).toordinal()` */
  const MaxOrdinal := 3652059

  predicate ValidDay(d: Day) {
    1 <= d <= MaxOrdinal
  }

  predicate IsLeap(y: int) {
    y % 4 == 0 && (y % 100 != 0 || y % 400 == 0)
  }

  function DaysInYear(y: int): int {
    if IsLeap(y) then 366 else 365
  }

  function DaysInMonth(y: int, m: int): (n: int)
    requires 1 <= m <= 12
    ensures 28 <= n <= 31
    ensures n == 29 <==> m == 2 && IsLeap(y)
  {
    if m == 2 then (if IsLeap(y) then 29 else 28)
    else if m == 4 || m == 6 || m == 9 || m == 11 then 30
    else 31
  }

  /** Days of the year before the first of month `m`. */
  function DaysBeforeMonth(y: int, m: int): int
    requires 1 <= m <= 12
  {
    var table := [0, 31, 59, 90, 120, 151, 181, 212, 243, 273, 304, 334];
    table[m - 1] + (if m > 2 && IsLeap(y) then 1 else 0)
  }

  /** Days before January 1st of year `y`. */
  function DaysBeforeYear(y: int): int
    requires y >= 1
  {
    var x := y - 1;
    x * 365 + x / 4 - x / 100 + x / 400
  }

  predicate ValidYmd(y: int, m: int, d: int) {
    1 <= y <= MaxYear && 1 <= m <= 12 && 1 <= d <= DaysInMonth(y, m)
  }

  datatype Ymd = Ymd(year: int, month: int, day: int) {
    predicate Valid() {
      ValidYmd(year, month, day)
    }
  }

  /** `date(y, m, d).toordinal()` */
  function Ymd2Ord(y: int, m: int, d: int): (n: Day)
    requires ValidYmd(y, m, d)
    ensures DaysBeforeYear(y) < n <= DaysBeforeYear(y) + DaysInYear(y)
  {
    DaysBeforeYear(y) + DaysBeforeMonth(y, m) + d
  }

  lemma MulAtLeast(k: int, z: int)
    requires 0 < k && 1 <= z
    ensures k <= k * z
  {
    assert k * z == k + k * (z - 1);
  }

  /** Euclidean division is determined by quotient and remainder. */
  lemma DivUnique(x: int, k: int, q: int, r: int)
    requires 0 < k && x == k * q + r && 0 <= r < k
    ensures x / k == q && x % k == r
  {
    var z := x / k - q;
    assert k * z == r - x % k;
    if z >= 1 {
      MulAtLeast(k, z);
    } else if z <= -1 {
      MulAtLeast(k, -z);
    }
  }

  /** The standard library's 400/100/4/1-year decomposition of a day count. */
  lemma DaysBeforeYearSplit(a: int, b: int, c: int, d: int)
    requires a >= 0 && 0 <= b <= 3 && 0 <= c <= 24 && 0 <= d <= 3
    ensures DaysBeforeYear(400 * a + 100 * b + 4 * c + d + 1)
            == 146097 * a + 36524 * b + 1461 * c + 365 * d
  {
    var x := 400 * a + 100 * b + 4 * c + d;
    DivUnique(x, 4, 100 * a + 25 * b + c, d);
    DivUnique(x, 100, 4 * a + b, 4 * c + d);
    DivUnique(x, 400, a, 100 * b + 4 * c + d);
  }

  /** `divmod` by 146097, 36524, 1461 and 365 in turn, as `_ord2ymd` does. */
  lemma CycleSplit(n0: int)
    requires n0 >= 0
    ensures var r1 := n0 % 146097; var r2 := r1 % 36524; var r3 := r2 % 1461;
            n0 == 146097 * (n0 / 146097) + 36524 * (r1 / 36524) + 1461 * (r2 / 1461)
                  + 365 * (r3 / 365) + r3 % 365
            && n0 / 146097 >= 0 && 0 <= r1 / 36524 <= 4 && 0 <= r2 / 1461 <= 24
            && 0 <= r3 / 365 <= 4 && 0 <= r3 % 365 < 365
            && (r1 / 36524 == 4 ==> r1 == 146096 && r2 == 0)
            && (r3 / 365 == 4 ==> r3 == 1460 && r2 / 1461 <= 23)
  {
  }

  /** The first half of `_ord2ymd`: the year of day `n` and the number of
      days of that year before it. */
  function YearAndDay(n: Day): (r: (int, int))
    requires n >= 1
    ensures r.0 >= 1 && 0 <= r.1 < DaysInYear(r.0)
    ensures DaysBeforeYear(r.0) + r.1 == n - 1
  {
    var n0 := n - 1;
    var a := n0 / 146097;
    var r1 := n0 % 146097;
    var b := r1 / 36524;
    var r2 := r1 % 36524;
    var c := r2 / 1461;
    var r3 := r2 % 1461;
    var d := r3 / 365;
    var doy := r3 % 365;
    var year := a * 400 + 1 + b * 100 + c * 4 + d;
    CycleSplit(n0);
    if d == 4 || b == 4 then
      // the last day of a 4-year or a 400-year cycle: December 31st of a leap year
      LastDayOfCycle(a, b, c, d, year);
      (year - 1, 365)
    else
      DaysBeforeYearSplit(a, b, c, d);
      (year, doy)
  }

  lemma LastDayOfCycle(a: int, b: int, c: int, d: int, year: int)
    requires a >= 0 && 0 <= b <= 4 && 0 <= c <= 24 && 0 <= d <= 4
    requires year == a * 400 + 1 + b * 100 + c * 4 + d
    requires b == 4 ==> c == 0 && d == 0
    requires d == 4 ==> c <= 23 && b <= 3
    requires b == 4 || d == 4
    ensures year - 1 >= 1 && IsLeap(year - 1)
    ensures DaysBeforeYear(year - 1) + 365 == 146097 * a + 36524 * b + 1461 * c + 365 * d
  {
    if b == 4 {
      DaysBeforeYearSplit(a, 3, 24, 3);
      DivUnique(year - 1, 400, a + 1, 0);
      DivUnique(year - 1, 100, 4 * (a + 1), 0);
      DivUnique(year - 1, 4, 100 * (a + 1), 0);
    } else {
      DaysBeforeYearSplit(a, b, c, 3);
      DivUnique(year - 1, 4, 100 * a + 25 * b + c + 1, 0);
      DivUnique(year - 1, 100, 4 * a + b, 4 * (c + 1));
    }
  }

  /** The second half of `_ord2ymd`: the month is guessed as `(doy + 50) >> 5`
      and moved back by one when the guess starts after `doy`. */
  function MonthAndDay(y: int, doy: int): (r: (int, int))
    requires 0 <= doy < DaysInYear(y)
    ensures 1 <= r.0 <= 12 && 1 <= r.1 <= DaysInMonth(y, r.0)
    ensures DaysBeforeMonth(y, r.0) + r.1 == doy + 1
  {
    var guess := (doy + 50) / 32;
    var month := if DaysBeforeMonth(y, guess) > doy then guess - 1 else guess;
    (month, doy - DaysBeforeMonth(y, month) + 1)
  }

  /** `date.fromordinal(n)` as (year, month, day). */
  function Ord2Ymd(n: Day): (r: Ymd)
    requires ValidDay(n)
    ensures r.Valid() && Ymd2Ord(r.year, r.month, r.day) == n
  {
    var (y, doy) := YearAndDay(n);
    if y > MaxYear then
      DaysBeforeYearMono(MaxYear + 1, y);
      assert false;
      Ymd(1, 1, 1)
    else
      var (m, d) := MonthAndDay(y, doy);
      Ymd(y, m, d)
  }

  lemma DivStep(x: int, k: int)
    requires x >= 0 && k > 0
    ensures (x + 1) / k == x / k + (if (x + 1) % k == 0 then 1 else 0)
  {
    var q := x / k;
    var r := x % k;
    if r == k - 1 {
      DivUnique(x + 1, k, q + 1, 0);
    } else {
      DivUnique(x + 1, k, q, r + 1);
    }
  }

  lemma DaysBeforeNextYear(y: int)
    requires y >= 1
    ensures DaysBeforeYear(y + 1) == DaysBeforeYear(y) + DaysInYear(y)
  {
    DivStep(y - 1, 4);
    DivStep(y - 1, 100);
    DivStep(y - 1, 400);
    ModDivides(y, 100, 4);
    ModDivides(y, 400, 100);
  }

  /** A multiple of `k * j` is a multiple of `j`. */
  lemma ModDivides(y: int, kj: int, j: int)
    requires 0 < j && 0 < kj && kj % j == 0
    ensures y % kj == 0 ==> y % j == 0
  {
    if y % kj == 0 {
      var q := y / kj;
      var k := kj / j;
      assert kj == j * k;
      assert y == j * (k * q);
      DivUnique(y, j, k * q, 0);
    }
  }

  lemma {:induction false} DaysBeforeYearMono(y1: int, y2: int)
    requires 1 <= y1 <= y2
    ensures DaysBeforeYear(y1) + 365 * (y2 - y1) <= DaysBeforeYear(y2)
    decreases y2 - y1
  {
    if y1 < y2 {
      DaysBeforeYearMono(y1, y2 - 1);
      DaysBeforeNextYear(y2 - 1);
    }
  }

  lemma DaysBeforeMonthMono(y: int, m1: int, m2: int)
    requires 1 <= m1 < m2 <= 12
    ensures DaysBeforeMonth(y, m1) + DaysInMonth(y, m1) <= DaysBeforeMonth(y, m2)
  {
  }

  /** Two valid dates with the same day number are the same date. */
  lemma Ymd2OrdInjective(a: Ymd, b: Ymd)
    requires a.Valid() && b.Valid()
    requires Ymd2Ord(a.year, a.month, a.day) == Ymd2Ord(b.year, b.month, b.day)
    ensures a == b
  {
    if a.year < b.year {
      DaysBeforeYearMono(a.year + 1, b.year);
      DaysBeforeNextYear(a.year);
    } else if b.year < a.year {
      DaysBeforeYearMono(b.year + 1, a.year);
      DaysBeforeNextYear(b.year);
    } else if a.month < b.month {
      DaysBeforeMonthMono(a.year, a.month, b.month);
    } else if b.month < a.month {
      DaysBeforeMonthMono(a.year, b.month, a.month);
    }
  }

  /** Every valid date has a day number in range, and converting it back gives
      the date: the two conversions are inverse bijections. */
  lemma Ord2YmdOfYmd2Ord(y: int, m: int, d: int)
    requires ValidYmd(y, m, d)
    ensures ValidDay(Ymd2Ord(y, m, d))
    ensures Ord2Ymd(Ymd2Ord(y, m, d)) == Ymd(y, m, d)
  {
    DaysBeforeYearMono(y + 1, MaxYear + 1);
    DaysBeforeNextYear(y);
    Ymd2OrdInjective(Ord2Ymd(Ymd2Ord(y, m, d)), Ymd(y, m, d));
  }

  /** `date.weekday()`: Monday is 0 and Sunday is 6. */
  function Weekday(d: Day): (w: int)
    ensures 0 <= w < 7
  {
    (d + 6) % 7
  }

  /** `date.isoformat()`: "YYYY-MM-DD". */
  function IsoDate(d: Day): (s: string)
    requires ValidDay(d)
    ensures |s| == 10 && s[4] == '-' && s[7] == '-'
  {
    var r := Ord2Ymd(d);
    NatToStringShort(r.year, 4);
    NatToStringShort(r.month, 2);
    NatToStringShort(r.day, 2);
    ZeroPad(r.year, 4) + "-" + ZeroPad(r.month, 2) + "-" + ZeroPad(r.day, 2)
  }

  lemma {:induction false} NatToStringShort(n: nat, width: nat)
    requires width >= 1 && n < Pow10(width)
    ensures |NatToString(n)| <= width
    decreases width
  {
    if n >= 10 {
      assert Pow10(1) == 10;
      assert n / 10 < Pow10(width - 1);
      NatToStringShort(n / 10, width - 1);
    }
  }

  function Pow10(k: nat): (p: nat)
    ensures p >= 1
  {
    if k == 0 then 1 else 10 * Pow10(k - 1)
  }

  /** Reading a zero-padded field back gives the number. */
  lemma {:induction false} ZeroPadValue(n: nat, width: nat)
    ensures DigitsValue(ZeroPad(n, width)) == n
  {
    var digits := NatToString(n);
    DigitsRoundTrip(n);
    if |digits| < width {
      LeadingZeros(Zeros(width - |digits|), digits);
    }
  }

  lemma {:induction false} LeadingZeros(z: string, s: string)
    requires forall i :: 0 <= i < |z| ==> z[i] == '0'
    requires forall i :: 0 <= i < |s| ==> IsDigit(s[i])
    ensures forall i :: 0 <= i < |z + s| ==> IsDigit((z + s)[i])
    ensures DigitsValue(z + s) == DigitsValue(s)
    decreases |s|
  {
    if s == [] {
      assert z + s == z;
      AllZeros(z);
    } else {
      assert (z + s)[..|z + s| - 1] == z + s[..|s| - 1];
      LeadingZeros(z, s[..|s| - 1]);
    }
  }

  lemma {:induction false} AllZeros(z: string)
    requires forall i :: 0 <= i < |z| ==> z[i] == '0'
    ensures DigitsValue(z) == 0
  {
    if z != [] {
      AllZeros(z[..|z| - 1]);
    }
  }

  /** The three fields of `IsoDate(d)`, read back as numbers, are the
      year, month and day of `d`. */
  lemma IsoDateFields(d: Day)
    requires ValidDay(d)
    ensures var s := IsoDate(d); var r := Ord2Ymd(d);
            (forall i :: 0 <= i < 4 ==> IsDigit(s[i]))
            && (forall i :: 5 <= i < 7 ==> IsDigit(s[i]))
            && (forall i :: 8 <= i < 10 ==> IsDigit(s[i]))
            && DigitsValue(s[..4]) == r.year
            && DigitsValue(s[5..7]) == r.month
            && DigitsValue(s[8..]) == r.day
  {
    var r := Ord2Ymd(d);
    var s := IsoDate(d);
    NatToStringShort(r.year, 4);
    NatToStringShort(r.month, 2);
    NatToStringShort(r.day, 2);
    assert s[..4] == ZeroPad(r.year, 4);
    assert s[5..7] == ZeroPad(r.month, 2);
    assert s[8..] == ZeroPad(r.day, 2);
    ZeroPadValue(r.year, 4);
    ZeroPadValue(r.month, 2);
    ZeroPadValue(r.day, 2);
  }

  /** `IsoDate` writes only digits and the two dashes. */
  lemma IsoDateChars(d: Day)
    requires ValidDay(d)
    ensures forall i :: 0 <= i < 10 ==> IsDigit(IsoDate(d)[i]) || IsoDate(d)[i] == '-'
  {
    var r := Ord2Ymd(d);
    NatToStringShort(r.year, 4);
    NatToStringShort(r.month, 2);
    NatToStringShort(r.day, 2);
    var y := ZeroPad(r.year, 4);
    var m := ZeroPad(r.month, 2);
    var dd := ZeroPad(r.day, 2);
    var s := IsoDate(d);
    forall i | 0 <= i < 10
      ensures IsDigit(s[i]) || s[i] == '-'
    {
      if i < 4 {
        assert s[i] == y[i];
      } else if 4 < i < 7 {
        assert s[i] == m[i - 5];
      } else if 7 < i {
        assert s[i] == dd[i - 8];
      }
    }
  }

  /** Different days have different ISO strings. */
  lemma IsoDateInjective(d1: Day, d2: Day)
    requires ValidDay(d1) && ValidDay(d2) && IsoDate(d1) == IsoDate(d2)
    ensures d1 == d2
  {
    IsoDateFields(d1);
    IsoDateFields(d2);
    assert Ord2Ymd(d1) == Ord2Ymd(d2);
  }

  predicate AllDigits(s: string) {
    forall i :: 0 <= i < |s| ==> IsDigit(s[i])
  }

  /** `date.fromisoformat(s)` for the extended form "YYYY-MM-DD"; `None`
      where Python raises ValueError. */
  function ParseIsoDate(s: string): (r: Option<Day>)
    ensures r.Some? ==> ValidDay(r.value)
    ensures r.Some? ==> |s| == 10 && s[4] == '-' && s[7] == '-'
  {
    if |s| == 10 && s[4] == '-' && s[7] == '-'
       && AllDigits(s[..4]) && AllDigits(s[5..7]) && AllDigits(s[8..]) then
      var y := DigitsValue(s[..4]);
      var m := DigitsValue(s[5..7]);
      var d := DigitsValue(s[8..]);
      if ValidYmd(y, m, d) then
        Ord2YmdOfYmd2Ord(y, m, d);
        Some(Ymd2Ord(y, m, d))
      else None
    else None
  }

  /** Parsing the ISO string of a day gives the day back. */
  lemma ParseIsoDateRoundTrip(d: Day)
    requires ValidDay(d)
    ensures ParseIsoDate(IsoDate(d)) == Some(d)
  {
    IsoDateFields(d);
    var s := IsoDate(d);
    assert AllDigits(s[..4]) && AllDigits(s[5..7]) && AllDigits(s[8..]);
  }
}
