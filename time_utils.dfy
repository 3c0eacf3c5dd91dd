/** The settlement-period calendar of utils/time.py. A GB settlement day is
    cut into half-hour periods numbered from 1; period `p` starts `(p - 1) * 30`
    minutes after midnight. */
module TimeUtils {
  import opened Wrappers
  import opened Text
  import opened Dates

  /** `datetime.time` without microseconds or tzinfo. */
  datatype Time = Time(hour: int, minute: int, second: int) {
    predicate Valid() {
      0 <= hour <= 23 && 0 <= minute <= 59 && 0 <= second <= 59
    }

    function MinuteOfDay(): int {
      hour * 60 + minute
    }
  }

  /** `time(hour=h, minute=m)`, which checks its arguments. */
  function MakeTime(h: int, m: int): (r: Result<Time>)
    ensures r.Ok? <==> 0 <= h <= 23 && 0 <= m <= 59
    ensures r.Ok? ==> r.value.Valid() && r.value == Time(h, m, 0)
    ensures !(0 <= h <= 23) ==> r == Err(ValueError("hour must be in 0..23"))
  {
    if !(0 <= h <= 23) then Err(ValueError("hour must be in 0..23"))
    else if !(0 <= m <= 59) then Err(ValueError("minute must be in 0..59"))
    else Ok(Time(h, m, 0))
  }

  /** The start of period `p`, in minutes after midnight. */
  function PeriodStartMinute(p: int): int {
    (p - 1) * 30
  }

  /** `settlement_period_to_time`: the range guard admits 1..50, but periods
      49 and 50 start at hour 24, which `time()` refuses. */
  function SettlementPeriodToTime(p: int): (r: Result<Time>)
    ensures !(1 <= p <= 50) ==>
              r == Err(ValueError("Settlement period must be 1-50, got " + IntToString(p)))
    ensures p == 49 || p == 50 ==> r == Err(ValueError("hour must be in 0..23"))
    ensures r.Ok? <==> 1 <= p <= 48
    ensures r.Ok? ==> r.value.Valid() && r.value.second == 0
                      && r.value.MinuteOfDay() == PeriodStartMinute(p)
  {
    if !(1 <= p <= 50) then
      Err(ValueError("Settlement period must be 1-50, got " + IntToString(p)))
    else
      var minutes := (p - 1) * 30;
      MakeTime(minutes / 60, minutes % 60)
  }

  /** `time_to_settlement_period`: the period whose half hour contains `t`;
      seconds play no part. */
  function TimeToSettlementPeriod(t: Time): (p: int)
    ensures t.Valid() ==> 1 <= p <= 48
    ensures t.Valid() ==> PeriodStartMinute(p) <= t.MinuteOfDay() < PeriodStartMinute(p) + 30
  {
    t.MinuteOfDay() / 30 + 1
  }

  /** Seconds never change the period. */
  lemma TimeToSettlementPeriodIgnoresSeconds(h: int, m: int, s1: int, s2: int)
    ensures TimeToSettlementPeriod(Time(h, m, s1)) == TimeToSettlementPeriod(Time(h, m, s2))
  {
  }

  /** The start time of a period of a normal day falls in that period. */
  lemma {:induction false} PeriodTimeRoundTrip(p: int)
    requires 1 <= p <= 48
    ensures SettlementPeriodToTime(p).Ok?
    ensures TimeToSettlementPeriod(SettlementPeriodToTime(p).value) == p
  {
    var t := SettlementPeriodToTime(p).value;
    assert t.MinuteOfDay() == 30 * (p - 1);
    DivUnique(30 * (p - 1), 30, p - 1, 0);
  }

  /** Every time of day is the start of its period or within 30 minutes of it. */
  lemma TimePeriodRoundTrip(t: Time)
    requires t.Valid()
    ensures var p := TimeToSettlementPeriod(t);
            SettlementPeriodToTime(p).Ok?
            && 0 <= t.MinuteOfDay() - SettlementPeriodToTime(p).value.MinuteOfDay() < 30
  {
  }

  /** The documented examples: period 1 starts at 00:00 and period 48 at 23:30. */
  lemma SettlementPeriodExamples()
    ensures SettlementPeriodToTime(1) == Ok(Time(0, 0, 0))
    ensures SettlementPeriodToTime(48) == Ok(Time(23, 30, 0))
  {
    PeriodStart(1, 0, 0);
    PeriodStart(48, 23, 30);
  }

  lemma PeriodStart(p: int, h: int, m: int)
    requires 1 <= p <= 48 && 0 <= h <= 23 && 0 <= m <= 59 && (p - 1) * 30 == h * 60 + m
    ensures SettlementPeriodToTime(p) == Ok(Time(h, m, 0))
  {
    DivUnique((p - 1) * 30, 60, h, m);
  }

  /** And back: 00:00 is in period 1, 23:30 in period 48. */
  lemma TimeToSettlementPeriodExamples()
    ensures TimeToSettlementPeriod(Time(0, 0, 0)) == 1
    ensures TimeToSettlementPeriod(Time(23, 30, 0)) == 48
  {
    PeriodOfStart(Time(0, 0, 0), 1);
    PeriodOfStart(Time(23, 30, 0), 48);
  }

  lemma PeriodOfStart(t: Time, p: int)
    requires 1 <= p <= 48 && t.MinuteOfDay() == (p - 1) * 30
    ensures TimeToSettlementPeriod(t) == p
  {
    DivUnique(t.MinuteOfDay(), 30, p - 1, 0);
  }

  /** `t.strftime('%H:%M')` */
  function Clock(t: Time): (s: string)
    requires t.Valid()
    ensures |s| == 5 && s[2] == ':'
  {
    NatToStringShort(t.hour, 2);
    NatToStringShort(t.minute, 2);
    ZeroPad(t.hour, 2) + ":" + ZeroPad(t.minute, 2)
  }

  /** The end of period `p`: `(p * 30) % 1440` minutes, so the last half hour
      of the day ends at 00:00. */
  function PeriodEnd(p: int): (t: Time)
    ensures t.Valid() && t.second == 0
    ensures t.MinuteOfDay() == (p * 30) % (24 * 60)
  {
    var endMinutes := (p * 30) % (24 * 60);
    Time(endMinutes / 60, endMinutes % 60, 0)
  }

  /** `format_settlement_period`: "YYYY-MM-DD SPp (HH:MM-HH:MM)", failing as
      `settlement_period_to_time` does. */
  function FormatSettlementPeriod(d: Day, p: int): (r: Result<string>)
    requires ValidDay(d)
    ensures r.Ok? <==> 1 <= p <= 48
    ensures r.Err? ==> r == Err(SettlementPeriodToTime(p).error)
    ensures r.Ok? ==> r.value == IsoDate(d) + " SP" + IntToString(p) + " ("
                                 + Clock(SettlementPeriodToTime(p).value) + "-" + Clock(PeriodEnd(p)) + ")"
  {
    var start :- SettlementPeriodToTime(p);
    Ok(IsoDate(d) + " SP" + IntToString(p) + " (" + Clock(start) + "-" + Clock(PeriodEnd(p)) + ")")
  }

  /** A label's end time is the start of the next period, or 00:00 after the
      48th. */
  lemma PeriodEndIsNextStart(p: int)
    requires 1 <= p <= 48
    ensures p < 48 ==> PeriodEnd(p) == SettlementPeriodToTime(p + 1).value
    ensures p == 48 ==> PeriodEnd(p) == Time(0, 0, 0)
  {
    if p < 48 {
      DivUnique(p * 30, 24 * 60, 0, p * 30);
    } else {
      DivUnique(p * 30, 24 * 60, 1, 0);
    }
  }

  /** The documented example "2024-01-15 SP23 (11:00-11:30)" has the start
      and end of period 23. */
  lemma FormatExample()
    ensures SettlementPeriodToTime(23) == Ok(Time(11, 0, 0))
    ensures PeriodEnd(23) == Time(11, 30, 0)
  {
  }

  /** The classification in `get_periods_in_day`: a 24-hour day has 48
      periods, a 23-hour day 46, any other length 50. */
  function PeriodsForDuration(hours: real): (n: int)
    ensures n == 48 <==> hours == 24.0
    ensures n == 46 <==> hours == 23.0
    ensures n == 50 <==> hours != 24.0 && hours != 23.0
  {
    if hours == 24.0 then 48
    else if hours == 23.0 then 46
    else 50
  }

  /** `(end - start).total_seconds() / 3600` for two midnights that share one
      tzinfo object: Python subtracts such datetimes as wall-clock times and
      ignores the UTC offsets. */
  function NaiveDurationHours(start: Day, end: Day): real {
    ((end - start) * 86400) as real / 3600.0
  }

  /** `get_periods_in_day` as written. Building the next midnight overflows
      on 9999-12-31, the last day `date` can hold. */
  function GetPeriodsInDay(d: Day): (r: Result<int>)
    requires ValidDay(d)
    ensures r.Err? <==> d == MaxOrdinal
    ensures r.Err? ==> r.error == OverflowError("date value out of range")
  {
    if d == MaxOrdinal then Err(OverflowError("date value out of range"))
    else Ok(PeriodsForDuration(NaiveDurationHours(d, d + 1)))
  }

  /** As written, every day that has a successor has 48 periods, clock-change
      days included. */
  lemma GetPeriodsInDayAlways48(d: Day)
    requires ValidDay(d) && d < MaxOrdinal
    ensures GetPeriodsInDay(d) == Ok(48)
  {
  }

  /** `x - (x.weekday() + 1) % 7`: the latest Sunday not after `x`. */
  function LastSundayOnOrBefore(x: Day): (s: Day)
    ensures Weekday(s) == 6 && x - 7 < s <= x
  {
    x - (Weekday(x) + 1) % 7
  }

  /** The last Sunday of March, when Great Britain moves its clocks forward
      one hour at 01:00 UTC under the current summer-time rule. */
  function SpringForward(year: int): Day
    requires 1 <= year <= MaxYear
  {
    LastSundayOnOrBefore(Ymd2Ord(year, 3, 31))
  }

  /** The last Sunday of October, when the clocks go back. */
  function FallBack(year: int): Day
    requires 1 <= year <= MaxYear
  {
    LastSundayOnOrBefore(Ymd2Ord(year, 10, 31))
  }

  /** The elapsed hours of day `d` in Europe/London under the current rule. */
  function UkDayHours(d: Day): (h: real)
    requires ValidDay(d)
    ensures h == 23.0 || h == 24.0 || h == 25.0
  {
    var y := Ord2Ymd(d).year;
    if d == SpringForward(y) then 23.0
    else if d == FallBack(y) then 25.0
    else 24.0
  }

  /** `get_periods_in_day` with the elapsed time of the day instead of the
      wall-clock difference: 46 on the spring change, 50 on the autumn one. */
  function GetPeriodsInUkDay(d: Day): (n: int)
    requires ValidDay(d)
    ensures n == 46 <==> d == SpringForward(Ord2Ymd(d).year)
    ensures n == 50 <==> d == FallBack(Ord2Ymd(d).year)
    ensures n == 48 <==> d != SpringForward(Ord2Ymd(d).year) && d != FallBack(Ord2Ymd(d).year)
  {
    var y := Ord2Ymd(d).year;
    assert SpringForward(y) != FallBack(y) by {
      assert SpringForward(y) <= Ymd2Ord(y, 3, 31) < Ymd2Ord(y, 10, 1) <= FallBack(y);
    }
    PeriodsForDuration(UkDayHours(d))
  }

  /** 31 March 2024 was a 23-hour day: the as-written function reports 48
      periods where 46 were settled. */
  lemma SpringForward2024()
    ensures SpringForward(2024) == Ymd2Ord(2024, 3, 31)
    ensures GetPeriodsInDay(Ymd2Ord(2024, 3, 31)) == Ok(48)
    ensures GetPeriodsInUkDay(Ymd2Ord(2024, 3, 31)) == 46
  {
    var d := Ymd2Ord(2024, 3, 31);
    assert d == 738976 by {
      assert DaysBeforeYear(2024) == 738885;
    }
    assert SpringForward(2024) == d by {
      assert Weekday(738976) == 6;
    }
    assert Ord2Ymd(d).year == 2024 by {
      Ord2YmdOfYmd2Ord(2024, 3, 31);
    }
    GetPeriodsInDayAlways48(d);
  }

  /** 27 October 2024 was a 25-hour day: 48 as written, 50 settled. */
  lemma FallBack2024()
    ensures FallBack(2024) == Ymd2Ord(2024, 10, 27)
    ensures GetPeriodsInDay(Ymd2Ord(2024, 10, 27)) == Ok(48)
    ensures GetPeriodsInUkDay(Ymd2Ord(2024, 10, 27)) == 50
  {
    var d := Ymd2Ord(2024, 10, 27);
    assert Ymd2Ord(2024, 10, 31) == 739190 && d == 739186 by {
      assert DaysBeforeYear(2024) == 738885;
    }
    assert FallBack(2024) == d by {
      assert Weekday(739190) == 3;
    }
    assert Ord2Ymd(d).year == 2024 by {
      Ord2YmdOfYmd2Ord(2024, 10, 27);
    }
    GetPeriodsInDayAlways48(d);
  }
}
