/** Date-times as the clients read and write them: `datetime.fromisoformat`
    for "YYYY-MM-DDTHH:MM[:SS][±HH:MM]", `str.replace("Z", "+00:00")`, and
    `strftime("%Y-%m-%dT%H:%MZ")`. */
module DateTimes {
  import opened Wrappers
  import opened Text
  import opened Dates

  /** A `datetime` without microseconds; `offset` is the UTC offset in
      minutes, `None` for a naive value. */
  datatype DateTime = DateTime(day: Day, hour: int, minute: int, second: int, offset: Option<int>) {
    predicate Valid() {
      ValidDay(day) && 0 <= hour <= 23 && 0 <= minute <= 59 && 0 <= second <= 59
      && (offset.Some? ==> -1440 < offset.value < 1440)
    }
  }

  /** Seconds since 0001-01-01T00:00 UTC; aware date-times compare by this. */
  function Instant(t: DateTime): int {
    ((t.day * 24 + t.hour) * 60 + t.minute) * 60 + t.second
    - (if t.offset.Some? then t.offset.value * 60 else 0)
  }

  predicate NoZ(s: string) {
    forall i :: 0 <= i < |s| ==> s[i] != 'Z'
  }

  lemma NoZConcat(a: string, b: string)
    requires NoZ(a) && NoZ(b)
    ensures NoZ(a + b)
  {
    forall i | 0 <= i < |a + b|
      ensures (a + b)[i] != 'Z'
    {
      if i >= |a| {
        assert (a + b)[i] == b[i - |a|];
      }
    }
  }

  /** `s.replace("Z", "+00:00")`: every "Z", not only a trailing one. */
  function ReplaceZ(s: string): (r: string)
    ensures NoZ(s) ==> r == s
  {
    if s == [] then []
    else ReplaceZ(s[..|s| - 1]) + (if s[|s| - 1] == 'Z' then "+00:00" else [s[|s| - 1]])
  }

  lemma {:induction false} ReplaceZAppend(s: string, t: string)
    ensures ReplaceZ(s + t) == ReplaceZ(s) + ReplaceZ(t)
    decreases |t|
  {
    if t == [] {
      assert s + t == s;
    } else {
      var u := t[..|t| - 1];
      var c := t[|t| - 1];
      var tail := if c == 'Z' then "+00:00" else [c];
      assert (s + t)[..|s + t| - 1] == s + u;
      assert (s + t)[|s + t| - 1] == c;
      ReplaceZAppend(s, u);
      assert ReplaceZ(s + t) == (ReplaceZ(s) + ReplaceZ(u)) + tail;
      assert ReplaceZ(t) == ReplaceZ(u) + tail;
    }
  }

  /** Two decimal digits. */
  function TwoDigits(s: string): (r: Option<int>)
    requires |s| == 2
    ensures r.Some? ==> 0 <= r.value <= 99
  {
    if IsDigit(s[0]) && IsDigit(s[1]) then
      Some(10 * (s[0] as int - '0' as int) + (s[1] as int - '0' as int))
    else None
  }

  lemma TwoDigitsValue(s: string)
    requires |s| == 2 && IsDigit(s[0]) && IsDigit(s[1])
    ensures TwoDigits(s) == Some(DigitsValue(s))
  {
    var a := s[..1];
    assert a[..0] == [];
    assert DigitsValue(a) == s[0] as int - '0' as int;
    assert s[..|s| - 1] == a;
  }

  /** "+HH:MM", "-HH:MM" or nothing. */
  function ParseOffset(s: string): (r: Option<Option<int>>)
    ensures r.Some? && r.value.Some? ==> -1440 < r.value.value < 1440
  {
    if s == [] then Some(None)
    else if |s| == 6 && (s[0] == '+' || s[0] == '-') && s[3] == ':' then
      (match (TwoDigits(s[1..3]), TwoDigits(s[4..6]))
       case (Some(h), Some(m)) =>
         if m <= 59 && h <= 23 then Some(Some(if s[0] == '+' then h * 60 + m else -(h * 60 + m)))
         else None
       case _ => None)
    else None
  }

  /** `datetime.fromisoformat(s)` for "YYYY-MM-DDTHH:MM", optionally followed
      by ":SS" and by a UTC offset; `None` where Python raises ValueError. */
  function ParseIsoDateTime(s: string): (r: Option<DateTime>)
    ensures r.Some? ==> r.value.Valid()
  {
    if |s| < 16 || s[10] != 'T' || s[13] != ':' then None
    else
      match (ParseIsoDate(s[..10]), TwoDigits(s[11..13]), TwoDigits(s[14..16]))
      case (Some(d), Some(h), Some(m)) =>
        if h > 23 || m > 59 then None else ParseAfterMinute(d, h, m, s[16..])
      case _ => None
  }

  /** What follows "YYYY-MM-DDTHH:MM": optional ":SS", then an optional
      offset. */
  function ParseAfterMinute(d: Day, h: int, m: int, rest: string): (r: Option<DateTime>)
    requires ValidDay(d) && 0 <= h <= 23 && 0 <= m <= 59
    ensures r.Some? ==> r.value.Valid() && r.value.day == d && r.value.hour == h && r.value.minute == m
  {
    if |rest| >= 3 && rest[0] == ':' then
      (match (TwoDigits(rest[1..3]), ParseOffset(rest[3..]))
       case (Some(sec), Some(off)) =>
         if sec > 59 then None else Some(DateTime(d, h, m, sec, off))
       case _ => None)
    else
      (match ParseOffset(rest)
       case Some(off) => Some(DateTime(d, h, m, 0, off))
       case None => None)
  }

  /** "THH:MM", the time of day as `MinuteText` writes it. */
  function TimeText(h: nat, m: nat): (s: string)
    requires h < 100 && m < 100
    ensures |s| == 6
  {
    NatToStringShort(h, 2);
    NatToStringShort(m, 2);
    "T" + ZeroPad(h, 2) + ":" + ZeroPad(m, 2)
  }

  lemma TimeTextFields(h: nat, m: nat)
    requires h < 100 && m < 100
    ensures var s := TimeText(h, m);
            s[0] == 'T' && s[3] == ':' && s[1..3] == ZeroPad(h, 2) && s[4..] == ZeroPad(m, 2)
            && NoZ(s)
  {
    NatToStringShort(h, 2);
    NatToStringShort(m, 2);
  }

  /** "YYYY-MM-DDTHH:MM", the part `FormatZ` and `IsoFormat` share. */
  function MinuteText(t: DateTime): (s: string)
    requires t.Valid()
    ensures |s| == 16
  {
    IsoDate(t.day) + TimeText(t.hour, t.minute)
  }

  /** `t.strftime("%Y-%m-%dT%H:%MZ")`: the wall-clock time with a literal
      "Z", whatever the offset. */
  function FormatZ(t: DateTime): (s: string)
    requires t.Valid()
    ensures |s| == 17 && s[16] == 'Z'
  {
    MinuteText(t) + "Z"
  }

  lemma TwoDigitsOfZeroPad(n: nat)
    requires n < 100
    ensures |ZeroPad(n, 2)| == 2 && TwoDigits(ZeroPad(n, 2)) == Some(n)
  {
    NatToStringShort(n, 2);
    ZeroPadValue(n, 2);
    TwoDigitsValue(ZeroPad(n, 2));
  }

  /** The fields of `MinuteText`, and that it holds no "Z". */
  lemma MinuteTextFields(t: DateTime)
    requires t.Valid()
    ensures var s := MinuteText(t);
            NoZ(s) && s[..10] == IsoDate(t.day) && s[10] == 'T' && s[13] == ':'
            && s[11..13] == ZeroPad(t.hour, 2) && s[14..16] == ZeroPad(t.minute, 2)
  {
    var a := IsoDate(t.day);
    var b := TimeText(t.hour, t.minute);
    var s := a + b;
    TimeTextFields(t.hour, t.minute);
    assert s[..10] == a && s[10..] == b;
    assert s[11..13] == b[1..3] && s[14..16] == b[4..];
    assert NoZ(a) by {
      IsoDateChars(t.day);
    }
    NoZConcat(a, b);
  }

  /** Parsing a `MinuteText` followed by anything reads back its date, hour
      and minute, and leaves the rest to `ParseAfterMinute`. */
  lemma ParseMinuteText(t: DateTime, rest: string)
    requires t.Valid()
    ensures ParseIsoDateTime(MinuteText(t) + rest)
            == ParseAfterMinute(t.day, t.hour, t.minute, rest)
  {
    var p := MinuteText(t);
    var s := p + rest;
    assert s[..10] == p[..10] && s[11..13] == p[11..13] && s[14..16] == p[14..16];
    assert s[16..] == rest;
    MinuteTextFields(t);
    ParseIsoDateRoundTrip(t.day);
    TwoDigitsOfZeroPad(t.hour);
    TwoDigitsOfZeroPad(t.minute);
  }

  lemma ReplaceZOfFormatZ(t: DateTime)
    requires t.Valid()
    ensures ReplaceZ(FormatZ(t)) == MinuteText(t) + "+00:00"
  {
    MinuteTextFields(t);
    ReplaceZAppend(MinuteText(t), "Z");
    assert ReplaceZ("Z") == "+00:00";
  }

  /** A query-window bound read back the way the response parser reads the
      API's "Z" strings: the same wall-clock minute, at offset zero. */
  lemma FormatZRoundTrip(t: DateTime)
    requires t.Valid()
    ensures ParseIsoDateTime(ReplaceZ(FormatZ(t)))
            == Some(DateTime(t.day, t.hour, t.minute, 0, Some(0)))
  {
    ReplaceZOfFormatZ(t);
    ParseMinuteText(t, "+00:00");
    ParseUtcOffset();
  }

  /** "+00:00" is offset zero. */
  lemma ParseUtcOffset()
    ensures ParseOffset("+00:00") == Some(Some(0))
  {
    var s := "+00:00";
    assert s[1..3] == "00" && s[4..6] == "00";
    assert TwoDigits("00") == Some(0);
  }

  /** The "+HH:MM" / "-HH:MM" that `isoformat()` appends to an aware value;
      nothing for a naive one. */
  function OffsetSuffix(offset: Option<int>): (s: string)
    requires offset.Some? ==> -1440 < offset.value < 1440
    ensures offset.None? ==> s == []
    ensures offset.Some? ==> |s| == 6
  {
    match offset
    case None => []
    case Some(o) =>
      var a := if o < 0 then -o else o;
      TwoDigitsOfZeroPad(a / 60);
      TwoDigitsOfZeroPad(a % 60);
      [if o < 0 then '-' else '+'] + ZeroPad(a / 60, 2) + ":" + ZeroPad(a % 60, 2)
  }

  lemma ParseOffsetSuffix(offset: Option<int>)
    requires offset.Some? ==> -1440 < offset.value < 1440
    ensures ParseOffset(OffsetSuffix(offset)) == Some(offset)
  {
    if offset.Some? {
      var o := offset.value;
      var a := if o < 0 then -o else o;
      var s := OffsetSuffix(offset);
      TwoDigitsOfZeroPad(a / 60);
      TwoDigitsOfZeroPad(a % 60);
      assert s[1..3] == ZeroPad(a / 60, 2);
      assert s[4..6] == ZeroPad(a % 60, 2);
    }
  }

  /** `t.isoformat()`: "YYYY-MM-DDTHH:MM:SS", then the offset if aware. */
  function IsoFormat(t: DateTime): (s: string)
    requires t.Valid()
    ensures |s| == 19 + |OffsetSuffix(t.offset)|
  {
    TwoDigitsOfZeroPad(t.second);
    MinuteText(t) + (":" + ZeroPad(t.second, 2) + OffsetSuffix(t.offset))
  }

  /** `datetime.fromisoformat(t.isoformat()) == t`, offset included. */
  lemma IsoFormatRoundTrip(t: DateTime)
    requires t.Valid()
    ensures ParseIsoDateTime(IsoFormat(t)) == Some(t)
  {
    var rest := ":" + ZeroPad(t.second, 2) + OffsetSuffix(t.offset);
    ParseMinuteText(t, rest);
    TwoDigitsOfZeroPad(t.second);
    ParseOffsetSuffix(t.offset);
    assert rest[1..3] == ZeroPad(t.second, 2);
    assert rest[3..] == OffsetSuffix(t.offset);
  }

  /** Different date-times have different ISO strings. */
  lemma IsoFormatInjective(t1: DateTime, t2: DateTime)
    requires t1.Valid() && t2.Valid() && IsoFormat(t1) == IsoFormat(t2)
    ensures t1 == t2
  {
    IsoFormatRoundTrip(t1);
    IsoFormatRoundTrip(t2);
  }
}
