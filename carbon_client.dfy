/** The National Grid Carbon Intensity client of clients/carbon_intensity.py:
    current and historical intensity, the generation mix, and the daily
    intensity summary. The HTTP layer is a function parameter: it maps an
    endpoint to what `self.get(endpoint)` returns, reduced to the response's
    "data" member. */
module CarbonClient {
  import opened Wrappers
  import opened Text
  import opened Dates
  import opened Decimals
  import opened Seqs
  import opened DateTimes
  import opened Carbon

  const CarbonIntensityBaseUrl := "https://api.carbonintensity.org.uk"
  const IntensityPath := "/intensity"
  const GenerationPath := "/generation"
  const NoCurrentIntensity := "No current carbon intensity data available"
  const NoFuelMix := "No fuel mix data available"
  const MixedAwareness := "can't compare offset-naive and offset-aware datetimes"

  /** `self.get(endpoint)["data"]` for the intensity endpoints: a list of
      readings. */
  type IntensityApi = string -> Result<JsonField<seq<RawCarbonIntensity>>>

  /** `self.get("/generation")["data"]`: one object, `None` standing for the
      empty object `{}`. */
  type GenerationApi = string -> Result<JsonField<Option<RawFuelMix>>>

  /** `self.get("/generation/{from}/{to}")["data"]`: a list of mixes. */
  type GenerationRangeApi = string -> Result<JsonField<seq<RawFuelMix>>>

  function ReadingStart(c: CarbonIntensity): DateTime {
    c.datetimeFrom
  }

  function MixStart(f: FuelMix): DateTime {
    f.datetimeFrom
  }

  /** The sort key of `key=lambda x: x.datetime_from` for readings. */
  function ReadingKey(c: CarbonIntensity): int {
    Instant(c.datetimeFrom)
  }

  function MixKey(f: FuelMix): int {
    Instant(f.datetimeFrom)
  }

  /** Python orders aware date-times by instant and naive ones by wall clock
      (both are `Instant`), and refuses to compare one of each. */
  predicate AwarenessAgrees<T>(xs: seq<T>, start: T -> DateTime) {
    forall i, j :: 0 <= i < |xs| && 0 <= j < |xs| ==> start(xs[i]).offset.Some? == start(xs[j]).offset.Some?
  }

  /** `sorted(xs, key=lambda x: x.datetime_from)`: stable; with a naive and
      an aware start in the list, some comparison mixes the two and raises. */
  function SortByStart<T(==)>(xs: seq<T>, start: T -> DateTime, key: T -> int): (r: Result<seq<T>>)
    ensures r.Ok? <==> AwarenessAgrees(xs, start)
    ensures r.Err? ==> r.error == TypeError(MixedAwareness)
    ensures r.Ok? ==> SortedBy(r.value, key) && multiset(r.value) == multiset(xs)
  {
    if AwarenessAgrees(xs, start) then Ok(SortBy(xs, key)) else Err(TypeError(MixedAwareness))
  }

  /** Readings whose start is marked "Z" are all aware, so they always sort. */
  lemma UtcReadingsSort(rs: seq<CarbonIntensity>)
    requires forall i :: 0 <= i < |rs| ==> rs[i].datetimeFrom.offset == Some(0)
    ensures SortByStart(rs, ReadingStart, ReadingKey).Ok?
  {
  }

  /** `"/intensity/date/" + target_date.isoformat()` */
  function DateEndpoint(d: Day): (e: string)
    requires ValidDay(d)
    ensures |e| == 26 && e[16..] == IsoDate(d)
  {
    IntensityPath + "/date/" + IsoDate(d)
  }

  /** Different days are fetched from different endpoints. */
  lemma DateEndpointInjective(d1: Day, d2: Day)
    requires ValidDay(d1) && ValidDay(d2) && DateEndpoint(d1) == DateEndpoint(d2)
    ensures d1 == d2
  {
    assert IsoDate(d1) == DateEndpoint(d1)[16..];
    IsoDateInjective(d1, d2);
  }

  /** `f"/intensity/{from_str}/{to_str}"` with both bounds formatted by
      `strftime("%Y-%m-%dT%H:%MZ")`. */
  function RangeEndpoint(a: DateTime, b: DateTime): string
    requires a.Valid() && b.Valid()
  {
    (IntensityPath + "/" + FormatZ(a)) + ("/" + FormatZ(b))
  }

  /** The three parts of `x + y + z` are its slices. */
  lemma SliceOfConcat3<T>(x: seq<T>, y: seq<T>, z: seq<T>)
    ensures ((x + y) + z)[..|x|] == x && ((x + y) + z)[|x|..|x| + |y|] == y && ((x + y) + z)[|x| + |y|..] == z
  {
    var w := (x + y) + z;
    assert w[..|x| + |y|] == x + y;
    assert w[|x|..|x| + |y|] == (x + y)[|x|..];
  }

  /** Where the two bounds sit in the window endpoint. */
  lemma RangeEndpointSlices(a: DateTime, b: DateTime)
    requires a.Valid() && b.Valid()
    ensures |RangeEndpoint(a, b)| == 46
    ensures RangeEndpoint(a, b)[11..28] == FormatZ(a) && RangeEndpoint(a, b)[29..] == FormatZ(b)
  {
    var rest := "/" + FormatZ(b);
    SliceOfConcat3(IntensityPath + "/", FormatZ(a), rest);
    assert RangeEndpoint(a, b)[29..] == rest[1..];
  }

  /** The window endpoint carries the two bounds at fixed places, and the API
      reads each back as the same wall-clock minute at UTC: seconds and the
      caller's offset are dropped. */
  lemma RangeEndpointBounds(a: DateTime, b: DateTime)
    requires a.Valid() && b.Valid()
    ensures |RangeEndpoint(a, b)| == 46
    ensures RangeEndpoint(a, b)[11..28] == FormatZ(a) && RangeEndpoint(a, b)[29..] == FormatZ(b)
    ensures ParseIsoDateTime(ReplaceZ(RangeEndpoint(a, b)[11..28])) == Some(DateTime(a.day, a.hour, a.minute, 0, Some(0)))
    ensures ParseIsoDateTime(ReplaceZ(RangeEndpoint(a, b)[29..])) == Some(DateTime(b.day, b.hour, b.minute, 0, Some(0)))
  {
    RangeEndpointSlices(a, b);
    FormatZRoundTrip(a);
    FormatZRoundTrip(b);
  }

  /** What `get_by_date` and `get_range` return for a response: the readings
      that parse, sorted by start. */
  function ReadingsFrom(response: Result<JsonField<seq<RawCarbonIntensity>>>): (r: Result<seq<CarbonIntensity>>)
    ensures r.Err? && response.Err? ==> r.error == response.error
    ensures response.Ok? && response.value.Null? ==> r.Err? && r.error.TypeError?
    ensures r.Ok? ==> response.Ok? && !response.value.Null? && SortedBy(r.value, ReadingKey)
  {
    var data :- response;
    var items :- DataItems(data);
    SortByStart(Parsed(items, CarbonIntensityFromResponse), ReadingStart, ReadingKey)
  }

  /** A reading is returned exactly when some item of the response parses to
      it. */
  lemma ReadingsContents(response: Result<JsonField<seq<RawCarbonIntensity>>>, c: CarbonIntensity)
    requires ReadingsFrom(response).Ok? && response.value.Present?
    ensures var items := response.value.value;
            c in ReadingsFrom(response).value
            <==> exists i :: 0 <= i < |items| && CarbonIntensityFromResponse(items[i]) == Ok(c)
  {
    var items := response.value.value;
    SortByMembership(Parsed(items, CarbonIntensityFromResponse), ReadingKey, c);
    ParsedMembership(items, CarbonIntensityFromResponse, c);
  }

  /** When every item parses, nothing is dropped. */
  lemma ReadingsKeepEveryItem(response: Result<JsonField<seq<RawCarbonIntensity>>>)
    requires ReadingsFrom(response).Ok? && response.value.Present?
    requires forall i :: 0 <= i < |response.value.value| ==> CarbonIntensityFromResponse(response.value.value[i]).Ok?
    ensures |ReadingsFrom(response).value| == |response.value.value|
  {
  }

  /** Fetched readings start at date-times Python can hold. */
  lemma ReadingsFromValid(response: Result<JsonField<seq<RawCarbonIntensity>>>)
    ensures ReadingsFrom(response).Ok? ==> ReadingsValid(ReadingsFrom(response).value)
  {
    var r := ReadingsFrom(response);
    if r.Ok? && response.value.Present? {
      var items := response.value.value;
      forall i | 0 <= i < |r.value|
        ensures r.value[i].datetimeFrom.Valid()
      {
        ReadingsContents(response, r.value[i]);
        var j :| 0 <= j < |items| && CarbonIntensityFromResponse(items[j]) == Ok(r.value[i]);
      }
    }
  }

  /** The parse-and-sort tail shared by `get_by_date` and `get_range`. */
  method ParseReadings(response: Result<JsonField<seq<RawCarbonIntensity>>>) returns (r: Result<seq<CarbonIntensity>>)
    ensures r == ReadingsFrom(response)
  {
    if response.Err? {
      return Err(response.error);
    }
    var items := DataItems(response.value);
    if items.Err? {
      return Err(items.error);
    }
    var readings := ParseAll(items.value, CarbonIntensityFromResponse);
    r := SortByStart(readings, ReadingStart, ReadingKey);
  }

  /** `get_by_date` */
  method GetByDate(api: IntensityApi, d: Day) returns (r: Result<seq<CarbonIntensity>>)
    requires ValidDay(d)
    ensures r == ReadingsFrom(api(DateEndpoint(d)))
  {
    var response := api(DateEndpoint(d));
    r := ParseReadings(response);
  }

  /** `get_range` */
  method GetRange(api: IntensityApi, a: DateTime, b: DateTime) returns (r: Result<seq<CarbonIntensity>>)
    requires a.Valid() && b.Valid()
    ensures r == ReadingsFrom(api(RangeEndpoint(a, b)))
  {
    var response := api(RangeEndpoint(a, b));
    r := ParseReadings(response);
  }

  /** `get_today`, with `date.today()` as a parameter. */
  method GetToday(api: IntensityApi, today: Day) returns (r: Result<seq<CarbonIntensity>>)
    requires ValidDay(today)
    ensures r == ReadingsFrom(api(DateEndpoint(today)))
  {
    r := GetByDate(api, today);
  }

  /** `get_yesterday`: `date.today() - timedelta(days=1)` overflows on the
      first calendar day. */
  method GetYesterday(api: IntensityApi, today: Day) returns (r: Result<seq<CarbonIntensity>>)
    requires ValidDay(today)
    ensures today == 1 ==> r == Err(OverflowError("date value out of range"))
    ensures today > 1 ==> r == ReadingsFrom(api(DateEndpoint(today - 1)))
  {
    if today > 1 {
      r := GetByDate(api, today - 1);
    } else {
      r := Err(OverflowError("date value out of range"));
    }
  }

  /** `get_current`: the first reading of "/intensity"; a missing, null or
      empty list raises ValueError. */
  function GetCurrent(api: IntensityApi): (r: Result<CarbonIntensity>)
    ensures var response := api(IntensityPath);
            && (response.Err? ==> r == Err(response.error))
            && (response.Ok? && !(response.value.Present? && response.value.value != []) ==>
                  r == Err(ValueError(NoCurrentIntensity)))
            && (response.Ok? && response.value.Present? && response.value.value != [] ==>
                  r == CarbonIntensityFromResponse(response.value.value[0]))
  {
    var data :- api(IntensityPath);
    if data.Present? && data.value != [] then CarbonIntensityFromResponse(data.value[0])
    else Err(ValueError(NoCurrentIntensity))
  }

  /** `get_fuel_mix_current`: the single object of "/generation"; a missing,
      null or empty object raises ValueError. */
  function GetFuelMixCurrent(api: GenerationApi): (r: Result<FuelMix>)
    ensures var response := api(GenerationPath);
            && (response.Err? ==> r == Err(response.error))
            && (response.Ok? && !(response.value.Present? && response.value.value.Some?) ==>
                  r == Err(ValueError(NoFuelMix)))
            && (response.Ok? && response.value.Present? && response.value.value.Some? ==>
                  r == FuelMixFromResponse(response.value.value.value))
  {
    var data :- api(GenerationPath);
    if data.Present? && data.value.Some? then FuelMixFromResponse(data.value.value)
    else Err(ValueError(NoFuelMix))
  }

  /** `get_fuel_mix_by_date`'s window: `datetime.combine` with `time.min`
      and `time.max` (23:59:59.999999, microseconds not modelled). */
  function FuelMixWindow(d: Day): (w: (DateTime, DateTime))
    requires ValidDay(d)
    ensures w.0.Valid() && w.1.Valid() && w.0.day == d && w.1.day == d
  {
    (DateTime(d, 0, 0, 0, None), DateTime(d, 23, 59, 59, None))
  }

  function FuelMixEndpoint(d: Day): (e: string)
    requires ValidDay(d)
  {
    var (a, b) := FuelMixWindow(d);
    GenerationPath + "/" + FormatZ(a) + "/" + FormatZ(b)
  }

  /** The window is the day from "T00:00Z" to "T23:59Z". */
  lemma FuelMixEndpointShape(d: Day)
    requires ValidDay(d)
    ensures FuelMixEndpoint(d) == GenerationPath + "/" + (IsoDate(d) + "T00:00Z") + "/" + (IsoDate(d) + "T23:59Z")
  {
    FuelMixWindowStart(d);
    FuelMixWindowEnd(d);
  }

  lemma FuelMixWindowStart(d: Day)
    requires ValidDay(d)
    ensures FormatZ(FuelMixWindow(d).0) == IsoDate(d) + "T00:00Z"
  {
    var iso := IsoDate(d);
    assert ZeroPad(0, 2) == "00";
    assert FormatZ(FuelMixWindow(d).0) == iso + "T" + "00" + ":" + "00" + "Z";
  }

  lemma FuelMixWindowEnd(d: Day)
    requires ValidDay(d)
    ensures FormatZ(FuelMixWindow(d).1) == IsoDate(d) + "T23:59Z"
  {
    var iso := IsoDate(d);
    assert ZeroPad(23, 2) == "23";
    assert ZeroPad(59, 2) == "59";
    assert FormatZ(FuelMixWindow(d).1) == iso + "T" + "23" + ":" + "59" + "Z";
  }

  /** What `get_fuel_mix_by_date` returns for a response. */
  function FuelMixesFrom(response: Result<JsonField<seq<RawFuelMix>>>): (r: Result<seq<FuelMix>>)
    ensures r.Err? && response.Err? ==> r.error == response.error
    ensures r.Ok? ==> response.Ok? && !response.value.Null? && SortedBy(r.value, MixKey)
  {
    var data :- response;
    var items :- DataItems(data);
    SortByStart(Parsed(items, FuelMixFromResponse), MixStart, MixKey)
  }

  lemma FuelMixesContents(response: Result<JsonField<seq<RawFuelMix>>>, f: FuelMix)
    requires FuelMixesFrom(response).Ok? && response.value.Present?
    ensures var items := response.value.value;
            f in FuelMixesFrom(response).value
            <==> exists i :: 0 <= i < |items| && FuelMixFromResponse(items[i]) == Ok(f)
  {
    var items := response.value.value;
    SortByMembership(Parsed(items, FuelMixFromResponse), MixKey, f);
    ParsedMembership(items, FuelMixFromResponse, f);
  }

  /** Fetched fuel mixes start at date-times Python can hold. */
  lemma FuelMixesFromValid(response: Result<JsonField<seq<RawFuelMix>>>)
    ensures FuelMixesFrom(response).Ok? ==> MixesValid(FuelMixesFrom(response).value)
  {
    var r := FuelMixesFrom(response);
    if r.Ok? && response.value.Present? {
      var items := response.value.value;
      forall i | 0 <= i < |r.value|
        ensures r.value[i].datetimeFrom.Valid()
      {
        FuelMixesContents(response, r.value[i]);
        var j :| 0 <= j < |items| && FuelMixFromResponse(items[j]) == Ok(r.value[i]);
      }
    }
  }

  /** `get_fuel_mix_by_date` */
  method GetFuelMixByDate(api: GenerationRangeApi, d: Day) returns (r: Result<seq<FuelMix>>)
    requires ValidDay(d)
    ensures r == FuelMixesFrom(api(FuelMixEndpoint(d)))
  {
    var response := api(FuelMixEndpoint(d));
    if response.Err? {
      return Err(response.error);
    }
    var items := DataItems(response.value);
    if items.Err? {
      return Err(items.error);
    }
    var mixes := ParseAll(items.value, FuelMixFromResponse);
    r := SortByStart(mixes, MixStart, MixKey);
  }

  /** `[r.intensity for r in readings]` */
  function Intensities(rs: seq<CarbonIntensity>): (r: seq<int>)
    ensures |r| == |rs| && forall i :: 0 <= i < |rs| ==> r[i] == Intensity(rs[i])
  {
    if rs == [] then [] else Intensities(rs[..|rs| - 1]) + [Intensity(rs[|rs| - 1])]
  }

  /** The dict of `get_average_intensity`; the average is in tenths. */
  datatype IntensitySummary = IntensitySummary(averageTenths: int, min: int, max: int, numPeriods: int)

  /** `s` holds the statistics of `values`: their count, their least and
      greatest member, and their exact mean rounded half-to-even to tenths. */
  predicate Describes(s: IntensitySummary, values: seq<int>) {
    s.numPeriods == |values| && s.min in values && s.max in values
    && (forall i :: 0 <= i < |values| ==> s.min <= values[i] <= s.max)
    && IsHalfEven(10 * Sum(values), |values|, s.averageTenths)
  }

  /** The summary of a day's readings: the exact mean rounded half-to-even to
      one decimal, the min and max intensity and the count. */
  function Summarize(d: Day, readings: seq<CarbonIntensity>): (r: Result<IntensitySummary>)
    requires ValidDay(d)
    ensures r.Ok? <==> readings != []
    ensures r.Err? ==> r.error == ValueError("No data for " + IsoDate(d))
    ensures r.Ok? ==> Describes(r.value, Intensities(readings))
  {
    if readings == [] then Err(ValueError("No data for " + IsoDate(d)))
    else
      var values := Intensities(readings);
      Ok(IntensitySummary(QuantizeTenths(Sum(values), |values|), Min(values), Max(values), |values|))
  }

  /** The rounded average lies between the min and the max. */
  lemma SummaryAverageBetween(d: Day, readings: seq<CarbonIntensity>)
    requires ValidDay(d) && readings != []
    ensures var s := Summarize(d, readings).value;
            10 * s.min <= s.averageTenths <= 10 * s.max
  {
    var values := Intensities(readings);
    var n := |values|;
    var lo := Min(values);
    var hi := Max(values);
    SumBetween(values, lo, hi);
    QuantizeTenthsBetween(Sum(values), n, lo, hi);
  }

  /** `get_average_intensity`: the day's readings, summarised. */
  function AverageIntensity(api: IntensityApi, d: Day): (r: Result<IntensitySummary>)
    requires ValidDay(d)
    ensures r.Ok? ==> ReadingsFrom(api(DateEndpoint(d))).Ok?
                      && r.value.numPeriods == |ReadingsFrom(api(DateEndpoint(d))).value| >= 1
    ensures ReadingsFrom(api(DateEndpoint(d))) == Ok([]) ==> r == Err(ValueError("No data for " + IsoDate(d)))
    ensures var fetched := ReadingsFrom(api(DateEndpoint(d)));
            (fetched.Err? ==> r == Err(fetched.error))
            && (fetched.Ok? && fetched.value != [] ==> r.Ok? && Describes(r.value, Intensities(fetched.value)))
  {
    var readings :- ReadingsFrom(api(DateEndpoint(d)));
    Summarize(d, readings)
  }

  /** The rounded average of a day's summary lies between its min and max. */
  lemma AverageIntensityAverageBetween(api: IntensityApi, d: Day)
    requires ValidDay(d) && AverageIntensity(api, d).Ok?
    ensures var s := AverageIntensity(api, d).value;
            10 * s.min <= s.averageTenths <= 10 * s.max
  {
    SummaryAverageBetween(d, ReadingsFrom(api(DateEndpoint(d))).value);
  }

  /** `health_check`: True exactly when "/intensity" answers with a "data"
      member; any exception gives False. */
  function HealthCheck(api: IntensityApi): (ok: bool)
    ensures ok <==> api(IntensityPath).Ok? && !api(IntensityPath).value.Absent?
  {
    var response := api(IntensityPath);
    response.Ok? && !response.value.Absent?
  }
}
