/** The orchestrator of scheduler.py: `DataFetcher`'s per-source fetches,
    `fetch_all`, `backfill` with its weekly day-ahead batches and its
    day-by-day carbon and fuel-mix loops, and the scheduler's jobs. Each
    client's HTTP layer is a function parameter; `date.today()` and the
    clock the writer stamps its log rows with are parameters. */
module Scheduler {
  import opened Wrappers
  import opened Seqs
  import opened Dates
  import opened DateTimes
  import opened Price
  import opened Carbon
  import opened Elexon
  import opened CarbonClient
  import opened Supabase
  import opened Text

  const DateOverflow: Exception := OverflowError("date value out of range")

  /** The largest number of days a `timedelta` holds. */
  const MaxDeltaDays := 999999999

  /** The four sources, in the order `fetch_all` and `backfill` visit them. */
  const AllSources: seq<string> := [SystemPricesTable, DayAheadPricesTable, CarbonIntensityTable, FuelMixTable]

  /** The HTTP layers of the two clients. */
  datatype Apis = Apis(
    systemPrices: SystemPriceApi,
    marketIndex: MarketIndexApi,
    intensity: IntensityApi,
    generation: GenerationRangeApi)

  // ---------------------------------------------------------------- windows

  /** `today - timedelta(days=days_back)`, as an ordinal that may fall
      outside the calendar. */
  function DaysBefore(today: int, daysBack: int): int {
    today - daysBack
  }

  /** What `today - timedelta(days=days_back)` raises when it has no value:
      the timedelta's own range error, raised as it is built, else the
      date's. */
  function WindowError(daysBack: int): Exception {
    if -MaxDeltaDays <= daysBack <= MaxDeltaDays then DateOverflow
    else OverflowError("days=" + IntToString(daysBack) + "; must have magnitude <= 999999999")
  }

  /** The window of `fetch_system_prices` and `fetch_day_ahead_prices`:
      [target, target] for a target date, else [today - daysBack, today];
      the subtraction overflows before 0001-01-01 and after 9999-12-31,
      and a `days_back` beyond the range of `timedelta` fails first. */
  function FetchWindow(target: Option<Day>, today: Day, daysBack: int): (r: Result<(Day, Day)>)
    requires ValidDay(today) && (target.Some? ==> ValidDay(target.value))
    ensures target.Some? ==> r == Ok((target.value, target.value))
    ensures target.None? ==> (r.Ok? <==> ValidDay(DaysBefore(today, daysBack)))
    ensures target.None? && r.Ok? ==> r.value == (DaysBefore(today, daysBack), today) && r.value.1 - r.value.0 == daysBack
    ensures r.Err? ==> r.error == WindowError(daysBack)
    ensures target.None? && (daysBack < -MaxDeltaDays || MaxDeltaDays < daysBack) ==>
              r == Err(OverflowError("days=" + IntToString(daysBack) + "; must have magnitude <= 999999999"))
    ensures r.Ok? ==> ValidDay(r.value.0) && ValidDay(r.value.1)
  {
    if target.Some? then Ok((target.value, target.value))
    else if !(-MaxDeltaDays <= daysBack <= MaxDeltaDays) then Err(WindowError(daysBack))
    else if ValidDay(DaysBefore(today, daysBack)) then Ok((DaysBefore(today, daysBack), today))
    else Err(DateOverflow)
  }

  /** The daily maintenance job's window: the seven days before today. */
  function MaintenanceWindow(today: Day): (r: Result<(Day, Day)>)
    requires ValidDay(today)
    ensures r.Ok? <==> today > 7
    ensures r.Err? ==> r.error == DateOverflow
    ensures r.Ok? ==> ValidDay(r.value.0) && ValidDay(r.value.1)
                      && r.value.1 == today - 1 && r.value.1 - r.value.0 + 1 == 7
  {
    if today > 7 then Ok((today - 7, today - 1)) else Err(DateOverflow)
  }

  // ---------------------------------------------------------------- records

  /** The dict `fetch_carbon_intensity` and `backfill` build per reading:
      "datetime" is `datetime_from.isoformat()`, "intensity" the
      actual-else-forecast value. */
  function CarbonRecordOf(r: CarbonIntensity): (rec: CarbonRecord)
    requires r.datetimeFrom.Valid()
    ensures ParseIsoDateTime(rec.datetime) == Some(r.datetimeFrom)
    ensures r.intensityActual.Some? ==> rec.intensity == r.intensityActual.value
    ensures r.intensityActual.None? ==> rec.intensity == r.intensityForecast
    ensures rec.intensityIndex == Some(r.intensityIndex) && rec.dataSource == Present(r.dataSource)
  {
    IsoFormatRoundTrip(r.datetimeFrom);
    CarbonRecord(IsoFormat(r.datetimeFrom), Intensity(r), Some(r.intensityIndex), Present(r.dataSource))
  }

  function CarbonRecordsOf(rs: seq<CarbonIntensity>): (recs: seq<CarbonRecord>)
    requires ReadingsValid(rs)
    ensures |recs| == |rs|
    ensures forall i :: 0 <= i < |rs| ==> recs[i] == CarbonRecordOf(rs[i])
  {
    seq(|rs|, i requires 0 <= i < |rs| => CarbonRecordOf(rs[i]))
  }

  /** Two readings land on the same `carbon_intensity` row exactly when they
      start at the same date-time. */
  lemma CarbonRecordKeyInjective(a: CarbonIntensity, b: CarbonIntensity)
    requires a.datetimeFrom.Valid() && b.datetimeFrom.Valid()
    ensures CarbonRecordOf(a).datetime == CarbonRecordOf(b).datetime <==> a.datetimeFrom == b.datetimeFrom
  {
    if CarbonRecordOf(a).datetime == CarbonRecordOf(b).datetime {
      IsoFormatInjective(a.datetimeFrom, b.datetimeFrom);
    }
  }

  // ---------------------------------------------------------------- what is fetched

  /** `fetch_system_prices`: one day's prices for a target, else the range. */
  function RecentSystemPrices(api: SystemPriceApi, target: Option<Day>, today: Day, daysBack: int)
    : (r: Result<seq<SystemPrice>>)
    requires ValidDay(today) && (target.Some? ==> ValidDay(target.value))
    ensures target.Some? ==> r == SystemPricesFrom(api(SystemPricesRequest(target.value, None)))
    ensures target.None? && !ValidDay(DaysBefore(today, daysBack)) ==> r == Err(WindowError(daysBack))
    ensures target.None? && ValidDay(DaysBefore(today, daysBack)) ==> r == SystemPricesRange(api, DaysBefore(today, daysBack), today)
  {
    if target.Some? then SystemPricesFrom(api(SystemPricesRequest(target.value, None)))
    else
      var w :- FetchWindow(None, today, daysBack);
      SystemPricesRange(api, w.0, w.1)
  }

  /** The market index prices of [first, last] from the default provider. */
  function WindowDayAheadPrices(api: MarketIndexApi, first: Day, last: Day): Result<seq<DayAheadPrice>>
    requires ValidDay(first) && ValidDay(last)
  {
    MarketIndexPricesFrom(api(MarketIndexQuery(first, Some(last), DefaultDataProvider)))
  }

  /** `fetch_day_ahead_prices`: the market index prices of the window, from
      the default provider. */
  function RecentDayAheadPrices(api: MarketIndexApi, target: Option<Day>, today: Day, daysBack: int)
    : (r: Result<seq<DayAheadPrice>>)
    requires ValidDay(today) && (target.Some? ==> ValidDay(target.value))
    ensures target.Some? ==> r == WindowDayAheadPrices(api, target.value, target.value)
    ensures target.None? && !ValidDay(DaysBefore(today, daysBack)) ==> r == Err(WindowError(daysBack))
    ensures target.None? && ValidDay(DaysBefore(today, daysBack)) ==> r == WindowDayAheadPrices(api, DaysBefore(today, daysBack), today)
  {
    if target.Some? then WindowDayAheadPrices(api, target.value, target.value)
    else if !ValidDay(DaysBefore(today, daysBack)) then Err(WindowError(daysBack))
    else WindowDayAheadPrices(api, DaysBefore(today, daysBack), today)
  }

  /** The request of `fetch_day_ahead_prices`: the target day alone, else
      [today - days_back, today]. */
  method GetRecentDayAheadPrices(api: MarketIndexApi, target: Option<Day>, today: Day, daysBack: int)
    returns (r: Result<seq<DayAheadPrice>>)
    requires ValidDay(today) && (target.Some? ==> ValidDay(target.value))
    ensures r == RecentDayAheadPrices(api, target, today, daysBack)
  {
    if target.Some? {
      r := GetWindowDayAheadPrices(api, target.value, target.value);
    } else if !ValidDay(DaysBefore(today, daysBack)) {
      r := Err(WindowError(daysBack));
    } else {
      r := GetWindowDayAheadPrices(api, DaysBefore(today, daysBack), today);
    }
  }

  /** Both fetches come back sorted by (date, period). */
  lemma RecentPricesSorted(sysApi: SystemPriceApi, mktApi: MarketIndexApi, target: Option<Day>, today: Day, daysBack: int)
    requires ValidDay(today) && (target.Some? ==> ValidDay(target.value))
    ensures var r := RecentSystemPrices(sysApi, target, today, daysBack);
            r.Ok? ==> SortedBy(r.value, SystemPriceKey)
    ensures var r := RecentDayAheadPrices(mktApi, target, today, daysBack);
            r.Ok? ==> SortedBy(r.value, DayAheadPriceKey)
  {
  }

  /** The request of `fetch_system_prices`: the target day, else the range
      [today - days_back, today]. */
  method GetRecentSystemPrices(api: SystemPriceApi, target: Option<Day>, today: Day, daysBack: int)
    returns (r: Result<seq<SystemPrice>>)
    requires ValidDay(today) && (target.Some? ==> ValidDay(target.value))
    ensures r == RecentSystemPrices(api, target, today, daysBack)
  {
    if target.Some? {
      r := GetSystemPrices(api, target.value, None);
    } else {
      var window := FetchWindow(None, today, daysBack);
      if window.Err? {
        return Err(window.error);
      }
      r := GetSystemPricesRange(api, window.value.0, window.value.1);
    }
  }

  /** The market index request for the window [first, last]. */
  method GetWindowDayAheadPrices(api: MarketIndexApi, first: Day, last: Day) returns (r: Result<seq<DayAheadPrice>>)
    requires ValidDay(first) && ValidDay(last)
    ensures r == WindowDayAheadPrices(api, first, last)
  {
    r := GetMarketIndexPrices(api, first, Some(last), DefaultDataProvider);
  }

  /** `fetch_carbon_intensity`: the target's readings, else yesterday's
      followed by today's; the first failure is raised. */
  function RecentReadings(api: IntensityApi, target: Option<Day>, today: Day): (r: Result<seq<CarbonIntensity>>)
    requires ValidDay(today) && (target.Some? ==> ValidDay(target.value))
    ensures r.Ok? ==> ReadingsValid(r.value)
    ensures target.Some? ==> r == DayReadings(api, target.value)
    ensures target.None? && today == 1 ==> r == Err(DateOverflow)
    ensures target.None? && today > 1 ==>
              (r.Ok? <==> DayReadings(api, today - 1).Ok? && DayReadings(api, today).Ok?)
    ensures target.None? && today > 1 && r.Ok? ==>
              r.value == DayReadings(api, today - 1).value + DayReadings(api, today).value
    ensures target.None? && today > 1 && DayReadings(api, today - 1).Err? ==>
              r == Err(DayReadings(api, today - 1).error)
    ensures target.None? && today > 1 && DayReadings(api, today - 1).Ok? && DayReadings(api, today).Err? ==>
              r == Err(DayReadings(api, today).error)
  {
    if target.Some? then DayReadings(api, target.value)
    else if today == 1 then Err(DateOverflow)
    else
      var yesterday := DayReadings(api, today - 1);
      var current := DayReadings(api, today);
      if yesterday.Err? then Err(yesterday.error)
      else if current.Err? then Err(current.error)
      else
        ReadingsValidConcat(yesterday.value, current.value);
        Ok(yesterday.value + current.value)
  }

  /** `fetch_fuel_mix`: the target's mixes, else yesterday's. */
  function RecentFuelMixes(api: GenerationRangeApi, target: Option<Day>, today: Day): (r: Result<seq<FuelMix>>)
    requires ValidDay(today) && (target.Some? ==> ValidDay(target.value))
    ensures r.Ok? ==> MixesValid(r.value)
    ensures target.Some? ==> r == DayFuelMixes(api, target.value)
    ensures target.None? && today > 1 ==> r == DayFuelMixes(api, DaysBefore(today, 1))
    ensures target.None? && today == 1 ==> r == Err(DateOverflow)
  {
    var d :- FuelMixDay(target, today);
    DayFuelMixes(api, d)
  }

  /** The day `fetch_fuel_mix` asks for: the target, else yesterday. */
  function FuelMixDay(target: Option<Day>, today: Day): (r: Result<Day>)
    requires ValidDay(today) && (target.Some? ==> ValidDay(target.value))
    ensures r.Ok? ==> ValidDay(r.value)
    ensures r.Err? <==> target.None? && today == 1
    ensures r.Err? ==> r.error == DateOverflow
    ensures target.Some? ==> r == Ok(target.value)
    ensures target.None? && today > 1 ==> r == Ok(DaysBefore(today, 1))
  {
    if target.Some? then Ok(target.value)
    else if today == 1 then Err(DateOverflow)
    else Ok(DaysBefore(today, 1))
  }

  /** A fetch whose result is saved with logging on; a failed fetch raises
      before the writer is called. */
  function FetchSystemPricesTo(db: Db, api: SystemPriceApi, target: Option<Day>, today: Day, daysBack: int, now: int)
    : (r: (Result<Stats>, Db))
    requires ValidDay(today) && (target.Some? ==> ValidDay(target.value))
    ensures RecentSystemPrices(api, target, today, daysBack).Err? ==> r == (Err(RecentSystemPrices(api, target, today, daysBack).error), db)
    ensures RecentSystemPrices(api, target, today, daysBack).Ok? ==>
              r == SaveSystemPricesTo(db, RecentSystemPrices(api, target, today, daysBack).value, true, now, now)
  {
    var fetched := RecentSystemPrices(api, target, today, daysBack);
    if fetched.Err? then (Err(fetched.error), db) else SaveSystemPricesTo(db, fetched.value, true, now, now)
  }

  function FetchDayAheadPricesTo(db: Db, api: MarketIndexApi, target: Option<Day>, today: Day, daysBack: int, now: int)
    : (r: (Result<Stats>, Db))
    requires ValidDay(today) && (target.Some? ==> ValidDay(target.value))
    ensures RecentDayAheadPrices(api, target, today, daysBack).Err? ==> r == (Err(RecentDayAheadPrices(api, target, today, daysBack).error), db)
    ensures RecentDayAheadPrices(api, target, today, daysBack).Ok? ==>
              r == SaveDayAheadPricesTo(db, RecentDayAheadPrices(api, target, today, daysBack).value, true, now, now)
  {
    var fetched := RecentDayAheadPrices(api, target, today, daysBack);
    if fetched.Err? then (Err(fetched.error), db) else SaveDayAheadPricesTo(db, fetched.value, true, now, now)
  }

  function FetchCarbonIntensityTo(db: Db, api: IntensityApi, target: Option<Day>, today: Day, now: int)
    : (r: (Result<Stats>, Db))
    requires ValidDay(today) && (target.Some? ==> ValidDay(target.value))
    ensures RecentReadings(api, target, today).Err? ==> r == (Err(RecentReadings(api, target, today).error), db)
    ensures RecentReadings(api, target, today).Ok? ==>
              r == SaveCarbonIntensityTo(db, CarbonRecordsOf(RecentReadings(api, target, today).value), true, now, now)
  {
    var fetched := RecentReadings(api, target, today);
    if fetched.Err? then (Err(fetched.error), db)
    else SaveCarbonIntensityTo(db, CarbonRecordsOf(fetched.value), true, now, now)
  }

  function FetchFuelMixTo(db: Db, api: GenerationRangeApi, target: Option<Day>, today: Day, now: int)
    : (r: (Result<Stats>, Db))
    requires ValidDay(today) && (target.Some? ==> ValidDay(target.value))
    ensures RecentFuelMixes(api, target, today).Err? ==> r == (Err(RecentFuelMixes(api, target, today).error), db)
    ensures RecentFuelMixes(api, target, today).Ok? ==>
              r == SaveFuelMixTo(db, RecentFuelMixes(api, target, today).value, true, now, now)
  {
    var fetched := RecentFuelMixes(api, target, today);
    if fetched.Err? then (Err(fetched.error), db) else SaveFuelMixTo(db, fetched.value, true, now, now)
  }

  /** With no failure of its own, a carbon intensity fetch is saved exactly
      when no two readings start at the same date-time, and then every
      reading is stored under its `isoformat()` key as the row built from it. */
  lemma FetchedReadingStored(db: Db, api: IntensityApi, target: Option<Day>, today: Day, now: int, i: int)
    requires ValidDay(today) && (target.Some? ==> ValidDay(target.value))
    requires RecentReadings(api, target, today).Ok? && 0 <= i < |RecentReadings(api, target, today).value|
    ensures var rs := RecentReadings(api, target, today).value;
            var r := FetchCarbonIntensityTo(db, api, target, today, now);
            CarbonIntensityTable !in db.rejects ==>
              (r.0.Ok? <==> forall a, b :: 0 <= a < b < |rs| ==> rs[a].datetimeFrom != rs[b].datetimeFrom)
    ensures var rs := RecentReadings(api, target, today).value;
            var r := FetchCarbonIntensityTo(db, api, target, today, now);
            var k := IsoFormat(rs[i].datetimeFrom);
            r.0.Ok? ==> k in r.1.carbonIntensity && r.1.carbonIntensity[k] == CarbonRowOf(CarbonRecordOf(rs[i]))
  {
    SavedReadingStored(db, RecentReadings(api, target, today).value, now, i);
  }

  /** Saving readings as `fetch_carbon_intensity` does: the batch is refused
      exactly when two readings start at the same date-time, and otherwise
      each reading's row is stored under its `isoformat()` key. */
  lemma SavedReadingStored(db: Db, rs: seq<CarbonIntensity>, now: int, i: int)
    requires ReadingsValid(rs) && 0 <= i < |rs|
    ensures var r := SaveCarbonIntensityTo(db, CarbonRecordsOf(rs), true, now, now);
            CarbonIntensityTable !in db.rejects ==>
              (r.0.Ok? <==> forall a, b :: 0 <= a < b < |rs| ==> rs[a].datetimeFrom != rs[b].datetimeFrom)
    ensures var r := SaveCarbonIntensityTo(db, CarbonRecordsOf(rs), true, now, now);
            var k := IsoFormat(rs[i].datetimeFrom);
            r.0.Ok? ==> k in r.1.carbonIntensity && r.1.carbonIntensity[k] == CarbonRowOf(CarbonRecordOf(rs[i]))
  {
    var records := CarbonRecordsOf(rs);
    forall a, b | 0 <= a < b < |rs|
      ensures records[a].datetime == records[b].datetime <==> rs[a].datetimeFrom == rs[b].datetimeFrom
    {
      CarbonRecordKeyInjective(rs[a], rs[b]);
    }
    SavedCarbonRowStored(db, records, true, now, now, i);
  }

  /** With no failure of its own, a fuel mix fetch is saved exactly when no
      two mixes start at the same date-time, and then every mix is stored
      under its `isoformat()` key. */
  lemma FetchedFuelMixStored(db: Db, api: GenerationRangeApi, target: Option<Day>, today: Day, now: int, i: int)
    requires ValidDay(today) && (target.Some? ==> ValidDay(target.value))
    requires RecentFuelMixes(api, target, today).Ok? && 0 <= i < |RecentFuelMixes(api, target, today).value|
    ensures var ms := RecentFuelMixes(api, target, today).value;
            var r := FetchFuelMixTo(db, api, target, today, now);
            FuelMixTable !in db.rejects ==>
              (r.0.Ok? <==> forall a, b :: 0 <= a < b < |ms| ==> ms[a].datetimeFrom != ms[b].datetimeFrom)
    ensures var ms := RecentFuelMixes(api, target, today).value;
            var r := FetchFuelMixTo(db, api, target, today, now);
            var k := FuelMixConflictKey(ms[i]);
            r.0.Ok? ==> k in r.1.fuelMix && r.1.fuelMix[k] == ms[i]
  {
    SavedFuelMixStored(db, RecentFuelMixes(api, target, today).value, true, now, now, i);
  }

  // ---------------------------------------------------------------- fetch_all

  /** One entry of `fetch_all`'s result: the writer's stats, or
      `{"error": str(e)}`. */
  datatype Report = Done(stats: Stats) | Failed(error: string)

  function ReportOf(r: Result<Stats>): (rep: Report)
    ensures rep.Failed? <==> r.Err?
    ensures r.Err? ==> rep.error == Message(r.error)
    ensures r.Ok? ==> rep.stats == r.value
  {
    if r.Ok? then Done(r.value) else Failed(Message(r.error))
  }

  /** `fetch_all`: every source is tried, each on the database the previous
      ones left, whatever they returned; the result has one entry per
      source. */
  function FetchAllTo(db: Db, apis: Apis, today: Day, daysBack: int, now: int): (r: (map<string, Report>, Db))
    requires ValidDay(today)
    ensures r.0.Keys == {SystemPricesTable, DayAheadPricesTable, CarbonIntensityTable, FuelMixTable}
  {
    var s1 := FetchSystemPricesTo(db, apis.systemPrices, None, today, daysBack, now);
    var s2 := FetchDayAheadPricesTo(s1.1, apis.marketIndex, None, today, daysBack, now);
    var s3 := FetchCarbonIntensityTo(s2.1, apis.intensity, None, today, now);
    var s4 := FetchFuelMixTo(s3.1, apis.generation, None, today, now);
    (map[SystemPricesTable := ReportOf(s1.0), DayAheadPricesTable := ReportOf(s2.0),
         CarbonIntensityTable := ReportOf(s3.0), FuelMixTable := ReportOf(s4.0)],
     s4.1)
  }

  /** A source that fails does not stop the later ones: with the system
      prices failing before the writer, the other three sources run on the
      untouched database exactly as they would alone. */
  lemma FetchAllIsolatesFailure(db: Db, apis: Apis, today: Day, daysBack: int, now: int)
    requires ValidDay(today)
    requires RecentSystemPrices(apis.systemPrices, None, today, daysBack).Err?
    ensures var r := FetchAllTo(db, apis, today, daysBack, now);
            var s2 := FetchDayAheadPricesTo(db, apis.marketIndex, None, today, daysBack, now);
            r.0[SystemPricesTable] == Failed(Message(RecentSystemPrices(apis.systemPrices, None, today, daysBack).error))
            && r.0[DayAheadPricesTable] == ReportOf(s2.0)
  {
    var s1 := FetchSystemPricesTo(db, apis.systemPrices, None, today, daysBack, now);
    var s2 := FetchDayAheadPricesTo(s1.1, apis.marketIndex, None, today, daysBack, now);
    var s3 := FetchCarbonIntensityTo(s2.1, apis.intensity, None, today, now);
    var s4 := FetchFuelMixTo(s3.1, apis.generation, None, today, now);
    ReportsByTable(ReportOf(s1.0), ReportOf(s2.0), ReportOf(s3.0), ReportOf(s4.0));
  }

  /** Each table's entry of a `fetch_all` result is its own report. */
  lemma ReportsByTable(a: Report, b: Report, c: Report, d: Report)
    ensures var m := map[SystemPricesTable := a, DayAheadPricesTable := b, CarbonIntensityTable := c, FuelMixTable := d];
            m[SystemPricesTable] == a && m[DayAheadPricesTable] == b && m[CarbonIntensityTable] == c && m[FuelMixTable] == d
  {
    TableNamesDistinct();
  }

  // ---------------------------------------------------------------- day-ahead batches

  function MinDay(a: int, b: int): int {
    if a < b then a else b
  }

  /** The batches of the day-ahead backfill: [c, min(c + 6, last)], the next
      starting the day after. */
  function Chunks(first: int, last: int): (cs: seq<(int, int)>)
    decreases last - first
    ensures |cs| == 0 <==> first > last
    ensures |cs| > 0 ==> cs[0] == (first, MinDay(first + 6, last))
  {
    if first > last then []
    else [(first, MinDay(first + 6, last))] + Chunks(MinDay(first + 6, last) + 1, last)
  }

  /** Each batch lies in [first, last] and spans at most seven days. */
  lemma {:induction false} ChunksBounds(first: int, last: int)
    decreases last - first
    ensures forall i :: 0 <= i < |Chunks(first, last)| ==>
              var c := Chunks(first, last)[i]; first <= c.0 <= c.1 <= last && c.1 - c.0 < 7
  {
    if first <= last {
      var end := MinDay(first + 6, last);
      ChunksBounds(end + 1, last);
      var rest := Chunks(end + 1, last);
      assert forall i :: 0 < i < |rest| + 1 ==> Chunks(first, last)[i] == rest[i - 1];
    }
  }

  /** The last batch ends on `last`. */
  lemma {:induction false} ChunksEndOnLast(first: int, last: int)
    requires first <= last
    decreases last - first
    ensures Chunks(first, last)[|Chunks(first, last)| - 1].1 == last
  {
    var end := MinDay(first + 6, last);
    if end < last {
      ChunksEndOnLast(end + 1, last);
      var rest := Chunks(end + 1, last);
      assert Chunks(first, last)[|Chunks(first, last)| - 1] == rest[|rest| - 1];
    }
  }

  /** Each batch but the last is a full week, and the next starts the day
      after it ends. */
  lemma {:induction false} ChunksContiguous(first: int, last: int)
    decreases last - first
    ensures forall i :: 0 <= i < |Chunks(first, last)| - 1 ==>
              Chunks(first, last)[i + 1].0 == Chunks(first, last)[i].1 + 1
              && Chunks(first, last)[i].1 - Chunks(first, last)[i].0 == 6
  {
    if first <= last {
      var end := MinDay(first + 6, last);
      ChunksContiguous(end + 1, last);
      var cs := Chunks(first, last);
      var rest := Chunks(end + 1, last);
      forall i | 0 <= i < |cs| - 1
        ensures cs[i + 1].0 == cs[i].1 + 1 && cs[i].1 - cs[i].0 == 6
      {
        assert cs[i + 1] == rest[i];
        if i > 0 {
          assert cs[i] == rest[i - 1];
        }
      }
    }
  }

  /** Batches come in increasing order and never overlap. */
  lemma {:induction false} ChunksDisjoint(first: int, last: int, i: int, j: int)
    requires 0 <= i < j < |Chunks(first, last)|
    decreases j - i
    ensures Chunks(first, last)[i].1 < Chunks(first, last)[j].0
  {
    ChunksContiguous(first, last);
    ChunksBounds(first, last);
    if j > i + 1 {
      ChunksDisjoint(first, last, i, j - 1);
    }
  }

  /** Every day of [first, last] falls in some batch. */
  lemma {:induction false} ChunksCover(first: int, last: int, d: int)
    requires first <= d <= last
    decreases last - first
    ensures exists i :: 0 <= i < |Chunks(first, last)| && Chunks(first, last)[i].0 <= d <= Chunks(first, last)[i].1
  {
    var cs := Chunks(first, last);
    var end := MinDay(first + 6, last);
    if d > end {
      ChunksCover(end + 1, last, d);
      var rest := Chunks(end + 1, last);
      assert cs == [(first, end)] + rest;
      var i :| 0 <= i < |rest| && rest[i].0 <= d <= rest[i].1;
      assert cs[i + 1] == rest[i];
    } else {
      assert cs[0] == (first, end);
    }
  }

  /** The date arithmetic of one batch overflows: `c + 6 days` past
      9999-12-31, or the step after a batch ending on that day. */
  predicate Overflows(c: (int, int)) {
    c.0 + 6 > MaxOrdinal || c.1 == MaxOrdinal
  }

  /** What the batches accumulate: each batch's prices, or nothing for a
      batch whose fetch failed. */
  function Gather<T>(fetch: ((int, int)) -> Result<seq<T>>, cs: seq<(int, int)>): seq<T> {
    if cs == [] then [] else Gather(fetch, cs[..|cs| - 1]) + OrEmpty(fetch(cs[|cs| - 1]))
  }

  /** One batch of market index prices; a batch outside the calendar fails
      like the date arithmetic would. */
  function ChunkPrices(api: MarketIndexApi, c: (int, int)): (r: Result<seq<DayAheadPrice>>) {
    if ValidDay(c.0) && ValidDay(c.1) then MarketIndexPricesFrom(api(MarketIndexQuery(c.0, Some(c.1), DefaultDataProvider)))
    else Err(DateOverflow)
  }

  function ChunkFetch(api: MarketIndexApi): ((int, int)) -> Result<seq<DayAheadPrice>> {
    c => ChunkPrices(api, c)
  }

  /** The day-ahead part of `backfill` before saving. */
  function BatchedDayAhead(fetch: ((int, int)) -> Result<seq<DayAheadPrice>>, first: int, last: int)
    : (r: Result<seq<DayAheadPrice>>)
    ensures r.Err? ==> r.error == DateOverflow
    ensures r.Err? <==> AnyOverflows(Chunks(first, last))
    ensures r.Ok? ==> r.value == Gather(fetch, Chunks(first, last))
  {
    var cs := Chunks(first, last);
    if AnyOverflows(cs) then Err(DateOverflow) else Ok(Gather(fetch, cs))
  }

  /** Some batch of `cs` overflows. */
  predicate AnyOverflows(cs: seq<(int, int)>) {
    exists i :: 0 <= i < |cs| && Overflows(cs[i])
  }

  /** Away from 9999-12-31 the batches never overflow. */
  lemma BatchesFitCalendar(first: int, last: int)
    requires last < MaxOrdinal - 6
    ensures forall i :: 0 <= i < |Chunks(first, last)| ==> !Overflows(Chunks(first, last)[i])
  {
    ChunksBounds(first, last);
  }

  ghost predicate FetchesChunks(api: MarketIndexApi, fetch: ((int, int)) -> Result<seq<DayAheadPrice>>) {
    forall c: (int, int) {:trigger ChunkPrices(api, c)} :: ValidDay(c.0) && ValidDay(c.1) ==> fetch(c) == ChunkPrices(api, c)
  }

  /** The loop of batches: `batch_end = min(current + 6 days, to)`, a `try`
      around the batch's fetch, then `current = batch_end + 1 day`. */
  method CollectBatches(api: MarketIndexApi, ghost fetch: ((int, int)) -> Result<seq<DayAheadPrice>>, first: Day, last: Day)
    returns (r: Result<seq<DayAheadPrice>>)
    requires ValidDay(first) && ValidDay(last) && FetchesChunks(api, fetch)
    ensures r == BatchedDayAhead(fetch, first, last)
  {
    var all: seq<DayAheadPrice> := [];
    var current := first;
    ghost var done: seq<(int, int)> := [];
    while current <= last
      invariant first <= current <= MaxOrdinal
      invariant Chunks(first, last) == done + Chunks(current, last)
      invariant forall i :: 0 <= i < |done| ==> !Overflows(done[i])
      invariant all == Gather(fetch, done)
      decreases last - current
    {
      var batchEnd := MinDay(current + 6, last);
      ghost var c := (current, batchEnd);
      ChunksStep(first, last, done, current);
      if current + 6 > MaxOrdinal {
        assert Overflows(Chunks(first, last)[|done|]);
        return Err(DateOverflow);
      }
      var prices := TryBatch(api, fetch, current, batchEnd);
      GatherSnoc(fetch, done, c);
      all := all + prices;
      done := done + [c];
      if batchEnd == MaxOrdinal {
        assert Overflows(Chunks(first, last)[|done| - 1]);
        return Err(DateOverflow);
      }
      current := batchEnd + 1;
    }
    assert Chunks(first, last) == done;
    r := Ok(all);
  }

  /** One turn of the batch loop: the batch starting at `current` is the next
      one of the whole window. */
  lemma ChunksStep(first: int, last: int, done: seq<(int, int)>, current: int)
    requires current <= last && Chunks(first, last) == done + Chunks(current, last)
    ensures Chunks(first, last)[|done|] == (current, MinDay(current + 6, last))
    ensures Chunks(first, last) == (done + [(current, MinDay(current + 6, last))]) + Chunks(MinDay(current + 6, last) + 1, last)
  {
    var c := (current, MinDay(current + 6, last));
    var rest := Chunks(MinDay(current + 6, last) + 1, last);
    assert Chunks(current, last) == [c] + rest;
    assert done + ([c] + rest) == (done + [c]) + rest;
  }

  lemma GatherSnoc<T>(fetch: ((int, int)) -> Result<seq<T>>, cs: seq<(int, int)>, c: (int, int))
    ensures Gather(fetch, cs + [c]) == Gather(fetch, cs) + OrEmpty(fetch(c))
  {
    assert (cs + [c])[..|cs|] == cs;
  }

  /** `try: get_market_index_prices(current, batch_end) except: log`. */
  method TryBatch(api: MarketIndexApi, ghost fetch: ((int, int)) -> Result<seq<DayAheadPrice>>, a: Day, b: Day)
    returns (prices: seq<DayAheadPrice>)
    requires ValidDay(a) && ValidDay(b) && FetchesChunks(api, fetch)
    ensures prices == OrEmpty(fetch((a, b)))
  {
    var batch := GetMarketIndexPrices(api, a, Some(b), DefaultDataProvider);
    assert batch == ChunkPrices(api, (a, b));
    if batch.Ok? {
      prices := batch.value;
    } else {
      prices := [];
    }
  }

  // ---------------------------------------------------------------- day-by-day loops

  /** `get_by_date(d)`, where reaching `d` by date arithmetic overflows
      outside the calendar (see DayReadingsFetch). */
  function DayReadings(api: IntensityApi, d: int): (r: Result<seq<CarbonIntensity>>)
    ensures r.Ok? ==> ReadingsValid(r.value)
  {
    if ValidDay(d) then
      ReadingsFromValid(api(DateEndpoint(d)));
      ReadingsFrom(api(DateEndpoint(d)))
    else Err(DateOverflow)
  }

  /** A day of the calendar is fetched from its date endpoint; any other
      ordinal is the OverflowError of the date arithmetic that reached it. */
  lemma DayReadingsFetch(api: IntensityApi, d: int)
    ensures ValidDay(d) ==> DayReadings(api, d) == ReadingsFrom(api(DateEndpoint(d)))
    ensures !ValidDay(d) ==> DayReadings(api, d) == Err(DateOverflow)
  {
  }

  function ReadingsFetch(api: IntensityApi): int -> Result<seq<CarbonIntensity>> {
    d => DayReadings(api, d)
  }

  /** `get_fuel_mix_by_date(d)`, where reaching `d` by date arithmetic
      overflows outside the calendar (see DayFuelMixesFetch). */
  function DayFuelMixes(api: GenerationRangeApi, d: int): (r: Result<seq<FuelMix>>)
    ensures r.Ok? ==> MixesValid(r.value)
  {
    if ValidDay(d) then
      FuelMixesFromValid(api(FuelMixEndpoint(d)));
      FuelMixesFrom(api(FuelMixEndpoint(d)))
    else Err(DateOverflow)
  }

  /** A day of the calendar is fetched over its midnight-to-midnight
      window; any other ordinal is the OverflowError of the date arithmetic
      that reached it. */
  lemma DayFuelMixesFetch(api: GenerationRangeApi, d: int)
    ensures ValidDay(d) ==> DayFuelMixes(api, d) == FuelMixesFrom(api(FuelMixEndpoint(d)))
    ensures !ValidDay(d) ==> DayFuelMixes(api, d) == Err(DateOverflow)
  {
  }

  function FuelMixesFetch(api: GenerationRangeApi): int -> Result<seq<FuelMix>> {
    d => DayFuelMixes(api, d)
  }

  /** Readings gathered day by day all start at valid date-times. */
  lemma CollectedReadingsValid(api: IntensityApi, first: int, last: int)
    ensures ReadingsValid(CollectDays(ReadingsFetch(api), first, last))
  {
    var all := CollectDays(ReadingsFetch(api), first, last);
    forall k | 0 <= k < |all|
      ensures all[k].datetimeFrom.Valid()
    {
      CollectDaysOrigin(ReadingsFetch(api), first, last, k);
      var d, j :| first <= d <= last && ReadingsFetch(api)(d).Ok? && 0 <= j < |ReadingsFetch(api)(d).value|
                  && ReadingsFetch(api)(d).value[j] == all[k];
      assert ReadingsFetch(api)(d) == DayReadings(api, d);
    }
  }

  lemma CollectedMixesValid(api: GenerationRangeApi, first: int, last: int)
    ensures MixesValid(CollectDays(FuelMixesFetch(api), first, last))
  {
    var all := CollectDays(FuelMixesFetch(api), first, last);
    forall k | 0 <= k < |all|
      ensures all[k].datetimeFrom.Valid()
    {
      CollectDaysOrigin(FuelMixesFetch(api), first, last, k);
      var d, j :| first <= d <= last && FuelMixesFetch(api)(d).Ok? && 0 <= j < |FuelMixesFetch(api)(d).value|
                  && FuelMixesFetch(api)(d).value[j] == all[k];
      assert FuelMixesFetch(api)(d) == DayFuelMixes(api, d);
    }
  }

  /** A day-by-day backfill loop before saving: stepping past 9999-12-31
      raises outside the loop's `try`. */
  function DailyReadings(api: IntensityApi, first: int, last: int): (r: Result<seq<CarbonIntensity>>)
    ensures r.Err? <==> first <= last && last == MaxOrdinal
    ensures r.Ok? ==> ReadingsValid(r.value)
  {
    CollectedReadingsValid(api, first, last);
    if first <= last && last == MaxOrdinal then Err(DateOverflow)
    else Ok(CollectDays(ReadingsFetch(api), first, last))
  }

  function DailyFuelMixes(api: GenerationRangeApi, first: int, last: int): (r: Result<seq<FuelMix>>)
    ensures r.Err? <==> first <= last && last == MaxOrdinal
    ensures r.Ok? ==> MixesValid(r.value)
  {
    CollectedMixesValid(api, first, last);
    if first <= last && last == MaxOrdinal then Err(DateOverflow)
    else Ok(CollectDays(FuelMixesFetch(api), first, last))
  }

  ghost predicate FetchesReadings(api: IntensityApi, fetch: int -> Result<seq<CarbonIntensity>>) {
    forall d {:trigger DayReadings(api, d)} :: ValidDay(d) ==> fetch(d) == DayReadings(api, d)
  }

  ghost predicate FetchesMixes(api: GenerationRangeApi, fetch: int -> Result<seq<FuelMix>>) {
    forall d {:trigger DayFuelMixes(api, d)} :: ValidDay(d) ==> fetch(d) == DayFuelMixes(api, d)
  }

  /** The carbon loop of `backfill`. */
  method CollectReadings(api: IntensityApi, ghost fetch: int -> Result<seq<CarbonIntensity>>, first: Day, last: Day)
    returns (r: Result<seq<CarbonIntensity>>)
    requires ValidDay(first) && ValidDay(last) && FetchesReadings(api, fetch)
    ensures r.Err? <==> first <= last && last == MaxOrdinal
    ensures r.Err? ==> r.error == DateOverflow
    ensures r.Ok? ==> r.value == CollectDays(fetch, first, last)
  {
    var all: seq<CarbonIntensity> := [];
    var current := first;
    while current <= last
      invariant first <= current <= MaxOrdinal && (current == first || current <= last + 1)
      invariant all == CollectDays(fetch, first, current - 1)
      decreases last - current
    {
      var readings := TryReadings(api, fetch, current);
      CollectDaysSnoc(fetch, first, current);
      all := all + readings;
      if current == MaxOrdinal {
        return Err(DateOverflow);
      }
      current := current + 1;
    }
    r := Ok(all);
  }

  method TryReadings(api: IntensityApi, ghost fetch: int -> Result<seq<CarbonIntensity>>, d: Day)
    returns (readings: seq<CarbonIntensity>)
    requires ValidDay(d) && FetchesReadings(api, fetch)
    ensures readings == OrEmpty(fetch(d))
  {
    var day := GetByDate(api, d);
    assert day == DayReadings(api, d);
    if day.Ok? {
      readings := day.value;
    } else {
      readings := [];
    }
  }

  /** The fuel-mix loop of `backfill`. */
  method CollectMixes(api: GenerationRangeApi, ghost fetch: int -> Result<seq<FuelMix>>, first: Day, last: Day)
    returns (r: Result<seq<FuelMix>>)
    requires ValidDay(first) && ValidDay(last) && FetchesMixes(api, fetch)
    ensures r.Err? <==> first <= last && last == MaxOrdinal
    ensures r.Err? ==> r.error == DateOverflow
    ensures r.Ok? ==> r.value == CollectDays(fetch, first, last)
  {
    var all: seq<FuelMix> := [];
    var current := first;
    while current <= last
      invariant first <= current <= MaxOrdinal && (current == first || current <= last + 1)
      invariant all == CollectDays(fetch, first, current - 1)
      decreases last - current
    {
      var mixes := TryMixes(api, fetch, current);
      CollectDaysSnoc(fetch, first, current);
      all := all + mixes;
      if current == MaxOrdinal {
        return Err(DateOverflow);
      }
      current := current + 1;
    }
    r := Ok(all);
  }

  /** `get_fuel_mix_by_date` for one day. */
  method GetDayFuelMixes(api: GenerationRangeApi, d: Day) returns (mixes: Result<seq<FuelMix>>)
    requires ValidDay(d)
    ensures mixes == DayFuelMixes(api, d)
  {
    mixes := GetFuelMixByDate(api, d);
  }

  method TryMixes(api: GenerationRangeApi, ghost fetch: int -> Result<seq<FuelMix>>, d: Day)
    returns (mixes: seq<FuelMix>)
    requires ValidDay(d) && FetchesMixes(api, fetch)
    ensures mixes == OrEmpty(fetch(d))
  {
    var day := GetDayFuelMixes(api, d);
    if day.Ok? {
      mixes := day.value;
    } else {
      mixes := [];
    }
  }

  // ---------------------------------------------------------------- backfill

  /** `data_types`, with `None` meaning all four sources. */
  function Selected(dataTypes: Option<seq<string>>): (want: seq<string>)
    ensures dataTypes.None? ==> forall s :: s in AllSources ==> s in want
  {
    if dataTypes.Some? then dataTypes.value else AllSources
  }

  /** One selected source of `backfill`: a failure, of the fetch or of the
      writer, ends the whole backfill with that exception. */
  function Continue(acc: (Result<map<string, Stats>>, Db), name: string, step: (Result<Stats>, Db))
    : (r: (Result<map<string, Stats>>, Db))
    ensures acc.0.Err? ==> r == acc
    ensures acc.0.Ok? && step.0.Err? ==> r == (Err(step.0.error), step.1)
    ensures acc.0.Ok? && step.0.Ok? ==> r == (Ok(acc.0.value[name := step.0.value]), step.1)
  {
    if acc.0.Err? then acc
    else if step.0.Err? then (Err(step.0.error), step.1)
    else (Ok(acc.0.value[name := step.0.value]), step.1)
  }

  /** The system-price block of `backfill`: only `system_prices` and the
      log can change, and a failed fetch changes nothing. */
  function BackfillSystemPricesTo(db: Db, api: SystemPriceApi, first: Day, last: Day, now: int): (r: (Result<Stats>, Db))
    requires ValidDay(first) && ValidDay(last)
    ensures SystemPricesRange(api, first, last).Err? ==> r == (Err(SystemPricesRange(api, first, last).error), db)
    ensures r.1.dayAheadPrices == db.dayAheadPrices && r.1.carbonIntensity == db.carbonIntensity
            && r.1.fuelMix == db.fuelMix && r.1.rejects == db.rejects
  {
    var fetched := SystemPricesRange(api, first, last);
    if fetched.Err? then (Err(fetched.error), db) else SaveSystemPricesTo(db, fetched.value, true, now, now)
  }

  /** The day-ahead block: only `day_ahead_prices` and the log can change. */
  function BackfillDayAheadTo(db: Db, api: MarketIndexApi, first: Day, last: Day, now: int): (r: (Result<Stats>, Db))
    ensures BatchedDayAhead(ChunkFetch(api), first, last).Err? ==>
              r == (Err(BatchedDayAhead(ChunkFetch(api), first, last).error), db)
    ensures r.1.systemPrices == db.systemPrices && r.1.carbonIntensity == db.carbonIntensity
            && r.1.fuelMix == db.fuelMix && r.1.rejects == db.rejects
  {
    var fetched := BatchedDayAhead(ChunkFetch(api), first, last);
    if fetched.Err? then (Err(fetched.error), db) else SaveDayAheadPricesTo(db, fetched.value, true, now, now)
  }

  /** The carbon block: only `carbon_intensity` and the log can change. */
  function BackfillCarbonTo(db: Db, api: IntensityApi, first: Day, last: Day, now: int): (r: (Result<Stats>, Db))
    ensures DailyReadings(api, first, last).Err? ==> r == (Err(DailyReadings(api, first, last).error), db)
    ensures r.1.systemPrices == db.systemPrices && r.1.dayAheadPrices == db.dayAheadPrices
            && r.1.fuelMix == db.fuelMix && r.1.rejects == db.rejects
  {
    var fetched := DailyReadings(api, first, last);
    if fetched.Err? then (Err(fetched.error), db)
    else SaveCarbonIntensityTo(db, CarbonRecordsOf(fetched.value), true, now, now)
  }

  /** The fuel-mix block: only `fuel_mix` and the log can change. */
  function BackfillFuelMixTo(db: Db, api: GenerationRangeApi, first: Day, last: Day, now: int): (r: (Result<Stats>, Db))
    ensures DailyFuelMixes(api, first, last).Err? ==> r == (Err(DailyFuelMixes(api, first, last).error), db)
    ensures r.1.systemPrices == db.systemPrices && r.1.dayAheadPrices == db.dayAheadPrices
            && r.1.carbonIntensity == db.carbonIntensity && r.1.rejects == db.rejects
  {
    var fetched := DailyFuelMixes(api, first, last);
    if fetched.Err? then (Err(fetched.error), db) else SaveFuelMixTo(db, fetched.value, true, now, now)
  }

  /** Source `name` of `backfill`: fetch, then save with logging on. */
  function BackfillSourceTo(db: Db, apis: Apis, first: Day, last: Day, name: string, now: int): (r: (Result<Stats>, Db))
    requires ValidDay(first) && ValidDay(last)
  {
    if name == SystemPricesTable then BackfillSystemPricesTo(db, apis.systemPrices, first, last, now)
    else if name == DayAheadPricesTable then BackfillDayAheadTo(db, apis.marketIndex, first, last, now)
    else if name == CarbonIntensityTable then BackfillCarbonTo(db, apis.intensity, first, last, now)
    else BackfillFuelMixTo(db, apis.generation, first, last, now)
  }

  /** `backfill` after its first `k` `if` blocks. */
  function BackfillSteps(db: Db, apis: Apis, first: Day, last: Day, want: seq<string>, now: int, k: nat)
    : (r: (Result<map<string, Stats>>, Db))
    requires ValidDay(first) && ValidDay(last) && k <= |AllSources|
    ensures r.0.Ok? ==> forall s :: s in r.0.value ==> s in want
    ensures r.1.rejects == db.rejects
  {
    if k == 0 then (Ok(map[]), db)
    else
      var prev := BackfillSteps(db, apis, first, last, want, now, k - 1);
      var name := AllSources[k - 1];
      if name in want then Continue(prev, name, BackfillSourceTo(prev.1, apis, first, last, name, now))
      else prev
  }

  /** After `k` blocks without an exception the result names exactly the
      selected sources among the first `k`. */
  lemma {:induction false} StepsKeys(db: Db, apis: Apis, first: Day, last: Day, want: seq<string>, now: int, k: nat)
    requires ValidDay(first) && ValidDay(last) && k <= |AllSources|
    ensures var r := BackfillSteps(db, apis, first, last, want, now, k);
            r.0.Ok? ==> forall s :: s in r.0.value <==> s in AllSources[..k] && s in want
  {
    if k > 0 {
      StepsKeys(db, apis, first, last, want, now, k - 1);
      var prev := BackfillSteps(db, apis, first, last, want, now, k - 1);
      var r := BackfillSteps(db, apis, first, last, want, now, k);
      var name := AllSources[k - 1];
      assert AllSources[..k] == AllSources[..k - 1] + [name];
      if name in want {
        var step := BackfillSourceTo(prev.1, apis, first, last, name, now);
        assert r == Continue(prev, name, step);
        if r.0.Ok? {
          assert prev.0.Ok? && step.0.Ok?;
          assert r.0.value.Keys == prev.0.value.Keys + {name};
        }
      } else {
        assert r == prev;
      }
    }
  }

  /** `backfill` one block further on. */
  lemma StepsNext(db: Db, apis: Apis, first: Day, last: Day, want: seq<string>, now: int, k: nat)
    requires ValidDay(first) && ValidDay(last) && k < |AllSources|
    ensures var prev := BackfillSteps(db, apis, first, last, want, now, k);
            var name := AllSources[k];
            BackfillSteps(db, apis, first, last, want, now, k + 1)
            == if name in want then Continue(prev, name, BackfillSourceTo(prev.1, apis, first, last, name, now)) else prev
  {
  }

  /** Each table name selects its own block. */
  lemma SourceByName(db: Db, apis: Apis, first: Day, last: Day, now: int)
    requires ValidDay(first) && ValidDay(last)
    ensures BackfillSourceTo(db, apis, first, last, SystemPricesTable, now) == BackfillSystemPricesTo(db, apis.systemPrices, first, last, now)
    ensures BackfillSourceTo(db, apis, first, last, DayAheadPricesTable, now) == BackfillDayAheadTo(db, apis.marketIndex, first, last, now)
    ensures BackfillSourceTo(db, apis, first, last, CarbonIntensityTable, now) == BackfillCarbonTo(db, apis.intensity, first, last, now)
    ensures BackfillSourceTo(db, apis, first, last, FuelMixTable, now) == BackfillFuelMixTo(db, apis.generation, first, last, now)
  {
    TableNamesDistinct();
  }

  /** Once a block has raised, the remaining blocks do not run. */
  lemma {:induction false} StepsStayFailed(db: Db, apis: Apis, first: Day, last: Day, want: seq<string>, now: int, j: nat, k: nat)
    requires ValidDay(first) && ValidDay(last) && j <= k <= |AllSources|
    requires BackfillSteps(db, apis, first, last, want, now, j).0.Err?
    decreases k - j
    ensures BackfillSteps(db, apis, first, last, want, now, k) == BackfillSteps(db, apis, first, last, want, now, j)
  {
    if j < k {
      StepsStayFailed(db, apis, first, last, want, now, j, k - 1);
    }
  }

  /** `backfill`: the selected sources in order, each saved once; unlike
      `fetch_all` there is no `try` per source. The result names exactly the
      selected sources. */
  function BackfillTo(db: Db, apis: Apis, first: Day, last: Day, dataTypes: Option<seq<string>>, now: int)
    : (r: (Result<map<string, Stats>>, Db))
    requires ValidDay(first) && ValidDay(last)
    ensures r.0.Ok? ==> forall s :: s in r.0.value <==> s in AllSources && s in Selected(dataTypes)
  {
    StepsKeys(db, apis, first, last, Selected(dataTypes), now, |AllSources|);
    assert AllSources[..|AllSources|] == AllSources;
    BackfillSteps(db, apis, first, last, Selected(dataTypes), now, |AllSources|)
  }

  /** A failing first source ends the backfill: the later sources never
      touch the database. */
  lemma BackfillStopsAtFailure(db: Db, apis: Apis, first: Day, last: Day, dataTypes: Option<seq<string>>, now: int)
    requires ValidDay(first) && ValidDay(last)
    requires SystemPricesTable in Selected(dataTypes)
    requires BackfillSystemPricesTo(db, apis.systemPrices, first, last, now).0.Err?
    ensures var s := BackfillSystemPricesTo(db, apis.systemPrices, first, last, now);
            BackfillTo(db, apis, first, last, dataTypes, now) == (Err(s.0.error), s.1)
  {
    StepsStayFailed(db, apis, first, last, Selected(dataTypes), now, 1, |AllSources|);
  }

  /** The fetching half of `fetch_fuel_mix`. */
  method GetRecentFuelMixes(api: GenerationRangeApi, target: Option<Day>, today: Day) returns (mixes: Result<seq<FuelMix>>)
    requires ValidDay(today) && (target.Some? ==> ValidDay(target.value))
    ensures mixes == RecentFuelMixes(api, target, today)
  {
    var day := FuelMixDay(target, today);
    if day.Err? {
      return Err(day.error);
    }
    mixes := GetDayFuelMixes(api, day.value);
  }

  // ---------------------------------------------------------------- the fetcher

  class DataFetcher {
    const writer: SupabaseWriter

    constructor (writer: SupabaseWriter)
      ensures this.writer == writer
    {
      this.writer := writer;
    }

    method FetchSystemPrices(api: SystemPriceApi, target: Option<Day>, today: Day, daysBack: int, now: int)
      returns (r: Result<Stats>)
      requires writer.Valid() && ValidDay(today) && (target.Some? ==> ValidDay(target.value))
      modifies writer
      ensures writer.Valid()
      ensures (r, writer.db) == FetchSystemPricesTo(old(writer.db), api, target, today, daysBack, now)
    {
      var prices := GetRecentSystemPrices(api, target, today, daysBack);
      if prices.Err? {
        return Err(prices.error);
      }
      r := writer.SaveSystemPrices(prices.value, true, now, now);
    }

    method FetchDayAheadPrices(api: MarketIndexApi, target: Option<Day>, today: Day, daysBack: int, now: int)
      returns (r: Result<Stats>)
      requires writer.Valid() && ValidDay(today) && (target.Some? ==> ValidDay(target.value))
      modifies writer
      ensures writer.Valid()
      ensures (r, writer.db) == FetchDayAheadPricesTo(old(writer.db), api, target, today, daysBack, now)
    {
      var prices := GetRecentDayAheadPrices(api, target, today, daysBack);
      if prices.Err? {
        return Err(prices.error);
      }
      r := writer.SaveDayAheadPrices(prices.value, true, now, now);
    }

    method FetchCarbonIntensity(api: IntensityApi, target: Option<Day>, today: Day, now: int)
      returns (r: Result<Stats>)
      requires writer.Valid() && ValidDay(today) && (target.Some? ==> ValidDay(target.value))
      modifies writer
      ensures writer.Valid()
      ensures (r, writer.db) == FetchCarbonIntensityTo(old(writer.db), api, target, today, now)
    {
      var readings: seq<CarbonIntensity>;
      if target.Some? {
        var day := GetByDate(api, target.value);
        if day.Err? {
          return Err(day.error);
        }
        readings := day.value;
      } else {
        var yesterday := GetYesterday(api, today);
        if yesterday.Err? {
          return Err(yesterday.error);
        }
        var current := GetToday(api, today);
        if current.Err? {
          return Err(current.error);
        }
        readings := yesterday.value + current.value;
      }
      assert Ok(readings) == RecentReadings(api, target, today);
      r := writer.SaveCarbonIntensity(CarbonRecordsOf(readings), true, now, now);
    }

    method FetchFuelMix(api: GenerationRangeApi, target: Option<Day>, today: Day, now: int)
      returns (r: Result<Stats>)
      requires writer.Valid() && ValidDay(today) && (target.Some? ==> ValidDay(target.value))
      modifies writer
      ensures writer.Valid()
      ensures (r, writer.db) == FetchFuelMixTo(old(writer.db), api, target, today, now)
    {
      var mixes := GetRecentFuelMixes(api, target, today);
      if mixes.Err? {
        return Err(mixes.error);
      }
      r := writer.SaveFuelMix(mixes.value, true, now, now);
    }

    /** `fetch_all`: four `try` blocks filling the result step by step. */
    method FetchAll(apis: Apis, today: Day, daysBack: int, now: int) returns (results: map<string, Report>)
      requires writer.Valid() && ValidDay(today)
      modifies writer
      ensures writer.Valid()
      ensures (results, writer.db) == FetchAllTo(old(writer.db), apis, today, daysBack, now)
    {
      results := map[];
      var sp := FetchSystemPrices(apis.systemPrices, None, today, daysBack, now);
      results := results[SystemPricesTable := ReportOf(sp)];
      var da := FetchDayAheadPrices(apis.marketIndex, None, today, daysBack, now);
      results := results[DayAheadPricesTable := ReportOf(da)];
      var ci := FetchCarbonIntensity(apis.intensity, None, today, now);
      results := results[CarbonIntensityTable := ReportOf(ci)];
      var fm := FetchFuelMix(apis.generation, None, today, now);
      results := results[FuelMixTable := ReportOf(fm)];
    }

    /** The system-price block of `backfill`. */
    method BackfillSystemPrices(api: SystemPriceApi, first: Day, last: Day, now: int) returns (r: Result<Stats>)
      requires writer.Valid() && ValidDay(first) && ValidDay(last)
      modifies writer
      ensures writer.Valid()
      ensures (r, writer.db) == BackfillSystemPricesTo(old(writer.db), api, first, last, now)
    {
      var prices := GetSystemPricesRange(api, first, last);
      if prices.Err? {
        return Err(prices.error);
      }
      r := writer.SaveSystemPrices(prices.value, true, now, now);
    }

    /** The day-ahead block of `backfill`: weekly batches, then one save. */
    method BackfillDayAhead(api: MarketIndexApi, first: Day, last: Day, now: int) returns (r: Result<Stats>)
      requires writer.Valid() && ValidDay(first) && ValidDay(last)
      modifies writer
      ensures writer.Valid()
      ensures (r, writer.db) == BackfillDayAheadTo(old(writer.db), api, first, last, now)
    {
      var prices := CollectBatches(api, ChunkFetch(api), first, last);
      if prices.Err? {
        return Err(prices.error);
      }
      r := writer.SaveDayAheadPrices(prices.value, true, now, now);
    }

    /** The carbon block of `backfill`: day by day, then one save. */
    method BackfillCarbon(api: IntensityApi, first: Day, last: Day, now: int) returns (r: Result<Stats>)
      requires writer.Valid() && ValidDay(first) && ValidDay(last)
      modifies writer
      ensures writer.Valid()
      ensures (r, writer.db) == BackfillCarbonTo(old(writer.db), api, first, last, now)
    {
      var readings := CollectReadings(api, ReadingsFetch(api), first, last);
      assert readings == DailyReadings(api, first, last);
      if readings.Err? {
        return Err(readings.error);
      }
      r := writer.SaveCarbonIntensity(CarbonRecordsOf(readings.value), true, now, now);
    }

    /** The fuel-mix block of `backfill`: day by day, then one save. */
    method BackfillFuelMix(api: GenerationRangeApi, first: Day, last: Day, now: int) returns (r: Result<Stats>)
      requires writer.Valid() && ValidDay(first) && ValidDay(last)
      modifies writer
      ensures writer.Valid()
      ensures (r, writer.db) == BackfillFuelMixTo(old(writer.db), api, first, last, now)
    {
      var mixes := CollectMixes(api, FuelMixesFetch(api), first, last);
      assert mixes == DailyFuelMixes(api, first, last);
      if mixes.Err? {
        return Err(mixes.error);
      }
      r := writer.SaveFuelMix(mixes.value, true, now, now);
    }

    /** The block of `backfill` for source `name`. */
    method BackfillSource(apis: Apis, first: Day, last: Day, name: string, now: int) returns (r: Result<Stats>)
      requires writer.Valid() && ValidDay(first) && ValidDay(last)
      modifies writer
      ensures writer.Valid()
      ensures (r, writer.db) == BackfillSourceTo(old(writer.db), apis, first, last, name, now)
    {
      if name == SystemPricesTable {
        r := BackfillSystemPrices(apis.systemPrices, first, last, now);
      } else if name == DayAheadPricesTable {
        r := BackfillDayAhead(apis.marketIndex, first, last, now);
      } else if name == CarbonIntensityTable {
        r := BackfillCarbon(apis.intensity, first, last, now);
      } else {
        r := BackfillFuelMix(apis.generation, first, last, now);
      }
    }

    /** `if name in data_types: results[name] = ...` for the `k`-th source:
        an exception raised by an earlier block propagates past it. */
    method BackfillBlock(apis: Apis, first: Day, last: Day, want: seq<string>, now: int, ghost db0: Db, k: nat,
                         acc: Result<map<string, Stats>>)
      returns (r: Result<map<string, Stats>>)
      requires writer.Valid() && ValidDay(first) && ValidDay(last) && k < |AllSources|
      requires (acc, writer.db) == BackfillSteps(db0, apis, first, last, want, now, k)
      modifies writer
      ensures writer.Valid()
      ensures (r, writer.db) == BackfillSteps(db0, apis, first, last, want, now, k + 1)
    {
      StepsNext(db0, apis, first, last, want, now, k);
      var name := AllSources[k];
      if acc.Err? || name !in want {
        return acc;
      }
      var stats := BackfillSource(apis, first, last, name, now);
      if stats.Err? {
        return Err(stats.error);
      }
      r := Ok(acc.value[name := stats.value]);
    }

    /** `backfill`: the selected sources in order; the first exception
        ends it. */
    method Backfill(apis: Apis, first: Day, last: Day, dataTypes: Option<seq<string>>, now: int)
      returns (r: Result<map<string, Stats>>)
      requires writer.Valid() && ValidDay(first) && ValidDay(last)
      modifies writer
      ensures writer.Valid()
      ensures (r, writer.db) == BackfillTo(old(writer.db), apis, first, last, dataTypes, now)
    {
      var want := Selected(dataTypes);
      ghost var db0 := writer.db;
      var k := 0;
      r := BackfillBlock(apis, first, last, want, now, db0, k, Ok(map[]));
      k := k + 1;
      r := BackfillBlock(apis, first, last, want, now, db0, k, r);
      k := k + 1;
      r := BackfillBlock(apis, first, last, want, now, db0, k, r);
      k := k + 1;
      r := BackfillBlock(apis, first, last, want, now, db0, k, r);
    }

    /** The daily maintenance job: backfill the week before today, every
        exception caught and logged. */
    method DailyMaintenance(apis: Apis, today: Day, now: int)
      requires writer.Valid() && ValidDay(today)
      modifies writer
      ensures writer.Valid()
      ensures MaintenanceWindow(today).Err? ==> writer.db == old(writer.db)
      ensures MaintenanceWindow(today).Ok? ==>
                var w := MaintenanceWindow(today).value;
                writer.db == BackfillTo(old(writer.db), apis, w.0, w.1, None, now).1
    {
      var window := MaintenanceWindow(today);
      if window.Ok? {
        var _ := Backfill(apis, window.value.0, window.value.1, None, now);
      }
    }
  }
}
