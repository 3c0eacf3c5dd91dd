/** The writer of storage/supabase.py. The database stands as one map per
    table, keyed by the columns the table's upsert names as its conflict
    target, plus the `fetch_logs` table, whose ids the database assigns from
    a sequence. */
module Supabase {
  import opened Wrappers
  import opened Seqs
  import opened Dates
  import opened DateTimes
  import opened Price
  import opened Carbon

  const CredentialsRequired := "Supabase credentials required. Set SUPABASE_URL and SUPABASE_SERVICE_KEY environment variables or pass them directly."

  const SystemPricesTable := "system_prices"
  const DayAheadPricesTable := "day_ahead_prices"
  const CarbonIntensityTable := "carbon_intensity"
  const FuelMixTable := "fuel_mix"

  /** The four tables have different names. */
  lemma TableNamesDistinct()
    ensures SystemPricesTable != DayAheadPricesTable && SystemPricesTable != CarbonIntensityTable
    ensures SystemPricesTable != FuelMixTable && DayAheadPricesTable != CarbonIntensityTable
    ensures DayAheadPricesTable != FuelMixTable && CarbonIntensityTable != FuelMixTable
  {
    assert SystemPricesTable[0] == 's' && DayAheadPricesTable[0] == 'd';
    assert CarbonIntensityTable[0] == 'c' && FuelMixTable[0] == 'f';
  }

  /** Python truthiness of an optional string: `None` and "" are false. */
  predicate Truthy(s: Option<string>) {
    s.Some? && s.value != ""
  }

  /** `arg or os.getenv(name)` for both settings, then the check that both
      are truthy. */
  function Credentials(url: Option<string>, key: Option<string>, envUrl: Option<string>, envKey: Option<string>)
    : (r: Result<(string, string)>)
    ensures r.Ok? <==> (Truthy(url) || Truthy(envUrl)) && (Truthy(key) || Truthy(envKey))
    ensures r.Err? ==> r.error == ValueError(CredentialsRequired)
    ensures r.Ok? ==> r.value.0 != "" && r.value.1 != ""
    ensures r.Ok? && Truthy(url) ==> r.value.0 == url.value
    ensures r.Ok? && !Truthy(url) ==> r.value.0 == envUrl.value
    ensures r.Ok? && Truthy(key) ==> r.value.1 == key.value
    ensures r.Ok? && !Truthy(key) ==> r.value.1 == envKey.value
  {
    var u := if Truthy(url) then url else envUrl;
    var k := if Truthy(key) then key else envKey;
    if !Truthy(u) || !Truthy(k) then Err(ValueError(CredentialsRequired))
    else Ok((u.value, k.value))
  }

  // ---------------------------------------------------------------- fetch log

  datatype Status = Running | Success | Error

  /** The value written to the `status` column. */
  function StatusName(s: Status): (n: string)
    ensures n == "running" <==> s == Running
    ensures n == "success" <==> s == Success
    ensures n == "error" <==> s == Error
  {
    match s
    case Running => "running"
    case Success => "success"
    case Error => "error"
  }

  /** The `date_range` metadata of a price fetch, as day numbers. */
  datatype DateRange = DateRange(first: Day, last: Day)

  /** One row of `fetch_logs`; timestamps are instants of an outside clock. */
  datatype FetchLog = FetchLog(
    id: int,
    fetchType: string,
    startedAt: int,
    status: Status,
    metadata: Option<DateRange>,
    completedAt: Option<int>,
    recordsFetched: Option<int>,
    recordsInserted: Option<int>,
    recordsUpdated: Option<int>,
    errorMessage: Option<string>)

  /** The rows in insertion order and the next value of the id sequence. */
  datatype LogTable = LogTable(rows: seq<FetchLog>, nextId: int)

  /** The columns `_complete_fetch_log` sets. */
  datatype Completion = Completion(
    completedAt: int, fetched: int, inserted: int, updated: int, status: Status, errorMessage: Option<string>)

  predicate RowValid(row: FetchLog) {
    (row.status == Running <==> row.completedAt.None?)
    && (row.status == Success ==> row.errorMessage.None?)
    && (row.status == Error ==> row.errorMessage.Some?)
  }

  predicate CompletionValid(c: Completion) {
    c.status != Running
    && (c.status == Success ==> c.errorMessage.None?)
    && (c.status == Error ==> c.errorMessage.Some?)
  }

  /** Every id is distinct and below the sequence's next value, and each
      row's status agrees with its completion columns. */
  predicate LogsValid(t: LogTable) {
    (forall i :: 0 <= i < |t.rows| ==> t.rows[i].id < t.nextId && RowValid(t.rows[i]))
    && (forall i, j :: 0 <= i < j < |t.rows| ==> t.rows[i].id != t.rows[j].id)
  }

  function NewLogRow(id: int, fetchType: string, metadata: Option<DateRange>, now: int): FetchLog {
    FetchLog(id, fetchType, now, Running, metadata, None, None, None, None, None)
  }

  /** `_start_fetch_log`: insert a "running" row; the database gives it the
      next id of its sequence, which the method returns. */
  function StartLog(t: LogTable, fetchType: string, metadata: Option<DateRange>, now: int): (r: LogTable)
    ensures |r.rows| == |t.rows| + 1 && r.rows[..|t.rows|] == t.rows
    ensures r.rows[|t.rows|].id == t.nextId && r.rows[|t.rows|].status == Running
    ensures r.nextId > t.nextId
    ensures LogsValid(t) ==> LogsValid(r)
  {
    LogTable(t.rows + [NewLogRow(t.nextId, fetchType, metadata, now)], t.nextId + 1)
  }

  function Apply(row: FetchLog, c: Completion): FetchLog {
    row.(completedAt := Some(c.completedAt), recordsFetched := Some(c.fetched),
         recordsInserted := Some(c.inserted), recordsUpdated := Some(c.updated),
         status := c.status, errorMessage := c.errorMessage)
  }

  /** `UPDATE fetch_logs SET ... WHERE id = logId`, row by row. */
  function UpdateWhere(rows: seq<FetchLog>, logId: int, c: Completion): (r: seq<FetchLog>)
    ensures |r| == |rows|
    ensures forall i :: 0 <= i < |rows| && rows[i].id == logId ==> r[i] == Apply(rows[i], c)
    ensures forall i :: 0 <= i < |rows| && rows[i].id != logId ==> r[i] == rows[i]
  {
    if rows == [] then []
    else
      var last := rows[|rows| - 1];
      UpdateWhere(rows[..|rows| - 1], logId, c) + [if last.id == logId then Apply(last, c) else last]
  }

  /** `_complete_fetch_log` */
  function CompleteLog(t: LogTable, logId: int, c: Completion): (r: LogTable)
    ensures r.nextId == t.nextId && |r.rows| == |t.rows|
    ensures forall i :: 0 <= i < |t.rows| ==> r.rows[i].id == t.rows[i].id
    ensures LogsValid(t) && CompletionValid(c) ==> LogsValid(r)
  {
    LogTable(UpdateWhere(t.rows, logId, c), t.nextId)
  }

  /** The `if log_id:` guard: no id, or id 0, completes nothing. */
  function Finish(t: LogTable, logId: Option<int>, c: Completion): (r: LogTable)
    ensures logId.None? || logId.value == 0 ==> r == t
  {
    if logId.Some? && logId.value != 0 then CompleteLog(t, logId.value, c) else t
  }

  // ---------------------------------------------------------------- saving

  datatype Stats = Stats(fetched: int, inserted: int, updated: int)

  /** What a save leaves behind: its result, the data table and the log. */
  datatype Saved<K, V> = Saved(result: Result<Stats>, table: map<K, V>, logs: LogTable)

  /** PostgreSQL's refusal of an upsert whose batch names one conflict key
      twice. */
  const AffectRowTwice := DatabaseError("ON CONFLICT DO UPDATE command cannot affect row a second time")

  /** What the upsert raises: the failure the database has for the table,
      else the refusal of a batch that repeats a conflict key. */
  function UpsertFailure<K(==), V>(rejection: Option<Exception>, rows: seq<(K, V)>): (f: Option<Exception>)
    ensures f.None? <==> rejection.None? && DistinctKeys(rows)
    ensures rejection.Some? ==> f == rejection
    ensures rejection.None? && !DistinctKeys(rows) ==> f == Some(AffectRowTwice)
  {
    if rejection.Some? then rejection
    else if !DistinctKeys(rows) then Some(AffectRowTwice)
    else None
  }

  /** The shape shared by the four `save_*` methods: return zero stats for no
      rows; else start a log row when `logFetch`, upsert, and complete the
      log row with the stats, or, when the database raises `rejection`,
      with status "error", counts (n, 0, 0) and the message, re-raising it;
      a batch that repeats a conflict key is refused as a whole.
      `inserted` is the number of rows the upsert returns, one per row sent. */
  function SaveRows<K(==), V>(
    table: map<K, V>, logs: LogTable, rejection: Option<Exception>, rows: seq<(K, V)>,
    logFetch: bool, fetchType: string, metadata: Option<DateRange>, started: int, completed: int)
    : (r: Saved<K, V>)
    ensures rows == [] ==> r == Saved(Ok(Stats(0, 0, 0)), table, logs)
    ensures rows != [] ==> (r.result.Ok? <==> rejection.None? && DistinctKeys(rows))
    ensures r.result.Ok? && rows != [] ==> r.result.value == Stats(|rows|, |rows|, 0) && r.table == Upsert(table, rows)
    ensures r.result.Err? ==> r.result == Err(UpsertFailure(rejection, rows).value) && r.table == table
    ensures rows != [] && rejection.None? && !DistinctKeys(rows) ==> r.result == Err(AffectRowTwice)
    ensures !logFetch ==> r.logs == logs
    ensures |r.logs.rows| == |logs.rows| + (if rows != [] && logFetch then 1 else 0)
    ensures LogsValid(logs) ==> LogsValid(r.logs)
  {
    if rows == [] then Saved(Ok(Stats(0, 0, 0)), table, logs)
    else
      var logs1 := if logFetch then StartLog(logs, fetchType, metadata, started) else logs;
      var logId := if logFetch then Some(logs.nextId) else None;
      var n := |rows|;
      match UpsertFailure(rejection, rows)
      case None =>
        Saved(Ok(Stats(n, n, 0)), Upsert(table, rows), Finish(logs1, logId, Completion(completed, n, n, 0, Success, None)))
      case Some(e) =>
        Saved(Err(e), table, Finish(logs1, logId, Completion(completed, n, 0, 0, Error, Some(Message(e)))))
  }

  /** A logged save adds exactly one row, last, with the id the sequence gave
      it; the row ends "success" with the stats or "error" with (n, 0, 0) and
      the message, unless its id is 0, which the guard leaves "running". */
  lemma SaveLogLifecycle<K, V>(
    table: map<K, V>, logs: LogTable, rejection: Option<Exception>, rows: seq<(K, V)>,
    fetchType: string, metadata: Option<DateRange>, started: int, completed: int)
    requires LogsValid(logs) && rows != []
    ensures var s := SaveRows(table, logs, rejection, rows, true, fetchType, metadata, started, completed);
            var row := s.logs.rows[|logs.rows|];
            var n := |rows|;
            s.logs.rows[..|logs.rows|] == logs.rows
            && row.id == logs.nextId && row.fetchType == fetchType && row.startedAt == started
            && row.metadata == metadata
            && (logs.nextId == 0 ==> row.status == Running && row.completedAt.None?)
            && (logs.nextId != 0 && UpsertFailure(rejection, rows).None? ==>
                  row.status == Success && row.completedAt == Some(completed) && row.errorMessage.None?
                  && row.recordsFetched == Some(n) && row.recordsInserted == Some(n) && row.recordsUpdated == Some(0))
            && (logs.nextId != 0 && UpsertFailure(rejection, rows).Some? ==>
                  row.status == Error && row.completedAt == Some(completed)
                  && row.errorMessage == Some(Message(UpsertFailure(rejection, rows).value))
                  && row.recordsFetched == Some(n) && row.recordsInserted == Some(0) && row.recordsUpdated == Some(0))
  {
    var s := SaveRows(table, logs, rejection, rows, true, fetchType, metadata, started, completed);
    var logs1 := StartLog(logs, fetchType, metadata, started);
    var k := |logs.rows|;
    assert logs1.rows[k] == NewLogRow(logs.nextId, fetchType, metadata, started);
    if logs.nextId != 0 {
      var failure := UpsertFailure(rejection, rows);
      var c := if failure.None? then Completion(completed, |rows|, |rows|, 0, Success, None)
               else Completion(completed, |rows|, 0, 0, Error, Some(Message(failure.value)));
      assert s.logs == CompleteLog(logs1, logs.nextId, c);
      forall i | 0 <= i < k
        ensures s.logs.rows[i] == logs.rows[i]
      {
        assert logs1.rows[i] == logs.rows[i];
      }
    }
  }

  // ---------------------------------------------------------------- latest fetch

  /** `ORDER BY completed_at DESC`: PostgreSQL sorts NULL first in descending
      order, so a missing completion time ranks above every time. */
  predicate AtLeastAsRecent(a: Option<int>, b: Option<int>) {
    a.None? || (b.Some? && a.value >= b.value)
  }

  predicate SuccessOf(row: FetchLog, fetchType: string) {
    row.fetchType == fetchType && row.status == Success
  }

  /** `get_latest_fetch`: the successful row of `fetchType` that ranks first
      by completion time, or `None`; of rows that tie, the earliest. */
  function LatestFetch(rows: seq<FetchLog>, fetchType: string): (r: Option<FetchLog>)
    ensures r.None? <==> forall i :: 0 <= i < |rows| ==> !SuccessOf(rows[i], fetchType)
    ensures r.Some? ==> r.value in rows && SuccessOf(r.value, fetchType)
    ensures r.Some? ==> forall i :: 0 <= i < |rows| && SuccessOf(rows[i], fetchType) ==>
                          AtLeastAsRecent(r.value.completedAt, rows[i].completedAt)
  {
    if rows == [] then None
    else
      var init := rows[..|rows| - 1];
      var last := rows[|rows| - 1];
      var prev := LatestFetch(init, fetchType);
      assert forall i :: 0 <= i < |init| ==> init[i] == rows[i];
      if !SuccessOf(last, fetchType) then prev
      else if prev.Some? && AtLeastAsRecent(prev.value.completedAt, last.completedAt) then prev
      else Some(last)
  }

  /** When the clock has moved past every earlier completion, the latest
      fetch after a logged save of a batch with distinct keys is the row that
      save completed; a batch that repeats a key is refused, its row ends in
      "error" and the latest fetch stays what it was. */
  lemma {:induction false} LatestFetchAfterSave<K, V>(
    table: map<K, V>, logs: LogTable, rows: seq<(K, V)>,
    fetchType: string, metadata: Option<DateRange>, started: int, completed: int)
    requires LogsValid(logs) && rows != [] && logs.nextId != 0
    requires forall i :: 0 <= i < |logs.rows| && logs.rows[i].completedAt.Some? ==>
               logs.rows[i].completedAt.value < completed
    ensures var s := SaveRows(table, logs, None, rows, true, fetchType, metadata, started, completed);
            (DistinctKeys(rows) ==> LatestFetch(s.logs.rows, fetchType) == Some(s.logs.rows[|logs.rows|]))
            && (!DistinctKeys(rows) ==> LatestFetch(s.logs.rows, fetchType) == LatestFetch(logs.rows, fetchType))
  {
    var s := SaveRows(table, logs, None, rows, true, fetchType, metadata, started, completed);
    SaveLogLifecycle(table, logs, None, rows, fetchType, metadata, started, completed);
    var k := |logs.rows|;
    var all := s.logs.rows;
    assert |all| == k + 1;
    assert all[..k] == logs.rows;
    if !DistinctKeys(rows) {
      return;
    }
    var prev := LatestFetch(all[..k], fetchType);
    if prev.Some? {
      var i :| 0 <= i < k && all[..k][i] == prev.value;
      assert RowValid(logs.rows[i]);
    }
  }

  // ---------------------------------------------------------------- tables

  /** A carbon intensity record as the orchestrator builds it: a dict with
      "datetime" and "intensity", "intensity_index" read with `get`, and
      "data_source" that may be missing or null. */
  datatype CarbonRecord = CarbonRecord(
    datetime: string, intensity: int, intensityIndex: Option<string>, dataSource: JsonField<string>)

  /** A `carbon_intensity` row, less its key. */
  datatype CarbonRow = CarbonRow(intensity: int, intensityIndex: Option<string>, dataSource: Option<string>)

  /** `r.get("data_source", "national_grid")` and the row built from `r`. */
  function CarbonRowOf(r: CarbonRecord): (row: CarbonRow)
    ensures r.dataSource.Absent? ==> row.dataSource == Some(NationalGrid)
    ensures r.dataSource.Null? ==> row.dataSource.None?
    ensures r.dataSource.Present? ==> row.dataSource == Some(r.dataSource.value)
    ensures row.intensity == r.intensity && row.intensityIndex == r.intensityIndex
  {
    var source := match r.dataSource
      case Absent => Some(NationalGrid)
      case Null => None
      case Present(s) => Some(s);
    CarbonRow(r.intensity, r.intensityIndex, source)
  }

  /** The conflict keys: (settlement_date, settlement_period),
      (settlement_date, settlement_period, data_provider), datetime. */
  function SystemPriceConflictKey(p: SystemPrice): (k: (int, int))
    ensures k.0 == p.settlementDate && k.1 == p.settlementPeriod
  {
    (p.settlementDate, p.settlementPeriod)
  }

  function DayAheadConflictKey(p: DayAheadPrice): (k: (int, int, string))
    ensures k.0 == p.settlementDate && k.1 == p.settlementPeriod && k.2 == p.dataProvider
  {
    (p.settlementDate, p.settlementPeriod, p.dataProvider)
  }

  /** For valid periods the conflict key and the sort key tell the same
      system prices apart: two prices share a row of the table exactly when
      the sort puts them level. */
  lemma SystemPriceKeysAgree(a: SystemPrice, b: SystemPrice)
    requires ValidPeriod(a.settlementPeriod) && ValidPeriod(b.settlementPeriod)
    ensures SystemPriceConflictKey(a) == SystemPriceConflictKey(b) <==> SystemPriceKey(a) == SystemPriceKey(b)
  {
    DatePeriodKeyOrder(a.settlementDate, a.settlementPeriod, b.settlementDate, b.settlementPeriod);
    DatePeriodKeyOrder(b.settlementDate, b.settlementPeriod, a.settlementDate, a.settlementPeriod);
  }

  /** `fm.datetime_from.isoformat()`, which reads back as the start time. */
  function FuelMixConflictKey(fm: FuelMix): (k: string)
    requires fm.datetimeFrom.Valid()
    ensures ParseIsoDateTime(k) == Some(fm.datetimeFrom)
  {
    IsoFormatRoundTrip(fm.datetimeFrom);
    IsoFormat(fm.datetimeFrom)
  }

  /** Two fuel mixes collide in `fuel_mix` exactly when they start at the same
      date-time, offset included. */
  lemma FuelMixKeyInjective(a: FuelMix, b: FuelMix)
    requires a.datetimeFrom.Valid() && b.datetimeFrom.Valid()
    ensures FuelMixConflictKey(a) == FuelMixConflictKey(b) <==> a.datetimeFrom == b.datetimeFrom
  {
    if FuelMixConflictKey(a) == FuelMixConflictKey(b) {
      IsoFormatInjective(a.datetimeFrom, b.datetimeFrom);
    }
  }

  function SystemPriceRecords(prices: seq<SystemPrice>): (r: seq<((int, int), SystemPrice)>)
    ensures |r| == |prices|
    ensures forall i :: 0 <= i < |prices| ==> r[i] == (SystemPriceConflictKey(prices[i]), prices[i])
  {
    seq(|prices|, i requires 0 <= i < |prices| => (SystemPriceConflictKey(prices[i]), prices[i]))
  }

  function DayAheadRecords(prices: seq<DayAheadPrice>): (r: seq<((int, int, string), DayAheadPrice)>)
    ensures |r| == |prices|
    ensures forall i :: 0 <= i < |prices| ==> r[i] == (DayAheadConflictKey(prices[i]), prices[i])
  {
    seq(|prices|, i requires 0 <= i < |prices| => (DayAheadConflictKey(prices[i]), prices[i]))
  }

  function CarbonRecords(records: seq<CarbonRecord>): (r: seq<(string, CarbonRow)>)
    ensures |r| == |records|
    ensures forall i :: 0 <= i < |records| ==> r[i] == (records[i].datetime, CarbonRowOf(records[i]))
  {
    seq(|records|, i requires 0 <= i < |records| => (records[i].datetime, CarbonRowOf(records[i])))
  }

  function FuelMixRecords(mixes: seq<FuelMix>): (r: seq<(string, FuelMix)>)
    requires MixesValid(mixes)
    ensures |r| == |mixes|
    ensures forall i :: 0 <= i < |mixes| ==> r[i] == (FuelMixConflictKey(mixes[i]), mixes[i])
  {
    seq(|mixes|, i requires 0 <= i < |mixes| => (FuelMixConflictKey(mixes[i]), mixes[i]))
  }

  /** `{"from": min(dates), "to": max(dates)}` */
  function DateRangeOf(dates: seq<int>): (r: DateRange)
    requires |dates| > 0
    ensures r.first in dates && r.last in dates
    ensures forall i :: 0 <= i < |dates| ==> r.first <= dates[i] <= r.last
  {
    DateRange(Min(dates), Max(dates))
  }

  function SystemPriceDates(prices: seq<SystemPrice>): (r: seq<int>)
    ensures |r| == |prices| && forall i :: 0 <= i < |prices| ==> r[i] == prices[i].settlementDate
  {
    seq(|prices|, i requires 0 <= i < |prices| => prices[i].settlementDate)
  }

  function DayAheadDates(prices: seq<DayAheadPrice>): (r: seq<int>)
    ensures |r| == |prices| && forall i :: 0 <= i < |prices| ==> r[i] == prices[i].settlementDate
  {
    seq(|prices|, i requires 0 <= i < |prices| => prices[i].settlementDate)
  }

  /** The database: one map per table, the log, and for each table the
      exception the database raises on an upsert into it, if any. */
  datatype Db = Db(
    systemPrices: map<(int, int), SystemPrice>,
    dayAheadPrices: map<(int, int, string), DayAheadPrice>,
    carbonIntensity: map<string, CarbonRow>,
    fuelMix: map<string, FuelMix>,
    logs: LogTable,
    rejects: map<string, Exception>)

  function Rejection(db: Db, table: string): Option<Exception> {
    if table in db.rejects then Some(db.rejects[table]) else None
  }

  function SaveSystemPricesTo(db: Db, prices: seq<SystemPrice>, logFetch: bool, started: int, completed: int)
    : (r: (Result<Stats>, Db))
    ensures r.1.dayAheadPrices == db.dayAheadPrices && r.1.carbonIntensity == db.carbonIntensity
            && r.1.fuelMix == db.fuelMix && r.1.rejects == db.rejects
  {
    var metadata := if prices == [] then None else Some(DateRangeOf(SystemPriceDates(prices)));
    var s := SaveRows(db.systemPrices, db.logs, Rejection(db, SystemPricesTable), SystemPriceRecords(prices),
                      logFetch, SystemPricesTable, metadata, started, completed);
    (s.result, db.(systemPrices := s.table, logs := s.logs))
  }

  function SaveDayAheadPricesTo(db: Db, prices: seq<DayAheadPrice>, logFetch: bool, started: int, completed: int)
    : (r: (Result<Stats>, Db))
    ensures r.1.systemPrices == db.systemPrices && r.1.carbonIntensity == db.carbonIntensity
            && r.1.fuelMix == db.fuelMix && r.1.rejects == db.rejects
  {
    var metadata := if prices == [] then None else Some(DateRangeOf(DayAheadDates(prices)));
    var s := SaveRows(db.dayAheadPrices, db.logs, Rejection(db, DayAheadPricesTable), DayAheadRecords(prices),
                      logFetch, DayAheadPricesTable, metadata, started, completed);
    (s.result, db.(dayAheadPrices := s.table, logs := s.logs))
  }

  function SaveCarbonIntensityTo(db: Db, records: seq<CarbonRecord>, logFetch: bool, started: int, completed: int)
    : (r: (Result<Stats>, Db))
    ensures r.1.systemPrices == db.systemPrices && r.1.dayAheadPrices == db.dayAheadPrices
            && r.1.fuelMix == db.fuelMix && r.1.rejects == db.rejects
  {
    var s := SaveRows(db.carbonIntensity, db.logs, Rejection(db, CarbonIntensityTable), CarbonRecords(records),
                      logFetch, CarbonIntensityTable, None, started, completed);
    (s.result, db.(carbonIntensity := s.table, logs := s.logs))
  }

  function SaveFuelMixTo(db: Db, mixes: seq<FuelMix>, logFetch: bool, started: int, completed: int)
    : (r: (Result<Stats>, Db))
    requires MixesValid(mixes)
    ensures r.1.systemPrices == db.systemPrices && r.1.dayAheadPrices == db.dayAheadPrices
            && r.1.carbonIntensity == db.carbonIntensity && r.1.rejects == db.rejects
  {
    var s := SaveRows(db.fuelMix, db.logs, Rejection(db, FuelMixTable), FuelMixRecords(mixes),
                      logFetch, FuelMixTable, None, started, completed);
    (s.result, db.(fuelMix := s.table, logs := s.logs))
  }

  /** With no failure of its own, a save of system prices succeeds exactly
      when no two prices share a (date, period); a successful save stores
      every price of the batch, as sent, under its (date, period). */
  lemma SavedSystemPriceStored(
    db: Db, prices: seq<SystemPrice>, logFetch: bool, started: int, completed: int, i: int)
    requires 0 <= i < |prices|
    ensures var r := SaveSystemPricesTo(db, prices, logFetch, started, completed);
            SystemPricesTable !in db.rejects ==>
              (r.0.Ok? <==> forall a, b :: 0 <= a < b < |prices| ==>
                              SystemPriceConflictKey(prices[a]) != SystemPriceConflictKey(prices[b]))
    ensures var r := SaveSystemPricesTo(db, prices, logFetch, started, completed);
            var k := SystemPriceConflictKey(prices[i]);
            r.0.Ok? ==> k in r.1.systemPrices && r.1.systemPrices[k] == prices[i]
  {
    var rows := SystemPriceRecords(prices);
    var k := SystemPriceConflictKey(prices[i]);
    var r := SaveSystemPricesTo(db, prices, logFetch, started, completed);
    if r.0.Ok? {
      DistinctLastValue(rows, i);
      UpsertLastWins(db.systemPrices, rows, k);
    }
  }

  /** With no failure of its own, a save of carbon intensity records
      succeeds exactly when no two records share a "datetime"; a successful
      save stores the row built from every record under its "datetime". */
  lemma SavedCarbonRowStored(
    db: Db, records: seq<CarbonRecord>, logFetch: bool, started: int, completed: int, i: int)
    requires 0 <= i < |records|
    ensures var r := SaveCarbonIntensityTo(db, records, logFetch, started, completed);
            CarbonIntensityTable !in db.rejects ==>
              (r.0.Ok? <==> forall a, b :: 0 <= a < b < |records| ==> records[a].datetime != records[b].datetime)
    ensures var r := SaveCarbonIntensityTo(db, records, logFetch, started, completed);
            var k := records[i].datetime;
            r.0.Ok? ==> k in r.1.carbonIntensity && r.1.carbonIntensity[k] == CarbonRowOf(records[i])
  {
    var rows := CarbonRecords(records);
    var r := SaveCarbonIntensityTo(db, records, logFetch, started, completed);
    if r.0.Ok? {
      DistinctLastValue(rows, i);
      UpsertLastWins(db.carbonIntensity, rows, records[i].datetime);
    }
  }

  /** With no failure of its own, a save of fuel mixes succeeds exactly when
      no two mixes start at the same date-time; a successful save stores
      every mix, as sent, under its `isoformat()` key. */
  lemma SavedFuelMixStored(
    db: Db, mixes: seq<FuelMix>, logFetch: bool, started: int, completed: int, i: int)
    requires MixesValid(mixes) && 0 <= i < |mixes|
    ensures var r := SaveFuelMixTo(db, mixes, logFetch, started, completed);
            FuelMixTable !in db.rejects ==>
              (r.0.Ok? <==> forall a, b :: 0 <= a < b < |mixes| ==> mixes[a].datetimeFrom != mixes[b].datetimeFrom)
    ensures var r := SaveFuelMixTo(db, mixes, logFetch, started, completed);
            var k := FuelMixConflictKey(mixes[i]);
            r.0.Ok? ==> k in r.1.fuelMix && r.1.fuelMix[k] == mixes[i]
  {
    var rows := FuelMixRecords(mixes);
    forall a, b | 0 <= a < b < |mixes|
      ensures rows[a].0 == rows[b].0 <==> mixes[a].datetimeFrom == mixes[b].datetimeFrom
    {
      FuelMixKeyInjective(mixes[a], mixes[b]);
    }
    var r := SaveFuelMixTo(db, mixes, logFetch, started, completed);
    if r.0.Ok? {
      DistinctLastValue(rows, i);
      UpsertLastWins(db.fuelMix, rows, rows[i].0);
    }
  }

  /** Saving the same prices again leaves the table as the first save did. */
  lemma SaveSystemPricesTwice(db: Db, prices: seq<SystemPrice>, logFetch: bool, t1: int, t2: int, t3: int, t4: int)
    requires SystemPricesTable !in db.rejects
    ensures var once := SaveSystemPricesTo(db, prices, logFetch, t1, t2).1;
            SaveSystemPricesTo(once, prices, logFetch, t3, t4).1.systemPrices == once.systemPrices
  {
    UpsertIdempotent(db.systemPrices, SystemPriceRecords(prices));
  }

  // ---------------------------------------------------------------- the writer

  class SupabaseWriter {
    const url: string
    const key: string
    /** The database the client talks to. */
    var db: Db

    predicate Valid()
      reads this
    {
      url != "" && key != "" && LogsValid(db.logs)
    }

    constructor (url: string, key: string, db: Db)
      requires url != "" && key != "" && LogsValid(db.logs)
      ensures this.url == url && this.key == key && this.db == db
      ensures Valid()
    {
      this.url := url;
      this.key := key;
      this.db := db;
    }

    /** `SupabaseWriter(url, key)` with the environment's values as
        fall-back; ValueError when either setting is missing. */
    static method Connect(url: Option<string>, key: Option<string>, envUrl: Option<string>, envKey: Option<string>, db: Db)
      returns (r: Result<SupabaseWriter>)
      requires LogsValid(db.logs)
      ensures r.Err? <==> Credentials(url, key, envUrl, envKey).Err?
      ensures r.Err? ==> r.error == ValueError(CredentialsRequired)
      ensures r.Ok? ==> fresh(r.value) && r.value.Valid() && r.value.db == db
                        && (r.value.url, r.value.key) == Credentials(url, key, envUrl, envKey).value
    {
      var u := if Truthy(url) then url else envUrl;
      var k := if Truthy(key) then key else envKey;
      if !Truthy(u) || !Truthy(k) {
        return Err(ValueError(CredentialsRequired));
      }
      var w := new SupabaseWriter(u.value, k.value, db);
      return Ok(w);
    }

    method StartFetchLog(fetchType: string, metadata: Option<DateRange>, now: int) returns (id: int)
      requires Valid()
      modifies this
      ensures Valid()
      ensures id == old(db.logs.nextId)
      ensures db == old(db).(logs := StartLog(old(db.logs), fetchType, metadata, now))
    {
      id := db.logs.nextId;
      db := db.(logs := StartLog(db.logs, fetchType, metadata, now));
    }

    method CompleteFetchLog(logId: int, c: Completion)
      requires Valid() && CompletionValid(c)
      modifies this
      ensures Valid()
      ensures db == old(db).(logs := CompleteLog(old(db.logs), logId, c))
    {
      db := db.(logs := CompleteLog(db.logs, logId, c));
    }

    method SaveSystemPrices(prices: seq<SystemPrice>, logFetch: bool, started: int, completed: int)
      returns (r: Result<Stats>)
      requires Valid()
      modifies this
      ensures Valid()
      ensures (r, db) == SaveSystemPricesTo(old(db), prices, logFetch, started, completed)
    {
      if prices == [] {
        return Ok(Stats(0, 0, 0));
      }
      var logId: Option<int> := None;
      if logFetch {
        var metadata := DateRangeOf(SystemPriceDates(prices));
        var id := StartFetchLog(SystemPricesTable, Some(metadata), started);
        logId := Some(id);
      }
      var records := SystemPriceRecords(prices);
      var failure := UpsertFailure(Rejection(db, SystemPricesTable), records);
      if failure.Some? {
        var e := failure.value;
        if logId.Some? && logId.value != 0 {
          CompleteFetchLog(logId.value, Completion(completed, |prices|, 0, 0, Error, Some(Message(e))));
        }
        return Err(e);
      }
      db := db.(systemPrices := Upsert(db.systemPrices, records));
      var stats := Stats(|prices|, |records|, 0);
      if logId.Some? && logId.value != 0 {
        CompleteFetchLog(logId.value, Completion(completed, stats.fetched, stats.inserted, stats.updated, Success, None));
      }
      return Ok(stats);
    }

    method SaveDayAheadPrices(prices: seq<DayAheadPrice>, logFetch: bool, started: int, completed: int)
      returns (r: Result<Stats>)
      requires Valid()
      modifies this
      ensures Valid()
      ensures (r, db) == SaveDayAheadPricesTo(old(db), prices, logFetch, started, completed)
    {
      if prices == [] {
        return Ok(Stats(0, 0, 0));
      }
      var logId: Option<int> := None;
      if logFetch {
        var metadata := DateRangeOf(DayAheadDates(prices));
        var id := StartFetchLog(DayAheadPricesTable, Some(metadata), started);
        logId := Some(id);
      }
      var records := DayAheadRecords(prices);
      var failure := UpsertFailure(Rejection(db, DayAheadPricesTable), records);
      if failure.Some? {
        var e := failure.value;
        if logId.Some? && logId.value != 0 {
          CompleteFetchLog(logId.value, Completion(completed, |prices|, 0, 0, Error, Some(Message(e))));
        }
        return Err(e);
      }
      db := db.(dayAheadPrices := Upsert(db.dayAheadPrices, records));
      var stats := Stats(|prices|, |records|, 0);
      if logId.Some? && logId.value != 0 {
        CompleteFetchLog(logId.value, Completion(completed, stats.fetched, stats.inserted, stats.updated, Success, None));
      }
      return Ok(stats);
    }

    method SaveCarbonIntensity(records: seq<CarbonRecord>, logFetch: bool, started: int, completed: int)
      returns (r: Result<Stats>)
      requires Valid()
      modifies this
      ensures Valid()
      ensures (r, db) == SaveCarbonIntensityTo(old(db), records, logFetch, started, completed)
    {
      if records == [] {
        return Ok(Stats(0, 0, 0));
      }
      var logId: Option<int> := None;
      if logFetch {
        var id := StartFetchLog(CarbonIntensityTable, None, started);
        logId := Some(id);
      }
      var rows := CarbonRecords(records);
      var failure := UpsertFailure(Rejection(db, CarbonIntensityTable), rows);
      if failure.Some? {
        var e := failure.value;
        if logId.Some? && logId.value != 0 {
          CompleteFetchLog(logId.value, Completion(completed, |records|, 0, 0, Error, Some(Message(e))));
        }
        return Err(e);
      }
      db := db.(carbonIntensity := Upsert(db.carbonIntensity, rows));
      var stats := Stats(|records|, |rows|, 0);
      if logId.Some? && logId.value != 0 {
        CompleteFetchLog(logId.value, Completion(completed, stats.fetched, stats.inserted, stats.updated, Success, None));
      }
      return Ok(stats);
    }

    method SaveFuelMix(mixes: seq<FuelMix>, logFetch: bool, started: int, completed: int)
      returns (r: Result<Stats>)
      requires Valid() && MixesValid(mixes)
      modifies this
      ensures Valid()
      ensures (r, db) == SaveFuelMixTo(old(db), mixes, logFetch, started, completed)
    {
      if mixes == [] {
        return Ok(Stats(0, 0, 0));
      }
      var logId: Option<int> := None;
      if logFetch {
        var id := StartFetchLog(FuelMixTable, None, started);
        logId := Some(id);
      }
      var records := FuelMixRecords(mixes);
      var failure := UpsertFailure(Rejection(db, FuelMixTable), records);
      if failure.Some? {
        var e := failure.value;
        if logId.Some? && logId.value != 0 {
          CompleteFetchLog(logId.value, Completion(completed, |mixes|, 0, 0, Error, Some(Message(e))));
        }
        return Err(e);
      }
      db := db.(fuelMix := Upsert(db.fuelMix, records));
      var stats := Stats(|mixes|, |records|, 0);
      if logId.Some? && logId.value != 0 {
        CompleteFetchLog(logId.value, Completion(completed, stats.fetched, stats.inserted, stats.updated, Success, None));
      }
      return Ok(stats);
    }

    method GetLatestFetch(fetchType: string) returns (r: Option<FetchLog>)
      ensures r == LatestFetch(db.logs.rows, fetchType)
    {
      r := LatestFetch(db.logs.rows, fetchType);
    }
  }
}
