# eo-scrapers, modelled in Dafny

This project models the core of eo-scrapers, a collector of GB electricity market and grid data:

- **Settlement-period arithmetic** (`utils/time.py`). The half-hour periods 1..48 of a settlement day, and their times and labels.
- **Record models** (`models/price.py`, `models/carbon.py`):
  - system prices (SSP/SBP and their net price, rounded half-even to the penny);
  - day-ahead market index prices and price aggregates;
  - carbon intensity readings and generation fuel mixes, parsed from API JSON with the same defaults and errors.
- **HTTP clients** (`clients/`):
  - *the shared base client* classifies responses into `APIError`/`RateLimitError`, joins URLs, manages the session lifecycle and wraps the retry policy;
  - *the Elexon BMRS client* covers system prices by day and range, market index prices, daily and monthly averages, and the latest price;
  - *the National Grid Carbon Intensity client* covers readings by date and range, the current reading and fuel mix, fuel mixes by date, and the daily summary.
- **The Supabase writer** (`storage/supabase.py`). It upserts into four tables on their conflict keys. Each save is bracketed by a `fetch_logs` row, and the writer can ask for the latest successful fetch.
- **The orchestrator** (`scheduler.py`). Covers `fetch_*`, `fetch_all`, `backfill` (with weekly day-ahead batches and day-by-day carbon and fuel-mix loops), and the daily maintenance job.

Representation choices:

- **Money** is an `int` of thousandths of a pound (`Milli`). Decimal quantization is exact rational half-even rounding (module `Decimals`).
- **A calendar day** is its proleptic Gregorian ordinal, as Python's `date.toordinal`. `Dates` ports `_ymd2ord`/`_ord2ymd`, `isoformat`, and the `YYYY-MM-DD` form of `fromisoformat`. Days are valid from 0001-01-01 to 9999-12-31; stepping outside that range is Python's `OverflowError`.
- **Date-times** carry a day, hour, minute, second and an optional UTC offset in minutes. `DateTimes` models `isoformat`, and parses the subset of `fromisoformat` that the APIs send (see Left out).
- **Outside inputs are parameters:**
  - each client's HTTP layer is a function from request to classified response;
  - so are `date.today()` and the clock that stamps log rows;
  - the database is a value (`Supabase.Db`): one map per table, the log rows, and a per-table backend rejection.
- **Mutable objects are classes.** `BaseClient`, `SupabaseWriter` and `DataFetcher` each carry the fields their methods update. Each method is proved against a pure function of the old state, and the properties are proved about those functions.
- **Loops are methods.** Every loop of the source is a method with a `while` loop proved equal to a specification function. These are the range fetch, the latest-price search, the weekly batches and the day-by-day backfills.

## Model

| member | source | states |
|---|---|---|
| TimeUtils.MakeTime | src/eo_scrapers/utils/time.py:46-49 | `time(h, m)` succeeds exactly for hour 0..23 and minute 0..59, and an out-of-range hour raises the hour ValueError |
| TimeUtils.SettlementPeriodToTime | src/eo_scrapers/utils/time.py:28-49 | succeeds exactly for periods 1..48; periods outside 1..50 raise the range ValueError; 49 and 50 pass the guard but fail building the time (hour 24) |
| TimeUtils.TimeToSettlementPeriod | src/eo_scrapers/utils/time.py:52-68 | for a valid time the period is in 1..48 and its half hour contains the time's minute of day |
| TimeUtils.TimeToSettlementPeriodIgnoresSeconds | src/eo_scrapers/utils/time.py:67-68 | seconds never change the period |
| TimeUtils.PeriodTimeRoundTrip | src/eo_scrapers/utils/time.py:28-68 | period → time → period is the identity on 1..48 |
| TimeUtils.TimePeriodRoundTrip | src/eo_scrapers/utils/time.py:28-68 | time → period → start time gives the start of the half hour holding the time |
| TimeUtils.SettlementPeriodExamples | src/eo_scrapers/utils/time.py:38-41 | the docstring examples: period 1 is 00:00 and period 48 is 23:30 |
| TimeUtils.TimeToSettlementPeriodExamples | src/eo_scrapers/utils/time.py:62-65 | the docstring examples: 00:00 is period 1 and 23:30 is period 48 |
| TimeUtils.PeriodEnd | src/eo_scrapers/utils/time.py:124-125 | the end time is the start plus 30 minutes, modulo a day |
| TimeUtils.FormatSettlementPeriod | src/eo_scrapers/utils/time.py:113-127 | succeeds exactly for periods 1..48 with the label "date SPn (HH:MM-HH:MM)"; other periods raise the error of `settlement_period_to_time` |
| TimeUtils.PeriodEndIsNextStart | src/eo_scrapers/utils/time.py:113-127 | a period ends when the next starts, and period 48 ends at midnight |
| TimeUtils.FormatExample | src/eo_scrapers/utils/time.py:121-127 | the docstring example: SP23 runs 11:00-11:30 |
| TimeUtils.PeriodsForDuration | src/eo_scrapers/utils/time.py:103-110 | 24 hours gives 48 periods, 23 gives 46, and anything else gives 50 |
| TimeUtils.GetPeriodsInDay | src/eo_scrapers/utils/time.py:99-110 | fails with OverflowError exactly on 9999-12-31, whose next midnight cannot be built; every other day succeeds |
| TimeUtils.GetPeriodsInDayAlways48 | src/eo_scrapers/utils/time.py:85-110 | as written, every day before 9999-12-31 gets 48 periods (see Findings) |
| TimeUtils.LastSundayOnOrBefore | src/eo_scrapers/utils/time.py:85-110 | the result is a Sunday within the week ending on the given day |
| TimeUtils.UkDayHours | src/eo_scrapers/utils/time.py:99-103 | a UK day lasts 23, 24 or 25 hours |
| TimeUtils.GetPeriodsInUkDay | src/eo_scrapers/utils/time.py:85-110 | corrected: 46 periods exactly on the spring-forward Sunday, 50 exactly on the fall-back Sunday, otherwise 48 |
| TimeUtils.SpringForward2024 | src/eo_scrapers/utils/time.py:85-110 | 2024-03-31 is the spring change (last Sunday of March); as written it gets 48, corrected it gets 46 |
| TimeUtils.FallBack2024 | src/eo_scrapers/utils/time.py:85-110 | 2024-10-27 is the autumn change; as written it gets 48, corrected it gets 50 |
| Price.NewSystemPrice | src/eo_scrapers/models/price.py:22-57 | validation succeeds exactly for a non-null period in 1..50, and the record has the default data source |
| Price.NewDayAheadPrice | src/eo_scrapers/models/price.py:84-112 | validation succeeds exactly for a non-null period in 1..50 and a non-null provider; the period is checked first |
| Price.NewPriceAggregate | src/eo_scrapers/models/price.py:133-157 | validation succeeds exactly when num_periods ≥ 1 |
| Price.NetPrice | src/eo_scrapers/models/price.py:73-80 | the net price is (SSP + SBP) / 2 rounded half-even to whole pence |
| Price.NetPriceExamples | src/eo_scrapers/models/price.py:73-80 | equal prices give themselves, and 100.00/110.00 gives 105.00 |
| Price.NetPriceHalfEven | src/eo_scrapers/models/price.py:80 | exact half pennies round to the even penny |
| Price.NetPriceBetween | src/eo_scrapers/models/price.py:73-80 | for whole-penny inputs the net price lies between SSP and SBP |
| Price.DecimalField | src/eo_scrapers/models/price.py:70-71 | `Decimal(str(data["key"]))` succeeds exactly when the key holds a number; a missing key raises KeyError, and null fails the conversion |
| Price.Lookup | src/eo_scrapers/models/price.py:77 | `data["key"]` raises KeyError exactly when the key is missing, and a null reads as None |
| Price.DateField | src/eo_scrapers/models/price.py:76 | a present key parses as an ISO date exactly when it is one |
| Price.SystemPriceFromResponse | src/eo_scrapers/models/price.py:60-81 | succeeds exactly when SSP, SBP, date and period are present and valid; the record carries them and the net price; the first missing key in reading order (SSP, SBP, date, period) raises KeyError; a null or out-of-range period fails validation |
| Price.DayAheadPriceFromResponse | src/eo_scrapers/models/price.py:115-130 | succeeds exactly when date, period and price are present and valid and the provider is not null; date, period and price are read in that order, so the first missing one raises KeyError and a null price fails before a null period reaches validation; a missing provider becomes "APXMIDP" |
| Price.DatePeriodKeyOrder | src/eo_scrapers/clients/elexon.py:101 | the integer sort key orders by (date, period) lexicographically |
| Carbon.Intensity | src/eo_scrapers/models/carbon.py:45-47 | the actual value when there is one, else the forecast |
| Carbon.DateTimeField | src/eo_scrapers/models/carbon.py:67-68 | a timestamp parses after "Z" becomes "+00:00", and a missing key raises KeyError |
| Carbon.CarbonIntensityFromResponse | src/eo_scrapers/models/carbon.py:50-72 | succeeds exactly when both timestamps parse and neither the intensity object nor its forecast or index is null; missing fields default (forecast 0, actual None, index "unknown") |
| Carbon.ReadingFromIntensity | src/eo_scrapers/models/carbon.py:64-71 | the `.get` defaults of the intensity object, and the null forecast/index rejected by validation |
| Carbon.IntensityOfParsed | src/eo_scrapers/models/carbon.py:45-72 | a parsed reading's intensity is the response's actual value when given, and 0 when there is no intensity object |
| Carbon.FuelPairs | src/eo_scrapers/models/carbon.py:111 | the fuel dict is built exactly when every entry has both keys; null fuels and percentages are kept in order; otherwise the KeyError names the key missing from the first incomplete entry, "fuel" before "perc" |
| Carbon.PercIsLastPerc | src/eo_scrapers/models/carbon.py:111-124 | looking a fuel up in the dict built from the pairs gives its last percentage, or 0 when it has none; a null last percentage fails validation |
| Carbon.FuelMixFromResponse | src/eo_scrapers/models/carbon.py:101-125 | succeeds exactly when the mix is not null, every entry has both keys, both timestamps parse and no modelled fuel's last percentage is null; the errors come in that order (TypeError, the KeyError of the first entry missing "fuel" or "perc" as FuelPairs states it, KeyError "from", KeyError "to"); the data source is national_grid |
| Carbon.FuelMixFieldsAreLastPerc | src/eo_scrapers/models/carbon.py:111-124 | each fuel field is that fuel's last percentage in the mix |
| Carbon.FuelMixWithoutMixIsZero | src/eo_scrapers/models/carbon.py:111-124 | without "generationmix" every fuel is 0 |
| Carbon.UnknownFuelIgnored | src/eo_scrapers/models/carbon.py:111-124 | an entry whose fuel is null or unmodelled changes no field, even when its percentage is null |
| Carbon.LowCarbonCoversRenewable | src/eo_scrapers/models/carbon.py:128-135 | low-carbon ≥ renewable; wind counts in renewable, nuclear in low-carbon, and gas/coal in neither |
| Carbon.RenewablePercentage | src/eo_scrapers/models/carbon.py:127-130 | the share of the four renewable fuels: wind, solar, hydro and biomass |
| Carbon.LowCarbonPercentage | src/eo_scrapers/models/carbon.py:132-135 | the share of the renewable fuels and nuclear |
| Carbon.SharesAreLastPerc | src/eo_scrapers/models/carbon.py:111-124 | on a parsed mix, every modelled fuel's share is its last percentage in the response |
| Carbon.TotalShareOfParsed | src/eo_scrapers/models/carbon.py:111-135 | a sum of shares of modelled fuels is the sum of their last percentages |
| Carbon.RenewableOfParsed | src/eo_scrapers/models/carbon.py:111-135 | on a parsed mix, the renewable and low-carbon percentages are the sums of the last percentages the response gives for their fuels |
| Decimals.RoundHalfEven | src/eo_scrapers/models/price.py:80 | the result is the nearest integer to num/den, with ties to even |
| Decimals.HalfEvenUnique | src/eo_scrapers/models/price.py:80 | exactly one integer is the half-even rounding |
| Decimals.RoundHalfEvenBetween | src/eo_scrapers/models/price.py:80 | rounding a quotient between two integers stays between them |
| Decimals.QuantizeTenths | src/eo_scrapers/clients/carbon_intensity.py:192 | `round(x, 1)` in tenths, half-even |
| Decimals.QuantizeTenthsBetween | src/eo_scrapers/clients/carbon_intensity.py:189-194 | rounding an average between lo and hi stays between them |
| Dates.DaysInMonth | src/eo_scrapers/clients/elexon.py:229-231 | month length is 28..31, and 29 exactly for February of a leap year |
| Dates.Ord2Ymd | src/eo_scrapers/clients/elexon.py:229-231 | day number → (year, month, day) is valid and maps back to the day number |
| Dates.Ord2YmdOfYmd2Ord | src/eo_scrapers/clients/elexon.py:229-231 | (year, month, day) → day number → (year, month, day) is the identity |
| Dates.Ymd2OrdInjective | src/eo_scrapers/clients/elexon.py:229-231 | distinct valid dates have distinct day numbers |
| Dates.Weekday | src/eo_scrapers/utils/time.py:85-110 | the weekday is 0..6 |
| Dates.IsoDate | src/eo_scrapers/clients/elexon.py:87-90 | `date.isoformat` has the YYYY-MM-DD shape |
| Dates.IsoDateInjective | src/eo_scrapers/clients/elexon.py:87-90 | distinct days give distinct ISO strings |
| Dates.ParseIsoDateRoundTrip | src/eo_scrapers/models/price.py:76 | parsing an ISO date gives back the day |
| Dates.ParseIsoDate | src/eo_scrapers/models/price.py:76 | a parsed date is a valid day, and only YYYY-MM-DD text parses |
| DateTimes.ReplaceZ | src/eo_scrapers/models/carbon.py:67-68 | text without "Z" is unchanged |
| DateTimes.ReplaceZAppend | src/eo_scrapers/models/carbon.py:67-68 | replacing distributes over concatenation |
| DateTimes.ParseIsoDateTime | src/eo_scrapers/models/carbon.py:67-68 | a parsed date-time is valid |
| DateTimes.FormatZRoundTrip | src/eo_scrapers/clients/carbon_intensity.py:104-105 | a minute-precision "…Z" timestamp parses back to the same minute in UTC |
| DateTimes.IsoFormatRoundTrip | src/eo_scrapers/scheduler.py:120-128 | `fromisoformat(isoformat(t)) == t` |
| DateTimes.IsoFormatInjective | src/eo_scrapers/scheduler.py:120-128 | distinct date-times give distinct ISO strings |
| DateTimes.IsoFormat | src/eo_scrapers/scheduler.py:120-128 | `isoformat` is 19 characters plus the offset suffix |
| DateTimes.FormatZ | src/eo_scrapers/clients/carbon_intensity.py:104-105 | `strftime("%Y-%m-%dT%H:%MZ")` is 17 characters ending in "Z" |
| Seqs.SortBy | src/eo_scrapers/clients/elexon.py:101 | `sorted` with a key: a sorted permutation of the input |
| Seqs.SortBySortedIsIdentity | src/eo_scrapers/clients/elexon.py:101 | a list already sorted by the key is unchanged |
| Seqs.SortByMembership | src/eo_scrapers/clients/elexon.py:101 | sorting keeps exactly the same elements |
| Seqs.SortByStable | src/eo_scrapers/clients/elexon.py:101 | `sorted` is stable: the elements sharing a key keep their input order |
| Seqs.ParsedMembership | src/eo_scrapers/clients/elexon.py:94-99 | the parse-and-skip loop keeps exactly the successful parses |
| Seqs.ParseAll | src/eo_scrapers/clients/elexon.py:94-99 | the loop computes the parse-and-skip list |
| Seqs.DataItems | src/eo_scrapers/clients/elexon.py:95 | `data.get("data", [])`: a missing key is empty, and null fails iteration |
| Seqs.SumBetween | src/eo_scrapers/clients/elexon.py:199-208 | a sum of values in [lo, hi] lies in [n·lo, n·hi] |
| Seqs.CollectDaysComplete | src/eo_scrapers/clients/elexon.py:120-127 | every successful day's rows appear in the collected range |
| Seqs.CollectDaysOrigin | src/eo_scrapers/clients/elexon.py:120-127 | every collected row comes from a successful day in the range |
| Seqs.UpsertLastWins | src/eo_scrapers/models/carbon.py:111 | a dict built from pairs holds, for each key, the value of its last pair, else its old value |
| Seqs.UpsertIdempotent | src/eo_scrapers/storage/supabase.py:141 | upserting the same rows twice equals upserting them once |
| Seqs.DistinctLastValue | src/eo_scrapers/storage/supabase.py:134-141 | in a batch without repeated keys every row's value is the one stored for its key |
| Base.Classify | src/eo_scrapers/clients/base.py:144-156 | status < 400 succeeds with the body; 429 is RateLimitError "Rate limit exceeded"; other ≥ 400 is APIError "API error: N" with its status code |
| Base.RequestOnce | src/eo_scrapers/clients/base.py:106-165 | one attempt: a response is classified; a timeout or network error becomes APIError, so no result is ever a transient exception |
| Base.Request | src/eo_scrapers/clients/base.py:101-165 | as written, no exception that `_request` lets out is a timeout or network error |
| Base.Retry | src/eo_scrapers/clients/base.py:101-105 | tenacity's loop: the first attempt that does not raise a retryable exception settles, and after three retryable failures the result is a RetryError wrapping the last |
| Base.RetryNeverFires | src/eo_scrapers/clients/base.py:101-165 | as written, the retried request equals its first attempt (see Findings) |
| Base.TimeoutThenSuccess | src/eo_scrapers/clients/base.py:101-165 | a timeout then a 200: as written it fails, corrected it succeeds |
| Base.RequestCorrected | src/eo_scrapers/clients/base.py:101-165 | corrected: the result is one of the three attempts' results, and never a transient exception |
| Base.CorrectedAgreesOnFirstSettled | src/eo_scrapers/clients/base.py:101-165 | without a transient failure first, corrected and as-written agree |
| Base.CorrectedRetriesTransient | src/eo_scrapers/clients/base.py:101-105 | corrected: a transient failure is retried, and the second response is classified |
| Base.CorrectedGivesUpAfterThree | src/eo_scrapers/clients/base.py:101-105 | corrected: after three transient failures the third is reported as `_request` converts it (APIError) |
| Base.NormalizeBaseUrl | src/eo_scrapers/clients/base.py:64 | `rstrip("/")`: a prefix of the input, without a trailing slash, having dropped only slashes |
| Base.NormalizeBaseUrlIdempotent | src/eo_scrapers/clients/base.py:64 | normalizing twice is normalizing once |
| Base.RequestUrl | src/eo_scrapers/clients/base.py:129 | absolute "http…" endpoints are used as given; others are the base, "/", and the endpoint without leading slashes |
| Base.RequestUrlIgnoresLeadingSlash | src/eo_scrapers/clients/base.py:129 | "/x" and "x" give the same URL |
| Base.RequestUrlSingleSlash | src/eo_scrapers/clients/base.py:64-129 | with a normalized base exactly one slash joins base and endpoint |
| Base.EnsureState | src/eo_scrapers/clients/base.py:78-86 | afterwards there is an open session; a new one is made only when none is open |
| Base.CloseState | src/eo_scrapers/clients/base.py:95-99 | an open session is closed and dropped; otherwise nothing changes |
| Base.CloseIdempotent | src/eo_scrapers/clients/base.py:95-99 | closing twice is closing once |
| Base.EnsureIdempotent | src/eo_scrapers/clients/base.py:78-86 | a second ensure reuses the session of the first |
| Base.CloseThenEnsureBuildsNew | src/eo_scrapers/clients/base.py:78-99 | after close, ensure builds a fresh session |
| Base.BaseClient.constructor | src/eo_scrapers/clients/base.py:51-67 | the base URL is normalized, the settings are kept, and there is no session |
| Base.BaseClient.EnsureClient | src/eo_scrapers/clients/base.py:78-86 | the state moves as EnsureState says, and the returned session is the open one |
| Base.BaseClient.Close | src/eo_scrapers/clients/base.py:95-99 | the state moves as CloseState says |
| Base.BaseClient.Get | src/eo_scrapers/clients/base.py:167-183 | the URL is RequestUrl, the result is the request as written, and the session is ensured |
| Elexon.SystemPricesEndpoint | src/eo_scrapers/clients/elexon.py:87-90 | "/balancing/settlement/system-prices/{date}", with "/{period}" appended when given |
| Elexon.SystemPricesEndpointInjective | src/eo_scrapers/clients/elexon.py:87-90 | different days ask different endpoints |
| Elexon.SystemPricesFrom | src/eo_scrapers/clients/elexon.py:92-101 | succeeds exactly when the response is ok with non-null data; the result is sorted by (date, period); errors pass through |
| Elexon.SystemPricesContents | src/eo_scrapers/clients/elexon.py:94-99 | a price is returned exactly when some item parses to it |
| Elexon.SystemPricesWellFormed | src/eo_scrapers/clients/elexon.py:94-99 | every returned price has a valid period and day, and its price is the whole-penny net of SSP/SBP |
| Elexon.GetSystemPrices | src/eo_scrapers/clients/elexon.py:71-101 | the method returns SystemPricesFrom of the day's response |
| Elexon.SystemPricesRange | src/eo_scrapers/clients/elexon.py:103-129 | fails exactly when the loop steps past 9999-12-31; an empty range is []; the result is sorted |
| Elexon.CollectRange | src/eo_scrapers/clients/elexon.py:120-127 | the loop gathers each day's prices in order, skipping failed days, and overflows past the last date |
| Elexon.GetSystemPricesRange | src/eo_scrapers/clients/elexon.py:103-129 | the method returns SystemPricesRange |
| Elexon.RangeContents | src/eo_scrapers/clients/elexon.py:103-129 | a price is in the range result exactly when some day of the range returned it |
| Elexon.OneDayRange | src/eo_scrapers/clients/elexon.py:103-129 | a one-day range is that day's prices, or [] when the day failed |
| Elexon.MarketIndexQuery | src/eo_scrapers/clients/elexon.py:131-159 | the params are from, to (defaulting to from) and the provider only when non-empty |
| Elexon.MarketIndexPricesFrom | src/eo_scrapers/clients/elexon.py:160-170 | succeeds exactly when the response is ok with non-null data; sorted by (date, period) |
| Elexon.MarketIndexPricesContents | src/eo_scrapers/clients/elexon.py:162-168 | a price is returned exactly when some item parses to it |
| Elexon.GetMarketIndexPrices | src/eo_scrapers/clients/elexon.py:131-170 | the method returns MarketIndexPricesFrom of the query's response |
| Elexon.PositivePrices | src/eo_scrapers/clients/elexon.py:192-194 | the values kept are exactly the positive day-ahead prices, and there are no more of them than prices |
| Elexon.PositivePricesCount | src/eo_scrapers/clients/elexon.py:192-199 | each positive price is kept exactly as many times as it occurs and no other value is kept, so `len(price_values)` and `sum(price_values)` are those of the positive prices |
| Elexon.PositivePricesKeepAll | src/eo_scrapers/clients/elexon.py:192-194 | with no zero or negative price nothing is dropped: the values come back in order |
| Elexon.Aggregate | src/eo_scrapers/clients/elexon.py:196-208 | fails exactly on no values with "No prices found for …"; otherwise the count, the minimum and maximum (both among the values and bounding them) and the half-even average to the penny |
| Elexon.AverageBetweenMinAndMax | src/eo_scrapers/clients/elexon.py:199-208 | for whole-penny values min ≤ average ≤ max |
| Elexon.DailyAverage | src/eo_scrapers/clients/elexon.py:172-209 | an unknown price type raises ValueError before any request; a failed fetch raises its error; a day without (positive, for day-ahead) prices raises "No prices found for {date}"; otherwise the aggregate of exactly those prices, for the day and type |
| Elexon.DailySystemAverageBetween | src/eo_scrapers/clients/elexon.py:172-209 | the daily system-price average lies between that day's min and max |
| Elexon.DailyDayAheadPositive | src/eo_scrapers/clients/elexon.py:186-194 | the day-ahead daily minimum is positive |
| Elexon.MonthWindow | src/eo_scrapers/clients/elexon.py:229-231 | defined exactly for a valid year and month, from its first day to its last |
| Elexon.MonthWindowExamples | src/eo_scrapers/clients/elexon.py:229-231 | November 2024 ends on the 30th; February ends on the 29th in 2024 and the 28th in 2023 |
| Elexon.MonthlyAverage | src/eo_scrapers/clients/elexon.py:211-256 | an unknown price type raises ValueError; an invalid month raises its date error; a failed fetch raises its error; no (positive) prices raises "No prices found for {YYYY-MM}"; otherwise the aggregate of exactly those prices, for the month and type |
| Elexon.MonthlySystemAverageBetween | src/eo_scrapers/clients/elexon.py:211-256 | the monthly system-price average lies between the month's min and max |
| Elexon.LatestIsNewest | src/eo_scrapers/clients/elexon.py:258-274 | the search finds none exactly when none of today, yesterday and the day before have prices; otherwise it returns the last price of the first of them that has some |
| Elexon.LatestSystemPrice | src/eo_scrapers/clients/elexon.py:258-274 | a found price is the last price of the newest day among today − 2 .. today that has prices |
| Elexon.LastHasLargestKey | src/eo_scrapers/clients/elexon.py:270-271 | `prices[-1]` has the largest (date, period) of the day |
| Elexon.GetLatestSystemPrice | src/eo_scrapers/clients/elexon.py:258-274 | the loop computes LatestSystemPrice |
| Elexon.LatestLoop | src/eo_scrapers/clients/elexon.py:264-274 | the three-day loop, over a fetch that answers as the client does, computes LatestSystemPrice |
| Elexon.HealthCheck | src/eo_scrapers/clients/elexon.py:54-69 | true exactly when yesterday's request succeeds with a "data" member; an exception or a date overflow gives false |
| CarbonClient.SortByStart | src/eo_scrapers/clients/carbon_intensity.py:87 | sorting by start succeeds unless naive and aware times mix (TypeError); the result is a sorted permutation |
| CarbonClient.UtcReadingsSort | src/eo_scrapers/clients/carbon_intensity.py:87 | readings all in UTC always sort |
| CarbonClient.DateEndpoint | src/eo_scrapers/clients/carbon_intensity.py:78 | "/intensity/date/{date}" |
| CarbonClient.DateEndpointInjective | src/eo_scrapers/clients/carbon_intensity.py:78 | different days ask different endpoints |
| CarbonClient.RangeEndpointBounds | src/eo_scrapers/clients/carbon_intensity.py:104-107 | the range endpoint holds both bounds as minute-precision "…Z" text, which parses back to the bounds in UTC |
| CarbonClient.ReadingsFrom | src/eo_scrapers/clients/carbon_intensity.py:80-87 | errors pass through, null data is a TypeError, and results are sorted by start |
| CarbonClient.ReadingsContents | src/eo_scrapers/clients/carbon_intensity.py:80-85 | a reading is returned exactly when some item parses to it |
| CarbonClient.ReadingsKeepEveryItem | src/eo_scrapers/clients/carbon_intensity.py:80-85 | when every item parses, none is lost |
| CarbonClient.ParseReadings | src/eo_scrapers/clients/carbon_intensity.py:80-87 | the loop computes ReadingsFrom |
| CarbonClient.GetByDate | src/eo_scrapers/clients/carbon_intensity.py:68-87 | ReadingsFrom of the date endpoint |
| CarbonClient.GetRange | src/eo_scrapers/clients/carbon_intensity.py:89-116 | ReadingsFrom of the range endpoint |
| CarbonClient.GetToday | src/eo_scrapers/clients/carbon_intensity.py:118-124 | the readings of today |
| CarbonClient.GetYesterday | src/eo_scrapers/clients/carbon_intensity.py:126-132 | the readings of today − 1, and OverflowError on 0001-01-01 |
| CarbonClient.GetCurrent | src/eo_scrapers/clients/carbon_intensity.py:54-66 | the first reading of "/intensity"; missing or empty data raises ValueError |
| CarbonClient.GetFuelMixCurrent | src/eo_scrapers/clients/carbon_intensity.py:134-146 | the mix of "/generation"; missing or empty data raises ValueError |
| CarbonClient.FuelMixWindow | src/eo_scrapers/clients/carbon_intensity.py:158-162 | both bounds lie on the requested day |
| CarbonClient.FuelMixEndpointShape | src/eo_scrapers/clients/carbon_intensity.py:158-164 | "/generation/{date}T00:00Z/{date}T23:59Z" |
| CarbonClient.FuelMixWindowStart | src/eo_scrapers/clients/carbon_intensity.py:158-164 | the start formats as midnight UTC |
| CarbonClient.FuelMixWindowEnd | src/eo_scrapers/clients/carbon_intensity.py:158-164 | the end formats as 23:59 UTC |
| CarbonClient.FuelMixesFrom | src/eo_scrapers/clients/carbon_intensity.py:166-173 | errors pass through, and results are sorted by start |
| CarbonClient.FuelMixesContents | src/eo_scrapers/clients/carbon_intensity.py:166-171 | a mix is returned exactly when some item parses to it |
| CarbonClient.GetFuelMixByDate | src/eo_scrapers/clients/carbon_intensity.py:148-173 | FuelMixesFrom of the day's window |
| CarbonClient.Summarize | src/eo_scrapers/clients/carbon_intensity.py:185-196 | no readings raises "No data for {date}"; otherwise the count, the minimum and maximum (both among the intensities and bounding them) and the half-even average to one decimal |
| CarbonClient.SummaryAverageBetween | src/eo_scrapers/clients/carbon_intensity.py:185-196 | the rounded average lies between min and max |
| CarbonClient.AverageIntensity | src/eo_scrapers/clients/carbon_intensity.py:175-196 | a failed fetch raises its error; an empty day raises "No data for {date}"; otherwise the summary of exactly that day's intensities |
| CarbonClient.AverageIntensityAverageBetween | src/eo_scrapers/clients/carbon_intensity.py:175-196 | a day's rounded average intensity lies between its minimum and maximum |
| CarbonClient.HealthCheck | src/eo_scrapers/clients/carbon_intensity.py:45-52 | true exactly when "/intensity" answers with data |
| Supabase.TableNamesDistinct | src/eo_scrapers/storage/supabase.py:141-340 | the four tables are distinct |
| Supabase.Credentials | src/eo_scrapers/storage/supabase.py:46-53 | arguments win over the environment; both must be non-empty, else ValueError |
| Supabase.StatusName | src/eo_scrapers/storage/supabase.py:57-92 | the three status strings are distinct |
| Supabase.StartLog | src/eo_scrapers/storage/supabase.py:57-71 | appends one running row with the next id, keeps every older row and the log invariant |
| Supabase.UpdateWhere | src/eo_scrapers/storage/supabase.py:73-92 | the update touches exactly the rows with the id |
| Supabase.CompleteLog | src/eo_scrapers/storage/supabase.py:73-92 | keeps the row count, every id and the log invariant |
| Supabase.Finish | src/eo_scrapers/storage/supabase.py:149-166 | `if log_id:`: no id or id 0 completes nothing |
| Supabase.SaveRows | src/eo_scrapers/storage/supabase.py:94-166 | no rows gives zero stats with no log; otherwise it succeeds exactly when the backend accepts and no two rows share a conflict key (PostgreSQL refuses a batch that affects a row twice); success upserts the rows and counts them, a failure leaves the table; one log row only when logging |
| Supabase.SaveLogLifecycle | src/eo_scrapers/storage/supabase.py:114-166 | a logged save adds one last row with the sequence's id, marked success with the counts when the upsert succeeds and error with the upsert's failure otherwise (left running when the id is 0), and leaves older rows |
| Supabase.UpsertFailure | src/eo_scrapers/storage/supabase.py:139-143 | the upsert fails with the backend's error when it rejects, else with the repeated-key error when a key repeats, and succeeds otherwise |
| Supabase.LatestFetch | src/eo_scrapers/storage/supabase.py:366-385 | none exactly when no successful row of the type; otherwise a successful row at least as recent as any other |
| Supabase.LatestFetchAfterSave | src/eo_scrapers/storage/supabase.py:94-166 | when the backend accepts, after a logged save at a later clock the latest fetch is that save's row if no key repeats, and stays what it was if one does |
| Supabase.CarbonRowOf | src/eo_scrapers/storage/supabase.py:258-267 | data_source defaults to national_grid when absent, and is kept null when null |
| Supabase.FuelMixKeyInjective | src/eo_scrapers/storage/supabase.py:340 | two mixes share the conflict key exactly when they start together |
| Supabase.DateRangeOf | src/eo_scrapers/storage/supabase.py:114-118 | the range bounds are the min and max dates |
| Supabase.SystemPriceConflictKey | src/eo_scrapers/storage/supabase.py:141 | system prices conflict on (settlement_date, settlement_period) |
| Supabase.DayAheadConflictKey | src/eo_scrapers/storage/supabase.py:210 | day-ahead prices conflict on (settlement_date, settlement_period, data_provider) |
| Supabase.FuelMixConflictKey | src/eo_scrapers/storage/supabase.py:322-340 | fuel mixes conflict on the ISO text of their start, which parses back to it |
| Supabase.SystemPriceKeysAgree | src/eo_scrapers/storage/supabase.py:141 | the conflict key and the client's sort key identify the same system prices |
| Supabase.SystemPriceRecords | src/eo_scrapers/storage/supabase.py:125-136 | one record per price, in order, keyed by its conflict key |
| Supabase.DayAheadRecords | src/eo_scrapers/storage/supabase.py:196-206 | one record per price, in order, keyed by its conflict key |
| Supabase.CarbonRecords | src/eo_scrapers/storage/supabase.py:259-268 | one row per reading record, in order, keyed by its datetime |
| Supabase.FuelMixRecords | src/eo_scrapers/storage/supabase.py:320-336 | one record per mix, in order, keyed by its conflict key |
| Supabase.SaveSystemPricesTo | src/eo_scrapers/storage/supabase.py:94-166 | a save of system prices changes no other table |
| Supabase.SaveDayAheadPricesTo | src/eo_scrapers/storage/supabase.py:168-234 | a save of day-ahead prices changes no other table |
| Supabase.SaveCarbonIntensityTo | src/eo_scrapers/storage/supabase.py:236-296 | a save of carbon readings changes no other table |
| Supabase.SaveFuelMixTo | src/eo_scrapers/storage/supabase.py:298-364 | a save of fuel mixes changes no other table |
| Supabase.SavedSystemPriceStored | src/eo_scrapers/storage/supabase.py:134-166 | with no backend failure a save succeeds exactly when no two prices share (date, period); a successful save stores each price as sent under its (date, period) |
| Supabase.SavedCarbonRowStored | src/eo_scrapers/storage/supabase.py:236-296 | with no backend failure a save succeeds exactly when no two records share a "datetime"; a successful save stores each record's row under its "datetime" |
| Supabase.SavedFuelMixStored | src/eo_scrapers/storage/supabase.py:298-364 | with no backend failure a save succeeds exactly when no two mixes start at the same date-time; a successful save stores each mix as sent under its isoformat() key |
| Supabase.SaveSystemPricesTwice | src/eo_scrapers/storage/supabase.py:141 | saving the same prices twice leaves the table as once |
| Supabase.SupabaseWriter.constructor | src/eo_scrapers/storage/supabase.py:35-55 | the writer keeps its credentials and database |
| Supabase.SupabaseWriter.Connect | src/eo_scrapers/storage/supabase.py:35-55 | fails with the credentials ValueError exactly when the URL or the key is missing from both the arguments and the environment; otherwise the writer holds the chosen settings and the given database |
| Supabase.SupabaseWriter.StartFetchLog | src/eo_scrapers/storage/supabase.py:57-71 | the log moves as StartLog, and the new id is returned |
| Supabase.SupabaseWriter.CompleteFetchLog | src/eo_scrapers/storage/supabase.py:73-92 | the log moves as CompleteLog |
| Supabase.SupabaseWriter.SaveSystemPrices | src/eo_scrapers/storage/supabase.py:94-166 | result and database as SaveSystemPricesTo |
| Supabase.SupabaseWriter.SaveDayAheadPrices | src/eo_scrapers/storage/supabase.py:168-234 | result and database as SaveDayAheadPricesTo |
| Supabase.SupabaseWriter.SaveCarbonIntensity | src/eo_scrapers/storage/supabase.py:236-296 | result and database as SaveCarbonIntensityTo |
| Supabase.SupabaseWriter.SaveFuelMix | src/eo_scrapers/storage/supabase.py:298-364 | result and database as SaveFuelMixTo |
| Supabase.SupabaseWriter.GetLatestFetch | src/eo_scrapers/storage/supabase.py:366-385 | returns LatestFetch of the log |
| Scheduler.FetchWindow | src/eo_scrapers/scheduler.py:59-66 | the target day alone, else [today − days_back, today] when that day exists; a days_back of magnitude above 999999999 raises timedelta's "days=…; must have magnitude <= 999999999" first, any other missing day "date value out of range" |
| Scheduler.MaintenanceWindow | src/eo_scrapers/scheduler.py:368-369 | [today − 7, today − 1], existing exactly after the first week of the calendar |
| Scheduler.RecentSystemPrices | src/eo_scrapers/scheduler.py:44-69 | with a target, that day's prices; otherwise the range fetch of [today − days_back, today], or the window's OverflowError when that day does not exist |
| Scheduler.RecentDayAheadPrices | src/eo_scrapers/scheduler.py:71-95 | with a target, that day's market index prices; otherwise those of [today − days_back, today], or the window's OverflowError when that day does not exist |
| Scheduler.GetRecentDayAheadPrices | src/eo_scrapers/scheduler.py:84-92 | the method computes RecentDayAheadPrices |
| Scheduler.GetWindowDayAheadPrices | src/eo_scrapers/scheduler.py:92 | the method asks the market index endpoint for [from_date, to_date] from the default provider |
| Scheduler.RecentPricesSorted | src/eo_scrapers/scheduler.py:44-95 | both fetches come back sorted by (date, period) |
| Scheduler.GetRecentSystemPrices | src/eo_scrapers/scheduler.py:58-66 | the method computes RecentSystemPrices |
| Scheduler.CarbonRecordOf | src/eo_scrapers/scheduler.py:120-128 | the record's datetime parses back to the reading's start, and its intensity is the reading's |
| Scheduler.CarbonRecordsOf | src/eo_scrapers/scheduler.py:119-128 | one record per reading, in order |
| Scheduler.CarbonRecordKeyInjective | src/eo_scrapers/scheduler.py:120-128 | two readings share a carbon_intensity key exactly when they start together |
| Scheduler.RecentReadings | src/eo_scrapers/scheduler.py:110-115 | with a target, that day's readings; otherwise it succeeds exactly when both yesterday's and today's fetches do, and then holds yesterday's readings followed by today's; yesterday's error is raised before today's is asked for, and on 0001-01-01 yesterday overflows |
| Scheduler.RecentFuelMixes | src/eo_scrapers/scheduler.py:145-150 | with a target, that day's mixes; otherwise yesterday's, which overflows on 0001-01-01 |
| Scheduler.FuelMixDay | src/eo_scrapers/scheduler.py:145-150 | the target, else yesterday, failing exactly on 0001-01-01 without a target |
| Scheduler.GetRecentFuelMixes | src/eo_scrapers/scheduler.py:145-150 | the method returns RecentFuelMixes |
| Scheduler.FetchSystemPricesTo | src/eo_scrapers/scheduler.py:44-69 | a failed fetch raises before the writer and leaves the database; a successful one is saved with logging on |
| Scheduler.FetchDayAheadPricesTo | src/eo_scrapers/scheduler.py:71-95 | a failed fetch raises before the writer and leaves the database; a successful one is saved with logging on |
| Scheduler.FetchCarbonIntensityTo | src/eo_scrapers/scheduler.py:97-130 | a failed fetch raises before the writer and leaves the database; a successful one saves one record per reading, with logging on |
| Scheduler.SavedReadingStored | src/eo_scrapers/scheduler.py:117-130 | with no backend failure the records are saved exactly when no two readings start at the same date-time, and each reading's row is then stored under its isoformat() key |
| Scheduler.FetchedReadingStored | src/eo_scrapers/scheduler.py:97-130 | with no backend failure `fetch_carbon_intensity` saves exactly when no two fetched readings start at the same date-time, and then every fetched reading is stored under its isoformat() key |
| Scheduler.DayReadingsFetch | src/eo_scrapers/clients/carbon_intensity.py:68-87 | a calendar day's readings come from its date endpoint; any other day is "date value out of range" |
| Scheduler.FetchFuelMixTo | src/eo_scrapers/scheduler.py:132-153 | a failed fetch raises before the writer and leaves the database; a successful one is saved with logging on |
| Scheduler.FetchedFuelMixStored | src/eo_scrapers/scheduler.py:132-153 | with no backend failure `fetch_fuel_mix` saves exactly when no two fetched mixes start at the same date-time, and then every fetched mix is stored under its isoformat() key |
| Scheduler.DayFuelMixesFetch | src/eo_scrapers/clients/carbon_intensity.py:148-173 | a calendar day's mixes come from its midnight-to-midnight window; any other day is "date value out of range" |
| Scheduler.ReportOf | src/eo_scrapers/scheduler.py:166-169 | stats on success, `{"error": str(e)}` on failure |
| Scheduler.FetchAllTo | src/eo_scrapers/scheduler.py:155-190 | the result has an entry for each of the four sources |
| Scheduler.FetchAllIsolatesFailure | src/eo_scrapers/scheduler.py:155-190 | a failing first source is reported and the next runs on the untouched database |
| Scheduler.Chunks | src/eo_scrapers/scheduler.py:223-235 | no batches exactly for an empty range; the first is [from, min(from+6, to)] |
| Scheduler.ChunksBounds | src/eo_scrapers/scheduler.py:223-235 | every batch lies in the range, spans at most 7 days, and is non-empty |
| Scheduler.ChunksEndOnLast | src/eo_scrapers/scheduler.py:223-235 | the last batch ends on to_date |
| Scheduler.ChunksContiguous | src/eo_scrapers/scheduler.py:223-235 | each batch starts the day after the previous one ends, and all but the last are full weeks |
| Scheduler.ChunksDisjoint | src/eo_scrapers/scheduler.py:223-235 | batches do not overlap |
| Scheduler.ChunksCover | src/eo_scrapers/scheduler.py:223-235 | every day of the range is in some batch |
| Scheduler.BatchedDayAhead | src/eo_scrapers/scheduler.py:220-235 | overflows exactly when some batch's `current + 6` or next start leaves the calendar; otherwise the batches' prices in order, failed batches skipped |
| Scheduler.BatchesFitCalendar | src/eo_scrapers/scheduler.py:223-235 | ranges ending a week before 9999-12-31 never overflow |
| Scheduler.CollectBatches | src/eo_scrapers/scheduler.py:220-235 | the loop computes BatchedDayAhead |
| Scheduler.DailyReadings | src/eo_scrapers/scheduler.py:237-259 | fails exactly when the day loop passes 9999-12-31, and every reading is valid |
| Scheduler.DailyFuelMixes | src/eo_scrapers/scheduler.py:261-274 | fails exactly when the day loop passes 9999-12-31, and every mix is valid |
| Scheduler.CollectReadings | src/eo_scrapers/scheduler.py:240-248 | the loop gathers each day's readings in order, skipping failed days |
| Scheduler.CollectMixes | src/eo_scrapers/scheduler.py:264-272 | the loop gathers each day's mixes in order, skipping failed days |
| Scheduler.Selected | src/eo_scrapers/scheduler.py:209-210 | no data_types means all four sources |
| Scheduler.BackfillSystemPricesTo | src/eo_scrapers/scheduler.py:214-218 | a failed range fetch raises before the writer and leaves the database; only the system-price table can change |
| Scheduler.BackfillDayAheadTo | src/eo_scrapers/scheduler.py:220-235 | a batch overflow raises before the writer and leaves the database; only the day-ahead table can change |
| Scheduler.BackfillCarbonTo | src/eo_scrapers/scheduler.py:237-259 | a day-loop overflow raises before the writer and leaves the database; only the carbon table can change |
| Scheduler.BackfillFuelMixTo | src/eo_scrapers/scheduler.py:261-274 | a day-loop overflow raises before the writer and leaves the database; only the fuel-mix table can change |
| Scheduler.BackfillSteps | src/eo_scrapers/scheduler.py:210-276 | the result names only selected sources, and the backend's rejections are unchanged |
| Scheduler.Continue | src/eo_scrapers/scheduler.py:210-276 | a raised block ends the backfill; a finished one adds its stats |
| Scheduler.StepsKeys | src/eo_scrapers/scheduler.py:210-276 | without an exception the result names exactly the selected sources so far |
| Scheduler.StepsStayFailed | src/eo_scrapers/scheduler.py:210-276 | once a block raises, the later blocks do not run |
| Scheduler.SourceByName | src/eo_scrapers/scheduler.py:212-274 | each table name selects its own block |
| Scheduler.BackfillTo | src/eo_scrapers/scheduler.py:192-276 | without an exception the result names exactly the selected sources |
| Scheduler.BackfillStopsAtFailure | src/eo_scrapers/scheduler.py:214-218 | a failing system-price block ends the backfill with its error and database |
| Scheduler.DataFetcher.constructor | src/eo_scrapers/scheduler.py:36-42 | the fetcher keeps the writer it is given |
| Scheduler.DataFetcher.FetchSystemPrices | src/eo_scrapers/scheduler.py:44-69 | result and database as FetchSystemPricesTo |
| Scheduler.DataFetcher.FetchDayAheadPrices | src/eo_scrapers/scheduler.py:71-95 | result and database as FetchDayAheadPricesTo |
| Scheduler.DataFetcher.FetchCarbonIntensity | src/eo_scrapers/scheduler.py:97-130 | result and database as FetchCarbonIntensityTo |
| Scheduler.DataFetcher.FetchFuelMix | src/eo_scrapers/scheduler.py:132-153 | result and database as FetchFuelMixTo |
| Scheduler.DataFetcher.FetchAll | src/eo_scrapers/scheduler.py:155-190 | result and database as FetchAllTo |
| Scheduler.DataFetcher.Backfill | src/eo_scrapers/scheduler.py:192-276 | result and database as BackfillTo |
| Scheduler.DataFetcher.BackfillSystemPrices | src/eo_scrapers/scheduler.py:214-218 | result and database as BackfillSystemPricesTo |
| Scheduler.DataFetcher.BackfillDayAhead | src/eo_scrapers/scheduler.py:220-235 | result and database as BackfillDayAheadTo |
| Scheduler.DataFetcher.BackfillCarbon | src/eo_scrapers/scheduler.py:237-259 | result and database as BackfillCarbonTo |
| Scheduler.DataFetcher.BackfillFuelMix | src/eo_scrapers/scheduler.py:261-274 | result and database as BackfillFuelMixTo |
| Scheduler.DataFetcher.BackfillSource | src/eo_scrapers/scheduler.py:212-274 | result and database as the block of the named source |
| Scheduler.DataFetcher.BackfillBlock | src/eo_scrapers/scheduler.py:210-276 | one more step of the block sequence, as BackfillSteps |
| Scheduler.DataFetcher.DailyMaintenance | src/eo_scrapers/scheduler.py:363-373 | backfills the maintenance window, and on overflow changes nothing |

## Left out

- `settlement_period_to_datetime`, `get_uk_now` and `get_uk_today` (`utils/time.py:18-26`, `71-82`) need the Europe/London time-zone database and the wall clock. The clock and `date.today()` are parameters here.
- GetPeriodsInUkDay: uses today's UK rule (last Sunday of March and of October) for every year. Historic rules are not modelled.
- Dates.ParseIsoDate: accepts only `YYYY-MM-DD`, a strict subset of Python 3.11 `date.fromisoformat` (no basic `YYYYMMDD` form and no week dates), because the Elexon API sends only that form.
- DateTimes.ParseIsoDateTime: accepts only `YYYY-MM-DDTHH:MM[:SS][±HH:MM]`, a strict subset of Python 3.11 `datetime.fromisoformat` (no basic format, week dates, fractional seconds or space separator), because the APIs send only these forms.
- Price.SystemPriceFromResponse: pydantic reports every invalid field in one ValidationError; the model reports the first invalid field in field order.
- Price.DayAheadPriceFromResponse: pydantic reports every invalid field in one ValidationError; the model reports the first invalid field in field order.
- Carbon.FuelMixFromResponse: pydantic reports every invalid field in one ValidationError; the model reports the first invalid field in field order.
- Supabase.SaveRows: the database value carries one backend rejection per table; PostgreSQL's refusal of a batch that repeats a conflict key is modelled on top of it.
- Floating point is not modelled.
  - `float(...)` casts written to the database and the float `round` in the averages are modelled as exact decimal arithmetic.
  - Percentages are `real`.
  - `Decimal(str(x))` of a price with more than three decimals is not represented, because money is held in thousandths.
- Microseconds are not modelled. `time.max` is 23:59 in `get_fuel_mix_by_date`'s window, and `fetched_at` and other timestamps are parameters.
- HTTP transport, headers (`_get_default_headers`), `async` context managers, logging and the exponential waits between retries are not modelled. Each client's HTTP layer is a function parameter.
- `BaseClient.health_check` is abstract. The two concrete health checks are modelled.
- Supabase.SaveRows: reports `inserted` as the number of rows sent, not `len(result.data)`, because the backend's reply is not modelled. PostgreSQL `timestamptz` normalisation of the keys is not modelled.
- A failure of the `fetch_logs` insert or update itself is not modelled. Only the upsert can be rejected.
- Supabase.LatestFetch: promises a row that ranks first, not which of several rows completed at the same instant PostgreSQL returns.
- `get_system_price_date_range` (`storage/supabase.py:387-414`) is not part of this model. It only reads two rows back through the client library.
- The writer's default construction from the environment is modelled by `Connect` with the environment as parameters.
- Supabase.SupabaseWriter.Connect: the validation inside the client library's `create_client` (its SupabaseException for a URL that is not `http(s)://…` or for an empty key) is not modelled, because that library is not part of this model; a URL such as "localhost" is accepted here.
- The `Scheduler` class:
  - the APScheduler triggers, `start` and `run_once` are not modelled;
  - the three fetch jobs (`scheduler.py:336-361`) are not modelled, because each is a fetch of the `DataFetcher` with `days_back=1` and its exception logged;
  - only the daily maintenance job is modelled.
- `strftime("%Y")` and `isoformat` for years below 1000 are modelled with four-digit zero padding, as `isoformat` does.

## Findings

| source | as written | input that shows it | evidently intended | confidence | as-written member | corrected member |
|---|---|---|---|---|---|---|
| src/eo_scrapers/utils/time.py:99-110 | start and end share the same tzinfo, so their difference is naive wall-clock time and is always 24 hours: every day before 9999-12-31 gets 48 periods (9999-12-31 itself raises OverflowError) | 2024-03-31 (spring forward) and 2024-10-27 (fall back) | 46 periods on the spring change day and 50 on the autumn one | not executed | TimeUtils.GetPeriodsInDayAlways48 | TimeUtils.GetPeriodsInUkDay |
| src/eo_scrapers/clients/base.py:101-165 | `_request` turns timeouts and network errors into `APIError` inside the retried function, so tenacity's `retry_if_exception_type((TimeoutException, NetworkError))` never matches and nothing is retried | a read timeout on the first attempt followed by a 200 response | retry transient failures up to three attempts | not executed | Base.RetryNeverFires | Base.RequestCorrected |
