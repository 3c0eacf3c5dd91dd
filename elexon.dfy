/** The Elexon BMRS client of clients/elexon.py: system prices by day and by
    range, day-ahead market index prices, and their daily and monthly
    aggregates. The HTTP layer is a function parameter: it maps a request to
    what `self.get(...)` returns, reduced to the response's "data" member. */
module Elexon {
  import opened Wrappers
  import opened Text
  import opened Dates
  import opened Decimals
  import opened Seqs
  import opened Price

  const ElexonBaseUrl := "https://data.elexon.co.uk/bmrs/api/v1"
  const SystemPricesPath := "/balancing/settlement/system-prices/"
  const MarketIndexPath := "/balancing/pricing/market-index"
  const SystemPriceType := "system_price"
  const DayAheadType := "day_ahead"

  /** A GET request: endpoint and query parameters in insertion order. */
  datatype Query = Query(endpoint: string, params: seq<(string, string)>)

  /** A request of `get_system_prices`: its endpoint is
      `SystemPricesEndpoint(date, period)`, and distinct requests have
      distinct endpoints (`SystemPricesEndpointInjective`). */
  datatype SystemPricesRequest = SystemPricesRequest(date: Day, period: Option<int>)

  /** `self.get(endpoint)["data"]` for the system-price endpoints, indexed by
      the request that determines the endpoint. */
  type SystemPriceApi = SystemPricesRequest -> Result<JsonField<seq<RawSystemPrice>>>

  /** `self.get(endpoint, params)["data"]` for the market-index endpoint. */
  type MarketIndexApi = Query -> Result<JsonField<seq<RawDayAheadPrice>>>

  /** The endpoint of `get_system_prices`: the ISO date, then "/period" only
      when a period is given. */
  function SystemPricesEndpoint(d: Day, period: Option<int>): (e: string)
    requires ValidDay(d)
    ensures StartsWith(e, SystemPricesPath + IsoDate(d))
    ensures period.None? ==> e == SystemPricesPath + IsoDate(d)
    ensures period.Some? ==> e == SystemPricesPath + IsoDate(d) + "/" + IntToString(period.value)
  {
    var e := SystemPricesPath + IsoDate(d) + (if period.Some? then "/" + IntToString(period.value) else "");
    assert e[..|SystemPricesPath + IsoDate(d)|] == SystemPricesPath + IsoDate(d);
    e
  }

  /** Different days are fetched from different endpoints. */
  lemma SystemPricesEndpointInjective(d1: Day, d2: Day)
    requires ValidDay(d1) && ValidDay(d2)
    requires SystemPricesEndpoint(d1, None) == SystemPricesEndpoint(d2, None)
    ensures d1 == d2
  {
    var n := |SystemPricesPath|;
    assert IsoDate(d1) == SystemPricesEndpoint(d1, None)[n..];
    assert IsoDate(d2) == SystemPricesEndpoint(d2, None)[n..];
    IsoDateInjective(d1, d2);
  }

  /** What `get_system_prices` returns for a response: the items that parse,
      sorted by (date, period), or the exception of the request. */
  function SystemPricesFrom(response: Result<JsonField<seq<RawSystemPrice>>>): (r: Result<seq<SystemPrice>>)
    ensures r.Ok? <==> response.Ok? && !response.value.Null?
    ensures r.Err? && response.Err? ==> r.error == response.error
    ensures r.Ok? ==> SortedBy(r.value, SystemPriceKey)
  {
    var data :- response;
    var items :- DataItems(data);
    Ok(SortBy(Parsed(items, SystemPriceFromResponse), SystemPriceKey))
  }

  /** A price is returned exactly when some item of the response parses to it. */
  lemma SystemPricesContents(response: Result<JsonField<seq<RawSystemPrice>>>, p: SystemPrice)
    requires SystemPricesFrom(response).Ok? && response.value.Present?
    ensures var items := response.value.value;
            p in SystemPricesFrom(response).value
            <==> exists i :: 0 <= i < |items| && SystemPriceFromResponse(items[i]) == Ok(p)
  {
    var items := response.value.value;
    SortByMembership(Parsed(items, SystemPriceFromResponse), SystemPriceKey, p);
    ParsedMembership(items, SystemPriceFromResponse, p);
  }

  /** Every returned system price has a valid period, a valid date and a net
      price in whole pence. */
  lemma SystemPricesWellFormed(response: Result<JsonField<seq<RawSystemPrice>>>, p: SystemPrice)
    requires SystemPricesFrom(response).Ok? && p in SystemPricesFrom(response).value
    ensures ValidPeriod(p.settlementPeriod) && ValidDay(p.settlementDate)
    ensures p.price == NetPrice(p.systemSellPrice, p.systemBuyPrice) && p.price % 10 == 0
  {
    var items := DataItems(response.value).value;
    SortByMembership(Parsed(items, SystemPriceFromResponse), SystemPriceKey, p);
    ParsedMembership(items, SystemPriceFromResponse, p);
    var i :| 0 <= i < |items| && SystemPriceFromResponse(items[i]) == Ok(p);
  }

  /** `get_system_prices` */
  method GetSystemPrices(api: SystemPriceApi, d: Day, period: Option<int>) returns (r: Result<seq<SystemPrice>>)
    requires ValidDay(d)
    ensures r == SystemPricesFrom(api(SystemPricesRequest(d, period)))
  {
    var response := api(SystemPricesRequest(d, period));
    if response.Err? {
      return Err(response.error);
    }
    var items := DataItems(response.value);
    if items.Err? {
      return Err(items.error);
    }
    var prices := ParseAll(items.value, SystemPriceFromResponse);
    r := Ok(SortBy(prices, SystemPriceKey));
  }

  /** One day of `get_system_prices_range`; a day outside the calendar fails
      like the date arithmetic would. */
  function DaySystemPrices(api: SystemPriceApi, d: int): (r: Result<seq<SystemPrice>>)
    ensures r.Ok? ==> SortedBy(r.value, SystemPriceKey)
  {
    if ValidDay(d) then SystemPricesFrom(api(SystemPricesRequest(d, None)))
    else Err(OverflowError("date value out of range"))
  }

  function DayFetch(api: SystemPriceApi): int -> Result<seq<SystemPrice>> {
    d => DaySystemPrices(api, d)
  }

  /** `get_system_prices_range`: every day of [first, last] once, failing days
      skipped, the whole sorted by (date, period). Stepping past 9999-12-31
      raises outside the loop's `try`. */
  function SystemPricesRange(api: SystemPriceApi, first: Day, last: Day): (r: Result<seq<SystemPrice>>)
    ensures r.Err? <==> first <= last && last == MaxOrdinal
    ensures r.Ok? ==> SortedBy(r.value, SystemPriceKey)
    ensures r.Ok? && first > last ==> r.value == []
  {
    if first <= last && last == MaxOrdinal then Err(OverflowError("date value out of range"))
    else Ok(SortBy(CollectDays(DayFetch(api), first, last), SystemPriceKey))
  }

  /** `get_system_prices_range`: the days' prices, gathered by the loop in
      `CollectRange`, sorted once at the end. */
  method GetSystemPricesRange(api: SystemPriceApi, first: Day, last: Day) returns (r: Result<seq<SystemPrice>>)
    requires ValidDay(first) && ValidDay(last)
    ensures r == SystemPricesRange(api, first, last)
  {
    var all :- CollectRange(api, DayFetch(api), first, last);
    r := Ok(SortBy(all, SystemPriceKey));
  }

  /** `fetch` is the day-by-day view of `api`. */
  ghost predicate FetchesDays(api: SystemPriceApi, fetch: int -> Result<seq<SystemPrice>>) {
    forall d {:trigger DaySystemPrices(api, d)} :: ValidDay(d) ==> fetch(d) == DaySystemPrices(api, d)
  }

  /** The day-by-day loop of `get_system_prices_range`: a failed day adds
      nothing, and stepping past the last calendar day overflows. */
  method CollectRange(api: SystemPriceApi, ghost fetch: int -> Result<seq<SystemPrice>>, first: Day, last: Day)
    returns (r: Result<seq<SystemPrice>>)
    requires ValidDay(first) && ValidDay(last) && FetchesDays(api, fetch)
    ensures r.Err? <==> first <= last && last == MaxOrdinal
    ensures r.Err? ==> r.error == OverflowError("date value out of range")
    ensures r.Ok? ==> r.value == CollectDays(fetch, first, last)
  {
    var all: seq<SystemPrice> := [];
    var current := first;
    while current <= last
      invariant first <= current <= MaxOrdinal && (current == first || current <= last + 1)
      invariant all == CollectDays(fetch, first, current - 1)
      decreases last - current
    {
      var prices := TryDay(api, fetch, current);
      CollectDaysSnoc(fetch, first, current);
      all := all + prices;
      if current == MaxOrdinal {
        return Err(OverflowError("date value out of range"));
      }
      current := current + 1;
    }
    r := Ok(all);
  }

  /** The loop body's `try: get_system_prices(day) except: log`: a failed
      day contributes no prices. */
  method TryDay(api: SystemPriceApi, ghost fetch: int -> Result<seq<SystemPrice>>, d: Day) returns (prices: seq<SystemPrice>)
    requires ValidDay(d) && FetchesDays(api, fetch)
    ensures prices == OrEmpty(fetch(d))
  {
    var day := GetSystemPrices(api, d, None);
    assert day == DaySystemPrices(api, d);
    if day.Ok? {
      prices := day.value;
    } else {
      prices := [];
    }
  }

  /** A price of the range comes from a day of the range whose fetch
      succeeded, and every price of such a day is in the range's result. */
  lemma RangeContents(api: SystemPriceApi, first: Day, last: Day, d: int, p: SystemPrice)
    requires SystemPricesRange(api, first, last).Ok?
    ensures first <= d <= last && DaySystemPrices(api, d).Ok? && p in DaySystemPrices(api, d).value
            ==> p in SystemPricesRange(api, first, last).value
    ensures p in SystemPricesRange(api, first, last).value
            ==> exists e :: first <= e <= last && DaySystemPrices(api, e).Ok? && p in DaySystemPrices(api, e).value
  {
    var all := CollectDays(DayFetch(api), first, last);
    SortByMembership(all, SystemPriceKey, p);
    if first <= d <= last && DaySystemPrices(api, d).Ok? && p in DaySystemPrices(api, d).value {
      CollectDaysComplete(DayFetch(api), first, last, d);
    }
    if p in all {
      var k :| 0 <= k < |all| && all[k] == p;
      CollectDaysOrigin(DayFetch(api), first, last, k);
    }
  }

  /** A one-day range is that day's fetch, or nothing when it fails. */
  lemma OneDayRange(api: SystemPriceApi, d: Day)
    requires ValidDay(d) && d < MaxOrdinal
    ensures SystemPricesRange(api, d, d) == Ok(OrEmpty(DaySystemPrices(api, d)))
  {
    var day := DayFetch(api)(d);
    assert day == DaySystemPrices(api, d);
    var one := CollectDays(DayFetch(api), d, d);
    assert one == OrEmpty(day) + CollectDays(DayFetch(api), d + 1, d);
    assert one == OrEmpty(day);
    SortBySortedIsIdentity(one, SystemPriceKey);
  }

  /** The query of `get_market_index_prices`: `to` defaults to `from`, and
      "dataProviders" is sent only for a non-empty provider. */
  function MarketIndexQuery(first: Day, last: Option<Day>, provider: string): (q: Query)
    requires ValidDay(first) && (last.Some? ==> ValidDay(last.value))
    ensures q.endpoint == MarketIndexPath
    ensures |q.params| >= 2 && q.params[0] == ("from", IsoDate(first))
    ensures q.params[1] == ("to", IsoDate(if last.Some? then last.value else first))
    ensures |q.params| == 3 <==> provider != ""
    ensures provider != "" ==> q.params[2] == ("dataProviders", provider)
  {
    var to := if last.Some? then last.value else first;
    var params := [("from", IsoDate(first)), ("to", IsoDate(to))];
    Query(MarketIndexPath, if provider != "" then params + [("dataProviders", provider)] else params)
  }

  /** What `get_market_index_prices` returns for a response. */
  function MarketIndexPricesFrom(response: Result<JsonField<seq<RawDayAheadPrice>>>): (r: Result<seq<DayAheadPrice>>)
    ensures r.Ok? <==> response.Ok? && !response.value.Null?
    ensures r.Err? && response.Err? ==> r.error == response.error
    ensures r.Ok? ==> SortedBy(r.value, DayAheadPriceKey)
  {
    var data :- response;
    var items :- DataItems(data);
    Ok(SortBy(Parsed(items, DayAheadPriceFromResponse), DayAheadPriceKey))
  }

  lemma MarketIndexPricesContents(response: Result<JsonField<seq<RawDayAheadPrice>>>, p: DayAheadPrice)
    requires MarketIndexPricesFrom(response).Ok? && response.value.Present?
    ensures var items := response.value.value;
            p in MarketIndexPricesFrom(response).value
            <==> exists i :: 0 <= i < |items| && DayAheadPriceFromResponse(items[i]) == Ok(p)
  {
    var items := response.value.value;
    SortByMembership(Parsed(items, DayAheadPriceFromResponse), DayAheadPriceKey, p);
    ParsedMembership(items, DayAheadPriceFromResponse, p);
  }

  /** `get_market_index_prices` */
  method GetMarketIndexPrices(api: MarketIndexApi, first: Day, last: Option<Day>, provider: string)
    returns (r: Result<seq<DayAheadPrice>>)
    requires ValidDay(first) && (last.Some? ==> ValidDay(last.value))
    ensures r == MarketIndexPricesFrom(api(MarketIndexQuery(first, last, provider)))
  {
    var response := api(MarketIndexQuery(first, last, provider));
    if response.Err? {
      return Err(response.error);
    }
    var items := DataItems(response.value);
    if items.Err? {
      return Err(items.error);
    }
    var prices := ParseAll(items.value, DayAheadPriceFromResponse);
    r := Ok(SortBy(prices, DayAheadPriceKey));
  }

  /** `[p.price for p in prices]` */
  function SystemPriceValues(ps: seq<SystemPrice>): (r: seq<Milli>)
    ensures |r| == |ps| && forall i :: 0 <= i < |ps| ==> r[i] == ps[i].price
  {
    if ps == [] then [] else SystemPriceValues(ps[..|ps| - 1]) + [ps[|ps| - 1].price]
  }

  /** `[p.price for p in prices if p.price > 0]`: zero and negative prices
      are both dropped. */
  function PositivePrices(ps: seq<DayAheadPrice>): (r: seq<Milli>)
    ensures |r| <= |ps|
    ensures forall x :: x in r ==> x > 0
    ensures forall x :: x in r <==> exists i :: 0 <= i < |ps| && ps[i].price == x && x > 0
  {
    if ps == [] then []
    else
      var init := PositivePrices(ps[..|ps| - 1]);
      assert forall i :: 0 <= i < |ps| - 1 ==> ps[..|ps| - 1][i] == ps[i];
      var p := ps[|ps| - 1].price;
      if p > 0 then init + [p] else init
  }

  /** `[p.price for p in prices]` over day-ahead prices. */
  function DayAheadPriceValues(ps: seq<DayAheadPrice>): (r: seq<Milli>)
    ensures |r| == |ps| && forall i :: 0 <= i < |ps| ==> r[i] == ps[i].price
  {
    seq(|ps|, i requires 0 <= i < |ps| => ps[i].price)
  }

  /** The filter keeps every positive price as many times as it occurs and
      no other value, so the count and the sum the averages use are those
      of the positive prices. */
  lemma {:induction false} PositivePricesCount(ps: seq<DayAheadPrice>, x: Milli)
    ensures x > 0 ==> multiset(PositivePrices(ps))[x] == multiset(DayAheadPriceValues(ps))[x]
    ensures x <= 0 ==> multiset(PositivePrices(ps))[x] == 0
  {
    if ps != [] {
      var init := ps[..|ps| - 1];
      PositivePricesCount(init, x);
      assert DayAheadPriceValues(ps) == DayAheadPriceValues(init) + [ps[|ps| - 1].price];
    }
  }

  /** When no price is zero or negative nothing is dropped: the values come
      back in order. */
  lemma {:induction false} PositivePricesKeepAll(ps: seq<DayAheadPrice>)
    requires forall i :: 0 <= i < |ps| ==> ps[i].price > 0
    ensures PositivePrices(ps) == DayAheadPriceValues(ps)
  {
    if ps != [] {
      var init := ps[..|ps| - 1];
      PositivePricesKeepAll(init);
      assert DayAheadPriceValues(ps) == DayAheadPriceValues(init) + [ps[|ps| - 1].price];
    }
  }

  /** `a` holds the statistics of `values`: their count, their least and
      greatest member, and their exact mean rounded half-to-even to whole
      pence. */
  predicate Summarizes(a: PriceAggregate, values: seq<Milli>) {
    a.numPeriods == |values| && a.minPrice in values && a.maxPrice in values
    && (forall i :: 0 <= i < |values| ==> a.minPrice <= values[i] <= a.maxPrice)
    && a.averagePrice % 10 == 0
    && IsHalfEven(Sum(values), 10 * |values|, a.averagePrice / 10)
  }

  /** The statistics both averages build: the exact mean quantised to whole
      pence half-to-even, the unrounded min and max, and the count. */
  function Aggregate(start: Day, end: Day, values: seq<Milli>, priceType: string, subject: string)
    : (r: Result<PriceAggregate>)
    ensures r.Ok? <==> values != []
    ensures r.Err? ==> r.error == ValueError("No prices found for " + subject)
    ensures r.Ok? ==> Summarizes(r.value, values)
                      && r.value.startDate == start && r.value.endDate == end && r.value.priceType == priceType
  {
    if values == [] then Err(ValueError("No prices found for " + subject))
    else NewPriceAggregate(start, end, QuantizeCents(Sum(values), |values|), Min(values), Max(values),
                           |values|, priceType)
  }

  /** Every amount is in whole pence (a multiple of ten thousandths). */
  predicate WholePence(values: seq<Milli>) {
    forall i :: 0 <= i < |values| ==> values[i] % 10 == 0
  }

  /** A whole-pence amount `x` over `10 * n` is `x / 10` pence over `n`. */
  lemma WholePenceScaled(x: int, n: int)
    requires x % 10 == 0
    ensures (x / 10) * (10 * n) == x * n
  {
    var q := x / 10;
    assert x == 10 * q;
    assert q * (10 * n) == (10 * q) * n;
  }

  /** With every value in whole pence the average lies between min and max. */
  lemma AverageBetweenMinAndMax(start: Day, end: Day, values: seq<Milli>, priceType: string, subject: string)
    requires values != [] && WholePence(values)
    ensures var a := Aggregate(start, end, values, priceType, subject).value;
            a.minPrice <= a.averagePrice <= a.maxPrice
  {
    var lo := Min(values);
    var hi := Max(values);
    var n := |values|;
    SumBetween(values, lo, hi);
    assert lo % 10 == 0 && hi % 10 == 0;
    WholePenceScaled(lo, n);
    WholePenceScaled(hi, n);
    RoundHalfEvenBetween(Sum(values), 10 * n, lo / 10, hi / 10);
  }

  /** `daily_average`: the price type is checked before any request. */
  function DailyAverage(sysApi: SystemPriceApi, idxApi: MarketIndexApi, d: Day, priceType: string)
    : (r: Result<PriceAggregate>)
    requires ValidDay(d)
    ensures priceType != SystemPriceType && priceType != DayAheadType ==>
              r == Err(ValueError("Invalid price_type: " + priceType))
    ensures r.Ok? ==> r.value.startDate == d && r.value.endDate == d && r.value.priceType == priceType
                      && r.value.numPeriods >= 1
    ensures priceType == SystemPriceType ==>
              var fetched := SystemPricesFrom(sysApi(SystemPricesRequest(d, None)));
              (fetched.Err? ==> r == Err(fetched.error))
              && (fetched.Ok? && SystemPriceValues(fetched.value) == [] ==>
                    r == Err(ValueError("No prices found for " + IsoDate(d))))
              && (fetched.Ok? && SystemPriceValues(fetched.value) != [] ==>
                    r.Ok? && Summarizes(r.value, SystemPriceValues(fetched.value)))
    ensures priceType == DayAheadType ==>
              var fetched := MarketIndexPricesFrom(idxApi(MarketIndexQuery(d, None, DefaultDataProvider)));
              (fetched.Err? ==> r == Err(fetched.error))
              && (fetched.Ok? && PositivePrices(fetched.value) == [] ==>
                    r == Err(ValueError("No prices found for " + IsoDate(d))))
              && (fetched.Ok? && PositivePrices(fetched.value) != [] ==>
                    r.Ok? && Summarizes(r.value, PositivePrices(fetched.value)))
  {
    if priceType == SystemPriceType then
      var prices :- SystemPricesFrom(sysApi(SystemPricesRequest(d, None)));
      Aggregate(d, d, SystemPriceValues(prices), priceType, IsoDate(d))
    else if priceType == DayAheadType then
      var prices :- MarketIndexPricesFrom(idxApi(MarketIndexQuery(d, None, DefaultDataProvider)));
      Aggregate(d, d, PositivePrices(prices), priceType, IsoDate(d))
    else Err(ValueError("Invalid price_type: " + priceType))
  }

  /** For system prices the daily average lies between the day's min and max
      (the invariant asserted for a November 2024 day). */
  lemma DailySystemAverageBetween(sysApi: SystemPriceApi, idxApi: MarketIndexApi, d: Day)
    requires ValidDay(d) && DailyAverage(sysApi, idxApi, d, SystemPriceType).Ok?
    ensures var a := DailyAverage(sysApi, idxApi, d, SystemPriceType).value;
            a.minPrice <= a.averagePrice <= a.maxPrice
  {
    var response := sysApi(SystemPricesRequest(d, None));
    var prices := SystemPricesFrom(response).value;
    var values := SystemPriceValues(prices);
    forall i | 0 <= i < |values|
      ensures values[i] % 10 == 0
    {
      assert prices[i] in prices;
      SystemPricesWellFormed(response, prices[i]);
    }
    AverageBetweenMinAndMax(d, d, values, SystemPriceType, IsoDate(d));
  }

  /** A day-ahead aggregate only counts positive prices. */
  lemma DailyDayAheadPositive(sysApi: SystemPriceApi, idxApi: MarketIndexApi, d: Day)
    requires ValidDay(d) && DailyAverage(sysApi, idxApi, d, DayAheadType).Ok?
    ensures DailyAverage(sysApi, idxApi, d, DayAheadType).value.minPrice > 0
  {
  }

  /** `calendar.monthrange` and the two `date(...)` calls: the first and last
      day of the month. */
  function MonthWindow(year: int, month: int): (w: Result<(Day, Day)>)
    ensures w.Ok? <==> 1 <= year <= MaxYear && 1 <= month <= 12
    ensures w.Ok? ==> w.value.0 == Ymd2Ord(year, month, 1)
                      && w.value.1 == Ymd2Ord(year, month, DaysInMonth(year, month))
                      && w.value.1 - w.value.0 + 1 == DaysInMonth(year, month)
                      && ValidDay(w.value.0) && ValidDay(w.value.1)
  {
    if !(1 <= month <= 12) then Err(ValueError("bad month number " + IntToString(month) + "; must be 1-12"))
    else if !(1 <= year <= MaxYear) then Err(ValueError("year " + IntToString(year) + " is out of range"))
    else
      Ord2YmdOfYmd2Ord(year, month, 1);
      Ord2YmdOfYmd2Ord(year, month, DaysInMonth(year, month));
      Ok((Ymd2Ord(year, month, 1), Ymd2Ord(year, month, DaysInMonth(year, month))))
  }

  /** November 2024 runs from the 1st to the 30th; February 2024 has 29 days. */
  lemma MonthWindowExamples()
    ensures MonthWindow(2024, 11) == Ok((Ymd2Ord(2024, 11, 1), Ymd2Ord(2024, 11, 30)))
    ensures MonthWindow(2024, 2) == Ok((Ymd2Ord(2024, 2, 1), Ymd2Ord(2024, 2, 29)))
    ensures MonthWindow(2023, 2) == Ok((Ymd2Ord(2023, 2, 1), Ymd2Ord(2023, 2, 28)))
  {
  }

  /** `f"{year}-{month:02d}"` */
  function MonthLabel(year: int, month: int): string {
    IntToString(year) + "-" + (if month >= 0 then ZeroPad(month, 2) else IntToString(month))
  }

  /** `monthly_average`: the window is computed first, then the price type is
      checked. */
  function MonthlyAverage(sysApi: SystemPriceApi, idxApi: MarketIndexApi, year: int, month: int, priceType: string)
    : (r: Result<PriceAggregate>)
    ensures r.Ok? ==> MonthWindow(year, month).Ok?
                      && r.value.startDate == MonthWindow(year, month).value.0
                      && r.value.endDate == MonthWindow(year, month).value.1
                      && r.value.priceType == priceType && r.value.numPeriods >= 1
    ensures MonthWindow(year, month).Err? ==> r == Err(MonthWindow(year, month).error)
    ensures MonthWindow(year, month).Ok? && priceType != SystemPriceType && priceType != DayAheadType ==>
              r == Err(ValueError("Invalid price_type: " + priceType))
    ensures MonthWindow(year, month).Ok? && priceType == SystemPriceType ==>
              var w := MonthWindow(year, month).value;
              var fetched := SystemPricesRange(sysApi, w.0, w.1);
              (fetched.Err? ==> r == Err(fetched.error))
              && (fetched.Ok? && SystemPriceValues(fetched.value) == [] ==>
                    r == Err(ValueError("No prices found for " + MonthLabel(year, month))))
              && (fetched.Ok? && SystemPriceValues(fetched.value) != [] ==>
                    r.Ok? && Summarizes(r.value, SystemPriceValues(fetched.value)))
    ensures MonthWindow(year, month).Ok? && priceType == DayAheadType ==>
              var w := MonthWindow(year, month).value;
              var fetched := MarketIndexPricesFrom(idxApi(MarketIndexQuery(w.0, Some(w.1), DefaultDataProvider)));
              (fetched.Err? ==> r == Err(fetched.error))
              && (fetched.Ok? && PositivePrices(fetched.value) == [] ==>
                    r == Err(ValueError("No prices found for " + MonthLabel(year, month))))
              && (fetched.Ok? && PositivePrices(fetched.value) != [] ==>
                    r.Ok? && Summarizes(r.value, PositivePrices(fetched.value)))
  {
    var (first, last) :- MonthWindow(year, month);
    if priceType == SystemPriceType then
      var prices :- SystemPricesRange(sysApi, first, last);
      Aggregate(first, last, SystemPriceValues(prices), priceType, MonthLabel(year, month))
    else if priceType == DayAheadType then
      var prices :- MarketIndexPricesFrom(idxApi(MarketIndexQuery(first, Some(last), DefaultDataProvider)));
      Aggregate(first, last, PositivePrices(prices), priceType, MonthLabel(year, month))
    else Err(ValueError("Invalid price_type: " + priceType))
  }

  /** Every system price a range fetch returns is in whole pence. */
  lemma RangeValuesWholePence(sysApi: SystemPriceApi, first: Day, last: Day)
    requires SystemPricesRange(sysApi, first, last).Ok?
    ensures WholePence(SystemPriceValues(SystemPricesRange(sysApi, first, last).value))
  {
    var prices := SystemPricesRange(sysApi, first, last).value;
    var values := SystemPriceValues(prices);
    forall i | 0 <= i < |values|
      ensures values[i] % 10 == 0
    {
      var p := prices[i];
      RangeContents(sysApi, first, last, first, p);
      var e :| first <= e <= last && DaySystemPrices(sysApi, e).Ok? && p in DaySystemPrices(sysApi, e).value;
      SystemPricesWellFormed(sysApi(SystemPricesRequest(e, None)), p);
    }
  }

  /** The monthly system average also lies between its min and max. */
  lemma MonthlySystemAverageBetween(sysApi: SystemPriceApi, idxApi: MarketIndexApi, year: int, month: int)
    requires MonthlyAverage(sysApi, idxApi, year, month, SystemPriceType).Ok?
    ensures var a := MonthlyAverage(sysApi, idxApi, year, month, SystemPriceType).value;
            a.minPrice <= a.averagePrice <= a.maxPrice
  {
    var (first, last) := MonthWindow(year, month).value;
    assert SystemPricesRange(sysApi, first, last).Ok?;
    var values := SystemPriceValues(SystemPricesRange(sysApi, first, last).value);
    assert MonthlyAverage(sysApi, idxApi, year, month, SystemPriceType)
           == Aggregate(first, last, values, SystemPriceType, MonthLabel(year, month));
    RangeValuesWholePence(sysApi, first, last);
    AverageBetweenMinAndMax(first, last, values, SystemPriceType, MonthLabel(year, month));
  }

  /** A day whose fetch succeeds with at least one price. */
  predicate HasPrices(fetch: int -> Result<seq<SystemPrice>>, d: int) {
    fetch(d).Ok? && fetch(d).value != []
  }

  function Last<T>(s: seq<T>): T
    requires s != []
  {
    s[|s| - 1]
  }

  /** `p` is the last price of a day among today - 2 .. today - k that has
      prices, and no later day of that range has any. */
  predicate NewestWithPrices(fetch: int -> Result<seq<SystemPrice>>, today: Day, k: nat, p: SystemPrice) {
    exists d :: today - 2 <= d <= today - k && HasPrices(fetch, d) && p == Last(fetch(d).value)
                && forall e :: d < e <= today - k ==> !HasPrices(fetch, e)
  }

  /** `get_latest_system_price` from attempt `k` (days back) on, for a
      day-by-day `fetch`: the last price of the first of today, today-1 and
      today-2 that yields any; a failing request or an out-of-range date
      moves on. */
  function LatestSystemPrice(fetch: int -> Result<seq<SystemPrice>>, today: Day, k: nat): (r: Option<SystemPrice>)
    requires k <= 3
    decreases 3 - k
    ensures r.Some? ==> NewestWithPrices(fetch, today, k, r.value)
  {
    if k == 3 then None
    else if HasPrices(fetch, today - k) then Some(Last(fetch(today - k).value))
    else LatestSystemPrice(fetch, today, k + 1)
  }

  /** The latest price is the last price of the newest of the three days
      that has any; `None` means none of them has one. */
  lemma {:induction false} LatestIsNewest(fetch: int -> Result<seq<SystemPrice>>, today: Day, k: nat)
    requires k <= 3
    decreases 3 - k
    ensures LatestSystemPrice(fetch, today, k).None? <==>
              forall d :: today - 2 <= d <= today - k ==> !HasPrices(fetch, d)
    ensures LatestSystemPrice(fetch, today, k).Some? ==>
              exists d :: today - 2 <= d <= today - k && HasPrices(fetch, d)
                          && LatestSystemPrice(fetch, today, k).value == Last(fetch(d).value)
                          && forall e :: d < e <= today - k ==> !HasPrices(fetch, e)
  {
    if k < 3 && !HasPrices(fetch, today - k) {
      LatestIsNewest(fetch, today, k + 1);
    }
  }

  /** That last price has the highest (date, period) key of its day. */
  lemma LastHasLargestKey(api: SystemPriceApi, d: int)
    requires HasPrices(DayFetch(api), d)
    ensures var ps := DaySystemPrices(api, d).value;
            forall q :: q in ps ==> SystemPriceKey(q) <= SystemPriceKey(Last(ps))
  {
    var ps := DaySystemPrices(api, d).value;
    assert SortedBy(ps, SystemPriceKey);
  }

  /** One attempt of `get_latest_system_price`. */
  lemma LatestStep(fetch: int -> Result<seq<SystemPrice>>, today: Day, k: nat)
    requires k < 3
    ensures LatestSystemPrice(fetch, today, k)
            == if HasPrices(fetch, today - k) then Some(Last(fetch(today - k).value))
               else LatestSystemPrice(fetch, today, k + 1)
  {
  }

  /** `fetch` answers every day, valid or not, as `DaySystemPrices` does. */
  ghost predicate FetchesAnyDay(api: SystemPriceApi, fetch: int -> Result<seq<SystemPrice>>) {
    forall d {:trigger DaySystemPrices(api, d)} :: fetch(d) == DaySystemPrices(api, d)
  }

  /** One day of `get_latest_system_price`: a day before 0001-01-01 raises
      OverflowError, which the loop's `try` treats as a failed request. */
  method TryLatestDay(api: SystemPriceApi, ghost fetch: int -> Result<seq<SystemPrice>>, d: int)
    returns (prices: Result<seq<SystemPrice>>)
    requires FetchesAnyDay(api, fetch)
    ensures prices == fetch(d)
  {
    if ValidDay(d) {
      prices := GetSystemPrices(api, d, None);
    } else {
      prices := Err(OverflowError("date value out of range"));
    }
    assert prices == DaySystemPrices(api, d);
  }

  /** The loop of `get_latest_system_price` over a `fetch` that answers as
      the client does. */
  method LatestLoop(api: SystemPriceApi, ghost fetch: int -> Result<seq<SystemPrice>>, today: Day)
    returns (r: Option<SystemPrice>)
    requires FetchesAnyDay(api, fetch)
    ensures r == LatestSystemPrice(fetch, today, 0)
  {
    var daysBack := 0;
    while daysBack < 3
      invariant 0 <= daysBack <= 3
      invariant LatestSystemPrice(fetch, today, 0) == LatestSystemPrice(fetch, today, daysBack)
    {
      var check := today - daysBack;
      var prices := TryLatestDay(api, fetch, check);
      LatestStep(fetch, today, daysBack);
      if prices.Ok? && prices.value != [] {
        return Some(Last(prices.value));
      }
      daysBack := daysBack + 1;
    }
    r := None;
  }

  /** `get_latest_system_price`, with `date.today()` as a parameter. */
  method GetLatestSystemPrice(api: SystemPriceApi, today: Day) returns (r: Option<SystemPrice>)
    ensures r == LatestSystemPrice(DayFetch(api), today, 0)
  {
    r := LatestLoop(api, DayFetch(api), today);
  }

  /** `health_check`: True when yesterday's system-price response carries a
      "data" member; any exception, date overflow included, gives False. */
  function HealthCheck(api: SystemPriceApi, today: Day): (ok: bool)
    ensures ok <==> ValidDay(today - 1) && api(SystemPricesRequest(today - 1, None)).Ok?
                    && !api(SystemPricesRequest(today - 1, None)).value.Absent?
  {
    ValidDay(today - 1)
    && var response := api(SystemPricesRequest(today - 1, None));
       response.Ok? && !response.value.Absent?
  }
}
