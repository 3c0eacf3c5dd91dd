/** The price records of models/price.py: system prices (SSP/SBP and their
    net price), day-ahead market index prices and price aggregates. Prices are
    `Milli` amounts in £/MWh. */
module Price {
  import opened Wrappers
  import opened Dates
  import opened Decimals

  const DefaultDataSource := "elexon_bmrs"
  const DefaultDataProvider := "APXMIDP"

  /** The range both price records accept for `settlement_period`: 46 to 50
      periods on clock-change days. */
  predicate ValidPeriod(p: int) {
    1 <= p <= 50
  }

  datatype SystemPrice = SystemPrice(
    settlementDate: Day,
    settlementPeriod: int,
    systemSellPrice: Milli,
    systemBuyPrice: Milli,
    price: Milli,
    dataSource: string)

  datatype DayAheadPrice = DayAheadPrice(
    settlementDate: Day,
    settlementPeriod: int,
    price: Milli,
    dataProvider: string,
    dataSource: string)

  datatype PriceAggregate = PriceAggregate(
    startDate: Day,
    endDate: Day,
    averagePrice: Milli,
    minPrice: Milli,
    maxPrice: Milli,
    numPeriods: int,
    priceType: string)

  /** `SystemPrice(...)`: pydantic validates the settlement period, which
      may have arrived as a JSON null. */
  function NewSystemPrice(date: Day, period: Option<int>, ssp: Milli, sbp: Milli, price: Milli)
    : (r: Result<SystemPrice>)
    ensures r.Ok? <==> period.Some? && ValidPeriod(period.value)
    ensures r.Err? ==> r.error == ValidationError("settlement_period")
    ensures r.Ok? ==> r.value == SystemPrice(date, period.value, ssp, sbp, price, DefaultDataSource)
  {
    if period.Some? && ValidPeriod(period.value) then
      Ok(SystemPrice(date, period.value, ssp, sbp, price, DefaultDataSource))
    else Err(ValidationError("settlement_period"))
  }

  /** `DayAheadPrice(...)`: the settlement period is validated in the same
      way, then the provider, which must be a string. */
  function NewDayAheadPrice(date: Day, period: Option<int>, price: Milli, provider: Option<string>)
    : (r: Result<DayAheadPrice>)
    ensures r.Ok? <==> period.Some? && ValidPeriod(period.value) && provider.Some?
    ensures !(period.Some? && ValidPeriod(period.value)) ==> r == Err(ValidationError("settlement_period"))
    ensures period.Some? && ValidPeriod(period.value) && provider.None? ==> r == Err(ValidationError("data_provider"))
    ensures r.Ok? ==> r.value == DayAheadPrice(date, period.value, price, provider.value, DefaultDataSource)
  {
    if !(period.Some? && ValidPeriod(period.value)) then Err(ValidationError("settlement_period"))
    else if provider.None? then Err(ValidationError("data_provider"))
    else Ok(DayAheadPrice(date, period.value, price, provider.value, DefaultDataSource))
  }

  /** `PriceAggregate(...)`: `num_periods` must be at least 1. */
  function NewPriceAggregate(start: Day, end: Day, avg: Milli, lo: Milli, hi: Milli, n: int, priceType: string)
    : (r: Result<PriceAggregate>)
    ensures r.Ok? <==> n >= 1
    ensures r.Err? ==> r.error == ValidationError("num_periods")
    ensures r.Ok? ==> r.value == PriceAggregate(start, end, avg, lo, hi, n, priceType)
  {
    if n >= 1 then Ok(PriceAggregate(start, end, avg, lo, hi, n, priceType))
    else Err(ValidationError("num_periods"))
  }

  /** The net system price: `((ssp + sbp) / 2).quantize(Decimal("0.01"))`,
      rounding half to even. */
  function NetPrice(ssp: Milli, sbp: Milli): (p: Milli)
    ensures p % 10 == 0
    ensures IsHalfEven(ssp + sbp, 20, p / 10)
  {
    QuantizeCents(ssp + sbp, 2)
  }

  /** The two documented cases: 109.0 and 109.0 give 109.00; 100.0 and 110.0
      give 105.00. */
  lemma NetPriceExamples()
    ensures NetPrice(109000, 109000) == 109000
    ensures NetPrice(100000, 110000) == 105000
  {
    RoundHalfEvenExact(10900, 20);
    RoundHalfEvenExact(10500, 20);
  }

  /** Ties go to the even cent: a mean of 0.005 becomes 0.00 and one of
      0.015 becomes 0.02. */
  lemma NetPriceHalfEven()
    ensures NetPrice(5, 5) == 0
    ensures NetPrice(15, 15) == 20
  {
  }

  /** With prices in whole pence the net price lies between SSP and SBP; the
      first case of `NetPriceHalfEven` shows why pence matter. */
  lemma NetPriceBetween(ssp: Milli, sbp: Milli)
    requires ssp % 10 == 0 && sbp % 10 == 0
    ensures var lo := if ssp < sbp then ssp else sbp;
            var hi := if ssp < sbp then sbp else ssp;
            lo <= NetPrice(ssp, sbp) <= hi
  {
    var lo := if ssp < sbp then ssp else sbp;
    var hi := if ssp < sbp then sbp else ssp;
    RoundHalfEvenBetween(ssp + sbp, 20, lo / 10, hi / 10);
  }

  /** One item of the system-price response, as decoded from JSON. */
  datatype RawSystemPrice = RawSystemPrice(
    settlementDate: JsonField<string>,
    settlementPeriod: JsonField<int>,
    systemSellPrice: JsonField<Milli>,
    systemBuyPrice: JsonField<Milli>)

  /** `data[key]` for a decimal field followed by `Decimal(str(...))`. */
  function DecimalField(f: JsonField<Milli>, key: string): (r: Result<Milli>)
    ensures r.Ok? <==> f.Present?
    ensures r.Ok? ==> r.value == f.value
    ensures f.Absent? ==> r == Err(KeyError(key))
  {
    match f
    case Absent => Err(KeyError(key))
    case Null => Err(InvalidOperation("[<class 'decimal.ConversionSyntax'>]"))
    case Present(v) => Ok(v)
  }

  /** `date.fromisoformat(data[key])` */
  function DateField(f: JsonField<string>, key: string): (r: Result<Day>)
    ensures r.Ok? <==> f.Present? && ParseIsoDate(f.value).Some?
    ensures r.Ok? ==> r.value == ParseIsoDate(f.value).value && ValidDay(r.value)
    ensures f.Absent? ==> r == Err(KeyError(key))
  {
    match f
    case Absent => Err(KeyError(key))
    case Null => Err(TypeError("fromisoformat: argument must be str"))
    case Present(s) =>
      match ParseIsoDate(s)
      case Some(d) => Ok(d)
      case None => Err(ValueError("Invalid isoformat string: '" + s + "'"))
  }

  /** `data[key]` handed to the model unconverted: a missing key raises, a
      null arrives as `None`. */
  function Lookup<T>(f: JsonField<T>, key: string): (r: Result<Option<T>>)
    ensures r.Ok? <==> !f.Absent?
    ensures r.Ok? ==> r.value == Nullable(f) && (r.value.Some? <==> f.Present?)
    ensures f.Absent? ==> r == Err(KeyError(key))
  {
    if f.Absent? then Err(KeyError(key)) else Ok(Nullable(f))
  }

  /** `SystemPrice.from_elexon_response`: SSP and SBP are read first, then
      the date and the period, then the record is validated. */
  function SystemPriceFromResponse(item: RawSystemPrice): (r: Result<SystemPrice>)
    ensures r.Ok? <==> item.systemSellPrice.Present? && item.systemBuyPrice.Present?
                       && item.settlementDate.Present? && ParseIsoDate(item.settlementDate.value).Some?
                       && item.settlementPeriod.Present? && ValidPeriod(item.settlementPeriod.value)
    ensures r.Ok? ==> var v := r.value;
                      v.systemSellPrice == item.systemSellPrice.value
                      && v.systemBuyPrice == item.systemBuyPrice.value
                      && v.price == NetPrice(v.systemSellPrice, v.systemBuyPrice)
                      && v.settlementPeriod == item.settlementPeriod.value
                      && Some(v.settlementDate) == ParseIsoDate(item.settlementDate.value)
                      && ValidDay(v.settlementDate)
                      && v.dataSource == DefaultDataSource
    ensures item.systemSellPrice.Absent? ==> r == Err(KeyError("systemSellPrice"))
    ensures item.systemSellPrice.Present? && item.systemBuyPrice.Absent? ==> r == Err(KeyError("systemBuyPrice"))
    ensures item.systemSellPrice.Present? && item.systemBuyPrice.Present? && item.settlementDate.Absent? ==>
              r == Err(KeyError("settlementDate"))
    ensures item.systemSellPrice.Present? && item.systemBuyPrice.Present?
            && DateField(item.settlementDate, "settlementDate").Ok? ==>
              (item.settlementPeriod.Absent? ==> r == Err(KeyError("settlementPeriod")))
              && (item.settlementPeriod.Null? ==> r == Err(ValidationError("settlement_period")))
              && (item.settlementPeriod.Present? && !ValidPeriod(item.settlementPeriod.value) ==>
                    r == Err(ValidationError("settlement_period")))
  {
    var ssp :- DecimalField(item.systemSellPrice, "systemSellPrice");
    var sbp :- DecimalField(item.systemBuyPrice, "systemBuyPrice");
    var date :- DateField(item.settlementDate, "settlementDate");
    var period :- Lookup(item.settlementPeriod, "settlementPeriod");
    NewSystemPrice(date, period, ssp, sbp, NetPrice(ssp, sbp))
  }

  /** One item of the market-index response. */
  datatype RawDayAheadPrice = RawDayAheadPrice(
    settlementDate: JsonField<string>,
    settlementPeriod: JsonField<int>,
    price: JsonField<Milli>,
    dataProvider: JsonField<string>)

  /** `DayAheadPrice.from_elexon_response`: the date, the period and the
      price are read in that order, a missing provider becomes "APXMIDP", and
      only then is the record validated; an explicit null provider is
      refused there. */
  function DayAheadPriceFromResponse(item: RawDayAheadPrice): (r: Result<DayAheadPrice>)
    ensures r.Ok? <==> item.settlementDate.Present? && ParseIsoDate(item.settlementDate.value).Some?
                       && item.settlementPeriod.Present? && ValidPeriod(item.settlementPeriod.value)
                       && item.price.Present? && !item.dataProvider.Null?
    ensures r.Ok? ==> var v := r.value;
                      v.price == item.price.value
                      && v.settlementPeriod == item.settlementPeriod.value
                      && Some(v.settlementDate) == ParseIsoDate(item.settlementDate.value)
                      && ValidDay(v.settlementDate)
                      && v.dataProvider == (if item.dataProvider.Present? then item.dataProvider.value
                                            else DefaultDataProvider)
                      && v.dataSource == DefaultDataSource
    ensures item.settlementDate.Absent? ==> r == Err(KeyError("settlementDate"))
    ensures DateField(item.settlementDate, "settlementDate").Ok? ==>
              (item.settlementPeriod.Absent? ==> r == Err(KeyError("settlementPeriod")))
              && (!item.settlementPeriod.Absent? && item.price.Absent? ==> r == Err(KeyError("price")))
              && (!item.settlementPeriod.Absent? && item.price.Null? ==> r == DecimalField(item.price, "price").PropagateFailure())
              && (!item.settlementPeriod.Absent? && item.price.Present?
                  && !(item.settlementPeriod.Present? && ValidPeriod(item.settlementPeriod.value)) ==>
                    r == Err(ValidationError("settlement_period")))
  {
    var date :- DateField(item.settlementDate, "settlementDate");
    var period :- Lookup(item.settlementPeriod, "settlementPeriod");
    var price :- DecimalField(item.price, "price");
    var provider := match item.dataProvider
                    case Absent => Some(DefaultDataProvider)
                    case Null => None
                    case Present(v) => Some(v);
    NewDayAheadPrice(date, period, price, provider)
  }

  /** The sort key `(settlement_date, settlement_period)` as one integer;
      periods stay below 100, so the order is the same. */
  function SystemPriceKey(p: SystemPrice): int {
    p.settlementDate * 100 + p.settlementPeriod
  }

  function DayAheadPriceKey(p: DayAheadPrice): int {
    p.settlementDate * 100 + p.settlementPeriod
  }

  /** Comparing keys is comparing (date, period) pairs lexicographically. */
  lemma DatePeriodKeyOrder(d1: Day, p1: int, d2: Day, p2: int)
    requires ValidPeriod(p1) && ValidPeriod(p2)
    ensures d1 * 100 + p1 <= d2 * 100 + p2 <==> d1 < d2 || (d1 == d2 && p1 <= p2)
  {
    if d1 < d2 {
      assert d1 * 100 + 100 <= d2 * 100;
    } else if d1 > d2 {
      assert d2 * 100 + 100 <= d1 * 100;
    }
  }
}
