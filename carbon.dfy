/** The carbon records of models/carbon.py: half-hourly carbon intensity
    (gCO2/kWh) and the generation mix by fuel. */
module Carbon {
  import opened Wrappers
  import opened Seqs
  import opened DateTimes

  const NationalGrid := "national_grid"
  const UnknownIndex := "unknown"

  datatype CarbonIntensity = CarbonIntensity(
    datetimeFrom: DateTime,
    datetimeTo: DateTime,
    intensityForecast: int,
    intensityActual: Option<int>,
    intensityIndex: string,
    dataSource: string)

  /** The `intensity` property: the actual value when there is one, else the
      forecast. */
  function Intensity(c: CarbonIntensity): (i: int)
    ensures c.intensityActual.Some? ==> i == c.intensityActual.value
    ensures c.intensityActual.None? ==> i == c.intensityForecast
  {
    if c.intensityActual.Some? then c.intensityActual.value else c.intensityForecast
  }

  /** The "intensity" object of one reading, as decoded from JSON. */
  datatype RawIntensity = RawIntensity(forecast: JsonField<int>, actual: JsonField<int>, index: JsonField<string>)

  /** One reading of the intensity endpoints. */
  datatype RawCarbonIntensity = RawCarbonIntensity(
    fromTime: JsonField<string>,
    toTime: JsonField<string>,
    intensity: JsonField<RawIntensity>)

  /** `datetime.fromisoformat(data[key].replace("Z", "+00:00"))` */
  function DateTimeField(f: JsonField<string>, key: string): (r: Result<DateTime>)
    ensures r.Ok? <==> f.Present? && ParseIsoDateTime(ReplaceZ(f.value)).Some?
    ensures r.Ok? ==> Some(r.value) == ParseIsoDateTime(ReplaceZ(f.value)) && r.value.Valid()
    ensures f.Absent? ==> r == Err(KeyError(key))
  {
    match f
    case Absent => Err(KeyError(key))
    case Null => Err(AttributeError("'NoneType' object has no attribute 'replace'"))
    case Present(s) =>
      match ParseIsoDateTime(ReplaceZ(s))
      case Some(t) => Ok(t)
      case None => Err(ValueError("Invalid isoformat string: '" + ReplaceZ(s) + "'"))
  }

  /** `CarbonIntensity.from_api_response`: a missing "intensity" object counts
      as `{}`; in it a missing forecast is 0, a missing actual is None and a
      missing index is "unknown". */
  function CarbonIntensityFromResponse(item: RawCarbonIntensity): (r: Result<CarbonIntensity>)
    ensures r.Ok? <==> item.fromTime.Present? && ParseIsoDateTime(ReplaceZ(item.fromTime.value)).Some?
                       && item.toTime.Present? && ParseIsoDateTime(ReplaceZ(item.toTime.value)).Some?
                       && !item.intensity.Null?
                       && (item.intensity.Present? ==>
                             !item.intensity.value.forecast.Null? && !item.intensity.value.index.Null?)
    ensures r.Ok? ==> var c := r.value;
                      var i := if item.intensity.Present? then item.intensity.value
                               else RawIntensity(Absent, Absent, Absent);
                      Some(c.datetimeFrom) == ParseIsoDateTime(ReplaceZ(item.fromTime.value))
                      && Some(c.datetimeTo) == ParseIsoDateTime(ReplaceZ(item.toTime.value))
                      && c.intensityForecast == (if i.forecast.Present? then i.forecast.value else 0)
                      && c.intensityActual == (if i.actual.Present? then Some(i.actual.value) else None)
                      && c.intensityIndex == (if i.index.Present? then i.index.value else UnknownIndex)
                      && c.dataSource == NationalGrid
  {
    var start :- DateTimeField(item.fromTime, "from");
    var end :- DateTimeField(item.toTime, "to");
    match item.intensity
    case Null => Err(AttributeError("'NoneType' object has no attribute 'get'"))
    case Absent => ReadingFromIntensity(start, end, RawIntensity(Absent, Absent, Absent))
    case Present(i) => ReadingFromIntensity(start, end, i)
  }

  /** The fields taken from the "intensity" object, with the defaults of its
      `.get` calls. */
  function ReadingFromIntensity(start: DateTime, end: DateTime, i: RawIntensity): (r: Result<CarbonIntensity>)
    ensures r.Ok? <==> !i.forecast.Null? && !i.index.Null?
    ensures r.Ok? ==> r.value == CarbonIntensity(
                        start, end,
                        if i.forecast.Present? then i.forecast.value else 0,
                        if i.actual.Present? then Some(i.actual.value) else None,
                        if i.index.Present? then i.index.value else UnknownIndex,
                        NationalGrid)
  {
    var forecast :- (match i.forecast
                     case Absent => Ok(0)
                     case Null => Err(ValidationError("intensity_forecast"))
                     case Present(v) => Ok(v));
    var index :- (match i.index
                  case Absent => Ok(UnknownIndex)
                  case Null => Err(ValidationError("intensity_index"))
                  case Present(v) => Ok(v));
    var actual := (match i.actual
                   case Present(v) => Some(v)
                   case _ => None);
    Ok(CarbonIntensity(start, end, forecast, actual, index, NationalGrid))
  }

  /** A reading carrying an actual value reports it; one without reports its
      forecast (0 when the API gave none). */
  lemma IntensityOfParsed(item: RawCarbonIntensity)
    requires CarbonIntensityFromResponse(item).Ok?
    ensures var c := CarbonIntensityFromResponse(item).value;
            (item.intensity.Present? && item.intensity.value.actual.Present? ==>
               Intensity(c) == item.intensity.value.actual.value)
            && (item.intensity.Absent? ==> Intensity(c) == 0)
  {
  }

  /** The generation mix of one half hour, percentages by fuel. */
  datatype FuelMix = FuelMix(
    datetimeFrom: DateTime,
    datetimeTo: DateTime,
    biomass: real,
    coal: real,
    gas: real,
    hydro: real,
    imports: real,
    nuclear: real,
    other: real,
    solar: real,
    wind: real,
    dataSource: string)

  /** One entry of "generationmix": each key may be missing, null or set. */
  datatype RawFuel = RawFuel(fuel: JsonField<string>, perc: JsonField<real>)

  datatype RawFuelMix = RawFuelMix(
    fromTime: JsonField<string>,
    toTime: JsonField<string>,
    generationmix: JsonField<seq<RawFuel>>)

  /** A key and value of the fuel map; `None` stands for a JSON null. */
  type FuelPair = (Option<string>, Option<real>)

  /** Entry `i` is the first one of `mix` that lacks "fuel" or "perc". */
  predicate FirstMissingKey(mix: seq<RawFuel>, i: int)
    requires 0 <= i < |mix|
  {
    (mix[i].fuel.Absent? || mix[i].perc.Absent?)
    && forall j :: 0 <= j < i ==> !mix[j].fuel.Absent? && !mix[j].perc.Absent?
  }

  /** `{item["fuel"]: item["perc"] for item in mix}` as the list of pairs the
      comprehension inserts, in order: the first entry lacking a key raises
      (the fuel is read before the perc), a null is stored as it is. */
  function FuelPairs(mix: seq<RawFuel>): (r: Result<seq<FuelPair>>)
    ensures r.Ok? <==> forall i :: 0 <= i < |mix| ==> !mix[i].fuel.Absent? && !mix[i].perc.Absent?
    ensures r.Ok? ==> |r.value| == |mix|
                      && forall i :: 0 <= i < |mix| ==> r.value[i] == (Nullable(mix[i].fuel), Nullable(mix[i].perc))
    ensures r.Err? ==> r.error == KeyError("fuel") || r.error == KeyError("perc")
    ensures r.Err? ==> exists i :: 0 <= i < |mix| && FirstMissingKey(mix, i)
                                   && r.error == (if mix[i].fuel.Absent? then KeyError("fuel") else KeyError("perc"))
  {
    if mix == [] then Ok([])
    else
      var pre := mix[..|mix| - 1];
      var last := mix[|mix| - 1];
      assert forall j :: 0 <= j < |pre| ==> mix[j] == pre[j];
      var init :- FuelPairs(pre);
      if last.fuel.Absent? then Err(KeyError("fuel"))
      else if last.perc.Absent? then Err(KeyError("perc"))
      else Ok(init + [(Nullable(last.fuel), Nullable(last.perc))])
  }

  /** `fuel_map.get(name, 0.0)` as the float field `name` validates it: a
      null percentage is rejected. */
  function PercField(fuelMap: map<Option<string>, Option<real>>, name: string): Result<real> {
    var key: Option<string> := Some(name);
    if key !in fuelMap then Ok(0.0)
    else if fuelMap[key].None? then Err(ValidationError(name))
    else Ok(fuelMap[key].value)
  }

  /** The percentage of the last entry naming a fuel, if any. */
  function LastEntry(pairs: seq<FuelPair>, name: string): Option<Option<real>> {
    var key: Option<string> := Some(name);
    LastValue(pairs, key)
  }

  /** The percentage a parsed mix reports for a fuel: that of the last entry
      naming it, or 0.0. */
  function LastPerc(pairs: seq<FuelPair>, name: string): real {
    var v := LastEntry(pairs, name);
    if v.Some? && v.value.Some? then v.value.value else 0.0
  }

  /** The last entry naming the fuel has a null percentage. */
  predicate NullPerc(pairs: seq<FuelPair>, name: string) {
    var v := LastEntry(pairs, name);
    v.Some? && v.value.None?
  }

  lemma PercIsLastPerc(pairs: seq<FuelPair>, name: string)
    ensures PercField(Upsert(map[], pairs), name)
            == if NullPerc(pairs, name) then Err(ValidationError(name)) else Ok(LastPerc(pairs, name))
  {
    var key: Option<string> := Some(name);
    UpsertLastWins(map[], pairs, key);
  }

  /** No fuel of the model ends with a null percentage. */
  predicate PercsKnown(pairs: seq<FuelPair>) {
    !NullPerc(pairs, "biomass") && !NullPerc(pairs, "coal") && !NullPerc(pairs, "gas")
    && !NullPerc(pairs, "hydro") && !NullPerc(pairs, "imports") && !NullPerc(pairs, "nuclear")
    && !NullPerc(pairs, "other") && !NullPerc(pairs, "solar") && !NullPerc(pairs, "wind")
  }

  /** The entries of "generationmix": none when the key is missing. */
  function MixEntries(item: RawFuelMix): seq<RawFuel> {
    if item.generationmix.Present? then item.generationmix.value else []
  }

  /** `FuelMix.from_api_response`: the fuel map is built first, then the two
      date-times are read; each of the nine fields takes its fuel's value from
      the map, 0.0 when absent, and the model rejects a null one. */
  function FuelMixFromResponse(item: RawFuelMix): (r: Result<FuelMix>)
    ensures r.Ok? <==> !item.generationmix.Null? && FuelPairs(MixEntries(item)).Ok?
                       && DateTimeField(item.fromTime, "from").Ok? && DateTimeField(item.toTime, "to").Ok?
                       && PercsKnown(FuelPairs(MixEntries(item)).value)
    ensures item.generationmix.Null? ==> r == Err(TypeError("'NoneType' object is not iterable"))
    ensures !item.generationmix.Null? && FuelPairs(MixEntries(item)).Err? ==>
              r == Err(FuelPairs(MixEntries(item)).error)
    ensures !item.generationmix.Null? && FuelPairs(MixEntries(item)).Ok? && item.fromTime.Absent? ==>
              r == Err(KeyError("from"))
    ensures !item.generationmix.Null? && FuelPairs(MixEntries(item)).Ok?
            && DateTimeField(item.fromTime, "from").Ok? && item.toTime.Absent? ==>
              r == Err(KeyError("to"))
    ensures r.Ok? ==> r.value.dataSource == NationalGrid
                      && Some(r.value.datetimeFrom) == ParseIsoDateTime(ReplaceZ(item.fromTime.value))
                      && Some(r.value.datetimeTo) == ParseIsoDateTime(ReplaceZ(item.toTime.value))
  {
    var mix :- (if item.generationmix.Null? then Err(TypeError("'NoneType' object is not iterable"))
                else Ok(MixEntries(item)));
    var pairs :- FuelPairs(mix);
    var fuelMap := Upsert(map[], pairs);
    var start :- DateTimeField(item.fromTime, "from");
    var end :- DateTimeField(item.toTime, "to");
    PercIsLastPerc(pairs, "biomass");
    PercIsLastPerc(pairs, "coal");
    PercIsLastPerc(pairs, "gas");
    PercIsLastPerc(pairs, "hydro");
    PercIsLastPerc(pairs, "imports");
    PercIsLastPerc(pairs, "nuclear");
    PercIsLastPerc(pairs, "other");
    PercIsLastPerc(pairs, "solar");
    PercIsLastPerc(pairs, "wind");
    var biomass :- PercField(fuelMap, "biomass");
    var coal :- PercField(fuelMap, "coal");
    var gas :- PercField(fuelMap, "gas");
    var hydro :- PercField(fuelMap, "hydro");
    var imports :- PercField(fuelMap, "imports");
    var nuclear :- PercField(fuelMap, "nuclear");
    var other :- PercField(fuelMap, "other");
    var solar :- PercField(fuelMap, "solar");
    var wind :- PercField(fuelMap, "wind");
    Ok(FuelMix(start, end, biomass, coal, gas, hydro, imports, nuclear, other, solar, wind, NationalGrid))
  }

  /** Each field is the `perc` of the last entry for that fuel, 0.0 if none. */
  lemma FuelMixFieldsAreLastPerc(item: RawFuelMix)
    requires FuelMixFromResponse(item).Ok?
    ensures FuelPairs(MixEntries(item)).Ok?
    ensures var f := FuelMixFromResponse(item).value;
            var pairs := FuelPairs(MixEntries(item)).value;
            f.biomass == LastPerc(pairs, "biomass") && f.coal == LastPerc(pairs, "coal")
            && f.gas == LastPerc(pairs, "gas") && f.hydro == LastPerc(pairs, "hydro")
            && f.imports == LastPerc(pairs, "imports") && f.nuclear == LastPerc(pairs, "nuclear")
            && f.other == LastPerc(pairs, "other") && f.solar == LastPerc(pairs, "solar")
            && f.wind == LastPerc(pairs, "wind")
  {
    var pairs := FuelPairs(MixEntries(item)).value;
    PercIsLastPerc(pairs, "biomass");
    PercIsLastPerc(pairs, "coal");
    PercIsLastPerc(pairs, "gas");
    PercIsLastPerc(pairs, "hydro");
    PercIsLastPerc(pairs, "imports");
    PercIsLastPerc(pairs, "nuclear");
    PercIsLastPerc(pairs, "other");
    PercIsLastPerc(pairs, "solar");
    PercIsLastPerc(pairs, "wind");
  }

  /** A mix without "generationmix" has every fuel at 0.0. */
  lemma FuelMixWithoutMixIsZero(item: RawFuelMix)
    requires FuelMixFromResponse(item).Ok? && item.generationmix.Absent?
    ensures var f := FuelMixFromResponse(item).value;
            f.biomass == f.coal == f.gas == f.hydro == f.imports == f.nuclear
            == f.other == f.solar == f.wind == 0.0
  {
  }

  predicate KnownFuel(name: string) {
    name in {"biomass", "coal", "gas", "hydro", "imports", "nuclear", "other", "solar", "wind"}
  }

  /** An entry with a null fuel, or for a fuel outside the nine fields,
      changes nothing, whatever its percentage (a null one included). */
  lemma UnknownFuelIgnored(pairs: seq<FuelPair>, key: Option<string>, perc: Option<real>, fuel: string)
    requires (key.None? || !KnownFuel(key.value)) && KnownFuel(fuel)
    ensures LastPerc(pairs + [(key, perc)], fuel) == LastPerc(pairs, fuel)
    ensures NullPerc(pairs + [(key, perc)], fuel) == NullPerc(pairs, fuel)
  {
    assert (pairs + [(key, perc)])[..|pairs|] == pairs;
  }

  /** The share a mix reports for a named fuel; 0.0 outside the nine. */
  function Share(f: FuelMix, name: string): real {
    if name == "biomass" then f.biomass
    else if name == "coal" then f.coal
    else if name == "gas" then f.gas
    else if name == "hydro" then f.hydro
    else if name == "imports" then f.imports
    else if name == "nuclear" then f.nuclear
    else if name == "other" then f.other
    else if name == "solar" then f.solar
    else if name == "wind" then f.wind
    else 0.0
  }

  /** The combined share of the named fuels. */
  function TotalShare(f: FuelMix, names: seq<string>): real {
    if names == [] then 0.0 else Share(f, names[0]) + TotalShare(f, names[1..])
  }

  const RenewableFuels: seq<string> := ["wind", "solar", "hydro", "biomass"]
  const LowCarbonFuels: seq<string> := RenewableFuels + ["nuclear"]

  /** The two fuel lists, summed one fuel at a time. */
  lemma ShareChain(f: FuelMix)
    ensures TotalShare(f, RenewableFuels) == f.wind + f.solar + f.hydro + f.biomass
    ensures TotalShare(f, LowCarbonFuels) == f.wind + f.solar + f.hydro + f.biomass + f.nuclear
  {
    var n: seq<string> := ["nuclear"];
    assert TotalShare(f, n) == f.nuclear by {
      assert n[1..] == [];
    }
    var b: seq<string> := ["biomass"];
    var bn: seq<string> := ["biomass"] + n;
    assert TotalShare(f, b) == f.biomass by {
      assert b[1..] == [];
    }
    assert TotalShare(f, bn) == f.biomass + f.nuclear by {
      assert bn[1..] == n;
    }
    var hb: seq<string> := ["hydro"] + b;
    var hbn: seq<string> := ["hydro"] + bn;
    assert TotalShare(f, hb) == f.hydro + f.biomass by {
      assert hb[1..] == b;
    }
    assert TotalShare(f, hbn) == f.hydro + f.biomass + f.nuclear by {
      assert hbn[1..] == bn;
    }
    var shb: seq<string> := ["solar"] + hb;
    var shbn: seq<string> := ["solar"] + hbn;
    assert TotalShare(f, shb) == f.solar + f.hydro + f.biomass by {
      assert shb[1..] == hb;
    }
    assert TotalShare(f, shbn) == f.solar + f.hydro + f.biomass + f.nuclear by {
      assert shbn[1..] == hbn;
    }
    assert RenewableFuels == ["wind"] + shb && RenewableFuels[1..] == shb;
    assert LowCarbonFuels == ["wind"] + shbn && LowCarbonFuels[1..] == shbn;
  }

  /** `renewable_percentage`: wind, solar, hydro and biomass. */
  function RenewablePercentage(f: FuelMix): (r: real)
    ensures r == TotalShare(f, RenewableFuels)
  {
    ShareChain(f);
    f.wind + f.solar + f.hydro + f.biomass
  }

  /** `low_carbon_percentage`: the renewables plus nuclear. */
  function LowCarbonPercentage(f: FuelMix): (r: real)
    ensures r == TotalShare(f, LowCarbonFuels)
  {
    ShareChain(f);
    RenewablePercentage(f) + f.nuclear
  }

  /** The combined percentage of the last entries naming each fuel. */
  function TotalLastPerc(pairs: seq<FuelPair>, names: seq<string>): real {
    if names == [] then 0.0 else LastPerc(pairs, names[0]) + TotalLastPerc(pairs, names[1..])
  }

  lemma {:induction false} TotalShareOfParsed(f: FuelMix, pairs: seq<FuelPair>, names: seq<string>)
    requires forall name :: KnownFuel(name) ==> Share(f, name) == LastPerc(pairs, name)
    requires forall i :: 0 <= i < |names| ==> KnownFuel(names[i])
    ensures TotalShare(f, names) == TotalLastPerc(pairs, names)
  {
    if names != [] {
      TotalShareOfParsed(f, pairs, names[1..]);
    }
  }

  /** Every field of a parsed mix is the last percentage given for its fuel. */
  lemma SharesAreLastPerc(item: RawFuelMix)
    requires FuelMixFromResponse(item).Ok?
    ensures FuelPairs(MixEntries(item)).Ok?
    ensures forall name :: KnownFuel(name) ==>
              Share(FuelMixFromResponse(item).value, name) == LastPerc(FuelPairs(MixEntries(item)).value, name)
  {
    FuelMixFieldsAreLastPerc(item);
  }

  lemma FuelListsKnown()
    ensures forall i :: 0 <= i < |RenewableFuels| ==> KnownFuel(RenewableFuels[i])
    ensures forall i :: 0 <= i < |LowCarbonFuels| ==> KnownFuel(LowCarbonFuels[i])
  {
    assert LowCarbonFuels == ["wind", "solar", "hydro", "biomass", "nuclear"];
  }

  /** A parsed mix's renewable and low-carbon percentages add up the last
      percentage given for each of their fuels. */
  lemma RenewableOfParsed(item: RawFuelMix)
    requires FuelMixFromResponse(item).Ok?
    ensures FuelPairs(MixEntries(item)).Ok?
    ensures var f := FuelMixFromResponse(item).value;
            var pairs := FuelPairs(MixEntries(item)).value;
            RenewablePercentage(f) == TotalLastPerc(pairs, RenewableFuels)
            && LowCarbonPercentage(f) == TotalLastPerc(pairs, LowCarbonFuels)
  {
    SharesAreLastPerc(item);
    FuelListsKnown();
    var f := FuelMixFromResponse(item).value;
    var pairs := FuelPairs(MixEntries(item)).value;
    TotalShareOfParsed(f, pairs, RenewableFuels);
    TotalShareOfParsed(f, pairs, LowCarbonFuels);
  }

  /** Low-carbon generation includes every renewable source, so with
      non-negative nuclear it is at least the renewable share, and every
      renewable fuel counts towards both. */
  lemma LowCarbonCoversRenewable(f: FuelMix, extra: real)
    requires f.nuclear >= 0.0
    ensures LowCarbonPercentage(f) >= RenewablePercentage(f)
    ensures RenewablePercentage(f.(wind := f.wind + extra)) == RenewablePercentage(f) + extra
    ensures LowCarbonPercentage(f.(nuclear := f.nuclear + extra)) == LowCarbonPercentage(f) + extra
    ensures RenewablePercentage(f.(gas := f.gas + extra, coal := f.coal + extra)) == RenewablePercentage(f)
  {
  }

  /** Every start time is a date-time Python can hold (parsed values are). */
  predicate ReadingsValid(rs: seq<CarbonIntensity>) {
    forall i :: 0 <= i < |rs| ==> rs[i].datetimeFrom.Valid()
  }

  /** Two lists of valid readings make a valid list. */
  lemma ReadingsValidConcat(a: seq<CarbonIntensity>, b: seq<CarbonIntensity>)
    requires ReadingsValid(a) && ReadingsValid(b)
    ensures ReadingsValid(a + b)
  {
    forall i | 0 <= i < |a + b|
      ensures (a + b)[i].datetimeFrom.Valid()
    {
      if i < |a| { assert (a + b)[i] == a[i]; } else { assert (a + b)[i] == b[i - |a|]; }
    }
  }

  predicate MixesValid(ms: seq<FuelMix>) {
    forall i :: 0 <= i < |ms| ==> ms[i].datetimeFrom.Valid()
  }
}
