/** The shared pricing constants and the request validator of the quote
    calculator (shared/schema.ts): the accepted service names, the bounds and
    defaults of `quoteCalculationSchema`, `PRICING_CONFIG`, the per-service
    `(bedrooms, bathrooms)` hours table `SERVICES`, and the add-on hours
    catalogue `ADD_ONS`. */
module Schema {
  import opened Wrappers

  datatype Service = General | Deep | Move

  function ServiceName(s: Service): string {
    match s
    case General => "general"
    case Deep => "deep"
    case Move => "move"
  }

  /** `z.enum(['general', 'deep', 'move'])`. */
  function ParseService(name: string): (r: Option<Service>)
    ensures r.Some? <==> name == "general" || name == "deep" || name == "move"
    ensures r.Some? ==> ServiceName(r.value) == name
  {
    if name == "general" then Some(General)
    else if name == "deep" then Some(Deep)
    else if name == "move" then Some(Move)
    else None
  }

  lemma ServiceNameRoundTrip(s: Service)
    ensures ParseService(ServiceName(s)) == Some(s)
  {
  }

  // Bounds and defaults of quoteCalculationSchema.
  const MinBedrooms: real := 1.0
  const MaxBedrooms: real := 6.0
  const MinBathrooms: real := 1.0
  const MaxBathrooms: real := 3.0
  const MinHourlyRate: real := 1.0
  const MaxHourlyRate: real := 200.0
  const MinCleanerRate: real := 1.0
  const MaxCleanerRate: real := 100.0
  const DefaultHourlyRate: real := 60.0
  const DefaultCleanerRate: real := 35.0

  // PRICING_CONFIG.
  const ConfigHourlyRate: real := 60.0
  const ConfigCleanerRate: real := 35.0
  const GstRate: real := 0.10
  const DefaultDiscountPct: real := 20.0

  /** The request body as the validator sees it. `None` is a field the
      client left out; the three fields with a zod default may be absent. */
  datatype RawQuoteCalculation = RawQuoteCalculation(
    service: string,
    bedrooms: real,
    bathrooms: real,
    addons: Option<seq<string>>,
    discountApplied: Option<bool>,
    hourlyRate: Option<real>,
    cleanerRate: Option<real>)

  /** A request that passed the validator, defaults filled in. */
  datatype QuoteCalculation = QuoteCalculation(
    service: Service,
    bedrooms: real,
    bathrooms: real,
    addons: seq<string>,
    discountApplied: bool,
    hourlyRate: real,
    cleanerRate: real)

  /** The fields the validator can reject. */
  datatype Field = ServiceField | BedroomsField | BathroomsField | HourlyRateField | CleanerRateField

  predicate InRange(x: real, lo: real, hi: real) { lo <= x <= hi }

  /** The bounds every validated request satisfies. */
  predicate WithinBounds(c: QuoteCalculation) {
    InRange(c.bedrooms, MinBedrooms, MaxBedrooms)
    && InRange(c.bathrooms, MinBathrooms, MaxBathrooms)
    && InRange(c.hourlyRate, MinHourlyRate, MaxHourlyRate)
    && InRange(c.cleanerRate, MinCleanerRate, MaxCleanerRate)
  }

  /** The issue for field `f`, when its check failed. */
  function IssueIf(failed: bool, f: Field): (r: seq<Field>)
    ensures forall g :: g in r <==> failed && g == f
  {
    if failed then [f] else []
  }

  /** The issues zod reports, one per offending field, in declaration order. */
  function Issues(raw: RawQuoteCalculation): seq<Field> {
    IssueIf(ParseService(raw.service).None?, ServiceField)
    + IssueIf(!InRange(raw.bedrooms, MinBedrooms, MaxBedrooms), BedroomsField)
    + IssueIf(!InRange(raw.bathrooms, MinBathrooms, MaxBathrooms), BathroomsField)
    + IssueIf(!InRange(raw.hourlyRate.GetOr(DefaultHourlyRate), MinHourlyRate, MaxHourlyRate), HourlyRateField)
    + IssueIf(!InRange(raw.cleanerRate.GetOr(DefaultCleanerRate), MinCleanerRate, MaxCleanerRate), CleanerRateField)
  }

  /** `quoteCalculationSchema.parse`: either every issue, or the request with
      its defaults applied. */
  function ParseQuoteCalculation(raw: RawQuoteCalculation): (r: Result<QuoteCalculation, seq<Field>>)
    ensures r.Failure? ==> r.error != [] && r.error == Issues(raw)
    ensures r.Success? ==> WithinBounds(r.value) && ServiceName(r.value.service) == raw.service
    ensures r.Success? ==>
      && r.value.bedrooms == raw.bedrooms && r.value.bathrooms == raw.bathrooms
      && r.value.addons == raw.addons.GetOr([])
      && r.value.discountApplied == raw.discountApplied.GetOr(false)
      && r.value.hourlyRate == raw.hourlyRate.GetOr(DefaultHourlyRate)
      && r.value.cleanerRate == raw.cleanerRate.GetOr(DefaultCleanerRate)
  {
    var issues := Issues(raw);
    if issues != [] then Failure(issues)
    else
      Success(QuoteCalculation(
        ParseService(raw.service).value,
        raw.bedrooms,
        raw.bathrooms,
        raw.addons.GetOr([]),
        raw.discountApplied.GetOr(false),
        raw.hourlyRate.GetOr(DefaultHourlyRate),
        raw.cleanerRate.GetOr(DefaultCleanerRate)))
  }

  /** The validator accepts exactly the requests whose service is one of the
      three names and whose counts and (defaulted) rates are within bounds. */
  lemma ParseAcceptsExactly(raw: RawQuoteCalculation)
    ensures ParseQuoteCalculation(raw).Success? <==>
      && (raw.service == "general" || raw.service == "deep" || raw.service == "move")
      && 1.0 <= raw.bedrooms <= 6.0
      && 1.0 <= raw.bathrooms <= 3.0
      && (raw.hourlyRate.None? || 1.0 <= raw.hourlyRate.value <= 200.0)
      && (raw.cleanerRate.None? || 1.0 <= raw.cleanerRate.value <= 100.0)
  {
  }

  /** Each field is reported exactly when its own check fails. */
  lemma IssueNamesFailingField(raw: RawQuoteCalculation)
    ensures ServiceField in Issues(raw) <==> ParseService(raw.service).None?
    ensures BedroomsField in Issues(raw) <==> !InRange(raw.bedrooms, MinBedrooms, MaxBedrooms)
    ensures BathroomsField in Issues(raw) <==> !InRange(raw.bathrooms, MinBathrooms, MaxBathrooms)
    ensures HourlyRateField in Issues(raw) <==>
      !InRange(raw.hourlyRate.GetOr(DefaultHourlyRate), MinHourlyRate, MaxHourlyRate)
    ensures CleanerRateField in Issues(raw) <==>
      !InRange(raw.cleanerRate.GetOr(DefaultCleanerRate), MinCleanerRate, MaxCleanerRate)
  {
  }

  /** Leaving out every defaulted field yields the documented defaults, and
      those defaults pass their own bounds. */
  lemma DefaultsWithinBounds(service: Service, bedrooms: real, bathrooms: real)
    requires InRange(bedrooms, MinBedrooms, MaxBedrooms) && InRange(bathrooms, MinBathrooms, MaxBathrooms)
    ensures ParseQuoteCalculation(RawQuoteCalculation(ServiceName(service), bedrooms, bathrooms, None, None, None, None))
      == Success(QuoteCalculation(service, bedrooms, bathrooms, [], false, 60.0, 35.0))
  {
    var raw := RawQuoteCalculation(ServiceName(service), bedrooms, bathrooms, None, None, None, None);
    ServiceNameRoundTrip(service);
    assert Issues(raw) == [];
  }

  /** `PRICING_CONFIG`'s rates are the validator's defaults, and GST is 10%. */
  lemma ConfigMatchesDefaults()
    ensures ConfigHourlyRate == DefaultHourlyRate && ConfigCleanerRate == DefaultCleanerRate
    ensures GstRate * 10.0 == 1.0
  {
  }

  // ADD_ONS: hours per catalogue add-on, as the object literal lists them.
  const AddOnEntries: seq<(string, real)> := [
    ("inside_oven_clean", 0.75),
    ("inside_fridge_clean", 0.75),
    ("inside_freezer_clean", 0.75),
    ("inside_windows_and_tracks", 1.5),
    ("blinds_up_to_5_sets", 0.75),
    ("balcony_clean", 0.75),
    ("garage_sweep_and_cobwebs", 0.75),
    ("carpet_steam_clean_1_room", 1.0),
    ("wall_spot_cleaning", 1.0),
    ("extra_bathroom", 1.0),
    ("extra_bedroom", 1.0)
  ]

  /** The object an object literal denotes: each entry sets its key, a later
      entry overriding an earlier one with the same key. */
  function MapOf(entries: seq<(string, real)>): map<string, real> {
    if entries == [] then map[]
    else
      var last := entries[|entries| - 1];
      MapOf(entries[..|entries| - 1])[last.0 := last.1]
  }

  /** The object's keys are the keys its entries list. */
  lemma {:induction false} MapOfKeys(entries: seq<(string, real)>)
    ensures MapOf(entries).Keys == set i | 0 <= i < |entries| :: entries[i].0
  {
    if entries != [] {
      var init := entries[..|entries| - 1];
      MapOfKeys(init);
      assert forall i :: 0 <= i < |init| ==> init[i] == entries[i];
    }
  }

  const AddOns: map<string, real> := MapOf(AddOnEntries)

  /** Every value of an object built from positive entries is positive. */
  lemma {:induction false} MapOfPositive(entries: seq<(string, real)>, name: string)
    requires forall i :: 0 <= i < |entries| ==> entries[i].1 > 0.0
    requires name in MapOf(entries)
    ensures MapOf(entries)[name] > 0.0
  {
    var last := entries[|entries| - 1];
    if name != last.0 {
      MapOfPositive(entries[..|entries| - 1], name);
    }
  }

  /** Every catalogue entry has strictly positive hours. */
  lemma AddOnHoursPositive(name: string)
    requires name in AddOns
    ensures AddOns[name] > 0.0
  {
    MapOfPositive(AddOnEntries, name);
  }

  /** Distinct keys give as many entries as there are keys. */
  lemma {:induction false} DistinctKeysCount(entries: seq<(string, real)>)
    requires forall i, j :: 0 <= i < j < |entries| ==> entries[i].0 != entries[j].0
    ensures |MapOf(entries)| == |entries|
  {
    if entries != [] {
      var init := entries[..|entries| - 1];
      DistinctKeysCount(init);
      MapOfKeys(init);
      assert entries[|entries| - 1].0 !in MapOf(init);
    }
  }

  /** The catalogue has exactly 11 add-ons, its keys are the listed names,
      and every one of them has positive hours. */
  lemma AddOnCatalogue()
    ensures |AddOns| == 11
    ensures AddOns.Keys == set i | 0 <= i < |AddOnEntries| :: AddOnEntries[i].0
    ensures forall name :: name in AddOns ==> AddOns[name] > 0.0
  {
    DistinctKeysCount(AddOnEntries);
    MapOfKeys(AddOnEntries);
    forall name | name in AddOns
      ensures AddOns[name] > 0.0
    {
      AddOnHoursPositive(name);
    }
  }

  // SERVICES: hours per (bedrooms, bathrooms) pair, not read by the quote
  // calculation.
  const TableKeys: seq<(int, int)> := [(1, 1), (2, 1), (2, 2), (3, 2), (4, 2), (4, 3), (5, 3), (6, 3)]

  function ServiceTable(s: Service): map<(int, int), real> {
    match s
    case General =>
      map[(1, 1) := 2.0, (2, 1) := 2.5, (2, 2) := 3.5, (3, 2) := 4.0,
          (4, 2) := 4.75, (4, 3) := 5.75, (5, 3) := 6.5, (6, 3) := 7.0]
    case Deep =>
      map[(1, 1) := 3.5, (2, 1) := 4.0, (2, 2) := 5.0, (3, 2) := 6.0,
          (4, 2) := 7.25, (4, 3) := 8.5, (5, 3) := 9.75, (6, 3) := 11.0]
    case Move =>
      map[(1, 1) := 5.0, (2, 1) := 6.0, (2, 2) := 7.0, (3, 2) := 8.0,
          (4, 2) := 9.5, (4, 3) := 10.5, (5, 3) := 11.0, (6, 3) := 12.5]
  }

  /** Every service tabulates the same eight pairs, each within the
      validator's bedroom and bathroom bounds. */
  lemma TableKeysShared(s: Service)
    ensures ServiceTable(s).Keys == set k | k in TableKeys
    ensures |TableKeys| == 8
    ensures forall k :: k in ServiceTable(s) ==>
      InRange(k.0 as real, MinBedrooms, MaxBedrooms) && InRange(k.1 as real, MinBathrooms, MaxBathrooms)
  {
  }

  /** Along the listed pairs the hours strictly increase, and at every pair
      a general clean is shorter than a deep clean, which is shorter than a
      move-out clean. */
  lemma TableOrdered(s: Service, i: nat)
    requires i < |TableKeys|
    ensures i + 1 < |TableKeys| ==> ServiceTable(s)[TableKeys[i]] < ServiceTable(s)[TableKeys[i + 1]]
    ensures ServiceTable(General)[TableKeys[i]] < ServiceTable(Deep)[TableKeys[i]] < ServiceTable(Move)[TableKeys[i]]
  {
  }
}
