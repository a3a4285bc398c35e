/**
 * The calculator's state and its transitions: loading the dataset and picking
 * default selections, the user's configuration changes, and the resolution
 * step that turns a complete configuration into estimates. The resolution
 * step is an explicit call made after a configuration change.
 */
module CalculatorApp {
  import opened Wrappers
  import opened Text
  import opened CalculatorTypes
  import opened CsvParser
  import opened Calculations

  /** The electricity price, in $/kWh, the calculator starts with. */
  const DefaultElectricityPrice := 0.145

  const LoadErrorMessage := "Failed to load data. Please check that the CSV file is available."

  // ---------------------------------------------------------------------
  // Resolution
  // ---------------------------------------------------------------------

  /** All seven dimension fields of the configuration are chosen. */
  predicate AllSet(pc: ProjectConfig, ic: InsulationConfig) {
    pc.location != "" && pc.soilType != "" && pc.rockbedHeight != "" &&
    ic.foundationInsulation != "" && ic.insulationAboveRockbed != "" &&
    ic.insulationBelowRockbed != "" && ic.additionalInletInsulation != ""
  }

  /** The seven chosen values, in column order. */
  function ConfigKey(pc: ProjectConfig, ic: InsulationConfig): Key {
    (pc.location, pc.soilType, pc.rockbedHeight, ic.foundationInsulation,
     ic.insulationAboveRockbed, ic.insulationBelowRockbed, ic.additionalInletInsulation)
  }

  /** What the resolution step does to the estimates: nothing, or replace both. */
  datatype Outcome = Unchanged | Resolved(savings: Option<SavingsData>, cost: CostBreakdown)

  /**
   * The resolution step: with data and a complete configuration, the first record
   * matching all seven values gives the savings at the configured price and the
   * cost of the chosen height and insulation; no match gives no savings and the
   * all-zero cost.
   */
  function Resolution(data: seq<Row>, pc: ProjectConfig, ic: InsulationConfig): (o: Outcome)
    ensures o.Resolved? <==> data != [] && AllSet(pc, ic)
    ensures o.Resolved? ==> (o.savings.None? <==> forall row :: row in data ==> row.Dims() != ConfigKey(pc, ic))
    ensures o.Resolved? && o.savings.None? ==> o.cost == ZeroCost
    ensures o.Resolved? && o.savings.Some? ==>
              o.cost == EstimateConstructionCosts(pc.rockbedHeight, ic.foundationInsulation, ic.insulationBelowRockbed)
    ensures o.Resolved? && o.savings.Some? ==>
              exists row :: row in data && row.Dims() == ConfigKey(pc, ic) &&
                            o.savings.value == CalculateSavingsFromCsv(row, ic.electricityPrice)
  {
    if data == [] || !AllSet(pc, ic) then Unchanged
    else
      match FindMatchingRow(data, ConfigKey(pc, ic))
      case Some(row) =>
        Resolved(Some(CalculateSavingsFromCsv(row, ic.electricityPrice)),
                 EstimateConstructionCosts(pc.rockbedHeight, ic.foundationInsulation, ic.insulationBelowRockbed))
      case None => Resolved(None, ZeroCost)
  }

  /** After a resolution, an estimate is present exactly when the cost is positive. */
  lemma EstimateIffCost(data: seq<Row>, pc: ProjectConfig, ic: InsulationConfig)
    requires Resolution(data, pc, ic).Resolved?
    ensures Resolution(data, pc, ic).savings.Some? <==> Resolution(data, pc, ic).cost.totalCost > 0.0
  {
  }

  /** When several records share the configuration, the first in data order supplies the savings. */
  lemma ResolutionUsesFirstMatch(data: seq<Row>, pc: ProjectConfig, ic: InsulationConfig)
    requires data != [] && AllSet(pc, ic)
    ensures var m := Matching(data, KeyConstraints(ConfigKey(pc, ic)));
            Resolution(data, pc, ic).savings == if m == [] then None
                                                else Some(CalculateSavingsFromCsv(m[0], ic.electricityPrice))
  {
    FindMatchingIsFirst(data, ConfigKey(pc, ic));
  }

  /** The record of the end-to-end example: Central MN, unknown soil, 7'-6'' rockbed, R-5 insulation. */
  function ExampleRow(): Row {
    Row("Central MN", "Unknown", "7'-6''", "R-5", "Soil", "R-5", "-",
        "1,000", "1,500", "", "", "", "", "", "", "")
  }

  /**
   * Configuring exactly the example record's seven values at $0.145/kWh yields an
   * estimate whose cost savings run from $145 to $217.50 a year.
   */
  lemma ExampleResolves()
    ensures var row := ExampleRow();
            var pc := ProjectConfig(row.location, row.soilType, row.rockbedHeight);
            var ic := InsulationConfig(row.foundationInsulation, row.insulationAboveRockbed,
                                       row.insulationBelowRockbed, row.additionalInletInsulation, DefaultElectricityPrice);
            var o := Resolution([row], pc, ic);
            o.Resolved? && o.savings.Some? && o.savings.value.annualCostSavings == Range(145.0, 217.5)
  {
    var row := ExampleRow();
    var pc := ProjectConfig(row.location, row.soilType, row.rockbedHeight);
    var ic := InsulationConfig(row.foundationInsulation, row.insulationAboveRockbed,
                               row.insulationBelowRockbed, row.additionalInletInsulation, DefaultElectricityPrice);
    assert FindMatchingRow([row], ConfigKey(pc, ic)) == Some(row);
    ExampleSavings();
  }

  /** The example record's kWh text "1,000" and "1,500" at $0.145/kWh. */
  lemma ExampleSavings()
    ensures CalculateSavingsFromCsv(ExampleRow(), DefaultElectricityPrice).annualCostSavings == Range(145.0, 217.5)
  {
    ParseGroupedThousands(1, 0);
    ParseGroupedThousands(1, 5);
    assert [DigitChar(1), ',', DigitChar(0), '0', '0'] == "1,000";
    assert [DigitChar(1), ',', DigitChar(5), '0', '0'] == "1,500";
  }

  /** The six outcome columns `calculateSavingsFromCSV` reads. */
  const OutcomeColumns := {KwhLowerColumn, KwhUpperColumn, BtuLowerColumn, BtuUpperColumn,
                           PercentLowerColumn, PercentUpperColumn}

  /**
   * `calculateSavingsFromCSV` on a record exactly as the parser built it: a
   * missing outcome cell is `undefined`, on which `parseNumber` throws (None).
   */
  function SavingsFromRecord(m: RawRow, electricityPrice: real): (r: Option<SavingsData>)
    ensures r.Some? <==> OutcomeColumns <= m.Keys
    ensures r.Some? ==> r.value.annualEnergySavingsKwh
                        == Range(ParseNumber(m[KwhLowerColumn]), ParseNumber(m[KwhUpperColumn]))
    ensures r.Some? ==> r.value.annualCostSavings
                        == PricedSavings(r.value.annualEnergySavingsKwh, electricityPrice)
  {
    if OutcomeColumns <= m.Keys then Some(CalculateSavingsFromCsv(ToRow(m), electricityPrice)) else None
  }

  /** Every record the parser produces, from any text, makes the savings computation throw. */
  lemma ParsedRecordsNeverPriced(text: string, electricityPrice: real)
    ensures forall m :: m in ParsedRows(text) ==> SavingsFromRecord(m, electricityPrice).None?
  {
    ParsedKeysHaveNoLineBreak(text);
    assert KwhLowerColumn[40] == '\n';
  }

  /** Changing any one of the seven values to one the dataset lacks yields the empty estimate. */
  lemma ExampleOtherValueMisses(pc: ProjectConfig, ic: InsulationConfig)
    requires AllSet(pc, ic)
    requires ConfigKey(pc, ic) != ExampleRow().Dims()
    ensures Resolution([ExampleRow()], pc, ic) == Resolved(None, ZeroCost)
  {
  }

  // ---------------------------------------------------------------------
  // Options offered for the current configuration
  // ---------------------------------------------------------------------

  /** `value || undefined`: an empty choice is passed as absent. */
  function Arg(value: string): (a: Option<string>)
    ensures a.None? <==> value == ""
    ensures a.Some? ==> a.value == value
  {
    if value == "" then None else Some(value)
  }

  /** `getFilteredOptionsForCurrentConfig`: the global options before data, else the cascade over six choices. */
  function CurrentOptions(data: seq<Row>, allOptions: FilteredOptions, pc: ProjectConfig, ic: InsulationConfig)
    : (r: FilteredOptions)
    ensures data == [] ==> r == allOptions
  {
    if data == [] then allOptions
    else
      GetFilteredOptionsForConfig(data, Arg(pc.location), Arg(pc.soilType), Arg(pc.rockbedHeight),
                                  Arg(ic.foundationInsulation), Arg(ic.insulationAboveRockbed),
                                  Arg(ic.insulationBelowRockbed))
  }

  /** The configuration's value on dimension `d`. */
  function Chosen(pc: ProjectConfig, ic: InsulationConfig, d: Dimension): string {
    match d
    case Location => pc.location
    case SoilType => pc.soilType
    case RockbedHeight => pc.rockbedHeight
    case FoundationInsulation => ic.foundationInsulation
    case InsulationAboveRockbed => ic.insulationAboveRockbed
    case InsulationBelowRockbed => ic.insulationBelowRockbed
    case AdditionalInletInsulation => ic.additionalInletInsulation
  }

  /** The chosen values of the six filterable dimensions. */
  function ChosenConstraints(pc: ProjectConfig, ic: InsulationConfig): (cs: set<Constraint>)
    ensures forall d, v :: (d, v) in cs <==>
              v != "" && d != AdditionalInletInsulation && v == Chosen(pc, ic, d)
  {
    Constraints(Arg(pc.location), Arg(pc.soilType), Arg(pc.rockbedHeight),
                Arg(ic.foundationInsulation), Arg(ic.insulationAboveRockbed), Arg(ic.insulationBelowRockbed))
  }

  /** With data, the options are those of exactly the records agreeing with every chosen filterable value. */
  lemma CurrentOptionsMatching(data: seq<Row>, allOptions: FilteredOptions, pc: ProjectConfig, ic: InsulationConfig)
    requires data != []
    ensures CurrentOptions(data, allOptions, pc, ic) == GetFilteredOptions(Matching(data, ChosenConstraints(pc, ic)))
  {
  }

  /** The inlet choice and the price never narrow the options. */
  lemma CurrentOptionsIgnoreInletAndPrice(data: seq<Row>, allOptions: FilteredOptions, pc: ProjectConfig,
                                          ic: InsulationConfig, inlet: string, price: real)
    ensures CurrentOptions(data, allOptions, pc, ic)
            == CurrentOptions(data, allOptions, pc, ic.(additionalInletInsulation := inlet, electricityPrice := price))
  {
  }

  // ---------------------------------------------------------------------
  // Default selections
  // ---------------------------------------------------------------------

  /** The callbacks the defaults pass to `find`, one per test. */
  datatype Preference =
    | CentralOrMinnesota  // the location mentions "central" or "minnesota", in any case
    | UnknownSoil         // the soil type mentions "unknown", in any case
    | SevenSixHeight      // the rockbed height contains 7'-6
    | RFive               // the insulation contains "R-5"
    | SoilInsulation      // the insulation mentions "soil", in any case
    | NoInlet             // the inlet insulation is exactly "-"

  /** Whether the callback for `p` accepts the option `v`. */
  predicate Prefers(p: Preference, v: string) {
    match p
    case CentralOrMinnesota => Contains(ToLower(v), "central") || Contains(ToLower(v), "minnesota")
    case UnknownSoil => Contains(ToLower(v), "unknown")
    case SevenSixHeight => Contains(v, "7'-6")
    case RFive => Contains(v, "R-5")
    case SoilInsulation => Contains(ToLower(v), "soil")
    case NoInlet => v == "-"
  }

  /** `options.find(...)`: the first option the callback accepts. */
  function Find(options: seq<string>, p: Preference): Option<string> {
    if options == [] then None
    else if Prefers(p, options[0]) then Some(options[0])
    else Find(options[1..], p)
  }

  /** `Find` gives nothing exactly when no option is accepted, and otherwise the first accepted option. */
  lemma {:induction false} FindIsFirst(options: seq<string>, p: Preference)
    ensures Find(options, p).None? <==> forall k :: 0 <= k < |options| ==> !Prefers(p, options[k])
    ensures Find(options, p).Some? ==>
              exists k :: 0 <= k < |options| && options[k] == Find(options, p).value &&
                          Prefers(p, options[k]) && forall j :: 0 <= j < k ==> !Prefers(p, options[j])
  {
    if options != [] && !Prefers(p, options[0]) {
      var rest := options[1..];
      FindIsFirst(rest, p);
      if Find(rest, p).Some? {
        var k :| 0 <= k < |rest| && rest[k] == Find(rest, p).value &&
                 Prefers(p, rest[k]) && forall j :: 0 <= j < k ==> !Prefers(p, rest[j]);
        assert options[k + 1] == rest[k];
        forall j | 0 <= j < k + 1 ensures !Prefers(p, options[j]) {
          if j > 0 { assert options[j] == rest[j - 1]; }
        }
      } else {
        forall j | 0 <= j < |options| ensures !Prefers(p, options[j]) {
          if j > 0 { assert options[j] == rest[j - 1]; }
        }
      }
    }
  }

  /** `options.find(...) || options[0] || ''`. */
  function PickDefault(options: seq<string>, p: Preference): string {
    var found := Find(options, p);
    if found.Some? && found.value != "" then found.value
    else if options != [] && options[0] != "" then options[0]
    else ""
  }

  /**
   * The default is the first accepted option when that one is non-empty; an empty
   * first accepted option or no accepted option falls back to the first option, and
   * an empty list to "". So the default is empty or listed, and set whenever the
   * first option is set.
   */
  lemma PickDefaultSpec(options: seq<string>, p: Preference)
    ensures forall k :: 0 <= k < |options| && Prefers(p, options[k]) &&
                        (forall j :: 0 <= j < k ==> !Prefers(p, options[j])) ==>
              PickDefault(options, p) == if options[k] != "" then options[k] else options[0]
    ensures (forall k :: 0 <= k < |options| ==> !Prefers(p, options[k])) ==>
              PickDefault(options, p) == if options == [] then "" else options[0]
    ensures PickDefault(options, p) == "" || PickDefault(options, p) in options
    ensures options != [] && options[0] != "" ==> PickDefault(options, p) != ""
  {
    FindIsFirst(options, p);
    forall k | 0 <= k < |options| && Prefers(p, options[k]) && (forall j :: 0 <= j < k ==> !Prefers(p, options[j]))
      ensures PickDefault(options, p) == if options[k] != "" then options[k] else options[0]
    {
      var i :| 0 <= i < |options| && options[i] == Find(options, p).value &&
               Prefers(p, options[i]) && forall j :: 0 <= j < i ==> !Prefers(p, options[j]);
      assert i == k;
    }
  }

  /** The callback each dimension's default is picked with. */
  function PreferenceFor(d: Dimension): Preference {
    match d
    case Location => CentralOrMinnesota
    case SoilType => UnknownSoil
    case RockbedHeight => SevenSixHeight
    case FoundationInsulation => RFive
    case InsulationAboveRockbed => SoilInsulation
    case InsulationBelowRockbed => RFive
    case AdditionalInletInsulation => NoInlet
  }

  /** The site selections made once the data has loaded. */
  function DefaultProjectConfig(options: FilteredOptions): ProjectConfig
  {
    ProjectConfig(
      PickDefault(options.locations, CentralOrMinnesota),
      PickDefault(options.soilTypes, UnknownSoil),
      PickDefault(options.rockbedHeights, SevenSixHeight))
  }

  /** The insulation selections made once the data has loaded, at the default price. */
  function DefaultInsulationConfig(options: FilteredOptions): InsulationConfig
  {
    InsulationConfig(
      PickDefault(options.foundationInsulations, RFive),
      PickDefault(options.insulationAboveRockbed, SoilInsulation),
      PickDefault(options.insulationBelowRockbed, RFive),
      PickDefault(options.additionalInletInsulations, NoInlet),
      DefaultElectricityPrice)
  }

  /** Every record has all seven dimension values. */
  predicate Complete(data: seq<Row>) {
    forall row :: row in data ==> forall d :: row.Field(d) != ""
  }

  /** The first element of a non-empty, strictly ascending list of non-empty values is non-empty. */
  lemma FirstOptionSet(data: seq<Row>, d: Dimension)
    requires data != [] && Complete(data)
    ensures GetFilteredOptions(data).Get(d) != [] && GetFilteredOptions(data).Get(d)[0] != ""
  {
    var list := GetFilteredOptions(data).Get(d);
    GetFilteredOptionsSpec(data);
    assert data[0] in data;
    assert data[0].Field(d) in list;
    assert list[0] in list;
  }

  /** On each dimension the default is picked from that dimension's list with its callback. */
  lemma DefaultChosen(options: FilteredOptions, d: Dimension)
    ensures Chosen(DefaultProjectConfig(options), DefaultInsulationConfig(options), d)
            == PickDefault(options.Get(d), PreferenceFor(d))
  {
    match d
    case Location =>
    case SoilType =>
    case RockbedHeight =>
    case FoundationInsulation =>
    case InsulationAboveRockbed =>
    case InsulationBelowRockbed =>
    case AdditionalInletInsulation =>
  }

  /** Defaults drawn from lists whose first entries are set choose all seven values. */
  lemma DefaultsSet(options: FilteredOptions)
    requires forall d :: options.Get(d) != [] && options.Get(d)[0] != ""
    ensures AllSet(DefaultProjectConfig(options), DefaultInsulationConfig(options))
  {
    var pc, ic := DefaultProjectConfig(options), DefaultInsulationConfig(options);
    forall d ensures Chosen(pc, ic, d) != "" {
      DefaultChosen(options, d);
      PickDefaultSpec(options.Get(d), PreferenceFor(d));
    }
    assert Chosen(pc, ic, Location) != "" && Chosen(pc, ic, SoilType) != "" && Chosen(pc, ic, RockbedHeight) != "";
    assert Chosen(pc, ic, FoundationInsulation) != "" && Chosen(pc, ic, InsulationAboveRockbed) != "";
    assert Chosen(pc, ic, InsulationBelowRockbed) != "" && Chosen(pc, ic, AdditionalInletInsulation) != "";
  }

  /** Defaults drawn from a non-empty dataset of complete records choose all seven values. */
  lemma DefaultsAllSet(data: seq<Row>)
    requires data != [] && Complete(data)
    ensures AllSet(DefaultProjectConfig(GetFilteredOptions(data)), DefaultInsulationConfig(GetFilteredOptions(data)))
  {
    forall d
      ensures GetFilteredOptions(data).Get(d) != [] && GetFilteredOptions(data).Get(d)[0] != ""
    {
      FirstOptionSet(data, d);
    }
    DefaultsSet(GetFilteredOptions(data));
  }

  /** Each default is one of the listed values for its dimension, or empty. */
  lemma DefaultsListed(options: FilteredOptions)
    ensures forall d :: var v := Chosen(DefaultProjectConfig(options), DefaultInsulationConfig(options), d);
                        v == "" || v in options.Get(d)
  {
    forall d ensures var v := Chosen(DefaultProjectConfig(options), DefaultInsulationConfig(options), d);
                     v == "" || v in options.Get(d)
    {
      DefaultChosen(options, d);
      PickDefaultSpec(options.Get(d), PreferenceFor(d));
    }
  }

  /** Each default is a value some record of the data takes, or empty. */
  lemma DefaultsFromData(data: seq<Row>)
    ensures var options := GetFilteredOptions(data);
            forall d :: var v := Chosen(DefaultProjectConfig(options), DefaultInsulationConfig(options), d);
                        v == "" || exists row :: row in data && row.Field(d) == v
  {
    DefaultsListed(GetFilteredOptions(data));
    GetFilteredOptionsSpec(data);
  }

  // ---------------------------------------------------------------------
  // The calculator state
  // ---------------------------------------------------------------------

  /** The calculator's state and the transitions that update it. */
  class Calculator {
    var csvData: seq<Row>
    var allOptions: FilteredOptions
    var projectConfig: ProjectConfig
    var insulationConfig: InsulationConfig
    var costBreakdown: CostBreakdown
    var savingsData: Option<SavingsData>
    var isLoading: bool
    var error: Option<string>

    /** The state before the data arrives: nothing chosen, zero cost, loading. */
    constructor ()
      ensures csvData == [] && allOptions == NoOptions
      ensures projectConfig == ProjectConfig("", "", "")
      ensures insulationConfig == InsulationConfig("", "", "", "", DefaultElectricityPrice)
      ensures costBreakdown == ZeroCost && savingsData == None
      ensures isLoading && error == None
    {
      csvData := [];
      allOptions := NoOptions;
      projectConfig := ProjectConfig("", "", "");
      insulationConfig := InsulationConfig("", "", "", "", DefaultElectricityPrice);
      costBreakdown := ZeroCost;
      savingsData := None;
      isLoading := true;
      error := None;
    }

    /** The data has arrived: keep it, offer its global options and pick the defaults. */
    method CompleteLoad(data: seq<Row>)
      modifies this`csvData, this`allOptions, this`projectConfig, this`insulationConfig, this`isLoading, this`error
      ensures csvData == data && allOptions == GetFilteredOptions(data)
      ensures projectConfig == DefaultProjectConfig(allOptions)
      ensures insulationConfig == DefaultInsulationConfig(allOptions)
      ensures !isLoading && error == None
    {
      isLoading := true;
      error := None;
      csvData := data;
      var options := GetFilteredOptions(data);
      allOptions := options;
      projectConfig := DefaultProjectConfig(options);
      insulationConfig := DefaultInsulationConfig(options);
      isLoading := false;
    }

    /** Loading failed: stop loading and report the error; nothing else changes. */
    method FailLoad()
      modifies this`isLoading, this`error
      ensures !isLoading && error == Some(LoadErrorMessage)
    {
      isLoading := false;
      error := Some(LoadErrorMessage);
    }

    /** The user changed the site selections. */
    method SetProjectConfig(config: ProjectConfig)
      modifies this`projectConfig
      ensures projectConfig == config
    {
      projectConfig := config;
    }

    /** The user changed the insulation selections or the price. */
    method SetInsulationConfig(config: InsulationConfig)
      modifies this`insulationConfig
      ensures insulationConfig == config
    {
      insulationConfig := config;
    }

    /** The resolution step, run after every change of data or configuration. */
    method Resolve()
      modifies this`savingsData, this`costBreakdown
      ensures Resolution(csvData, projectConfig, insulationConfig).Unchanged? ==>
                savingsData == old(savingsData) && costBreakdown == old(costBreakdown)
      ensures Resolution(csvData, projectConfig, insulationConfig).Resolved? ==>
                savingsData == Resolution(csvData, projectConfig, insulationConfig).savings &&
                costBreakdown == Resolution(csvData, projectConfig, insulationConfig).cost
    {
      if |csvData| == 0 {
        return;
      }
      var pc, ic := projectConfig, insulationConfig;
      if AllSet(pc, ic) {
        var matchingRow := FindMatchingRow(csvData, ConfigKey(pc, ic));
        if matchingRow.Some? {
          savingsData := Some(CalculateSavingsFromCsv(matchingRow.value, ic.electricityPrice));
          costBreakdown := EstimateConstructionCosts(pc.rockbedHeight, ic.foundationInsulation,
                                                     ic.insulationBelowRockbed);
        } else {
          savingsData := None;
          costBreakdown := ZeroCost;
        }
      }
    }
  }

  /** Loading complete records and resolving always produces an outcome, with or without a match. */
  method LoadAndResolve(data: seq<Row>) returns (c: Calculator)
    requires data != [] && Complete(data)
    ensures fresh(c) && c.csvData == data && !c.isLoading
    ensures c.savingsData.Some? <==> exists row :: row in data && row.Dims() == ConfigKey(c.projectConfig, c.insulationConfig)
    ensures c.savingsData.None? ==> c.costBreakdown == ZeroCost
  {
    c := new Calculator();
    c.CompleteLoad(data);
    DefaultsAllSet(data);
    c.Resolve();
  }
}
