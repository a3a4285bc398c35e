/** The calculator's records and the dataset's column names. */
module CalculatorTypes {

  /** The site part of a configuration; `""` means not chosen yet. */
  datatype ProjectConfig = ProjectConfig(location: string, soilType: string, rockbedHeight: string)

  /** The insulation part of a configuration and the electricity price in $/kWh. */
  datatype InsulationConfig = InsulationConfig(
    foundationInsulation: string,
    insulationAboveRockbed: string,
    insulationBelowRockbed: string,
    additionalInletInsulation: string,
    electricityPrice: real)

  /** Construction cost estimate in dollars (`materialsCode` is the source's name for materials). */
  datatype CostBreakdown = CostBreakdown(materialsCode: real, laborCost: real, totalCost: real, costPerSqFt: real)

  /** A lower/upper pair. */
  datatype Range = Range(lower: real, upper: real)

  datatype SavingsData = SavingsData(
    annualEnergySavingsKwh: Range,
    annualEnergySavingsBtu: Range,
    savingsPercentage: Range,
    annualCostSavings: Range)

  /** The seven categorical axes of the dataset. */
  datatype Dimension =
    | Location | SoilType | RockbedHeight | FoundationInsulation
    | InsulationAboveRockbed | InsulationBelowRockbed | AdditionalInletInsulation

  /** The seven dimension values of a record, in column order. */
  type Key = (string, string, string, string, string, string, string)

  /** One dataset record: the seven dimensions and the outcome columns, all as text. */
  datatype Row = Row(
    location: string,
    soilType: string,
    rockbedHeight: string,
    foundationInsulation: string,
    insulationAboveRockbed: string,
    insulationBelowRockbed: string,
    additionalInletInsulation: string,
    kwhLower: string,
    kwhUpper: string,
    btuLower: string,
    btuUpper: string,
    percentLower: string,
    percentUpper: string,
    costSavingsLower: string,
    costSavingsUpper: string,
    savingsPercent: string)
  {
    /** The row's value on dimension `d`. */
    function Field(d: Dimension): string {
      match d
      case Location => location
      case SoilType => soilType
      case RockbedHeight => rockbedHeight
      case FoundationInsulation => foundationInsulation
      case InsulationAboveRockbed => insulationAboveRockbed
      case InsulationBelowRockbed => insulationBelowRockbed
      case AdditionalInletInsulation => additionalInletInsulation
    }

    /** All seven dimension values. */
    function Dims(): Key {
      (location, soilType, rockbedHeight, foundationInsulation,
       insulationAboveRockbed, insulationBelowRockbed, additionalInletInsulation)
    }
  }

  /** Per dimension, the values still selectable. */
  datatype FilteredOptions = FilteredOptions(
    locations: seq<string>,
    soilTypes: seq<string>,
    rockbedHeights: seq<string>,
    foundationInsulations: seq<string>,
    insulationAboveRockbed: seq<string>,
    insulationBelowRockbed: seq<string>,
    additionalInletInsulations: seq<string>)
  {
    /** The list for dimension `d`. */
    function Get(d: Dimension): seq<string> {
      match d
      case Location => locations
      case SoilType => soilTypes
      case RockbedHeight => rockbedHeights
      case FoundationInsulation => foundationInsulations
      case InsulationAboveRockbed => insulationAboveRockbed
      case InsulationBelowRockbed => insulationBelowRockbed
      case AdditionalInletInsulation => additionalInletInsulations
    }
  }

  /** The options before any data has arrived. */
  const NoOptions := FilteredOptions([], [], [], [], [], [], [])

  /** The all-zero cost shown when no record matches. */
  const ZeroCost := CostBreakdown(0.0, 0.0, 0.0, 0.0)

  // Column headers of the dataset, as the record type names them.
  const LocationColumn := "Location"
  const SoilTypeColumn := "Soil Type"
  const RockbedHeightColumn := "Rockbed height"
  const FoundationColumn := "Foundation insulation"
  const AboveRockbedColumn := "Insulation above rockbed"
  const BelowRockbedColumn := "Insulation below rockbed"
  const InletColumn := "Additional inlet insulation"
  const KwhLowerColumn := "Predicted annual energy savings (kWh/yr)\n(lower)"
  const KwhUpperColumn := "Predicted annual energy savings (kWh/yr)\n(upper)"
  const BtuLowerColumn := "Predicted annual energy savings (Btu/yr)\n(lower)"
  const BtuUpperColumn := "Predicted annual energy savings (Btu/yr)\n(upper)"
  const PercentLowerColumn := "Predicted savings (%)\n(lower)"
  const PercentUpperColumn := "Predicted savings (%)\n(upper)"
  const CostLowerColumn := "Predicted cost savings ($/yr)\n(lower)"
  const CostUpperColumn := "Predicted cost savings ($/yr)\n(upper)"
  const PercentColumn := "Predicted savings (%)"
}
