# Deep-winter greenhouse calculator: configuration resolution, in Dafny

This project models the core of a calculator for a deep-winter greenhouse (DWG),
a greenhouse that stores heat in a rockbed.

The calculator reads a table of simulation results. Each record gives the
predicted energy savings for one combination of seven categorical choices:
- location
- soil type
- rockbed height
- foundation insulation
- insulation above the rockbed
- insulation below the rockbed
- additional inlet insulation

The model covers:

- **Reading the table** (`CsvParser`, csv_parser.dfy).
  - The quote-toggling line splitter and the header-to-record builder.
  - The rule that drops blank, comment, short and site-less lines.
  - The per-dimension option lists: distinct values in ascending order.
  - The cascading filter behind the dependent drop-downs.
  - The exact seven-value lookup.
- **The estimators** (`Calculations`, calculations.dfy).
  - The number reader: `,` and `$` are deleted, then the text is read as a JavaScript `parseFloat`, and unreadable text becomes 0.
  - Savings derived from a record at an electricity price.
  - The lookup-table construction-cost model.
  - The payback calculator. It rounds to a tenth and gives `Infinity` when the savings are not positive.
- **The savings panel's figures** (`SavingsPayback`, savings_payback.dfy).
  - Savings re-priced at the slider's price, with their payback and ten-year net.
  - The eleven-year cumulative timeline.
  - When the payback reads "N/A".
- **The application state** (`CalculatorApp`, app.dfy). It is a `Calculator` class holding:
  - the loaded records
  - the global option lists
  - the two configuration parts
  - the cost and savings estimates
  - the loading flag and the error

  Its methods are:
  - the load that picks default selections
  - the load failure
  - the two configuration handlers
  - the resolution step

  The resolution step is specified by the pure function `Resolution`. A matching record yields its savings and the cost estimate. A complete configuration with no match yields no savings and the all-zero cost.

Numbers are exact rationals (`real`). JavaScript's `Infinity` in a payback is the
`Infinity` case of `Extended`. Strings are `seq<char>`, and the JavaScript string
built-ins used are written out in `Text` (text.dfy). The records and the dataset's
column names are in `CalculatorTypes` (types.dfy). `Option` is in `Wrappers`
(wrappers.dfy).

In the source, the resolution step is a React effect that runs after every change
of the data or of the configuration. In the model it is the explicit method
`Calculator.Resolve`, which a caller runs after such a change. `LoadAndResolve`
shows the sequence: construct, load, resolve.

`findMatchingRow` (src/utils/csvParser.ts:118-137) has no guard against an empty
value: it compares all seven. Its caller in src/App.tsx:114-116 calls it only once all
seven values are set. The model follows the code: `FindMatchingRow` compares, and
`Resolution` carries the all-set guard.

## Model

| member | source | states |
|---|---|---|
| CsvParser.ParseCsvLine | src/utils/csvParser.ts:29-49 | The loop returns the fields of the quote-toggling scan: an unquoted comma ends a field, and a quote flips the quoted state and is dropped. |
| CsvParser.ScanCounts | src/utils/csvParser.ts:37-38 | After reading a prefix, the splitter is inside quotes exactly when it has seen an odd number of quote characters. |
| CsvParser.FieldCount | src/utils/csvParser.ts:34-48 | A line has exactly one more field than it has commas outside quotes. |
| CsvParser.FieldsHaveNoQuote | src/utils/csvParser.ts:37-44 | No field contains a quote character. |
| CsvParser.FieldsJoin | src/utils/csvParser.ts:34-48 | Joining the fields with commas gives back the line with its quote characters deleted. |
| CsvParser.FieldsWithoutQuotes | src/utils/csvParser.ts:34-48 | On a line without quotes, the splitter is a plain split on commas and ends outside quotes. |
| CsvParser.UnquotedLineRoundTrip | src/utils/csvParser.ts:34-48 | A line without quotes is rebuilt exactly by joining its fields with commas. |
| CsvParser.Clean | src/utils/csvParser.ts:5 | A cleaned header or cell holds no quote character and neither starts nor ends with whitespace. |
| CsvParser.CleanKeepsCleanText | src/utils/csvParser.ts:5 | Text with no quote and no whitespace at either end is returned unchanged, so cleaning removes only quotes and edge whitespace from such text. |
| CsvParser.CleanIdempotent | src/utils/csvParser.ts:5 | Cleaning a cleaned header or cell changes nothing. |
| CsvParser.Headers | src/utils/csvParser.ts:5 | The header line gives one header per comma-separated piece; quotes are not honoured there. |
| CsvParser.RowOfShape | src/utils/csvParser.ts:16-19 | A built record has exactly the header keys, and none of its cells holds a quote. |
| CsvParser.RowOfLastWins | src/utils/csvParser.ts:17-19 | A header that does not occur again later gets its own column's cleaned cell; a repeated header keeps its last column. |
| CsvParser.BuildRow | src/utils/csvParser.ts:16-19 | The loop assigns every header its cleaned cell, in header order. |
| CsvParser.ReadLine | src/utils/csvParser.ts:10-23 | One pass of the loop: a skipped or short line, or a record without a site, contributes nothing; otherwise the line contributes its record. |
| CsvParser.ParseCsv | src/utils/csvParser.ts:3-27 | The loop over the data lines returns the records of the lines after the header, in line order. |
| CsvParser.RowsOfAppend | src/utils/csvParser.ts:9-24 | The parser is a filter over lines: the records of two blocks of lines are the records of each block, concatenated. |
| CsvParser.LineRowsDropped | src/utils/csvParser.ts:11-23 | A blank or `#` line, or a line with fewer fields than headers, contributes nothing; no line contributes more than one record. |
| CsvParser.RowsOfShape | src/utils/csvParser.ts:16-23 | Every kept record has its three site cells set and has exactly the header keys, none holding a quote; there are at most as many records as lines. |
| CsvParser.ParsedKeysHaveNoLineBreak | src/utils/csvParser.ts:4-5 | No column name of a parsed record contains a line feed, because the text is split on line feeds before the header is read. |
| CsvParser.ToRow | src/utils/csvParser.ts:21-22 | The cast keeps the three site cells set when the parser's check passed. |
| CsvParser.ParsedRowsLackOutcomeColumns | src/utils/csvParser.ts:4-22 | The six outcome columns read by the savings estimator, whose names contain a line feed, are never present in a parsed record. |
| CalculatorApp.SavingsFromRecord | src/utils/calculations.ts:7-17 | As written, on a parsed record: the savings computation succeeds exactly when all six outcome columns are present, and then reads the kWh bounds from those cells and prices them; otherwise `parseNumber` throws on `undefined`. |
| CalculatorApp.ParsedRecordsNeverPriced | src/utils/calculations.ts:12-17 | For every CSV text, every record the parser produces makes the savings computation throw. |
| CsvParser.ColumnValues | src/utils/csvParser.ts:66-72 | A value occurs in the mapped column exactly when some record takes it on that dimension. |
| CsvParser.InsertSpec | src/utils/csvParser.ts:66 | Adding a value keeps the list strictly ascending and adds exactly that value. |
| CsvParser.UniqueSortedSpec | src/utils/csvParser.ts:66 | The sorted set is strictly ascending, holds exactly the input's values, and is no longer than the input. |
| CsvParser.GetFilteredOptionsSpec | src/utils/csvParser.ts:65-83 | Specifies `GetFilteredOptions`: per dimension, the list holds a value exactly when some record takes it there, is strictly ascending, and is empty for no data. |
| CsvParser.Matching | src/utils/csvParser.ts:94-113 | Reference filter: a record is kept exactly when it is in the data and agrees with every constraint; the result is no longer than the data. |
| CsvParser.Active | src/utils/csvParser.ts:96-113 | An argument imposes its own value as a constraint on its dimension when it is non-empty, and nothing otherwise. |
| CsvParser.Constraints | src/utils/csvParser.ts:85-113 | The six arguments never constrain the inlet dimension or impose an empty value. |
| CsvParser.FilterByMatching | src/utils/csvParser.ts:96-113 | Specifies `FilterBy`: filtering the matching records by one more value is matching with that value added to the constraints. |
| CsvParser.MatchingNothing | src/utils/csvParser.ts:94 | With no constraint every record is kept, in order. |
| CsvParser.NarrowMatching | src/utils/csvParser.ts:96-113 | Specifies `Narrow`: one conditional filter step adds exactly the argument's constraint. |
| CsvParser.CascadeMatching | src/utils/csvParser.ts:94-113 | The six conditional filter steps keep exactly the records matching all non-empty arguments. |
| CsvParser.GetFilteredOptionsForConfig | src/utils/csvParser.ts:85-116 | The options are those of exactly the records agreeing with every non-empty argument. |
| CsvParser.FilterOrderIrrelevant | src/utils/csvParser.ts:96-113 | Two filter steps commute. |
| CsvParser.UnconstrainedOptions | src/utils/csvParser.ts:94-115 | With every argument absent or empty, the result is the global option lists. |
| CsvParser.MoreConstraintsShrink | src/utils/csvParser.ts:94-115 | Adding constraints never offers a value that fewer constraints did not. |
| CsvParser.FilteredWithinGlobal | src/utils/csvParser.ts:85-116 | Every filtered list is within the corresponding global list. |
| CsvParser.FixedDimensionOptions | src/utils/csvParser.ts:96-115 | A constrained dimension offers its own value alone, or nothing when no record matches. |
| CsvParser.FindMatchingRow | src/utils/csvParser.ts:118-137 | Not found exactly when no record has the seven values; a found record is in the data and has them. |
| CsvParser.KeyConstraints | src/utils/csvParser.ts:129-135 | A record satisfies the seven equality constraints exactly when its seven values are the key. |
| CsvParser.FindMatchingIsFirst | src/utils/csvParser.ts:128-136 | The lookup returns the first record, in data order, of the filter on all seven values. |
| Calculations.ParseFloatNeedsDigit | src/utils/calculations.ts:9 | Specifies `ParseFloat` on bad input: text without a digit is not a number. |
| Calculations.ParseFloatNatText | src/utils/calculations.ts:9 | Specifies `ParseFloat` on numerals: the decimal text of a natural number reads back as that number. |
| Calculations.ParseNumberNoDigits | src/utils/calculations.ts:7-10 | Specifies the `\|\| 0` fallback of `ParseNumber`: text without a digit degrades to 0. |
| Calculations.ParseNumberRoundTrip | src/utils/calculations.ts:7-10 | Specifies `ParseNumber` on numerals: a whole number written with any `,` and `$` characters reads as that number. |
| Calculations.RemoveCharsIdempotent | src/utils/calculations.ts:8 | Deleting the characters a second time changes nothing. |
| Calculations.ParseNumberCleaned | src/utils/calculations.ts:7-10 | Reading already-cleaned text gives the same number. |
| Calculations.DeleteSeparator | src/utils/calculations.ts:8 | Deleting `,` and `$` from digits with one comma inside gives the digits without the comma. |
| Calculations.ParseNumberSeparated | src/utils/calculations.ts:7-10 | A number's decimal digits with a comma inserted anywhere read as that number. |
| Calculations.ParseGroupedThousands | src/utils/calculations.ts:7-10 | Text of the form `d,h00` reads as 1000d + 100h. |
| Calculations.CalculateSavingsFromCsv | src/utils/calculations.ts:3-37 | The kWh, Btu and percentage bounds are the parsed cells; each cost bound is its own kWh bound times the price, with no crossing of lower and upper. |
| Calculations.PricedSavings | src/utils/calculations.ts:32-35 | Each cost bound is its own kWh bound times the price. |
| Calculations.PricedOrdered | src/utils/calculations.ts:32-35 | Pricing ordered kWh bounds at a non-negative price gives ordered cost bounds. |
| Calculations.CostSavingsOrdered | src/utils/calculations.ts:32-35 | Ordered kWh bounds and a non-negative price give ordered cost bounds. |
| Calculations.SavingsExample | src/utils/calculations.ts:3-37 | kWh text `1,000` and `2,000` at $0.145/kWh saves $145 to $290 a year. |
| Calculations.HeightMultiplier | src/utils/calculations.ts:65-77 | 0.8 exactly for the two short heights, 1.3 exactly for 9'-0'', and 1.0 for every other label. |
| Calculations.FoundationAddOn | src/utils/calculations.ts:82-84 | The add-on is one of 0, 400, 800 or 1200, and is 0 exactly when the label names none of R-10, R-20, R-5. |
| Calculations.InsulationCosts | src/utils/calculations.ts:79-89 | The cost is between 0 and 1800, and exceeds the foundation add-on by 600 exactly when the below-rockbed label contains R-5. |
| Calculations.FirstTierWins | src/utils/calculations.ts:82-84 | A label naming several tiers is priced by the first of R-10, R-20, R-5. |
| Calculations.EstimateConstructionCosts | src/utils/calculations.ts:39-63 | Materials are 5000 times the multiplier plus insulation, and labour is 3000 times the multiplier. The total is their sum and is 1000 times the per-square-foot cost. The total lies between 6400 and 12200. |
| Calculations.CostExample | src/utils/calculations.ts:39-63 | 7'-6'' height with R-5 foundation and R-5 below costs 6000 + 3000 = 9000, or 9 per square foot. |
| Calculations.RoundTenth | src/utils/calculations.ts:100-101 | The result is a whole number of tenths within 0.05 of the input, with halves rounded up. |
| Calculations.RoundTenthUnique | src/utils/calculations.ts:100-101 | Exactly one tenth lies in the rounding window, so rounding is determined by that window. |
| Calculations.RoundTenthMonotone | src/utils/calculations.ts:100-101 | Rounding keeps order. |
| Calculations.RoundTenthExact | src/utils/calculations.ts:100-101 | A value already on a tenth is unchanged. |
| Calculations.PaybackSide | src/utils/calculations.ts:96-97 | `Infinity` exactly when the saving is at most 0; otherwise within 0.05 of cost over saving. |
| Calculations.CalculatePaybackPeriod | src/utils/calculations.ts:91-103 | The lower period comes from the upper saving and the upper period from the lower saving; each is infinite exactly when its saving is at most 0. |
| Calculations.PaybackExample | src/utils/calculations.ts:91-103 | Cost 8000 against savings of 1000 to 2000 a year pays back in 4 to 8 years. |
| Calculations.PaybackCoversCost | src/utils/calculations.ts:96-101 | A finite period times the saving is within 0.05 years of savings of the cost. |
| Calculations.PaybackOrdered | src/utils/calculations.ts:91-103 | With positive ordered savings and a non-negative cost, both periods are finite and the lower does not exceed the upper. |
| SavingsPayback.AdjustedSavings | src/components/SavingsPayback/SavingsPayback.tsx:47-50 | Each adjusted bound is its own kWh bound times the slider price. |
| SavingsPayback.PaybackPeriod | src/components/SavingsPayback/SavingsPayback.tsx:52-56 | The panel's payback is the payback calculator applied to the total cost and the adjusted savings. |
| SavingsPayback.TenYearSavings | src/components/SavingsPayback/SavingsPayback.tsx:58-61 | The ten-year net plus the total cost is ten years of adjusted savings, per bound. |
| SavingsPayback.Timeline | src/components/SavingsPayback/SavingsPayback.tsx:149-153 | Eleven years; year 0 is minus the total cost; year n is n years of cost savings less the total cost. |
| SavingsPayback.TimelineMonotone | src/components/SavingsPayback/SavingsPayback.tsx:149-153 | With a non-negative annual saving, the net position never falls from one year to a later one. |
| SavingsPayback.AdjustedAtConfiguredPrice | src/components/SavingsPayback/SavingsPayback.tsx:47-50 | At the configured price the re-priced savings equal the record's cost savings. |
| SavingsPayback.SensitivityIdentity | src/components/SavingsPayback/SavingsPayback.tsx:52-61 | At the configured price the panel's payback is that of the cost savings, and the ten-year net equals the timeline's year 10. |
| SavingsPayback.ShowPayback | src/components/SavingsPayback/SavingsPayback.tsx:92 | As written: "N/A" exactly when the lower period is infinite; otherwise both periods are printed as they are. |
| SavingsPayback.ShowPaybackPrintsInfinity | src/components/SavingsPayback/SavingsPayback.tsx:92 | As written: cost 8000 with savings 0 to 1000 prints "8 - Infinity years". |
| SavingsPayback.ShowPaybackMissesInfiniteUpper | src/components/SavingsPayback/SavingsPayback.tsx:137-139 | As written: whenever the lower saving is at most 0 and the upper is positive, a finite lower and an infinite upper period are printed. |
| SavingsPayback.PaybackTextOf | src/components/SavingsPayback/SavingsPayback.tsx:92 | Corrected: "N/A" exactly when either period is infinite; otherwise the two finite periods. |
| SavingsPayback.PaybackTextNotApplicable | src/components/SavingsPayback/SavingsPayback.tsx:137-139 | Corrected: the payback reads "N/A" exactly when either saving bound is at most 0. |
| SavingsPayback.SavingsPanel | src/components/SavingsPayback/SavingsPayback.tsx:38-168 | Nothing is shown while loading or without savings. Otherwise, as written: the payback text is the panel's own rule applied to the payback at the slider price, and reads "N/A" exactly when the adjusted upper saving is at most 0. The ten-year net is that at the slider price. The adjusted block (`ShowsAdjusted`) is shown exactly when the slider price differs from the configured one, and holds the adjusted savings and the same payback text. The timeline is the 11 printed values, starting at minus the total cost. |
| SavingsPayback.SavingsPanelPaybackAgainstIntended | src/components/SavingsPayback/SavingsPayback.tsx:92 | The panel's "N/A" decision differs from the intended one exactly when the adjusted lower saving is at most 0 and the upper is positive; where the intended text has two numbers, the panel prints the same two. |
| SavingsPayback.TimelineValues | src/components/SavingsPayback/SavingsPayback.tsx:167-169 | Eleven printed values: year 0 is minus the total cost and each year is the upper cumulative position. |
| CalculatorApp.Resolution | src/App.tsx:109-155 | Nothing changes without data or with an unset value. Otherwise there are no savings exactly when no record has the seven values, and then the cost is all zero. With a match, the savings are the matching record's at the configured price and the cost is the construction estimate. |
| CalculatorApp.EstimateIffCost | src/App.tsx:129-153 | After a resolution, savings are present exactly when the total cost is positive. |
| CalculatorApp.ResolutionUsesFirstMatch | src/App.tsx:118-130 | When several records share the configuration, the first in data order supplies the savings. |
| CalculatorApp.ExampleResolves | src/App.tsx:109-141 | The Central MN / Unknown / 7'-6'' / R-5 / Soil / R-5 / "-" record with kWh 1,000 to 1,500 resolves at $0.145/kWh to cost savings of $145 to $217.50 a year. |
| CalculatorApp.ExampleSavings | src/App.tsx:130 | The example record's kWh cells at $0.145/kWh give $145 to $217.50. |
| CalculatorApp.ExampleOtherValueMisses | src/App.tsx:142-153 | Any complete configuration other than the example record's seven values yields no savings and the all-zero cost. |
| CalculatorApp.Arg | src/App.tsx:162-167 | `value \|\| undefined`: absent exactly when empty, otherwise the value. |
| CalculatorApp.CurrentOptions | src/App.tsx:157-158 | Before data arrives, the options are the stored global ones. |
| CalculatorApp.ChosenConstraints | src/App.tsx:160-168 | The constraints are exactly the chosen non-empty values of the six filterable dimensions. |
| CalculatorApp.CurrentOptionsMatching | src/App.tsx:157-169 | With data, the options are those of exactly the records agreeing with every chosen filterable value. |
| CalculatorApp.CurrentOptionsIgnoreInletAndPrice | src/App.tsx:160-168 | The inlet choice and the price never change the options offered. |
| CalculatorApp.FindIsFirst | src/App.tsx:76-85 | Specifies `Find`: `find` gives nothing exactly when no option is accepted, and otherwise the first accepted one. |
| CalculatorApp.PickDefaultSpec | src/App.tsx:76-85 | Specifies `PickDefault`, `find(...) \|\| options[0]`: the default is the first accepted option when that is non-empty, else the first option. With no accepted option it is the first option, or empty for an empty list. So it is always empty or listed, and set whenever the first option is set. |
| CalculatorApp.DefaultChosen | src/App.tsx:75-87 | Specifies `DefaultProjectConfig` and `DefaultInsulationConfig`: each dimension's default is picked from that dimension's list with that dimension's callback: central/minnesota, unknown, 7'-6, R-5, soil, R-5, and exactly `-`. |
| CalculatorApp.FirstOptionSet | src/App.tsx:72-76 | For non-empty data whose records have all seven values, every option list is non-empty and starts with a set value. |
| CalculatorApp.DefaultsSet | src/App.tsx:75-87 | Option lists whose first entries are set yield defaults with all seven values set. |
| CalculatorApp.DefaultsAllSet | src/App.tsx:72-87 | Defaults picked from non-empty, complete data set all seven values, so the first resolution runs. |
| CalculatorApp.DefaultsListed | src/App.tsx:75-87 | Each default is empty or one of the listed options for its dimension. |
| CalculatorApp.DefaultsFromData | src/App.tsx:72-87 | Each default is empty or a value some record takes on that dimension. |
| CalculatorApp.Calculator.constructor | src/App.tsx:40-63 | The initial state: no data, empty option lists, nothing chosen, price 0.145, zero cost, no savings, loading, no error. |
| CalculatorApp.Calculator.CompleteLoad | src/App.tsx:65-95 | The data and its global options are stored, the defaults are picked from those options, loading ends and the error is cleared; the estimates are untouched. |
| CalculatorApp.Calculator.FailLoad | src/App.tsx:96-103 | Loading ends with the fixed error message; nothing else changes. |
| CalculatorApp.Calculator.SetProjectConfig | src/App.tsx:171-173 | The site selection is replaced; nothing else changes. |
| CalculatorApp.Calculator.SetInsulationConfig | src/App.tsx:175-177 | The insulation selection and price are replaced; nothing else changes. |
| CalculatorApp.Calculator.Resolve | src/App.tsx:109-155 | The estimates become those of `Resolution`, or stay as they were when it changes nothing; nothing else changes. |
| CalculatorApp.LoadAndResolve | src/App.tsx:65-155 | Loading complete data and resolving always resolves: savings are present exactly when a record has the default seven values, and otherwise the cost is all zero. |

## Left out

- Fetching the table (`loadCSVData`, src/utils/csvParser.ts:51-63): the network is not modelled. The loaded records are a parameter of `Calculator.CompleteLoad`, and a fetch failure is the call `Calculator.FailLoad`.
- The asynchronous load and React's scheduling of state updates and effects. Each handler is one method, and the resolution effect is the explicit `Calculator.Resolve`. The brief `isLoading: true` at the start of the load is not observable in the model.
- Rendering: JSX, currency, number and percent formatting, the timeline bar heights and colours, and the slider's `parseFloat` of its own value. The slider price is a parameter of the panel functions, and its initialisation from the configured price is not modelled.
- Floating point: every number is an exact rational. IEEE-754 rounding of products and quotients is not modelled, so `RoundTenth` rounds the exact quotient.
- `parseFloat` beyond leading whitespace, a sign, digits and one decimal point. An exponent is not read, so `1e3` reads as 1 rather than 1000. The text `Infinity` reads as 0 rather than `Infinity`.
- `toLowerCase` is modelled for the letters A to Z only.
- String order compares characters one by one. JavaScript's default `sort` compares UTF-16 code units. The two differ only for characters outside the Basic Multilingual Plane.
- CsvParser.ToRow: a column absent from a parsed record reads as "", where the source's cast leaves `undefined`. For the three site columns both are falsy. For the outcome columns, which `CsvParser.ParsedRowsLackOutcomeColumns` shows are never present, JavaScript throws on `undefined.replace` inside `parseNumber`, where `ToRow` reads 0. So for every text, a parsed record makes `calculateSavingsFromCSV` throw, and every resolution that finds a match fails (see Findings). The calculator is therefore modelled on `Row` records whose outcome cells are present, the evidently intended behaviour.
- The records produced by `CsvParser.ParseCsv` are maps, while the calculator works on `Row` records. `CsvParser.ToRow` is the link, and the loaded data is a parameter rather than the parser's output.
- Other components (the configuration forms and cost panel) only display values or call the two handlers, and are not part of this model.

## Findings

| source | as written | input that shows it | evidently intended | confidence | as-written member | corrected member |
|---|---|---|---|---|---|---|
| src/components/SavingsPayback/SavingsPayback.tsx:92 and 137-139 | The payback reads "N/A" only when `paybackPeriod.lower` is `Infinity`; the lower period comes from the upper saving, so a non-positive lower saving with a positive upper saving prints "8 - Infinity years" | total cost 8000, adjusted savings 0 (lower) and 1000 (upper) a year | "N/A" whenever either period is infinite, that is, whenever either saving bound is at most 0 | not executed | SavingsPayback.ShowPayback, SavingsPayback.ShowPaybackMissesInfiniteUpper, SavingsPayback.SavingsPanel | SavingsPayback.PaybackTextOf, SavingsPayback.PaybackTextNotApplicable, SavingsPayback.SavingsPanelPaybackAgainstIntended |
| src/utils/csvParser.ts:4-5 with src/utils/calculations.ts:8 and 12-17 | The text is split on line feeds before the header line is read, so no column name contains a line feed; the six outcome columns `calculateSavingsFromCSV` reads all contain one. Each lookup gives `undefined`, and `parseNumber` calls `replace` on it and throws, on every resolution that finds a match, at src/App.tsx:130 | any CSV text: no parsed record has the column `Predicted annual energy savings (kWh/yr)` + line feed + `(lower)` | the outcome cells are read from the record, so a record with kWh 1,000 to 1,500 at $0.145/kWh saves $145 to $217.50 a year | not executed | CalculatorApp.SavingsFromRecord, CalculatorApp.ParsedRecordsNeverPriced, CsvParser.ParsedRowsLackOutcomeColumns | Calculations.CalculateSavingsFromCsv, CalculatorApp.ExampleSavings |
