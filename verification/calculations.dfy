/**
 * The estimators: savings derived from a matched record, the lookup-table
 * construction-cost model and the payback calculator. Numbers are exact
 * rationals (`real`); the infinite payback of a non-positive saving is an
 * explicit case of `Extended`.
 */
module Calculations {
  import opened Wrappers
  import opened Text
  import opened CalculatorTypes

  // ---------------------------------------------------------------------
  // Number parsing
  // ---------------------------------------------------------------------

  predicate IsDigit(c: char) {
    '0' <= c <= '9'
  }

  predicate AllDigits(s: string) {
    forall k :: 0 <= k < |s| ==> IsDigit(s[k])
  }

  function DigitValue(c: char): nat
    requires IsDigit(c)
  {
    c as int - '0' as int
  }

  function DigitChar(d: nat): (c: char)
    requires d < 10
    ensures IsDigit(c) && DigitValue(c) == d
  {
    ('0' as int + d) as char
  }

  /** The length of the longest prefix of `s` made of digits. */
  function DigitRun(s: string): (n: nat)
    ensures n <= |s| && AllDigits(s[..n])
    ensures n < |s| ==> !IsDigit(s[n])
  {
    if s == [] || !IsDigit(s[0]) then 0 else 1 + DigitRun(s[1..])
  }

  function Pow10(n: nat): (p: nat)
    ensures p >= 1
  {
    if n == 0 then 1 else 10 * Pow10(n - 1)
  }

  /** The value of a run of decimal digits, most significant first. */
  function DigitsValue(ds: string): (v: nat)
    requires AllDigits(ds)
    ensures v < Pow10(|ds|)
  {
    if ds == [] then 0
    else
      assert AllDigits(ds[..|ds| - 1]);
      DigitsValue(ds[..|ds| - 1]) * 10 + DigitValue(ds[|ds| - 1])
  }

  /** The decimal text of `n`, without leading zeros. */
  function NatText(n: nat): (s: string)
    ensures |s| >= 1 && AllDigits(s)
    ensures DigitsValue(s) == n
  {
    if n < 10 then [DigitChar(n)]
    else
      var init := NatText(n / 10);
      var s := init + [DigitChar(n % 10)];
      assert s[..|s| - 1] == init;
      s
  }

  /**
   * `parseFloat(s)`: leading whitespace skipped, then an optional sign and the
   * longest prefix of the form digits [`.` digits] with at least one digit;
   * `None` is NaN (no such prefix). Exponents and `Infinity` are not read.
   */
  function ParseFloat(s: string): Option<real> {
    if s != [] && IsWhitespace(s[0]) then ParseFloat(s[1..]) else ParseSigned(s)
  }

  /** An optional sign, then an unsigned decimal. */
  function ParseSigned(t: string): Option<real> {
    if t != [] && (t[0] == '-' || t[0] == '+') then
      match ParseUnsigned(t[1..])
      case Some(x) => Some(if t[0] == '-' then -x else x)
      case None => None
    else ParseUnsigned(t)
  }

  /** The longest prefix digits [`.` digits], with at least one digit. */
  function ParseUnsigned(u: string): Option<real> {
    var i := DigitRun(u);
    var frac := if i < |u| && u[i] == '.' then u[i + 1..][..DigitRun(u[i + 1..])] else "";
    if i == 0 && frac == [] then None
    else Some(DigitsValue(u[..i]) as real + DigitsValue(frac) as real / Pow10(|frac|) as real)
  }

  /** An unsigned decimal needs a digit. */
  lemma ParseUnsignedNeedsDigit(u: string)
    requires forall c :: c in u ==> !IsDigit(c)
    ensures ParseUnsigned(u) == None
  {
    if |u| > 0 {
      assert u[0] in u;
    }
    var i := DigitRun(u);
    if i + 1 < |u| {
      assert u[i + 1] in u;
    }
  }

  /** Text without a single digit is not a number. */
  lemma {:induction false} ParseFloatNeedsDigit(s: string)
    requires forall c :: c in s ==> !IsDigit(c)
    ensures ParseFloat(s) == None
  {
    if s != [] && IsWhitespace(s[0]) {
      ParseFloatNeedsDigit(s[1..]);
    } else if s != [] && (s[0] == '-' || s[0] == '+') {
      ParseUnsignedNeedsDigit(s[1..]);
    } else {
      ParseUnsignedNeedsDigit(s);
    }
  }

  /** The decimal text of a natural number reads back as that number. */
  lemma ParseFloatNatText(n: nat)
    ensures ParseFloat(NatText(n)) == Some(n as real)
  {
    var s := NatText(n);
    assert IsDigit(s[0]);
    assert s[..DigitRun(s)] == s;
  }

  /** `parseNumber`: every `,` and `$` deleted, then `parseFloat(...) || 0`. */
  function ParseNumber(value: string): real {
    match ParseFloat(RemoveChars(value, {',', '$'}))
    case Some(x) => x
    case None => 0.0
  }

  /** Text that holds no digit at all degrades to 0. */
  lemma ParseNumberNoDigits(value: string)
    requires forall c :: c in value ==> !IsDigit(c)
    ensures ParseNumber(value) == 0.0
  {
    ParseFloatNeedsDigit(RemoveChars(value, {',', '$'}));
  }

  /** Thousands separators and dollar signs anywhere in a whole number are ignored. */
  lemma ParseNumberRoundTrip(value: string, n: nat)
    requires RemoveChars(value, {',', '$'}) == NatText(n)
    ensures ParseNumber(value) == n as real
  {
    ParseFloatNatText(n);
  }

  /** Deleting the characters twice deletes nothing more. */
  lemma {:induction false} RemoveCharsIdempotent(s: string, cs: set<char>)
    ensures RemoveChars(RemoveChars(s, cs), cs) == RemoveChars(s, cs)
  {
    if s != [] {
      var init := s[..|s| - 1];
      var c := s[|s| - 1];
      RemoveCharsIdempotent(init, cs);
      var r := RemoveChars(init, cs);
      if c !in cs {
        assert (r + [c])[..|r + [c]| - 1] == r;
      }
    }
  }

  /** Parsing text that has already been cleaned gives the same number. */
  lemma ParseNumberCleaned(value: string)
    ensures ParseNumber(RemoveChars(value, {',', '$'})) == ParseNumber(value)
  {
    RemoveCharsIdempotent(value, {',', '$'});
  }

  // ---------------------------------------------------------------------
  // Savings estimator
  // ---------------------------------------------------------------------

  /** Each energy bound priced on its own: no crossing of lower and upper. */
  function PricedSavings(kwh: Range, electricityPrice: real): (r: Range)
    ensures r.lower == kwh.lower * electricityPrice
    ensures r.upper == kwh.upper * electricityPrice
  {
    Range(kwh.lower * electricityPrice, kwh.upper * electricityPrice)
  }

  /**
   * `calculateSavingsFromCSV`: the kWh, Btu and percentage bounds as parsed;
   * each cost bound is its own kWh bound times the price.
   */
  function CalculateSavingsFromCsv(row: Row, electricityPrice: real): (r: SavingsData)
    ensures r.annualEnergySavingsKwh == Range(ParseNumber(row.kwhLower), ParseNumber(row.kwhUpper))
    ensures r.annualEnergySavingsBtu == Range(ParseNumber(row.btuLower), ParseNumber(row.btuUpper))
    ensures r.savingsPercentage == Range(ParseNumber(row.percentLower), ParseNumber(row.percentUpper))
    ensures r.annualCostSavings == PricedSavings(r.annualEnergySavingsKwh, electricityPrice)
  {
    var kwh := Range(ParseNumber(row.kwhLower), ParseNumber(row.kwhUpper));
    SavingsData(
      kwh,
      Range(ParseNumber(row.btuLower), ParseNumber(row.btuUpper)),
      Range(ParseNumber(row.percentLower), ParseNumber(row.percentUpper)),
      PricedSavings(kwh, electricityPrice))
  }

  /** Ordered kWh bounds and a non-negative price give ordered cost bounds. */
  lemma CostSavingsOrdered(row: Row, price: real)
    requires ParseNumber(row.kwhLower) <= ParseNumber(row.kwhUpper) && price >= 0.0
    ensures CalculateSavingsFromCsv(row, price).annualCostSavings.lower
            <= CalculateSavingsFromCsv(row, price).annualCostSavings.upper
  {
    PricedOrdered(CalculateSavingsFromCsv(row, price).annualEnergySavingsKwh, price);
  }

  /** Pricing keeps the order of the bounds at a non-negative price. */
  lemma PricedOrdered(kwh: Range, price: real)
    requires kwh.lower <= kwh.upper && price >= 0.0
    ensures PricedSavings(kwh, price).lower <= PricedSavings(kwh, price).upper
  {
    assert kwh.upper * price - kwh.lower * price == (kwh.upper - kwh.lower) * price;
  }

  /** A comma between the digits of a whole number is ignored. */
  lemma ParseNumberSeparated(head: string, tail: string, n: nat)
    requires head + tail == NatText(n)
    ensures ParseNumber(head + [','] + tail) == n as real
  {
    DeleteSeparator(head, tail);
    ParseNumberRoundTrip(head + [','] + tail, n);
  }

  /** Cleaning digits with one comma between them leaves just the digits. */
  lemma DeleteSeparator(head: string, tail: string)
    requires AllDigits(head + tail)
    ensures RemoveChars(head + [','] + tail, {',', '$'}) == head + tail
  {
    var cs := {',', '$'};
    assert forall k :: 0 <= k < |head| ==> head[k] == (head + tail)[k];
    assert forall k :: 0 <= k < |tail| ==> tail[k] == (head + tail)[|head| + k];
    RemoveCharsNone(head, cs);
    RemoveCharsNone(tail, cs);
    RemoveCharsSnoc(head, ',', cs);
    RemoveCharsAppend(head + [','], tail, cs);
  }

  /** A grouped whole number of thousands and hundreds, `"d,h00"`, reads as 1000d + 100h. */
  lemma ParseGroupedThousands(d: nat, h: nat)
    requires 1 <= d <= 9 && h <= 9
    ensures ParseNumber([DigitChar(d), ',', DigitChar(h), '0', '0']) == (1000 * d + 100 * h) as real
  {
    var x, y := DigitChar(d), DigitChar(h);
    ThousandsText(d, h);
    assert [x] + [y, '0', '0'] == [x, y, '0', '0'];
    ParseNumberSeparated([x], [y, '0', '0'], 1000 * d + 100 * h);
    assert [x] + [','] + [y, '0', '0'] == [x, ',', y, '0', '0'];
  }

  /** The decimal text of 1000d + 100h is its two leading digits followed by two zeros. */
  lemma ThousandsText(d: nat, h: nat)
    requires 1 <= d <= 9 && h <= 9
    ensures NatText(1000 * d + 100 * h) == [DigitChar(d), DigitChar(h), '0', '0']
  {
    var a, b := DigitChar(d), DigitChar(h);
    var n1 := 10 * d + h;
    AppendDigit(d, h);
    AppendZero(n1, [a, b]);
    AppendZero(10 * n1, [a, b, '0']);
    assert 10 * (10 * n1) == 1000 * d + 100 * h;
  }

  /** Appending a digit to a positive number appends its character to the text. */
  lemma AppendDigit(m: nat, digit: nat)
    requires m >= 1 && digit <= 9
    ensures NatText(10 * m + digit) == NatText(m) + [DigitChar(digit)]
  {
    var n := 10 * m + digit;
    assert n / 10 == m && n % 10 == digit;
  }

  /** Multiplying a positive number by ten appends a `0` to its text. */
  lemma AppendZero(m: nat, t: string)
    requires m >= 1 && NatText(m) == t
    ensures NatText(10 * m) == t + ['0']
  {
    AppendDigit(m, 0);
    assert 10 * m + 0 == 10 * m;
  }

  /** kWh text 1,000 and 2,000 at $0.145/kWh save $145 to $290 a year. */
  lemma SavingsExample(row: Row)
    requires row.kwhLower == "1,000" && row.kwhUpper == "2,000"
    ensures CalculateSavingsFromCsv(row, 0.145).annualCostSavings == Range(145.0, 290.0)
  {
    ParseGroupedThousands(1, 0);
    ParseGroupedThousands(2, 0);
  }

  // ---------------------------------------------------------------------
  // Construction-cost estimator
  // ---------------------------------------------------------------------

  /** `getHeightMultiplier`: the two short heights 0.8, the tall height 1.3, anything else 1.0. */
  function HeightMultiplier(height: string): (m: real)
    ensures m == 0.8 <==> height == "3'-9''" || height == "6'-0''"
    ensures m == 1.3 <==> height == "9'-0''"
    ensures m == 1.0 <==> height != "3'-9''" && height != "6'-0''" && height != "9'-0''"
  {
    if height == "3'-9''" || height == "6'-0''" then 0.8
    else if height == "7'-6''" then 1.0
    else if height == "9'-0''" then 1.3
    else 1.0
  }

  /** The foundation add-on: the first of R-10, R-20, R-5 the label contains decides it. */
  function FoundationAddOn(foundation: string): (cost: real)
    ensures cost in {0.0, 400.0, 800.0, 1200.0}
    ensures cost == 0.0 <==> !Contains(foundation, "R-10") && !Contains(foundation, "R-20") && !Contains(foundation, "R-5")
  {
    if Contains(foundation, "R-10") then 800.0
    else if Contains(foundation, "R-20") then 1200.0
    else if Contains(foundation, "R-5") then 400.0
    else 0.0
  }

  /** `getInsulationCosts`: the foundation add-on, plus 600 when the below-rockbed label contains R-5. */
  function InsulationCosts(foundation: string, belowRockbed: string): (cost: real)
    ensures 0.0 <= cost <= 1800.0
    ensures cost - FoundationAddOn(foundation) == if Contains(belowRockbed, "R-5") then 600.0 else 0.0
  {
    var cost := FoundationAddOn(foundation);
    if Contains(belowRockbed, "R-5") then cost + 600.0 else cost
  }

  /** A label naming several tiers is priced by the first in priority order. */
  lemma FirstTierWins(foundation: string)
    ensures Contains(foundation, "R-10") ==> FoundationAddOn(foundation) == 800.0
    ensures !Contains(foundation, "R-10") && Contains(foundation, "R-20") ==> FoundationAddOn(foundation) == 1200.0
    ensures !Contains(foundation, "R-10") && !Contains(foundation, "R-20") && Contains(foundation, "R-5") ==>
            FoundationAddOn(foundation) == 400.0
  {
  }

  /** `estimateConstructionCosts` for a 1000 sq ft greenhouse. */
  function EstimateConstructionCosts(rockbedHeight: string, foundationInsulation: string,
                                     insulationBelowRockbed: string): (r: CostBreakdown)
    ensures r.materialsCode == 5000.0 * HeightMultiplier(rockbedHeight)
                               + InsulationCosts(foundationInsulation, insulationBelowRockbed)
    ensures r.laborCost == 3000.0 * HeightMultiplier(rockbedHeight)
    ensures r.totalCost == r.materialsCode + r.laborCost
    ensures r.costPerSqFt * 1000.0 == r.totalCost
    ensures 6400.0 <= r.totalCost <= 12200.0
  {
    var m := HeightMultiplier(rockbedHeight);
    var materials := 5000.0 * m + InsulationCosts(foundationInsulation, insulationBelowRockbed);
    var labor := 3000.0 * m;
    var total := materials + labor;
    CostBreakdown(materials, labor, total, total / 1000.0)
  }

  /** The default configuration's labels: 7'-6'' height, R-5 foundation and R-5 below. */
  lemma CostExample()
    ensures EstimateConstructionCosts("7'-6''", "R-5", "R-5") == CostBreakdown(6000.0, 3000.0, 9000.0, 9.0)
  {
    assert Contains("R-5", "R-5");
    assert !Contains("R-5", "R-10") && !Contains("R-5", "R-20");
  }

  // ---------------------------------------------------------------------
  // Payback calculator
  // ---------------------------------------------------------------------

  /** A payback period in years, or JavaScript's `Infinity`. */
  datatype Extended = Finite(value: real) | Infinity

  datatype Payback = Payback(lower: Extended, upper: Extended)

  /** `Math.round(x * 10) / 10`: the nearest tenth, halves rounded up. */
  function RoundTenth(x: real): (r: real)
    ensures x - 0.05 < r <= x + 0.05
    ensures (r * 10.0).Floor as real == r * 10.0
  {
    (x * 10.0 + 0.5).Floor as real / 10.0
  }

  /** There is exactly one tenth in the rounding window. */
  lemma RoundTenthUnique(x: real, t: real)
    requires x - 0.05 < t <= x + 0.05
    requires (t * 10.0).Floor as real == t * 10.0
    ensures t == RoundTenth(x)
  {
    var r := RoundTenth(x);
    var a, b := (t * 10.0).Floor, (r * 10.0).Floor;
    assert a as real - b as real < 1.0 && b as real - a as real < 1.0;
  }

  /** Rounding keeps order. */
  lemma RoundTenthMonotone(x: real, y: real)
    requires x <= y
    ensures RoundTenth(x) <= RoundTenth(y)
  {
    assert (x * 10.0 + 0.5).Floor <= (y * 10.0 + 0.5).Floor;
  }

  /** A value already on a tenth is left alone. */
  lemma RoundTenthExact(k: int)
    ensures RoundTenth(k as real / 10.0) == k as real / 10.0
  {
    RoundTenthUnique(k as real / 10.0, k as real / 10.0);
  }

  /** One side of the payback: cost over savings, rounded, or `Infinity` for savings of at most 0. */
  function PaybackSide(totalCost: real, annualSavings: real): (p: Extended)
    ensures p.Infinity? <==> annualSavings <= 0.0
    ensures p.Finite? ==> totalCost / annualSavings - 0.05 < p.value <= totalCost / annualSavings + 0.05
  {
    if annualSavings > 0.0 then Finite(RoundTenth(totalCost / annualSavings)) else Infinity
  }

  /** `calculatePaybackPeriod`: the lower period comes from the upper savings and the upper period from the lower. */
  function CalculatePaybackPeriod(totalCost: real, annualSavingsLower: real, annualSavingsUpper: real): (r: Payback)
    ensures r.lower == PaybackSide(totalCost, annualSavingsUpper)
    ensures r.upper == PaybackSide(totalCost, annualSavingsLower)
    ensures r.lower.Infinity? <==> annualSavingsUpper <= 0.0
    ensures r.upper.Infinity? <==> annualSavingsLower <= 0.0
  {
    var paybackLower := PaybackSide(totalCost, annualSavingsUpper);
    var paybackUpper := PaybackSide(totalCost, annualSavingsLower);
    Payback(paybackLower, paybackUpper)
  }

  /** Cost 8000 against savings of 1000 to 2000 a year pays back in 4 to 8 years. */
  lemma PaybackExample()
    ensures CalculatePaybackPeriod(8000.0, 1000.0, 2000.0) == Payback(Finite(4.0), Finite(8.0))
  {
    RoundTenthExact(40);
    RoundTenthExact(80);
  }

  /** A finite period is, to within the rounding, the number of years the savings take to cover the cost. */
  lemma PaybackCoversCost(totalCost: real, annualSavings: real)
    requires annualSavings > 0.0
    ensures PaybackSide(totalCost, annualSavings).Finite?
    ensures var years := PaybackSide(totalCost, annualSavings).value;
            totalCost - 0.05 * annualSavings < years * annualSavings <= totalCost + 0.05 * annualSavings
  {
    var q := totalCost / annualSavings;
    var years := PaybackSide(totalCost, annualSavings).value;
    var d := years - q;
    assert q * annualSavings == totalCost;
    assert years * annualSavings == q * annualSavings + d * annualSavings;
    ScaleWithin(d, annualSavings);
    assert d * annualSavings + 0.05 * annualSavings > 0.0;
    assert years * annualSavings == totalCost + d * annualSavings;
    assert totalCost - 0.05 * annualSavings < years * annualSavings;
    assert years * annualSavings <= totalCost + 0.05 * annualSavings;
  }

  lemma ScaleWithin(d: real, x: real)
    requires -0.05 < d <= 0.05 && x > 0.0
    ensures d * x + 0.05 * x > 0.0
    ensures d * x <= 0.05 * x
  {
  }

  /** With positive, ordered savings and a non-negative cost, the lower period does not exceed the upper. */
  lemma PaybackOrdered(totalCost: real, annualSavingsLower: real, annualSavingsUpper: real)
    requires 0.0 < annualSavingsLower <= annualSavingsUpper && totalCost >= 0.0
    ensures var r := CalculatePaybackPeriod(totalCost, annualSavingsLower, annualSavingsUpper);
            r.lower.Finite? && r.upper.Finite? && r.lower.value <= r.upper.value
  {
    var a := totalCost / annualSavingsUpper;
    var b := totalCost / annualSavingsLower;
    assert a * annualSavingsUpper == totalCost && b * annualSavingsLower == totalCost;
    assert a * annualSavingsLower <= totalCost;
    assert a <= b;
    RoundTenthMonotone(a, b);
  }
}
