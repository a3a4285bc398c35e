/**
 * Reading the simulation table and querying it: the quote-toggling line
 * splitter, the header-to-record builder, the per-dimension option lists,
 * the cascading filter and the exact seven-field lookup.
 */
module CsvParser {
  import opened Wrappers
  import opened Text
  import opened CalculatorTypes

  // ---------------------------------------------------------------------
  // Splitting one line into fields
  // ---------------------------------------------------------------------

  /** The splitter's variables: fields finished so far, the field being read, and whether a quote is open. */
  datatype LineState = LineState(result: seq<string>, current: string, inQuotes: bool)

  /** One character: `"` toggles quoting, an unquoted `,` ends a field, anything else is kept. */
  function Step(st: LineState, c: char): LineState {
    if c == '"' then st.(inQuotes := !st.inQuotes)
    else if c == ',' && !st.inQuotes then LineState(st.result + [st.current], "", st.inQuotes)
    else st.(current := st.current + [c])
  }

  /** The splitter's state after reading `s` from the start of a line. */
  function Scan(s: string): LineState {
    if s == [] then LineState([], "", false) else Step(Scan(s[..|s| - 1]), s[|s| - 1])
  }

  /** The fields of a line: the finished ones and the last one. */
  function Fields(line: string): seq<string> {
    var st := Scan(line);
    st.result + [st.current]
  }

  method ParseCsvLine(line: string) returns (result: seq<string>)
    ensures result == Fields(line)
  {
    result := [];
    var current := "";
    var inQuotes := false;
    for i := 0 to |line|
      invariant Scan(line[..i]) == LineState(result, current, inQuotes)
    {
      assert line[..i + 1][..i] == line[..i];
      var c := line[i];
      if c == '"' {
        inQuotes := !inQuotes;
      } else if c == ',' && !inQuotes {
        result := result + [current];
        current := "";
      } else {
        current := current + [c];
      }
    }
    assert line[..|line|] == line;
    result := result + [current];
  }

  /** How many `"` occur in `s`. */
  function QuoteCount(s: string): nat {
    if s == [] then 0 else QuoteCount(s[..|s| - 1]) + (if s[|s| - 1] == '"' then 1 else 0)
  }

  /** Commas of `s` preceded by an even number of quotes, that is, outside every quoted stretch. */
  function UnquotedCommas(s: string): nat {
    if s == [] then 0
    else UnquotedCommas(s[..|s| - 1]) + (if s[|s| - 1] == ',' && QuoteCount(s[..|s| - 1]) % 2 == 0 then 1 else 0)
  }

  /** Quoting is open after an odd number of quotes, and one field is finished per unquoted comma. */
  lemma {:induction false} ScanCounts(s: string)
    ensures Scan(s).inQuotes <==> QuoteCount(s) % 2 == 1
    ensures |Scan(s).result| == UnquotedCommas(s)
  {
    if s != [] {
      ScanCounts(s[..|s| - 1]);
    }
  }

  /** A line has one more field than it has unquoted commas; in particular at least one. */
  lemma FieldCount(line: string)
    ensures |Fields(line)| == UnquotedCommas(line) + 1
  {
    ScanCounts(line);
  }

  /** The splitter never keeps a quote character. */
  lemma {:induction false} ScanDropsQuotes(s: string)
    ensures forall k :: 0 <= k < |Scan(s).result| ==> '"' !in Scan(s).result[k]
    ensures '"' !in Scan(s).current
  {
    if s != [] {
      ScanDropsQuotes(s[..|s| - 1]);
    }
  }

  /** No field of a line contains `"`. */
  lemma FieldsHaveNoQuote(line: string)
    ensures forall k :: 0 <= k < |Fields(line)| ==> '"' !in Fields(line)[k]
  {
    ScanDropsQuotes(line);
  }

  /** Joining the fields with commas gives the line back with its quotes deleted. */
  lemma {:induction false} FieldsJoin(line: string)
    ensures Join(Fields(line), ',') == RemoveChars(line, {'"'})
  {
    if line != [] {
      var init := line[..|line| - 1];
      var c := line[|line| - 1];
      FieldsJoin(init);
      var st := Scan(init);
      if c == '"' {
      } else if c == ',' && !st.inQuotes {
        JoinSnoc(st.result + [st.current], "", ',');
      } else {
        JoinExtendLast(st.result, st.current, c, ',');
      }
    }
  }

  /** Without quotes the splitter is a plain split on commas. */
  lemma {:induction false} FieldsWithoutQuotes(line: string)
    requires '"' !in line
    ensures Fields(line) == Split(line, ',')
    ensures !Scan(line).inQuotes
  {
    if line != [] {
      var init := line[..|line| - 1];
      assert forall c :: c in init ==> c in line;
      FieldsWithoutQuotes(init);
      var st := Scan(init);
      var parts := st.result + [st.current];
      assert parts[..|parts| - 1] == st.result;
    }
  }

  /** A line without quotes is rebuilt exactly by joining its fields with commas. */
  lemma UnquotedLineRoundTrip(line: string)
    requires '"' !in line
    ensures Join(Fields(line), ',') == line
  {
    FieldsWithoutQuotes(line);
    JoinSplit(line, ',');
  }

  // ---------------------------------------------------------------------
  // Building records from the text
  // ---------------------------------------------------------------------

  /** A raw record: header to cell text, as the parser builds it. */
  type RawRow = map<string, string>

  /** Cell cleaning shared by headers and values: quotes removed, then trimmed. */
  function Clean(v: string): (r: string)
    ensures '"' !in r
    ensures r == [] || (!IsWhitespace(r[0]) && !IsWhitespace(r[|r| - 1]))
  {
    var u := RemoveChars(v, {'"'});
    var r := Trim(u);
    TrimEdges(u);
    assert '"' !in r by {
      if '"' in r { TrimKeepsChars(u, '"'); }
    }
    r
  }

  /** Cleaning keeps only characters of the original. */
  lemma CleanKeepsChars(v: string, c: char)
    requires c in Clean(v)
    ensures c in v
  {
    TrimKeepsChars(RemoveChars(v, {'"'}), c);
  }

  /** Text that is already clean (no quote, no whitespace at either end) comes back unchanged. */
  lemma CleanKeepsCleanText(v: string)
    requires '"' !in v
    requires v == [] || (!IsWhitespace(v[0]) && !IsWhitespace(v[|v| - 1]))
    ensures Clean(v) == v
  {
    RemoveCharsNone(v, {'"'});
    assert TrimStart(v) == v;
  }

  /** Cleaning twice is cleaning once. */
  lemma CleanIdempotent(v: string)
    ensures Clean(Clean(v)) == Clean(v)
  {
    CleanKeepsCleanText(Clean(v));
  }

  /** The header line is split on every comma, without the quote-aware splitter. */
  function Headers(first: string): (r: seq<string>)
    ensures |r| == |Split(first, ',')|
  {
    var parts := Split(first, ',');
    seq(|parts|, k requires 0 <= k < |parts| => Clean(parts[k]))
  }

  /** The record after the first `k` headers were assigned, in header order. */
  function RowOf(headers: seq<string>, values: seq<string>, k: nat): RawRow
    requires k <= |headers| <= |values|
  {
    if k == 0 then map[] else RowOf(headers, values, k - 1)[headers[k - 1] := Clean(values[k - 1])]
  }

  /** The record's keys are the headers assigned so far, and no cell holds a quote. */
  lemma {:induction false} RowOfShape(headers: seq<string>, values: seq<string>, k: nat)
    requires k <= |headers| <= |values|
    ensures forall j :: 0 <= j < k ==> headers[j] in RowOf(headers, values, k)
    ensures forall key :: key in RowOf(headers, values, k) ==> key in headers
    ensures forall key :: key in RowOf(headers, values, k) ==> '"' !in RowOf(headers, values, k)[key]
  {
    if k > 0 {
      RowOfShape(headers, values, k - 1);
    }
  }

  /** A header that does not occur again later gets the cell of its own column: a repeated header keeps its last column. */
  lemma {:induction false} RowOfLastWins(headers: seq<string>, values: seq<string>, k: nat, j: nat)
    requires j < k <= |headers| <= |values|
    requires headers[j] !in headers[j + 1..k]
    ensures headers[j] in RowOf(headers, values, k)
    ensures RowOf(headers, values, k)[headers[j]] == Clean(values[j])
  {
    if j < k - 1 {
      assert headers[j + 1..k] == headers[j + 1..k - 1] + [headers[k - 1]];
      RowOfLastWins(headers, values, k - 1, j);
    }
  }

  /** The cell under `key`; a missing key reads as "", which is as falsy as the source's `undefined`. */
  function Cell(m: RawRow, key: string): string {
    if key in m then m[key] else ""
  }

  /** A line the parser passes over before splitting it: blank after trimming, or a comment. */
  predicate Skipped(line: string) {
    Trim(line) == "" || StartsWith(line, "#")
  }

  /** The three site cells the parser insists on. */
  predicate HasSite(m: RawRow) {
    Cell(m, LocationColumn) != "" && Cell(m, SoilTypeColumn) != "" && Cell(m, RockbedHeightColumn) != ""
  }

  /** What one data line contributes: nothing, or one record. */
  function LineRows(headers: seq<string>, line: string): seq<RawRow> {
    if Skipped(line) then []
    else
      var values := Fields(line);
      if |values| < |headers| then []
      else
        var row := RowOf(headers, values, |headers|);
        if HasSite(row) then [row] else []
  }

  /** The records of some data lines, in line order. */
  function RowsOf(headers: seq<string>, lines: seq<string>): seq<RawRow> {
    if lines == [] then [] else RowsOf(headers, lines[..|lines| - 1]) + LineRows(headers, lines[|lines| - 1])
  }

  /** The lines of the text: trimmed, then split on line feeds. */
  function Lines(text: string): (r: seq<string>)
    ensures |r| >= 1
  {
    Split(Trim(text), '\n')
  }

  /** What `parseCSV` returns for `text`. */
  function ParsedRows(text: string): seq<RawRow> {
    var lines := Lines(text);
    RowsOf(Headers(lines[0]), lines[1..])
  }

  method ParseCsv(csvText: string) returns (rows: seq<RawRow>)
    ensures rows == ParsedRows(csvText)
  {
    var lines := Lines(csvText);
    var headers := Headers(lines[0]);
    rows := [];
    for i := 1 to |lines|
      invariant rows == RowsOf(headers, lines[1..i])
    {
      SliceSnoc(lines, 1, i);
      RowsOfSnoc(headers, lines[1..i + 1], lines[1..i], lines[i]);
      var kept := ReadLine(headers, lines[i]);
      rows := rows + kept;
    }
    assert lines[1..|lines|] == lines[1..];
  }

  /** One pass of the parser's loop: skip the line, or build its record and keep it if it names a site. */
  method ReadLine(headers: seq<string>, line: string) returns (kept: seq<RawRow>)
    ensures kept == LineRows(headers, line)
  {
    kept := [];
    if Trim(line) == "" || StartsWith(line, "#") {
      return;
    }
    var values := ParseCsvLine(line);
    if |values| < |headers| {
      return;
    }
    var row := BuildRow(headers, values);
    if Cell(row, LocationColumn) != "" && Cell(row, SoilTypeColumn) != "" && Cell(row, RockbedHeightColumn) != "" {
      kept := [row];
    }
  }

  /** `headers.forEach((header, index) => row[header] = ...)`: assign every header its cleaned cell, in order. */
  method BuildRow(headers: seq<string>, values: seq<string>) returns (row: RawRow)
    requires |headers| <= |values|
    ensures row == RowOf(headers, values, |headers|)
  {
    row := map[];
    for k := 0 to |headers|
      invariant row == RowOf(headers, values, k)
    {
      row := row[headers[k] := Clean(values[k])];
    }
  }

  /** One more line appends what that line contributes. */
  lemma RowsOfSnoc(headers: seq<string>, lines: seq<string>, init: seq<string>, line: string)
    requires lines == init + [line]
    ensures RowsOf(headers, lines) == RowsOf(headers, init) + LineRows(headers, line)
  {
    assert lines[..|lines| - 1] == init;
  }

  /** Each line contributes independently, in order: the parser is a filter over lines. */
  lemma {:induction false} RowsOfAppend(headers: seq<string>, a: seq<string>, b: seq<string>)
    ensures RowsOf(headers, a + b) == RowsOf(headers, a) + RowsOf(headers, b)
    decreases |b|
  {
    if b == [] {
      assert a + b == a;
    } else {
      var b' := b[..|b| - 1];
      var last := b[|b| - 1];
      SplitLast(a, b);
      RowsOfSnoc(headers, a + b, a + b', last);
      RowsOfSnoc(headers, b, b', last);
      RowsOfAppend(headers, a, b');
      ConcatAssoc(RowsOf(headers, a), RowsOf(headers, b'), LineRows(headers, last));
    }
  }

  lemma SliceSnoc(xs: seq<string>, lo: nat, i: nat)
    requires lo <= i < |xs|
    ensures xs[lo..i + 1] == xs[lo..i] + [xs[i]]
  {
  }

  lemma SplitLast(a: seq<string>, b: seq<string>)
    requires b != []
    ensures b == b[..|b| - 1] + [b[|b| - 1]]
    ensures a + b == (a + b[..|b| - 1]) + [b[|b| - 1]]
  {
  }

  lemma ConcatAssoc(x: seq<RawRow>, y: seq<RawRow>, z: seq<RawRow>)
    ensures (x + y) + z == x + (y + z)
  {
  }

  /** A line contributes nothing when it is blank, a comment or short of fields, or lacks a site cell. */
  lemma LineRowsDropped(headers: seq<string>, line: string)
    ensures Skipped(line) ==> LineRows(headers, line) == []
    ensures |Fields(line)| < |headers| ==> LineRows(headers, line) == []
    ensures |LineRows(headers, line)| <= 1
  {
  }

  /** Every kept record has its three site cells, has exactly the header keys, and holds no quote character. */
  lemma {:induction false} RowsOfShape(headers: seq<string>, lines: seq<string>)
    ensures forall r :: r in RowsOf(headers, lines) ==>
              HasSite(r) &&
              (forall key :: key in r <==> key in headers) &&
              (forall key :: key in r ==> '"' !in r[key])
    ensures |RowsOf(headers, lines)| <= |lines|
  {
    if lines != [] {
      RowsOfShape(headers, lines[..|lines| - 1]);
      var line := lines[|lines| - 1];
      if !Skipped(line) && |Fields(line)| >= |headers| {
        RowOfShape(headers, Fields(line), |headers|);
      }

    }
  }

  /** No column name of a parsed record contains a line feed, because the text is split on line feeds first. */
  lemma ParsedKeysHaveNoLineBreak(text: string)
    ensures forall r, key :: r in ParsedRows(text) && key in r ==> '\n' !in key
  {
    var lines := Lines(text);
    var headers := Headers(lines[0]);
    var parts := Split(lines[0], ',');
    SplitChars(lines[0], ',');
    assert forall k :: 0 <= k < |headers| ==> '\n' !in headers[k] by {
      forall k | 0 <= k < |headers| ensures '\n' !in headers[k] {
        assert headers[k] == Clean(parts[k]);
        if '\n' in headers[k] { CleanKeepsChars(parts[k], '\n'); }
      }
    }
    RowsOfShape(headers, lines[1..]);
  }

  /** The record type read off a raw record (the source's unchecked cast); a missing column reads as "". */
  function ToRow(m: RawRow): (r: Row)
    ensures HasSite(m) ==> r.location != "" && r.soilType != "" && r.rockbedHeight != ""
  {
    Row(Cell(m, LocationColumn), Cell(m, SoilTypeColumn), Cell(m, RockbedHeightColumn),
        Cell(m, FoundationColumn), Cell(m, AboveRockbedColumn), Cell(m, BelowRockbedColumn),
        Cell(m, InletColumn), Cell(m, KwhLowerColumn), Cell(m, KwhUpperColumn),
        Cell(m, BtuLowerColumn), Cell(m, BtuUpperColumn), Cell(m, PercentLowerColumn),
        Cell(m, PercentUpperColumn), Cell(m, CostLowerColumn), Cell(m, CostUpperColumn),
        Cell(m, PercentColumn))
  }

  /** The outcome columns, whose names contain a line feed, are never present in a parsed record. */
  lemma ParsedRowsLackOutcomeColumns(text: string)
    ensures forall r :: r in ParsedRows(text) ==>
              var row := ToRow(r);
              row.kwhLower == "" && row.kwhUpper == "" && row.btuLower == "" &&
              row.btuUpper == "" && row.percentLower == "" && row.percentUpper == ""
  {
    ParsedKeysHaveNoLineBreak(text);
    assert KwhLowerColumn[40] == '\n' && KwhUpperColumn[40] == '\n';
    assert BtuLowerColumn[40] == '\n' && BtuUpperColumn[40] == '\n';
    assert PercentLowerColumn[21] == '\n' && PercentUpperColumn[21] == '\n';
  }

  // ---------------------------------------------------------------------
  // Option lists
  // ---------------------------------------------------------------------

  /** `data.map(row => row[column])`. */
  function Column(data: seq<Row>, d: Dimension): seq<string> {
    seq(|data|, i requires 0 <= i < |data| => data[i].Field(d))
  }

  /** Adds `x` to a list: in place of an equal entry, else before the first entry above it. */
  function Insert(sorted: seq<string>, x: string): seq<string> {
    if sorted == [] then [x]
    else if sorted[0] == x then sorted
    else if Less(x, sorted[0]) then [x] + sorted
    else [sorted[0]] + Insert(sorted[1..], x)
  }

  /** Inserting into a strictly ascending list keeps it strictly ascending and adds exactly `x`. */
  lemma {:induction false} InsertSpec(sorted: seq<string>, x: string)
    requires StrictlyAscending(sorted)
    ensures StrictlyAscending(Insert(sorted, x))
    ensures forall y :: y in Insert(sorted, x) <==> y in sorted || y == x
  {
    if sorted == [] || sorted[0] == x {
    } else if Less(x, sorted[0]) {
      LessThanAll(x, sorted);
    } else {
      LessTotal(x, sorted[0]);
      assert StrictlyAscending(sorted[1..]);
      InsertSpec(sorted[1..], x);
      LessThanAll(sorted[0], Insert(sorted[1..], x));
    }
  }

  /** `x` below the head of an ascending list is below all of it; written for both uses in `InsertSpec`. */
  lemma LessThanAll(x: string, s: seq<string>)
    requires StrictlyAscending(s)
    requires s != [] ==> Less(x, s[0]) || forall y :: y in s ==> Less(x, y)
    ensures forall i :: 0 <= i < |s| ==> Less(x, s[i])
  {
    forall i | 0 <= i < |s| ensures Less(x, s[i]) {
      if i > 0 && Less(x, s[0]) {
        LessTransitive(x, s[0], s[i]);
      } else {
        assert s[i] in s;
      }
    }
  }

  /** `[...new Set(xs)].sort()`: the values of `xs` inserted one at a time. */
  function UniqueSorted(xs: seq<string>): seq<string> {
    if xs == [] then [] else Insert(UniqueSorted(xs[..|xs| - 1]), xs[|xs| - 1])
  }

  /** The distinct values of `xs`, strictly ascending, and so no more of them than `xs` has. */
  lemma {:induction false} UniqueSortedSpec(xs: seq<string>)
    ensures StrictlyAscending(UniqueSorted(xs))
    ensures forall y :: y in UniqueSorted(xs) <==> y in xs
    ensures |UniqueSorted(xs)| <= |xs|
  {
    if xs != [] {
      var init := xs[..|xs| - 1];
      assert xs == init + [xs[|xs| - 1]];
      UniqueSortedSpec(init);
      InsertSpec(UniqueSorted(init), xs[|xs| - 1]);
      DistinctBound(UniqueSorted(xs), xs);
    }
  }

  /** A strictly ascending list drawn from `xs` is no longer than `xs`. */
  lemma DistinctBound(r: seq<string>, xs: seq<string>)
    requires StrictlyAscending(r)
    requires forall y :: y in r ==> y in xs
    ensures |r| <= |xs|
  {
    var rs := set y | y in r;
    var xset := set y | y in xs;
    assert rs <= xset;
    DistinctCard(r);
    SetOfSeqCard(xs);
    assert |rs| <= |xset| by { SubsetCard(rs, xset); }
  }

  lemma {:induction false} DistinctCard(r: seq<string>)
    requires StrictlyAscending(r)
    ensures |set y | y in r| == |r|
  {
    if r != [] {
      var init, last := r[..|r| - 1], r[|r| - 1];
      assert StrictlyAscending(init);
      DistinctCard(init);
      LastIsNew(r);
      ElementsSnoc(init, last);
      assert r == init + [last];
    }
  }

  /** The last element of a strictly ascending list does not occur before it. */
  lemma LastIsNew(r: seq<string>)
    requires StrictlyAscending(r) && r != []
    ensures r[|r| - 1] !in r[..|r| - 1]
  {
    if r[|r| - 1] in r[..|r| - 1] {
      var i :| 0 <= i < |r| - 1 && r[i] == r[|r| - 1];
      LessIrreflexive(r[i]);
      assert false;
    }
  }

  /** The elements of a list extended by one value. */
  lemma ElementsSnoc(xs: seq<string>, x: string)
    ensures (set y | y in xs + [x]) == (set y | y in xs) + {x}
  {
  }

  lemma {:induction false} SetOfSeqCard(xs: seq<string>)
    ensures |set y | y in xs| <= |xs|
  {
    if xs != [] {
      var init := xs[..|xs| - 1];
      SetOfSeqCard(init);
      assert xs == init + [xs[|xs| - 1]];
      ElementsSnoc(init, xs[|xs| - 1]);
    }
  }

  lemma SubsetCard(a: set<string>, b: set<string>)
    requires a <= b
    ensures |a| <= |b|
  {
    assert b == a + (b - a);
  }

  /** `getFilteredOptions`: per dimension, the distinct values of that column, sorted. */
  function GetFilteredOptions(data: seq<Row>): (r: FilteredOptions)
  {
    FilteredOptions(
      UniqueSorted(Column(data, Location)),
      UniqueSorted(Column(data, SoilType)),
      UniqueSorted(Column(data, RockbedHeight)),
      UniqueSorted(Column(data, FoundationInsulation)),
      UniqueSorted(Column(data, InsulationAboveRockbed)),
      UniqueSorted(Column(data, InsulationBelowRockbed)),
      UniqueSorted(Column(data, AdditionalInletInsulation)))
  }

  /** Per dimension, the list holds a value exactly when some record takes it there, strictly ascending. */
  lemma GetFilteredOptionsSpec(data: seq<Row>)
    ensures data == [] ==> GetFilteredOptions(data) == NoOptions
    ensures forall d :: StrictlyAscending(GetFilteredOptions(data).Get(d))
    ensures forall d, v :: v in GetFilteredOptions(data).Get(d) <==> exists row :: row in data && row.Field(d) == v
  {
    OptionsPerDimension(data, GetFilteredOptions(data));
  }

  /** The record built in `GetFilteredOptions` holds, per dimension, that column's distinct values. */
  lemma OptionsPerDimension(data: seq<Row>, r: FilteredOptions)
    requires r == FilteredOptions(
      UniqueSorted(Column(data, Location)),
      UniqueSorted(Column(data, SoilType)),
      UniqueSorted(Column(data, RockbedHeight)),
      UniqueSorted(Column(data, FoundationInsulation)),
      UniqueSorted(Column(data, InsulationAboveRockbed)),
      UniqueSorted(Column(data, InsulationBelowRockbed)),
      UniqueSorted(Column(data, AdditionalInletInsulation)))
    ensures forall d :: StrictlyAscending(r.Get(d))
    ensures forall d, v :: v in r.Get(d) <==> exists row :: row in data && row.Field(d) == v
  {
    forall d ensures r.Get(d) == UniqueSorted(Column(data, d)) {
      match d
      case Location =>
      case SoilType =>
      case RockbedHeight =>
      case FoundationInsulation =>
      case InsulationAboveRockbed =>
      case InsulationBelowRockbed =>
      case AdditionalInletInsulation =>
    }
    forall d ensures StrictlyAscending(r.Get(d)) && forall v :: v in r.Get(d) <==> v in Column(data, d) {
      UniqueSortedSpec(Column(data, d));
    }
    forall d, v ensures v in Column(data, d) <==> exists row :: row in data && row.Field(d) == v {
      ColumnValues(data, d, v);
    }
  }

  /** A value occurs in a column exactly when some record takes it there. */
  lemma ColumnValues(data: seq<Row>, d: Dimension, v: string)
    ensures v in Column(data, d) <==> exists row :: row in data && row.Field(d) == v
  {
    var col := Column(data, d);
    if exists row :: row in data && row.Field(d) == v {
      var row :| row in data && row.Field(d) == v;
      var i :| 0 <= i < |data| && data[i] == row;
      assert col[i] == v;
    }
    if v in col {
      var i :| 0 <= i < |col| && col[i] == v;
      assert data[i] in data;
    }
  }

  // ---------------------------------------------------------------------
  // Cascading filter
  // ---------------------------------------------------------------------

  /** A fixed dimension and the value it is fixed to. */
  type Constraint = (Dimension, string)

  /** The row agrees with every constraint. */
  predicate Satisfies(row: Row, cs: set<Constraint>) {
    forall c :: c in cs ==> row.Field(c.0) == c.1
  }

  /** The rows that satisfy every constraint, in data order: the reference for the cascade. */
  function Matching(data: seq<Row>, cs: set<Constraint>): (m: seq<Row>)
    ensures forall row :: row in m <==> row in data && Satisfies(row, cs)
    ensures |m| <= |data|
  {
    if data == [] then []
    else (if Satisfies(data[0], cs) then [data[0]] else []) + Matching(data[1..], cs)
  }

  /** One `filteredData.filter(row => row[column] === value)` step. */
  function FilterBy(data: seq<Row>, d: Dimension, v: string): seq<Row> {
    if data == [] then []
    else (if data[0].Field(d) == v then [data[0]] else []) + FilterBy(data[1..], d, v)
  }

  /** `if (arg) filteredData = filteredData.filter(...)`: an absent or empty argument leaves the rows alone. */
  function Narrow(data: seq<Row>, d: Dimension, arg: Option<string>): seq<Row> {
    if arg.Some? && arg.value != "" then FilterBy(data, d, arg.value) else data
  }

  /** The constraint an argument imposes: none when it is absent or empty. */
  function Active(d: Dimension, arg: Option<string>): (cs: set<Constraint>)
    ensures forall c :: c in cs ==> c.0 == d && c.1 != "" && arg == Some(c.1)
    ensures arg.Some? && arg.value != "" ==> (d, arg.value) in cs
  {
    if arg.Some? && arg.value != "" then {(d, arg.value)} else {}
  }

  /** The constraints of the six filterable arguments; the inlet dimension is never among them. */
  function Constraints(location: Option<string>, soilType: Option<string>, rockbedHeight: Option<string>,
                       foundationInsulation: Option<string>, insulationAboveRockbed: Option<string>,
                       insulationBelowRockbed: Option<string>): (cs: set<Constraint>)
    ensures forall c :: c in cs ==> c.0 != AdditionalInletInsulation && c.1 != ""
  {
    Active(Location, location) + Active(SoilType, soilType) + Active(RockbedHeight, rockbedHeight) +
    Active(FoundationInsulation, foundationInsulation) + Active(InsulationAboveRockbed, insulationAboveRockbed) +
    Active(InsulationBelowRockbed, insulationBelowRockbed)
  }

  /** Filtering the matching rows by one more value matches the enlarged constraint set. */
  lemma {:induction false} FilterByMatching(data: seq<Row>, cs: set<Constraint>, d: Dimension, v: string)
    ensures FilterBy(Matching(data, cs), d, v) == Matching(data, cs + {(d, v)})
  {
    if data != [] {
      FilterByMatching(data[1..], cs, d, v);
      var rest := Matching(data[1..], cs);
      if Satisfies(data[0], cs) {
        assert ([data[0]] + rest)[1..] == rest;
      } else {
        assert [] + rest == rest;
      }
    }
  }

  /** With no constraint every row matches. */
  lemma {:induction false} MatchingNothing(data: seq<Row>)
    ensures Matching(data, {}) == data
  {
    if data != [] {
      MatchingNothing(data[1..]);
    }
  }

  /** One narrowing step adds the argument's constraint. */
  lemma NarrowMatching(data: seq<Row>, cs: set<Constraint>, d: Dimension, arg: Option<string>)
    ensures Narrow(Matching(data, cs), d, arg) == Matching(data, cs + Active(d, arg))
  {
    if arg.Some? && arg.value != "" {
      FilterByMatching(data, cs, d, arg.value);
    } else {
      assert cs + Active(d, arg) == cs;
    }
  }

  /** `getFilteredOptionsForConfig`: the option lists of exactly the rows that agree with every non-empty argument. */
  function GetFilteredOptionsForConfig(data: seq<Row>, location: Option<string>, soilType: Option<string>,
                                       rockbedHeight: Option<string>, foundationInsulation: Option<string>,
                                       insulationAboveRockbed: Option<string>,
                                       insulationBelowRockbed: Option<string>): (r: FilteredOptions)
    ensures r == GetFilteredOptions(Matching(data, Constraints(location, soilType, rockbedHeight,
                                      foundationInsulation, insulationAboveRockbed, insulationBelowRockbed)))
  {
    var d1 := Narrow(data, Location, location);
    var d2 := Narrow(d1, SoilType, soilType);
    var d3 := Narrow(d2, RockbedHeight, rockbedHeight);
    var d4 := Narrow(d3, FoundationInsulation, foundationInsulation);
    var d5 := Narrow(d4, InsulationAboveRockbed, insulationAboveRockbed);
    var d6 := Narrow(d5, InsulationBelowRockbed, insulationBelowRockbed);
    CascadeMatching(data, location, soilType, rockbedHeight, foundationInsulation,
                    insulationAboveRockbed, insulationBelowRockbed);
    GetFilteredOptions(d6)
  }

  /** The six narrowing steps together keep exactly the rows matching all six arguments. */
  lemma CascadeMatching(data: seq<Row>, location: Option<string>, soilType: Option<string>,
                        rockbedHeight: Option<string>, foundationInsulation: Option<string>,
                        insulationAboveRockbed: Option<string>, insulationBelowRockbed: Option<string>)
    ensures Narrow(Narrow(Narrow(Narrow(Narrow(Narrow(data, Location, location), SoilType, soilType),
              RockbedHeight, rockbedHeight), FoundationInsulation, foundationInsulation),
              InsulationAboveRockbed, insulationAboveRockbed), InsulationBelowRockbed, insulationBelowRockbed)
            == Matching(data, Constraints(location, soilType, rockbedHeight, foundationInsulation,
                                          insulationAboveRockbed, insulationBelowRockbed))
  {
    MatchingNothing(data);
    assert {} + Active(Location, location) == Active(Location, location);
    NarrowMatching(data, {}, Location, location);
    var cs1 := Active(Location, location);
    NarrowMatching(data, cs1, SoilType, soilType);
    var cs2 := cs1 + Active(SoilType, soilType);
    NarrowMatching(data, cs2, RockbedHeight, rockbedHeight);
    var cs3 := cs2 + Active(RockbedHeight, rockbedHeight);
    NarrowMatching(data, cs3, FoundationInsulation, foundationInsulation);
    var cs4 := cs3 + Active(FoundationInsulation, foundationInsulation);
    NarrowMatching(data, cs4, InsulationAboveRockbed, insulationAboveRockbed);
    var cs5 := cs4 + Active(InsulationAboveRockbed, insulationAboveRockbed);
    NarrowMatching(data, cs5, InsulationBelowRockbed, insulationBelowRockbed);
  }

  /** Two filter steps commute: the order in which dimensions are fixed does not matter. */
  lemma FilterOrderIrrelevant(data: seq<Row>, d1: Dimension, v1: string, d2: Dimension, v2: string)
    ensures FilterBy(FilterBy(data, d1, v1), d2, v2) == FilterBy(FilterBy(data, d2, v2), d1, v1)
  {
    MatchingNothing(data);
    FilterByMatching(data, {}, d1, v1);
    FilterByMatching(data, {(d1, v1)}, d2, v2);
    FilterByMatching(data, {}, d2, v2);
    FilterByMatching(data, {(d2, v2)}, d1, v1);
    assert {} + {(d1, v1)} == {(d1, v1)} && {} + {(d2, v2)} == {(d2, v2)};
    assert {(d1, v1)} + {(d2, v2)} == {(d2, v2)} + {(d1, v1)};
  }

  /** An argument that imposes no constraint: absent or empty. */
  predicate Inactive(arg: Option<string>) {
    arg.None? || arg.value == ""
  }

  /** Absent or empty arguments leave the global option lists. */
  lemma UnconstrainedOptions(data: seq<Row>, location: Option<string>, soilType: Option<string>,
                             rockbedHeight: Option<string>, foundationInsulation: Option<string>,
                             insulationAboveRockbed: Option<string>, insulationBelowRockbed: Option<string>)
    requires Inactive(location) && Inactive(soilType) && Inactive(rockbedHeight)
    requires Inactive(foundationInsulation) && Inactive(insulationAboveRockbed) && Inactive(insulationBelowRockbed)
    ensures GetFilteredOptionsForConfig(data, location, soilType, rockbedHeight, foundationInsulation,
                                        insulationAboveRockbed, insulationBelowRockbed) == GetFilteredOptions(data)
  {
    var cs := Constraints(location, soilType, rockbedHeight, foundationInsulation,
                          insulationAboveRockbed, insulationBelowRockbed);
    assert cs == {};
    MatchingNothing(data);
  }

  /** Fewer constraints never offer fewer values: each list under `more` is within the list under `fewer`. */
  lemma MoreConstraintsShrink(data: seq<Row>, fewer: set<Constraint>, more: set<Constraint>)
    requires fewer <= more
    ensures forall d, v :: v in GetFilteredOptions(Matching(data, more)).Get(d) ==>
                           v in GetFilteredOptions(Matching(data, fewer)).Get(d)
  {
    GetFilteredOptionsSpec(Matching(data, more));
    GetFilteredOptionsSpec(Matching(data, fewer));
  }

  /** Every filtered list is within the corresponding unfiltered list. */
  lemma FilteredWithinGlobal(data: seq<Row>, location: Option<string>, soilType: Option<string>,
                             rockbedHeight: Option<string>, foundationInsulation: Option<string>,
                             insulationAboveRockbed: Option<string>, insulationBelowRockbed: Option<string>)
    ensures forall d, v :: v in GetFilteredOptionsForConfig(data, location, soilType, rockbedHeight,
                             foundationInsulation, insulationAboveRockbed, insulationBelowRockbed).Get(d) ==>
                           v in GetFilteredOptions(data).Get(d)
  {
    MatchingNothing(data);
    MoreConstraintsShrink(data, {}, Constraints(location, soilType, rockbedHeight, foundationInsulation,
                                                insulationAboveRockbed, insulationBelowRockbed));
  }

  /** A fixed dimension offers its fixed value alone, or nothing when no row matches. */
  lemma FixedDimensionOptions(data: seq<Row>, cs: set<Constraint>, d: Dimension, v: string)
    requires (d, v) in cs
    ensures GetFilteredOptions(Matching(data, cs)).Get(d) == [v] || GetFilteredOptions(Matching(data, cs)).Get(d) == []
  {
    var list := GetFilteredOptions(Matching(data, cs)).Get(d);
    GetFilteredOptionsSpec(Matching(data, cs));
    forall x | x in list
      ensures x == v
    {
      OnlyFixedValue(data, cs, d, v, x);
    }
    AtMostOne(list, v);
  }

  /** A strictly ascending list whose every element is `v` is `[v]` or empty. */
  lemma AtMostOne(list: seq<string>, v: string)
    requires StrictlyAscending(list)
    requires forall x :: x in list ==> x == v
    ensures list == [v] || list == []
  {
    if |list| >= 2 {
      assert list[0] in list && list[1] in list;
      assert Less(list[0], list[1]);
      LessIrreflexive(v);
      assert false;
    } else if |list| == 1 {
      assert list[0] in list;
    }
  }

  /** A value offered for a fixed dimension is the fixed value. */
  lemma OnlyFixedValue(data: seq<Row>, cs: set<Constraint>, d: Dimension, v: string, x: string)
    requires (d, v) in cs
    requires x in GetFilteredOptions(Matching(data, cs)).Get(d)
    ensures x == v
  {
    GetFilteredOptionsSpec(Matching(data, cs));
    var row :| row in Matching(data, cs) && row.Field(d) == x;
    assert Satisfies(row, cs);
  }

  // ---------------------------------------------------------------------
  // Exact lookup
  // ---------------------------------------------------------------------

  /** `findMatchingRow`: the first record whose seven dimension values are exactly `key`. */
  function FindMatchingRow(data: seq<Row>, key: Key): (r: Option<Row>)
    ensures r.None? <==> forall row :: row in data ==> row.Dims() != key
    ensures r.Some? ==> r.value in data && r.value.Dims() == key
  {
    if data == [] then None
    else if data[0].Dims() == key then Some(data[0])
    else FindMatchingRow(data[1..], key)
  }

  /** The seven constraints that pin a record down to `key`. */
  function KeyConstraints(key: Key): (cs: set<Constraint>)
    ensures forall row :: Satisfies(row, cs) <==> row.Dims() == key
  {
    var cs := {(Location, key.0), (SoilType, key.1), (RockbedHeight, key.2), (FoundationInsulation, key.3),
               (InsulationAboveRockbed, key.4), (InsulationBelowRockbed, key.5), (AdditionalInletInsulation, key.6)};
    assert forall row :: Satisfies(row, cs) ==> row.Dims() == key by {
      forall row | Satisfies(row, cs) ensures row.Dims() == key {
        assert (Location, key.0) in cs && (SoilType, key.1) in cs && (RockbedHeight, key.2) in cs;
        assert (FoundationInsulation, key.3) in cs && (InsulationAboveRockbed, key.4) in cs;
        assert (InsulationBelowRockbed, key.5) in cs && (AdditionalInletInsulation, key.6) in cs;
      }
    }
    cs
  }

  /** The lookup returns the head of the filter on all seven dimensions: the first match in data order. */
  lemma {:induction false} FindMatchingIsFirst(data: seq<Row>, key: Key)
    ensures var m := Matching(data, KeyConstraints(key));
            FindMatchingRow(data, key) == if m == [] then None else Some(m[0])
  {
    if data != [] {
      FindMatchingIsFirst(data[1..], key);
    }
  }
}
