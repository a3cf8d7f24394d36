/**
 * `analyzeTradeQuery`: the "APPLIED FILTERS" block built from an optional
 * filter record, the request to the model, and the failure semantics. Any
 * failure, whether a thrown error, a missing or empty response text or a parse
 * error, yields one fixed fallback analysis.
 *
 * The model call and `JSON.parse` are parameters: `respond` gives what the
 * call returned for a prompt, and `parse` gives what parsing a text returned.
 */
module Gemini {
  import opened Wrappers
  import opened Text
  import opened TradeSchema

  /** The filter record as `analyzeTradeQuery` reads it. Its parameter is
      untyped, so a missing list stands for the empty list and a missing
      string for the empty (falsy) string. */
  datatype FilterArgs = FilterArgs(
    sectors: seq<string>,
    countries: seq<string>,
    tradeType: string,
    yearFrom: string,
    yearTo: string)

  /** The four kinds of constraint line, in the order they are emitted. */
  datatype Constraint = SectorFocus | CountryFocus | TradeTypeFocus | YearRange

  const ConstraintOrder: seq<Constraint> := [SectorFocus, CountryFocus, TradeTypeFocus, YearRange]

  function Rank(c: Constraint): nat {
    match c
    case SectorFocus => 0
    case CountryFocus => 1
    case TradeTypeFocus => 2
    case YearRange => 3
  }

  const DefaultYearFrom := "2010"
  const DefaultYearTo := "2025"
  const FiltersHeader := "APPLIED FILTERS (MUST RESPECT THESE):"

  /** Whether a filter record produces the line of kind `c`: a non-empty list,
      a trade type other than 'both', or a full year range other than the
      default 2010 to 2025. */
  predicate Applies(f: FilterArgs, c: Constraint) {
    match c
    case SectorFocus => |f.sectors| > 0
    case CountryFocus => |f.countries| > 0
    case TradeTypeFocus => f.tradeType != "" && f.tradeType != "both"
    case YearRange =>
      f.yearFrom != "" && f.yearTo != "" && (f.yearFrom != DefaultYearFrom || f.yearTo != DefaultYearTo)
  }

  /** The trade type a trade-type line excludes. */
  function OppositeType(tradeType: string): string {
    if tradeType == "imports" then "exports" else "imports"
  }

  /** The text of the constraint line of kind `c`. */
  function ConstraintLine(f: FilterArgs, c: Constraint): string {
    match c
    case SectorFocus => "Focus on these sectors: " + Join(f.sectors, ", ")
    case CountryFocus => "Focus on trade with these countries/regions: " + Join(f.countries, ", ")
    case TradeTypeFocus => "Focus ONLY on " + f.tradeType + " (not " + OppositeType(f.tradeType) + ")"
    case YearRange => "Analyze data ONLY for the year range " + f.yearFrom + " to " + f.yearTo
  }

  /** The kinds in `cs` that apply to `f`, in the order of `cs`. */
  function Applicable(f: FilterArgs, cs: seq<Constraint>): (r: seq<Constraint>)
    ensures forall c :: c in r <==> c in cs && Applies(f, c)
    ensures |r| <= |cs|
  {
    if cs == [] then []
    else (if Applies(f, cs[0]) then [cs[0]] else []) + Applicable(f, cs[1..])
  }

  /** The kinds of line a filter record produces, in emission order. */
  function AppliedConstraints(f: FilterArgs): seq<Constraint> {
    Applicable(f, ConstraintOrder)
  }

  /** The lines of the kinds in `cs` that apply to `f`, in the order of `cs`. */
  function PartsFrom(f: FilterArgs, cs: seq<Constraint>): seq<string>
  {
    if cs == [] then [] else LineIfApplies(f, cs[0]) + PartsFrom(f, cs[1..])
  }

  /** The line of kind `c`, when it applies to `f`. */
  function LineIfApplies(f: FilterArgs, c: Constraint): seq<string> {
    if Applies(f, c) then [ConstraintLine(f, c)] else []
  }

  /** `filterParts`: line i is the line of the i-th applicable kind. */
  function FilterParts(f: FilterArgs): (parts: seq<string>)
    ensures |parts| == |AppliedConstraints(f)|
    ensures forall i :: 0 <= i < |parts| ==> parts[i] == ConstraintLine(f, AppliedConstraints(f)[i])
  {
    PartsMatchConstraints(f, ConstraintOrder);
    PartsFrom(f, ConstraintOrder)
  }

  /** Line i of the parts is the line of the i-th applicable kind. */
  lemma {:induction false} PartsMatchConstraints(f: FilterArgs, cs: seq<Constraint>)
    ensures |PartsFrom(f, cs)| == |Applicable(f, cs)|
    ensures forall i :: 0 <= i < |PartsFrom(f, cs)| ==>
      PartsFrom(f, cs)[i] == ConstraintLine(f, Applicable(f, cs)[i])
  {
    if cs != [] {
      PartsMatchConstraints(f, cs[1..]);
    }
  }

  /** Each part prefixed by its 1-based position, as in "2. ...". */
  function NumberedLines(parts: seq<string>): (lines: seq<string>)
    ensures |lines| == |parts|
  {
    seq(|parts|, i requires 0 <= i < |parts| => NatToString(i + 1) + ". " + parts[i])
  }

  /** `filterContext`: empty without a filter record or without any applicable
      line, and otherwise the header followed by the numbered lines. */
  function FilterContext(filters: Option<FilterArgs>): string {
    match filters
    case None => ""
    case Some(f) =>
      var parts := FilterParts(f);
      if parts == [] then "" else "\n\n" + FiltersHeader + "\n" + Join(NumberedLines(parts), "\n") + "\n"
  }

  /** Builds `filterContext` as the source does: collect the applicable lines,
      then, when there are any, number and join them under the header. */
  method BuildFilterContext(filters: Option<FilterArgs>) returns (filterContext: string)
    ensures filterContext == FilterContext(filters)
  {
    filterContext := "";
    if filters.Some? {
      var filterParts := CollectFilterParts(filters.value);
      if |filterParts| > 0 {
        filterContext := "\n\n" + FiltersHeader + "\n" + Join(NumberedLines(filterParts), "\n") + "\n";
      }
    }
  }

  /** Pushes each applicable line in turn: sectors, countries, trade type,
      year range. */
  method CollectFilterParts(f: FilterArgs) returns (filterParts: seq<string>)
    ensures filterParts == FilterParts(f)
  {
    filterParts := [];
    if |f.sectors| > 0 {
      filterParts := filterParts + ["Focus on these sectors: " + Join(f.sectors, ", ")];
    }
    assert filterParts == LineIfApplies(f, SectorFocus);
    ghost var done := filterParts;
    if |f.countries| > 0 {
      filterParts := filterParts + ["Focus on trade with these countries/regions: " + Join(f.countries, ", ")];
    }
    assert filterParts == done + LineIfApplies(f, CountryFocus);
    done := filterParts;
    if f.tradeType != "" && f.tradeType != "both" {
      var excluded := if f.tradeType == "imports" then "exports" else "imports";
      filterParts := filterParts + ["Focus ONLY on " + f.tradeType + " (not " + excluded + ")"];
    }
    assert filterParts == done + LineIfApplies(f, TradeTypeFocus);
    done := filterParts;
    if f.yearFrom != "" && f.yearTo != "" {
      if f.yearFrom != "2010" || f.yearTo != "2025" {
        filterParts := filterParts + ["Analyze data ONLY for the year range " + f.yearFrom + " to " + f.yearTo];
      }
    }
    assert filterParts == done + LineIfApplies(f, YearRange);
    PartsInSourceOrder(f);
  }

  /** The applicable kinds are exactly the four kinds filtered by `Applies`,
      so the lines come in the fixed order sectors, countries, trade type,
      year range. */
  lemma PartsInSourceOrder(f: FilterArgs)
    ensures FilterParts(f) ==
      LineIfApplies(f, SectorFocus) + LineIfApplies(f, CountryFocus) +
      LineIfApplies(f, TradeTypeFocus) + LineIfApplies(f, YearRange)
  {
    PartsFromFour(f, SectorFocus, CountryFocus, TradeTypeFocus, YearRange);
  }

  /** The lines of four kinds are their lines one after another. */
  lemma PartsFromFour(f: FilterArgs, a: Constraint, b: Constraint, c: Constraint, d: Constraint)
    ensures PartsFrom(f, [a, b, c, d]) ==
      LineIfApplies(f, a) + LineIfApplies(f, b) + LineIfApplies(f, c) + LineIfApplies(f, d)
  {
    PartsFromCons(f, d, []);
    PartsFromCons(f, c, [d]);
    PartsFromCons(f, b, [c, d]);
    PartsFromCons(f, a, [b, c, d]);
    assert [d] + [] == [d] && [c] + [d] == [c, d] && [b] + [c, d] == [b, c, d] && [a] + [b, c, d] == [a, b, c, d];
    SeqAssoc4(LineIfApplies(f, a), LineIfApplies(f, b), LineIfApplies(f, c), LineIfApplies(f, d));
  }

  lemma PartsFromCons(f: FilterArgs, c: Constraint, rest: seq<Constraint>)
    ensures PartsFrom(f, [c] + rest) == LineIfApplies(f, c) + PartsFrom(f, rest)
  {
    assert ([c] + rest)[1..] == rest;
  }

  lemma SeqAssoc4<T>(a: seq<T>, b: seq<T>, c: seq<T>, d: seq<T>)
    ensures a + (b + (c + (d + []))) == a + b + c + d
  {
    assert d + [] == d;
  }

  /** The lines are those of exactly the applicable kinds, each kind at most
      once, in strictly increasing rank. */
  lemma {:induction false} ApplicableOrdered(f: FilterArgs, cs: seq<Constraint>)
    requires forall i, j :: 0 <= i < j < |cs| ==> Rank(cs[i]) < Rank(cs[j])
    ensures forall i, j :: 0 <= i < j < |Applicable(f, cs)| ==>
      Rank(Applicable(f, cs)[i]) < Rank(Applicable(f, cs)[j])
  {
    if cs != [] {
      ApplicableOrdered(f, cs[1..]);
      var head := if Applies(f, cs[0]) then [cs[0]] else [];
      var rest := Applicable(f, cs[1..]);
      var r := Applicable(f, cs);
      assert r == head + rest;
      forall i, j | 0 <= i < j < |r| ensures Rank(r[i]) < Rank(r[j]) {
        if i < |head| {
          assert r[i] == cs[0];
          assert r[j] == rest[j - |head|] && r[j] in rest;
          var k :| 0 <= k < |cs[1..]| && cs[1..][k] == r[j];
          assert cs[k + 1] == r[j];
          assert Rank(cs[0]) < Rank(cs[k + 1]);
          assert Rank(r[i]) < Rank(r[j]);
        } else {
          assert r[i] == rest[i - |head|] && r[j] == rest[j - |head|];
          assert Rank(rest[i - |head|]) < Rank(rest[j - |head|]);
          assert Rank(r[i]) < Rank(r[j]);
        }
      }
    }
  }

  lemma AppliedConstraintsOrdered(f: FilterArgs)
    ensures forall c :: c in AppliedConstraints(f) <==> Applies(f, c)
    ensures forall i, j :: 0 <= i < j < |AppliedConstraints(f)| ==>
      Rank(AppliedConstraints(f)[i]) < Rank(AppliedConstraints(f)[j])
  {
    assert Rank(ConstraintOrder[0]) == 0 && Rank(ConstraintOrder[1]) == 1;
    assert Rank(ConstraintOrder[2]) == 2 && Rank(ConstraintOrder[3]) == 3;
    ApplicableOrdered(f, ConstraintOrder);
    forall c ensures c in ConstraintOrder {
      assert ConstraintOrder[Rank(c)] == c;
    }
  }

  /** No filter record gives no block. */
  lemma NoFiltersNoBlock()
    ensures FilterContext(None) == ""
  {
  }

  /** The block is empty exactly when no constraint applies. */
  lemma BlockEmptyIffNothingApplies(f: FilterArgs)
    ensures FilterContext(Some(f)) == "" <==> forall c :: !Applies(f, c)
  {
    AppliedConstraintsOrdered(f);
    if FilterParts(f) != [] {
      assert Applies(f, AppliedConstraints(f)[0]);
      assert FilterContext(Some(f))[0] == '\n';
    } else {
      assert AppliedConstraints(f) == [];
    }
  }

  /** A record equal to the defaults (no sectors, no countries, trade type
      'both' or unset, years 2010 to 2025 or unset) gives no block at all. */
  lemma DefaultFiltersNoBlock(f: FilterArgs)
    requires f.sectors == [] && f.countries == []
    requires f.tradeType == "both" || f.tradeType == ""
    requires (f.yearFrom == "2010" && f.yearTo == "2025") || f.yearFrom == "" || f.yearTo == ""
    ensures FilterContext(Some(f)) == ""
  {
    BlockEmptyIffNothingApplies(f);
  }

  /** A non-empty block is the blank lines, the header, then the numbered
      lines joined by newlines, ending in a newline; line i (from 0) is the
      line of the i-th applicable kind, and `parseInt` reads its number
      prefix as i + 1. */
  lemma BlockLayout(f: FilterArgs, i: nat)
    requires i < |AppliedConstraints(f)|
    ensures var lines := NumberedLines(FilterParts(f));
      && FilterContext(Some(f)) == "\n\n" + FiltersHeader + "\n" + Join(lines, "\n") + "\n"
      && lines[i] == NatToString(i + 1) + ". " + ConstraintLine(f, AppliedConstraints(f)[i])
      && ParseInt(lines[i]) == Some(i + 1)
  {
    var parts := FilterParts(f);
    assert parts[i] == ConstraintLine(f, AppliedConstraints(f)[i]);
    NumberedLine(parts, i);
  }

  /** Line i of the numbered lines carries the number i + 1, which `parseInt`
      reads back. */
  lemma NumberedLine(parts: seq<string>, i: nat)
    requires i < |parts|
    ensures NumberedLines(parts)[i] == NatToString(i + 1) + ". " + parts[i]
    ensures ParseInt(NumberedLines(parts)[i]) == Some(i + 1)
  {
    NumberPrefixParses(i + 1, parts[i]);
  }

  /** `parseInt` reads "n. text" as n. */
  lemma NumberPrefixParses(n: nat, text: string)
    ensures ParseInt(NatToString(n) + ". " + text) == Some(n)
  {
    var digits := NatToString(n);
    var s := digits + ". " + text;
    assert s[0] == digits[0];
    ParseIntOfDigitPrefix(s);
    LeadingDigitsStopsAtDot(digits, text);
    NatToStringValue(n);
  }

  lemma {:induction false} LeadingDigitsStopsAtDot(digits: string, text: string)
    requires AllDigits(digits)
    ensures LeadingDigits(digits + ". " + text) == digits
  {
    if digits != [] {
      assert (digits + ". " + text)[1..] == digits[1..] + ". " + text;
      LeadingDigitsStopsAtDot(digits[1..], text);
    } else {
      assert (digits + ". " + text)[0] == '.';
    }
  }

  /** The trade-type line is emitted exactly when the trade type is set and is
      not 'both'. */
  lemma TradeTypeLine(f: FilterArgs)
    ensures TradeTypeFocus in AppliedConstraints(f) <==> f.tradeType != "" && f.tradeType != "both"
  {
    AppliedConstraintsOrdered(f);
  }

  /** The trade-type line excludes exports for 'imports' and imports for any
      other value. */
  lemma TradeTypeText(f: FilterArgs)
    ensures f.tradeType == "imports" ==>
      ConstraintLine(f, TradeTypeFocus) == "Focus ONLY on imports (not exports)"
    ensures f.tradeType != "imports" ==>
      ConstraintLine(f, TradeTypeFocus) == "Focus ONLY on " + f.tradeType + " (not imports)"
  {
    if f.tradeType == "imports" {
      assert "Focus ONLY on " + "imports" + " (not " + "exports" + ")" == "Focus ONLY on imports (not exports)";
    }
  }

  /** The year-range line is emitted exactly when both years are set and
      either differs from the default range. */
  lemma YearRangeLine(f: FilterArgs)
    ensures YearRange in AppliedConstraints(f) <==>
      f.yearFrom != "" && f.yearTo != "" && (f.yearFrom != "2010" || f.yearTo != "2025")
  {
    AppliedConstraintsOrdered(f);
  }

  /** The sector and country lines are emitted exactly for non-empty lists and
      list the entries in input order, separated by ", ". */
  lemma ListLines(f: FilterArgs)
    ensures SectorFocus in AppliedConstraints(f) <==> f.sectors != []
    ensures CountryFocus in AppliedConstraints(f) <==> f.countries != []
    ensures ConstraintLine(f, SectorFocus) == "Focus on these sectors: " + Join(f.sectors, ", ")
    ensures ConstraintLine(f, CountryFocus) == "Focus on trade with these countries/regions: " + Join(f.countries, ", ")
  {
    AppliedConstraintsOrdered(f);
  }

  /** What the model is asked: the user's query verbatim and the filter
      block; the fixed instruction prose around them is left out. */
  datatype Prompt = Prompt(query: string, filterContext: string)

  /** What `generateContent` did: threw, or returned with `text` possibly
      undefined. */
  datatype CallOutcome = Threw | Returned(text: Option<string>)

  /** The fixed analysis returned on every failure. */
  function Fallback(): TradeData {
    TradeData(
      FallbackSummary(),
      Stats("$1,100B", "2024", "Deficit ($250B)"),
      FallbackChart(),
      Some(FallbackSectors()),
      Some("+8.5%"),
      Some(FallbackChanges()))
  }

  /** The summary text of the fallback. It is written in short pieces because
      one long literal makes every proof that mentions `Fallback` far more
      expensive for the verifier. */
  function FallbackSummary(): string {
    "Due to high " + "demand or API " + "restrictions, "
    + "we are showing " + "estimated " + "historical data " + "for India's "
    + "trade. The " + "trend shows " + "consistent " + "growth in both "
    + "imports and " + "exports, with a " + "widening trade "
    + "deficit in " + "recent years " + "driven by " + "energy and "
    + "electronic " + "imports."
  }

  function FallbackChart(): seq<ChartDataPoint> {
    [ ChartDataPoint("2010", 220.0, 350.0),
      ChartDataPoint("2011", 300.0, 460.0),
      ChartDataPoint("2012", 290.0, 490.0),
      ChartDataPoint("2013", 310.0, 450.0),
      ChartDataPoint("2014", 320.0, 460.0),
      ChartDataPoint("2015", 260.0, 390.0),
      ChartDataPoint("2016", 270.0, 380.0),
      ChartDataPoint("2017", 300.0, 460.0),
      ChartDataPoint("2018", 330.0, 510.0),
      ChartDataPoint("2019", 320.0, 480.0),
      ChartDataPoint("2020", 290.0, 370.0),
      ChartDataPoint("2021", 420.0, 610.0),
      ChartDataPoint("2022", 450.0, 710.0),
      ChartDataPoint("2023", 430.0, 680.0),
      ChartDataPoint("2024", 450.0, 720.0) ]
  }

  function FallbackSectors(): seq<Sector> {
    [ Sector("Petroleum", 180.0, 24.0),
      Sector("Electronics", 150.0, 20.0),
      Sector("Machinery", 120.0, 16.0),
      Sector("Chemicals", 90.0, 12.0),
      Sector("Gems & Jewelry", 75.0, 10.0),
      Sector("Pharmaceuticals", 60.0, 8.0) ]
  }

  function FallbackChanges(): seq<YearChange> {
    [ YearChange("2011", 28.5),
      YearChange("2012", 2.5),
      YearChange("2013", -5.2),
      YearChange("2014", 3.8),
      YearChange("2015", -17.5),
      YearChange("2016", -0.8),
      YearChange("2017", 18.5),
      YearChange("2018", 10.5),
      YearChange("2019", -4.3),
      YearChange("2020", -17.8),
      YearChange("2021", 56.1),
      YearChange("2022", 12.6),
      YearChange("2023", -4.1),
      YearChange("2024", 5.9) ]
  }

  /** `analyzeTradeQuery(query, filters)`: the parsed response when the call
      returned a non-empty text that parsed, and the fallback otherwise. It is
      total: nothing escapes to the caller. */
  function AnalyzeTradeQuery(
    query: string,
    filters: Option<FilterArgs>,
    respond: Prompt -> CallOutcome,
    parse: string -> Option<TradeData>): TradeData
  {
    match respond(Prompt(query, FilterContext(filters)))
    case Threw => Fallback()
    case Returned(text) =>
      if text.None? || text.value == "" then Fallback()
      else
        match parse(text.value)
        case None => Fallback()
        case Some(data) => data
  }

  /** A thrown call, a missing or empty text, or a text that does not parse
      all give the fallback. */
  lemma FailuresFallBack(
    query: string,
    filters: Option<FilterArgs>,
    respond: Prompt -> CallOutcome,
    parse: string -> Option<TradeData>)
    requires var out := respond(Prompt(query, FilterContext(filters)));
      || out.Threw?
      || out == Returned(None)
      || out == Returned(Some(""))
      || (out.Returned? && out.text.Some? && parse(out.text.value).None?)
    ensures AnalyzeTradeQuery(query, filters, respond, parse) == Fallback()
  {
  }

  /** A non-empty text that parses is returned exactly as parsed. */
  lemma ParsedTextReturned(
    query: string,
    filters: Option<FilterArgs>,
    respond: Prompt -> CallOutcome,
    parse: string -> Option<TradeData>,
    text: string)
    requires respond(Prompt(query, FilterContext(filters))) == Returned(Some(text))
    requires text != "" && parse(text).Some?
    ensures AnalyzeTradeQuery(query, filters, respond, parse) == parse(text).value
  {
  }

  /** Whatever happens, the result is the fallback or what the parser made of
      the text the model returned for this very request. */
  lemma ResultOrigin(
    query: string,
    filters: Option<FilterArgs>,
    respond: Prompt -> CallOutcome,
    parse: string -> Option<TradeData>)
    ensures var out := respond(Prompt(query, FilterContext(filters)));
      var r := AnalyzeTradeQuery(query, filters, respond, parse);
      || r == Fallback()
      || (out.Returned? && out.text.Some? && out.text.value != "" && parse(out.text.value) == Some(r))
  {
  }

  /** The fallback's history is fifteen points dated 2010 to 2024 in order. */
  lemma FallbackChartYears()
    ensures |FallbackChart()| == 15
    ensures forall i :: 0 <= i < 15 ==> FallbackChart()[i].year == IntToString(2010 + i)
  {
    FallbackDigits2010To2017();
    FallbackDigits2018To2024();
    forall i | 0 <= i < 15 ensures FallbackChart()[i].year == IntToString(2010 + i) {
      FourDigitText(2010 + i);
    }
  }

  /** The year texts of points 0 to 7, digit by digit. */
  lemma FallbackDigits2010To2017()
    ensures forall i :: 0 <= i < 8 ==> FallbackChart()[i].year == FourDigits(2010 + i)
  {
    assert FallbackChart()[0].year == FourDigits(2010);
    assert FallbackChart()[1].year == FourDigits(2011);
    assert FallbackChart()[2].year == FourDigits(2012);
    assert FallbackChart()[3].year == FourDigits(2013);
    assert FallbackChart()[4].year == FourDigits(2014);
    assert FallbackChart()[5].year == FourDigits(2015);
    assert FallbackChart()[6].year == FourDigits(2016);
    assert FallbackChart()[7].year == FourDigits(2017);
  }

  /** The year texts of points 8 to 14, digit by digit. */
  lemma FallbackDigits2018To2024()
    ensures forall i :: 8 <= i < 15 ==> FallbackChart()[i].year == FourDigits(2010 + i)
  {
    assert FallbackChart()[8].year == FourDigits(2018);
    assert FallbackChart()[9].year == FourDigits(2019);
    assert FallbackChart()[10].year == FourDigits(2020);
    assert FallbackChart()[11].year == FourDigits(2021);
    assert FallbackChart()[12].year == FourDigits(2022);
    assert FallbackChart()[13].year == FourDigits(2023);
    assert FallbackChart()[14].year == FourDigits(2024);
  }

  /** The fallback's years read back as consecutive, strictly increasing
      numbers. */
  lemma FallbackChartYearsParse()
    ensures forall i :: 0 <= i < |FallbackChart()| ==> ParseInt(FallbackChart()[i].year) == Some(2010 + i)
  {
    FallbackChartYears();
    forall i | 0 <= i < 15 ensures ParseInt(FallbackChart()[i].year) == Some(2010 + i) {
      ParseIntOfIntToString(2010 + i);
    }
  }

  /** The fallback's year-over-year changes are given for exactly the chart
      years after the first, in the same order. */
  lemma FallbackChangeYears()
    ensures |FallbackChanges()| == |FallbackChart()| - 1
    ensures forall i :: 0 <= i < |FallbackChanges()| ==> FallbackChanges()[i].year == FallbackChart()[i + 1].year
  {
  }

  /** Every year of the fallback's history has positive exports and a trade
      deficit, and it lists six sectors. */
  lemma FallbackFigures()
    ensures forall p :: p in FallbackChart() ==> p.exports > 0.0 && p.imports > p.exports
    ensures |FallbackSectors()| == 6
  {
  }
}
