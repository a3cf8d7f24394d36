/**
 * The filter panel's state updates. Every handler builds a new `FilterValues`
 * record from the current one and hands it to `onFilterChange`; nothing is
 * updated in place, so each handler is a function from the old record to the
 * new one.
 */
module FilterPanel {
  import opened Wrappers
  import opened Text

  datatype TradeType = Imports | Exports | Both {

    /** The string stored in the record: 'imports', 'exports' or 'both'. */
    function Name(): string {
      match this
      case Imports => "imports"
      case Exports => "exports"
      case Both => "both"
    }
  }

  datatype FilterValues = FilterValues(
    sectors: seq<string>,
    yearFrom: string,
    yearTo: string,
    countries: seq<string>,
    tradeType: TradeType)

  /** `xs.filter(y => y !== x)`: every occurrence of `x` goes, the other
      elements stay with their multiplicities. */
  function RemoveAll(xs: seq<string>, x: string): (r: seq<string>)
    ensures x !in r
    ensures forall y :: y != x ==> (y in r <==> y in xs)
  {
    if xs == [] then [] else (if xs[0] == x then [] else [xs[0]]) + RemoveAll(xs[1..], x)
  }

  /** The multiplicity of `x` drops to zero and every other multiplicity is kept. */
  lemma {:induction false} RemoveAllCounts(xs: seq<string>, x: string)
    ensures multiset(RemoveAll(xs, x)) == multiset(xs)[x := 0]
  {
    if xs != [] {
      RemoveAllCounts(xs[1..], x);
      assert xs == [xs[0]] + xs[1..];
    }
  }

  /** `xs.includes(x) ? xs.filter(y => y !== x) : [...xs, x]` */
  function Toggle(xs: seq<string>, x: string): seq<string>
  {
    if x in xs then RemoveAll(xs, x) else xs + [x]
  }

  /** `toggleSector`: only `sectors` changes. */
  function ToggleSector(f: FilterValues, sector: string): (g: FilterValues)
    ensures g.(sectors := f.sectors) == f
    ensures sector in g.sectors <==> sector !in f.sectors
  {
    f.(sectors := Toggle(f.sectors, sector))
  }

  /** `toggleCountry`: only `countries` changes. */
  function ToggleCountry(f: FilterValues, country: string): (g: FilterValues)
    ensures g.(countries := f.countries) == f
    ensures country in g.countries <==> country !in f.countries
  {
    f.(countries := Toggle(f.countries, country))
  }

  /** The trade-type buttons: only `tradeType` changes. */
  function SelectTradeType(f: FilterValues, t: TradeType): (g: FilterValues)
    ensures g.tradeType == t && g.(tradeType := f.tradeType) == f
  {
    f.(tradeType := t)
  }

  /** The "From Year" select: only `yearFrom` changes. */
  function SelectYearFrom(f: FilterValues, year: string): (g: FilterValues)
    ensures g.yearFrom == year && g.(yearFrom := f.yearFrom) == f
  {
    f.(yearFrom := year)
  }

  /** The "To Year" select: only `yearTo` changes. */
  function SelectYearTo(f: FilterValues, year: string): (g: FilterValues)
    ensures g.yearTo == year && g.(yearTo := f.yearTo) == f
  {
    f.(yearTo := year)
  }

  /** The options of both year selects. */
  const Years: seq<string> := seq(16, i => IntToString(2010 + i))

  /** `Years` has sixteen entries, from "2010" to "2025". */
  lemma YearsRange()
    ensures |Years| == 16 && Years[0] == "2010" && Years[15] == "2025"
  {
    assert Years[0] == IntToString(2010);
    FourDigitText(2010);
    assert Years[15] == IntToString(2025);
    FourDigitText(2025);
  }

  /** Entry `i` of `Years` reads back as the year 2010 + i, so the entries are
      consecutive years in increasing order. */
  lemma YearsAreConsecutive()
    ensures forall i :: 0 <= i < |Years| ==> ParseInt(Years[i]) == Some(2010 + i)
  {
    forall i | 0 <= i < |Years| ensures ParseInt(Years[i]) == Some(2010 + i) {
      var year := 2010 + i;
      assert Years[i] == IntToString(year);
      ParseIntOfIntToString(year);
    }
  }

  /** Filtering distributes over concatenation, so the elements that stay
      keep their relative order. */
  lemma {:induction false} RemoveAllAppend(a: seq<string>, b: seq<string>, x: string)
    ensures RemoveAll(a + b, x) == RemoveAll(a, x) + RemoveAll(b, x)
  {
    if a != [] {
      var head := if a[0] == x then [] else [a[0]];
      assert (a + b)[0] == a[0] && (a + b)[1..] == a[1..] + b;
      assert RemoveAll(a + b, x) == head + RemoveAll(a[1..] + b, x);
      RemoveAllAppend(a[1..], b, x);
      assert RemoveAll(a, x) == head + RemoveAll(a[1..], x);
      assert head + (RemoveAll(a[1..], x) + RemoveAll(b, x)) == (head + RemoveAll(a[1..], x)) + RemoveAll(b, x);
    } else {
      assert a + b == b;
    }
  }

  /** Filtering out an element that is not there changes nothing. */
  lemma {:induction false} RemoveAllAbsent(xs: seq<string>, x: string)
    requires x !in xs
    ensures RemoveAll(xs, x) == xs
  {
    if xs != [] {
      RemoveAllAbsent(xs[1..], x);
    }
  }

  /** Toggling an absent item appends it and keeps the existing order. */
  lemma ToggleAbsentAppends(xs: seq<string>, x: string)
    requires x !in xs
    ensures Toggle(xs, x) == xs + [x]
  {
  }

  /** Toggling a present item removes every occurrence of it and nothing else. */
  lemma TogglePresentRemoves(xs: seq<string>, x: string)
    requires x in xs
    ensures Toggle(xs, x) == RemoveAll(xs, x)
    ensures x !in Toggle(xs, x)
    ensures multiset(Toggle(xs, x)) == multiset(xs)[x := 0]
  {
    RemoveAllCounts(xs, x);
  }

  /** After a toggle, membership of the toggled item is flipped and every
      other item's membership is unchanged. */
  lemma ToggleFlipsMembership(xs: seq<string>, x: string)
    ensures x in Toggle(xs, x) <==> x !in xs
    ensures forall y :: y != x ==> (y in Toggle(xs, x) <==> y in xs)
  {
  }

  /** Toggling an absent item twice restores the list exactly. */
  lemma ToggleTwiceRestores(xs: seq<string>, x: string)
    requires x !in xs
    ensures Toggle(Toggle(xs, x), x) == xs
  {
    RemoveAllAppend(xs, [x], x);
    RemoveAllAbsent(xs, x);
  }

  /** Toggling a present item twice leaves a single copy of it, at the end. */
  lemma ToggleTwiceMovesToEnd(xs: seq<string>, x: string)
    requires x in xs
    ensures Toggle(Toggle(xs, x), x) == RemoveAll(xs, x) + [x]
  {
    TogglePresentRemoves(xs, x);
  }
}
