/**
 * The race feed filter key: a tagged union with a hand-written equality and hash, its titles and
 * subtitles, the Global Qualifier series per year, and the parser from menu item titles to filters.
 * The current year is a parameter (it comes from the clock).
 */
module RaceFilters {
  import opened Wrappers
  import opened OptionSeq
  import opened RaceEnums
  import EnumTitle
  import Text

  /** The first Global Qualifier season. */
  const StartYear: int := 2017
  const SeriesGroupTitle: string := "Global Qualifiers"
  const ClassGroupTitle: string := "Race Classes"

  /** One Global Qualifier season. */
  datatype GQSeries = GQSeries(year: int) {

    function Title(): string {
      "GQ" + Text.IntToString(year)
    }

    /**
     * Whether `year` lies in `StartYear...currentYear`. The Swift range traps when the current year
     * is before the start year, hence the precondition here and below.
     */
    static predicate IsValidYear(year: int, currentYear: int)
      requires currentYear >= StartYear
    {
      StartYear <= year <= currentYear
    }

    /** One series per year from the start year through the current year, in increasing order. */
    static function AllCases(currentYear: int): (r: seq<GQSeries>)
      requires currentYear >= StartYear
      ensures |r| == currentYear - StartYear + 1
      ensures forall i | 0 <= i < |r| :: r[i].year == StartYear + i
      ensures forall s: GQSeries :: s in r <==> IsValidYear(s.year, currentYear)
    {
      var r := seq(currentYear - StartYear + 1, i => GQSeries(StartYear + i));
      assert forall s: GQSeries | IsValidYear(s.year, currentYear) :: r[s.year - StartYear] == s;
      r
    }

    /** The series of `year`, or `None` outside the valid range. */
    static function Create(year: int, currentYear: int): (r: Option<GQSeries>)
      requires currentYear >= StartYear
      ensures r.Some? <==> GQSeries(year) in AllCases(currentYear)
      ensures r.Some? ==> r.value.year == year
    {
      if IsValidYear(year, currentYear) then Some(GQSeries(year)) else None
    }

    static lemma TitleInjective(a: GQSeries, b: GQSeries)
      requires a.Title() == b.Title()
      ensures a == b
    {
      assert a.Title()[2..] == Text.IntToString(a.year) && b.Title()[2..] == Text.IntToString(b.year);
      Text.IntToStringInjective(a.year, b.year);
    }

    /** `init(title:)`: the series among `AllCases` whose title is `title`. */
    static function FromTitle(title: string, currentYear: int): (r: Option<GQSeries>)
      requires currentYear >= StartYear
      ensures r.Some? ==> r.value.Title() == title && IsValidYear(r.value.year, currentYear)
    {
      EnumTitle.FirstWhere(AllCases(currentYear), (s: GQSeries) => s.Title() == title)
    }

    /** Every series in the valid range is found again from its title. */
    static lemma TitleRoundTrip(title: string, s: GQSeries, currentYear: int)
      requires currentYear >= StartYear
      requires IsValidYear(s.year, currentYear) && s.Title() == title
      ensures FromTitle(title, currentYear) == Some(s)
    {
      assert s in AllCases(currentYear);
      TitleInjective(s, FromTitle(title, currentYear).value);
    }
  }

  /** What `hash(into:)` feeds to the hasher: a tag string, or a race class. */
  datatype HashInput = Tag(name: string) | ClassValue(raceClass: RaceClass)

  /** Swift's `Hasher` as far as the model needs it: the inputs combined into it so far, in order. */
  class Hasher {
    var combined: seq<HashInput>

    constructor ()
      ensures combined == []
    {
      combined := [];
    }

    method Combine(input: HashInput)
      modifies this
      ensures combined == old(combined) + [input]
    {
      combined := combined + [input];
    }
  }

  datatype RaceFilter = Joined | Nearby | Chapters | Classes(raceClass: RaceClass) | Series(series: GQSeries) {

    function Title(): string {
      match this
      case Joined => "Joined"
      case Nearby => "Nearby"
      case Chapters => "My Chapters"
      case Classes(c) => c.Title()
      case Series(s) => s.Title()
    }

    function Subtitle(): string {
      match this
      case Classes(_) => ClassGroupTitle
      case Series(_) => SeriesGroupTitle
      case _ => Title()
    }

    /** The default filters of the feed menu. */
    static function AllCases(currentYear: int): (r: seq<RaceFilter>)
      ensures |r| == 5
    {
      [Joined, Nearby, Chapters, Series(GQSeries(currentYear)), Classes(RaceClass.Open)]
    }

    /** `init(title:)`: the first default filter whose title is `title`. */
    static function FromTitle(title: string, currentYear: int): (r: Option<RaceFilter>)
      ensures r.Some? ==> r.value.Title() == title && r.value in AllCases(currentYear)
      ensures r.Some? && r.value.Series? ==> r.value.series.year == currentYear
    {
      EnumTitle.FirstWhere(AllCases(currentYear), (f: RaceFilter) => f.Title() == title)
    }

    /** The hand-written `==`: same case, and for classes and series the same payload. */
    static function Equal(lhs: RaceFilter, rhs: RaceFilter): bool {
      match (lhs, rhs)
      case (Joined, Joined) => true
      case (Nearby, Nearby) => true
      case (Chapters, Chapters) => true
      case (Classes(a), Classes(b)) => a == b
      case (Series(a), Series(b)) => a == b
      case _ => false
    }

    /** The inputs `hash(into:)` combines: the case's tag, and the class for `.classes` (not the year for `.series`). */
    function HashInputs(): seq<HashInput> {
      match this
      case Joined => [Tag("joined")]
      case Nearby => [Tag("nearby")]
      case Chapters => [Tag("chapters")]
      case Classes(c) => [Tag("classes"), ClassValue(c)]
      case Series(_) => [Tag("series")]
    }

    /** `hash(into:)`: combines this filter's inputs into `hasher`, after what it already holds. */
    method HashInto(hasher: Hasher)
      modifies hasher
      ensures hasher.combined == old(hasher.combined) + HashInputs()
    {
      match this {
        case Joined => hasher.Combine(Tag("joined"));
        case Nearby => hasher.Combine(Tag("nearby"));
        case Chapters => hasher.Combine(Tag("chapters"));
        case Classes(c) =>
          hasher.Combine(Tag("classes"));
          hasher.Combine(ClassValue(c));
        case Series(_) => hasher.Combine(Tag("series"));
      }
    }

    /** `filters(with:)`: each item that names a filter, a race class or a series, in the order given. */
    static method FiltersWith(items: seq<string>, currentYear: int) returns (filters: seq<RaceFilter>)
      requires currentYear >= StartYear
      ensures filters == ParsedFilters(items, currentYear)
    {
      filters := [];
      for i := 0 to |items|
        invariant filters == ParsedFilters(items[..i], currentYear)
      {
        var item := items[i];
        ParsedFiltersStep(items, i, currentYear);
        ParseItemCases(item, currentYear);
        var filter := FromTitle(item, currentYear);
        if filter.Some? {
          filters := filters + [filter.value];
        } else {
          var raceClass := RaceClass.FromTitle(item);
          if raceClass.Some? {
            filters := filters + [Classes(raceClass.value)];
          } else {
            var series := GQSeries.FromTitle(item, currentYear);
            if series.Some? {
              filters := filters + [Series(series.value)];
            }
          }
        }
      }
      assert items[..|items|] == items;
    }
  }

  /** A filter the parser can produce: a series must lie in the valid year range. */
  predicate ValidFilter(f: RaceFilter, currentYear: int)
    requires currentYear >= StartYear
  {
    f.Series? ==> GQSeries.IsValidYear(f.series.year, currentYear)
  }

  /** One item to at most one filter: tried as a filter title, then a class title, then a series title. */
  function ParseItem(item: string, currentYear: int): Option<RaceFilter>
    requires currentYear >= StartYear
  {
    match RaceFilter.FromTitle(item, currentYear)
    case Some(f) => Some(f)
    case None =>
      match RaceClass.FromTitle(item)
      case Some(c) => Some(Classes(c))
      case None =>
        match GQSeries.FromTitle(item, currentYear)
        case Some(s) => Some(Series(s))
        case None => None
  }

  /** The order in which `ParseItem` tries the three kinds of title. */
  lemma ParseItemCases(item: string, currentYear: int)
    requires currentYear >= StartYear
    ensures var f, c, s := RaceFilter.FromTitle(item, currentYear), RaceClass.FromTitle(item), GQSeries.FromTitle(item, currentYear);
      && (f.Some? ==> ParseItem(item, currentYear) == f)
      && (f.None? && c.Some? ==> ParseItem(item, currentYear) == Some(Classes(c.value)))
      && (f.None? && c.None? && s.Some? ==> ParseItem(item, currentYear) == Some(Series(s.value)))
      && (f.None? && c.None? && s.None? ==> ParseItem(item, currentYear) == None)
  {
  }

  /** An item parses to at most one filter, which is titled by the item and lies in the valid range. */
  lemma ParseItemSound(item: string, currentYear: int)
    requires currentYear >= StartYear
    ensures var r := ParseItem(item, currentYear);
      r.Some? ==> r.value.Title() == item && ValidFilter(r.value, currentYear)
  {
  }

  /** Every parsed item is titled by its item and valid. */
  lemma ParseItemsSound(items: seq<string>, currentYear: int)
    requires currentYear >= StartYear
    ensures forall i | 0 <= i < |items| :: var r := ParseItem(items[i], currentYear);
      r.Some? ==> r.value.Title() == items[i] && ValidFilter(r.value, currentYear)
  {
    forall i | 0 <= i < |items| {
      ParseItemSound(items[i], currentYear);
    }
  }

  /** `ParseItem` for one current year, as a function value. */
  function ItemParser(currentYear: int): string -> Option<RaceFilter>
    requires currentYear >= StartYear
  {
    item => ParseItem(item, currentYear)
  }

  /** The parse of each item, position by position. */
  function ParseItems(items: seq<string>, currentYear: int): (r: seq<Option<RaceFilter>>)
    requires currentYear >= StartYear
    ensures |r| == |items| && forall i | 0 <= i < |items| :: r[i] == ParseItem(items[i], currentYear)
  {
    MapSeq(items, ItemParser(currentYear))
  }

  /** The filters `filters(with:)` produces: never more than the items, each valid and titled by an item. */
  function ParsedFilters(items: seq<string>, currentYear: int): (r: seq<RaceFilter>)
    requires currentYear >= StartYear
    ensures |r| <= |items|
    ensures forall f | f in r :: ValidFilter(f, currentYear) && f.Title() in items
  {
    ParseItemsSound(items, currentYear);
    var parsed := ParseItems(items, currentYear);
    var r := Compact(parsed);
    assert forall f | f in r :: exists i | 0 <= i < |items| :: parsed[i] == Some(f);
    r
  }

  /** One more item adds its parse, if any, at the end. */
  lemma ParsedFiltersStep(items: seq<string>, i: int, currentYear: int)
    requires currentYear >= StartYear && 0 <= i < |items|
    ensures ParsedFilters(items[..i + 1], currentYear) == ParsedFilters(items[..i], currentYear) + Present(ParseItem(items[i], currentYear))
  {
    var parsed := ParseItems(items[..i + 1], currentYear);
    assert parsed[..i] == ParseItems(items[..i], currentYear);
  }

  /** Parsing distributes over concatenation, so the output keeps the order of the items. */
  lemma ParsedFiltersAppend(a: seq<string>, b: seq<string>, currentYear: int)
    requires currentYear >= StartYear
    ensures ParsedFilters(a + b, currentYear) == ParsedFilters(a, currentYear) + ParsedFilters(b, currentYear)
  {
    ParseItemsAppend(a, b, currentYear);
    CompactAppend(ParseItems(a, currentYear), ParseItems(b, currentYear));
  }

  /** Parsing item by item distributes over concatenation. */
  lemma ParseItemsAppend(a: seq<string>, b: seq<string>, currentYear: int)
    requires currentYear >= StartYear
    ensures ParseItems(a + b, currentYear) == ParseItems(a, currentYear) + ParseItems(b, currentYear)
  {
    MapSeqAppend(a, b, ItemParser(currentYear));
  }

  /** `==` is structural equality, hence reflexive, symmetric and transitive. */
  lemma EqualIsStructural(a: RaceFilter, b: RaceFilter)
    ensures RaceFilter.Equal(a, b) <==> a == b
  {
  }

  /** Filters of different cases are never equal. */
  lemma DifferentCasesNeverEqual(a: RaceFilter, b: RaceFilter)
    requires a.Joined? != b.Joined? || a.Nearby? != b.Nearby? || a.Chapters? != b.Chapters? || a.Classes? != b.Classes?
    ensures !RaceFilter.Equal(a, b)
  {
  }

  /** Equal filters feed the hasher the same inputs, so they hash alike. */
  lemma EqualFiltersHashAlike(a: RaceFilter, b: RaceFilter)
    requires RaceFilter.Equal(a, b)
    ensures a.HashInputs() == b.HashInputs()
  {
  }

  /** Series of different years hash alike but stay unequal. */
  lemma SeriesHashCollides(a: GQSeries, b: GQSeries)
    requires a != b
    ensures Series(a).HashInputs() == Series(b).HashInputs()
    ensures !RaceFilter.Equal(Series(a), Series(b))
  {
  }

  /** Different classes feed the hasher different inputs. */
  lemma ClassesHashApart(a: RaceClass, b: RaceClass)
    requires a != b
    ensures Classes(a).HashInputs() != Classes(b).HashInputs()
  {
    assert Classes(a).HashInputs()[1] != Classes(b).HashInputs()[1];
  }

  /** The default menu, by title: joined, nearby, my chapters, this year's series and the open class. */
  lemma DefaultFilterTitles(currentYear: int)
    ensures var fs := RaceFilter.AllCases(currentYear);
      fs[0].Title() == "Joined" && fs[1].Title() == "Nearby" && fs[2].Title() == "My Chapters"
      && fs[3] == Series(GQSeries(currentYear)) && fs[3].Title() == "GQ" + Text.IntToString(currentYear)
      && fs[4] == Classes(RaceClass.Open) && fs[4].Title() == "Open"
  {
  }

  /** Titles: fixed words for the plain cases, the class's title for a class, `GQ<year>` for a series. */
  lemma TitleTable(c: RaceClass, s: GQSeries)
    ensures Joined.Title() == "Joined" && Nearby.Title() == "Nearby" && Chapters.Title() == "My Chapters"
    ensures Classes(c).Title() == c.Title()
    ensures Series(s).Title() == "GQ" + Text.IntToString(s.year)
  {
  }

  /** Subtitles: the group title for classes and series, the title for the other cases. */
  lemma SubtitleTable(f: RaceFilter)
    ensures f.Classes? ==> f.Subtitle() == "Race Classes"
    ensures f.Series? ==> f.Subtitle() == "Global Qualifiers"
    ensures !f.Classes? && !f.Series? ==> f.Subtitle() == f.Title()
  {
  }

  /** A filter's title starts with 'G' exactly when the filter is a series. */
  lemma TitleStartsWithG(f: RaceFilter)
    ensures |f.Title()| > 0 && (f.Title()[0] == 'G' <==> f.Series?)
  {
  }

  /** No two filters share a title: a series title starts with "GQ", no other title starts with 'G'. */
  lemma TitleInjective(a: RaceFilter, b: RaceFilter)
    requires a.Title() == b.Title()
    ensures a == b
  {
    TitleStartsWithG(a);
    TitleStartsWithG(b);
    if a.Series? && b.Series? {
      GQSeries.TitleInjective(a.series, b.series);
    } else if a.Classes? && b.Classes? {
      RaceClass.TitleInjective(a.raceClass, b.raceClass);
    }
  }

  /** Every filter the parser can produce is parsed back from its title. */
  lemma FilterTitleRoundTrip(f: RaceFilter, currentYear: int)
    requires currentYear >= StartYear && ValidFilter(f, currentYear)
    ensures ParseItem(f.Title(), currentYear) == Some(f)
  {
    var title := f.Title();
    var byFilter := RaceFilter.FromTitle(title, currentYear);
    if byFilter.None? {
      match f
      case Classes(c) => RaceClass.TitleRoundTrip(title, c);
      case Series(s) => GQSeries.TitleRoundTrip(title, s, currentYear);
      case _ => assert f in RaceFilter.AllCases(currentYear);
    }
    ParseItemSound(title, currentYear);
    TitleInjective(f, ParseItem(title, currentYear).value);
  }

  /** Parsing the titles of valid filters, one per filter, gives back exactly those filters. */
  lemma ParseTitlesRoundTrip(titles: seq<string>, fs: seq<RaceFilter>, currentYear: int)
    requires currentYear >= StartYear
    requires forall f | f in fs :: ValidFilter(f, currentYear)
    requires |titles| == |fs| && forall i | 0 <= i < |fs| :: titles[i] == fs[i].Title()
    ensures ParsedFilters(titles, currentYear) == fs
  {
    var parsed := ParseItems(titles, currentYear);
    forall i | 0 <= i < |fs|
      ensures parsed[i] == Some(fs[i])
    {
      FilterTitleRoundTrip(fs[i], currentYear);
    }
    CompactAllPresent(parsed, fs);
  }
}
