/**
 * Date parsing and display selection. `DateFormatter` itself is foreign: a formatter is modelled by
 * its configuration, and parsing and formatting with a configuration are parameters. What is modelled
 * is the order in which parsers are tried and which display formatter a date gets.
 */
module DateUtil {
  import opened Wrappers
  import ApiConstants

  /** A point in time, in whole seconds from a fixed reference date. */
  datatype Date = Date(seconds: int)

  /** What a `DateFormatter` is set up with: its pattern, its locale and its AM/PM symbols, when set. */
  datatype FormatterConfig = FormatterConfig(dateFormat: string, locale: Option<string>, amSymbol: Option<string>, pmSymbol: Option<string>)

  /** The formatter for the current wire format. */
  const StandardDateFormatter: FormatterConfig :=
    FormatterConfig(ApiConstants.StandardDateTimeFormat, Some(ApiConstants.USLocale), None, None)

  /** The formatter for the legacy wire format. */
  const OldDateFormatter: FormatterConfig :=
    FormatterConfig(ApiConstants.OldDateTimeFormat, Some(ApiConstants.USLocale), None, None)

  /** `date(from:)` of a formatter: a parse that may fail. */
  type Parser = (FormatterConfig, string) -> Option<Date>

  /** The standard format is tried first and the legacy one second. */
  function DeserializeJSONDate(jsonDate: string, parse: Parser): (r: Option<Date>)
    ensures parse(StandardDateFormatter, jsonDate).Some? ==> r == parse(StandardDateFormatter, jsonDate)
    ensures parse(StandardDateFormatter, jsonDate).None? ==> r == parse(OldDateFormatter, jsonDate)
    ensures r.None? <==> parse(StandardDateFormatter, jsonDate).None? && parse(OldDateFormatter, jsonDate).None?
  {
    match parse(StandardDateFormatter, jsonDate)
    case Some(date) => Some(date)
    case None =>
      match parse(OldDateFormatter, jsonDate)
      case Some(date) => Some(date)
      case None => None
  }

  /** The two formatters really differ, so the fallback can accept what the first refuses. */
  lemma FallbackIsDistinct()
    ensures StandardDateFormatter != OldDateFormatter
  {
    ApiConstants.DateTimeFormatsDistinct();
  }

  /** The legacy parser is consulted only when the standard parser fails: two parsers that agree on a
      successful standard parse give the same result, whatever they do with the legacy format. */
  lemma LegacyParserOnlyOnFailure(jsonDate: string, p: Parser, q: Parser)
    requires p(StandardDateFormatter, jsonDate) == q(StandardDateFormatter, jsonDate)
    requires p(StandardDateFormatter, jsonDate).Some?
    ensures DeserializeJSONDate(jsonDate, p) == DeserializeJSONDate(jsonDate, q)
  {
  }

  /** The display formatters. */
  datatype DisplayFormatter =
    | FullDateTime2Line
    | FullDateTime
    | FullDateTimeYear
    | DateTime
    | DateOnly
    | TimeOnly
  {
    function Config(): FormatterConfig {
      match this
      case FullDateTime2Line => FormatterConfig("EEEE, MMMM d\n@ h:mm a", None, Some("AM"), Some("PM"))
      case FullDateTime => FormatterConfig("EEEE, MMM d @ h:mm a", None, Some("AM"), Some("PM"))
      case FullDateTimeYear => FormatterConfig("MMMM d, yyyy @ h:mm a", None, Some("AM"), Some("PM"))
      case DateTime => FormatterConfig("EE, MMM d @ h:mm a", None, Some("AM"), Some("PM"))
      case DateOnly => FormatterConfig("MMM d, yyyy", None, None, None)
      case TimeOnly => FormatterConfig("@ h:mm a", None, None, None)
    }
  }

  /**
   * The formatter `localizedString` picks. `inThisYear` is `isInThisYear`; `now` is the clock.
   * `timeIntervalSinceNow.sign == .plus` holds for a date at or after now, since a zero interval is
   * positive zero.
   */
  function FormatterFor(date: Date, full: bool, inThisYear: bool, now: Date): (r: DisplayFormatter)
    ensures full ==> (r == FullDateTime <==> inThisYear) && (r == FullDateTimeYear <==> !inThisYear)
    ensures !full ==> (r == DateTime <==> inThisYear || date.seconds >= now.seconds) && (r == DateOnly <==> !inThisYear && date.seconds < now.seconds)
  {
    if full then
      if inThisYear then FullDateTime else FullDateTimeYear
    else if inThisYear || date.seconds - now.seconds >= 0 then DateTime
    else DateOnly
  }

  /** Nothing to show for no date; otherwise the date rendered with the formatter `FormatterFor` picks. */
  function LocalizedString(date: Option<Date>, full: bool, inThisYear: Date -> bool, now: Date,
                           format: (FormatterConfig, Date) -> string): (r: Option<string>)
    ensures date.None? <==> r.None?
    ensures date.Some? ==> r == Some(format(FormatterFor(date.value, full, inThisYear(date.value), now).Config(), date.value))
  {
    match date
    case None => None
    case Some(d) => Some(format(FormatterFor(d, full, inThisYear(d), now).Config(), d))
  }

  /** The year is part of the display exactly for a date outside this year that is shown in full or lies in the past. */
  lemma YearShownExactly(date: Date, full: bool, inThisYear: bool, now: Date)
    ensures 'y' in FormatterFor(date, full, inThisYear, now).Config().dateFormat <==> !inThisYear && (full || date.seconds < now.seconds)
  {
    var f := FormatterFor(date, full, inThisYear, now);
    var fmt := f.Config().dateFormat;
    if f == FullDateTimeYear || f == DateOnly {
      assert fmt[|fmt| - 4] == 'y' || fmt[|fmt| - 11] == 'y';
    }
  }

  /** The time of day is part of the display unless the date-only formatter is picked. */
  lemma TimeShownExactly(date: Date, full: bool, inThisYear: bool, now: Date)
    ensures 'h' in FormatterFor(date, full, inThisYear, now).Config().dateFormat <==> full || inThisYear || date.seconds >= now.seconds
  {
    var f := FormatterFor(date, full, inThisYear, now);
    var fmt := f.Config().dateFormat;
    if f != DateOnly {
      assert fmt[|fmt| - 6] == 'h';
    }
  }
}
