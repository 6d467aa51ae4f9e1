# RaceSync API core, modelled in Dafny

This project models the client-side core of the MultiGP RaceSync API layer, the Swift framework that the
RaceSync iOS app uses to talk to the MultiGP race-management service. It covers:

- **Wire vocabulary** (`ApiConstants`, `EndPoint`, `ParamKey` in `api_constants.dfy`): the page size, the
  date formats, the race, chapter and aircraft endpoint paths, and the JSON parameter keys.
- **Enumerations** (`RaceEnums`): race type, status, event type, official status, scoring format, race class
  and qualifying type, each with its raw value, its display title and the lookups by either of them.
- **Race filters** (`RaceFilters`): the filter menu (`RaceFilter`), Global Qualifier series (`GQSeries`), how a
  filter is hashed and compared, and how a list of stored titles is parsed back into filters.
- **Dates** (`DateUtil`): parsing API dates with a standard and a legacy format, and picking a display format.
- **Object mapping** (`JsonMap`, `RaceEntryModel`, `RaceModel`): ObjectMapper's `<-` assignment, the
  required-key check of `init?(map:)`, and the `RaceEntry` and `Race` classes whose `mapping(map:)` updates
  their fields in place.
- **Race permissions** (`RaceExtensions`): `isMyChapter`, `canBeEdited`, `canBeDeleted`, `canBeFinalized`
  and the rest, over the signed-in session (`Services`).
- **Requests** (`Requests`, `RaceApi`, `ChapterApi`): what each API call hands to the repository adapter.
  That is the endpoint (with any `?id=` query), the parameter dictionary, the pagination and the key path.
  `parametersForRaces` is built step by step, as the source builds it.
- **URL helpers** (`UrlExtensions`): appending a query item, and the second-level or root domain of a host.
- **Image uploads** (`ImageConstants`): the title, form key and endpoint of each image kind.

Each imperative piece of the source is a method proved equal to a specification function:

- `parametersForRaces` and `parametersForMyLocalChapters` fill a dictionary key by key;
- `filters(with:)` loops over the items;
- the required-key check is a loop;
- `Race.mapping` and `RaceEntry.mapping` update object fields.

The properties of each call are then stated about the specification function: which keys are sent and
when, the ids that read back from the query, and the round trips between titles and values.

Where the source leans on code outside the core, that code is a parameter of the model:

- the signed-in session (`APIServices.shared`) is a `Session` value;
- the unit conversion of `APIUnitSystem` is a `toMiles` function;
- the JSON transforms are a `Transforms` record;
- `RaceSchedule` and `ResultEntry` decoding is a `NestedDecoders` record;
- `Date.isPassed` and `isInThisYear` are functions or booleans;
- `DateFormatter` parsing and formatting are functions;
- `URLComponents` is a `UrlCodec`;
- the `RaceData` parameter encoding is a `RaceDataCodec`.

A few places where the code and its own documentation differ; the model follows the code:

- The doc comment of `getRaces` says the page size defaults to 25 (RaceSyncAPI/Network/RaceApi.swift:43).
  The code's default is `StandardPageSize`, which is 100 (RaceSyncAPI/Network/RaceApi.swift:180).
- The chapter ids of a race list are sent as a list under the singular key `chapterId`
  (RaceSyncAPI/Network/RaceApi.swift:194-196).
- `getLocalChapters` sends the stored search radius unconverted, while `parametersForRaces` converts
  kilometres to miles. `ChapterApi.LocalChapterRadiusIsUnconverted` states the difference.
- A decoded `Race` whose JSON has no status string is closed, although a new `Race` starts open
  (`RaceModel.MissingStatusDecodesClosed`).

## Model

| member | source | states |
|---|---|---|
| ApiConstants.DateTimeFormatsDistinct | RaceSyncAPI/Constants/APIConstants.swift:14-16 | the standard and legacy date-time formats differ, and both extend the plain date format |
| EndPoint.RaceEndpoints | RaceSyncAPI/Constants/APIConstants.swift:26-42 | all 17 race endpoints start with `race/` and carry no query of their own |
| EndPoint.ChapterEndpoints | RaceSyncAPI/Constants/APIConstants.swift:44-50 | all 7 chapter endpoints start with `chapter/` and carry no query of their own |
| EndPoint.RaceAndChapterEndpointsDistinct | RaceSyncAPI/Constants/APIConstants.swift:26-50 | no race or chapter endpoint path is declared twice, and no race path is a chapter path |
| RaceEnums.RaceType.FromRaw | RaceSyncAPI/Enums/RaceEnums.swift:11-22 | `RaceType(rawValue:)` gives exactly the case with that raw value, and none for any other string |
| RaceEnums.RaceType.RawValueInjective | RaceSyncAPI/Enums/RaceEnums.swift:11-22 | two cases with the same raw value are the same case |
| RaceEnums.RaceType.TitleInjective | RaceSyncAPI/Enums/RaceEnums.swift:11-22 | two cases with the same title are the same case |
| RaceEnums.RaceType.AllCases | RaceSyncAPI/Enums/RaceEnums.swift:11-22 | `allCases` has one entry per case (3) |
| RaceEnums.RaceType.Listed | RaceSyncAPI/Enums/RaceEnums.swift:11-22 | every case is in `allCases` |
| RaceEnums.RaceType.FromTitle | RaceSyncAPI/Enums/RaceEnums.swift:11-22 | `init(title:)` only returns a case with that title |
| RaceEnums.RaceType.TitleRoundTrip | RaceSyncAPI/Enums/RaceEnums.swift:11-22 | `init(title:)` finds every case again from its title |
| RaceEnums.RaceStatus.FromRaw | RaceSyncAPI/Enums/RaceEnums.swift:26-35 | `RaceStatus(rawValue:)` gives exactly the case with that raw value, and none for any other string |
| RaceEnums.RaceStatus.RawValueInjective | RaceSyncAPI/Enums/RaceEnums.swift:26-35 | two cases with the same raw value are the same case |
| RaceEnums.RaceStatus.TitleInjective | RaceSyncAPI/Enums/RaceEnums.swift:26-35 | two cases with the same title are the same case |
| RaceEnums.RaceStatus.AllCases | RaceSyncAPI/Enums/RaceEnums.swift:26-35 | `allCases` has one entry per case (2) |
| RaceEnums.RaceStatus.Listed | RaceSyncAPI/Enums/RaceEnums.swift:26-35 | every case is in `allCases` |
| RaceEnums.RaceStatus.FromTitle | RaceSyncAPI/Enums/RaceEnums.swift:26-35 | `init(title:)` only returns a case with that title |
| RaceEnums.RaceStatus.TitleRoundTrip | RaceSyncAPI/Enums/RaceEnums.swift:26-35 | `init(title:)` finds every case again from its title |
| RaceEnums.EventType.FromRaw | RaceSyncAPI/Enums/RaceEnums.swift:40-49 | `EventType(rawValue:)` gives exactly the case with that raw value, and none for any other string |
| RaceEnums.EventType.RawValueInjective | RaceSyncAPI/Enums/RaceEnums.swift:40-49 | two cases with the same raw value are the same case |
| RaceEnums.EventType.TitleInjective | RaceSyncAPI/Enums/RaceEnums.swift:40-49 | two cases with the same title are the same case |
| RaceEnums.EventType.AllCases | RaceSyncAPI/Enums/RaceEnums.swift:40-49 | `allCases` has one entry per case (2) |
| RaceEnums.EventType.Listed | RaceSyncAPI/Enums/RaceEnums.swift:40-49 | every case is in `allCases` |
| RaceEnums.EventType.FromTitle | RaceSyncAPI/Enums/RaceEnums.swift:40-49 | `init(title:)` only returns a case with that title |
| RaceEnums.EventType.TitleRoundTrip | RaceSyncAPI/Enums/RaceEnums.swift:40-49 | `init(title:)` finds every case again from its title |
| RaceEnums.RaceOfficialStatus.FromRaw | RaceSyncAPI/Enums/RaceEnums.swift:53-64 | `RaceOfficialStatus(rawValue:)` gives exactly the case with that raw value, and none for any other string |
| RaceEnums.RaceOfficialStatus.RawValueInjective | RaceSyncAPI/Enums/RaceEnums.swift:53-64 | two cases with the same raw value are the same case |
| RaceEnums.RaceOfficialStatus.TitleInjective | RaceSyncAPI/Enums/RaceEnums.swift:53-64 | two cases with the same title are the same case |
| RaceEnums.ScoringFormat.FromRaw | RaceSyncAPI/Enums/RaceEnums.swift:68-81 | `ScoringFormat(rawValue:)` gives exactly the case with that raw value, and none for any other string |
| RaceEnums.ScoringFormat.RawValueInjective | RaceSyncAPI/Enums/RaceEnums.swift:68-81 | two cases with the same raw value are the same case |
| RaceEnums.ScoringFormat.TitleInjective | RaceSyncAPI/Enums/RaceEnums.swift:68-81 | two cases with the same title are the same case |
| RaceEnums.ScoringFormat.AllCases | RaceSyncAPI/Enums/RaceEnums.swift:68-81 | `allCases` has one entry per case (4) |
| RaceEnums.ScoringFormat.Listed | RaceSyncAPI/Enums/RaceEnums.swift:68-81 | every case is in `allCases` |
| RaceEnums.ScoringFormat.FromTitle | RaceSyncAPI/Enums/RaceEnums.swift:68-81 | `init(title:)` only returns a case with that title |
| RaceEnums.ScoringFormat.TitleRoundTrip | RaceSyncAPI/Enums/RaceEnums.swift:68-81 | `init(title:)` finds every case again from its title |
| RaceEnums.RaceClass.FromRaw | RaceSyncAPI/Enums/RaceEnums.swift:86-109 | `RaceClass(rawValue:)` gives exactly the case with that raw value, and none for any other string |
| RaceEnums.RaceClass.RawValueInjective | RaceSyncAPI/Enums/RaceEnums.swift:86-109 | two cases with the same raw value are the same case |
| RaceEnums.RaceClass.TitleInjective | RaceSyncAPI/Enums/RaceEnums.swift:86-109 | two cases with the same title are the same case |
| RaceEnums.RaceClass.AllCases | RaceSyncAPI/Enums/RaceEnums.swift:86-109 | `allCases` has one entry per case (9) |
| RaceEnums.RaceClass.Listed | RaceSyncAPI/Enums/RaceEnums.swift:86-109 | every case is in `allCases` |
| RaceEnums.RaceClass.FromTitle | RaceSyncAPI/Enums/RaceEnums.swift:86-109 | `init(title:)` only returns a case with that title |
| RaceEnums.RaceClass.TitleRoundTrip | RaceSyncAPI/Enums/RaceEnums.swift:86-109 | `init(title:)` finds every case again from its title |
| RaceEnums.QualifyingType.FromRaw | RaceSyncAPI/Enums/RaceEnums.swift:113-122 | `QualifyingType(rawValue:)` gives exactly the case with that raw value, and none for any other string |
| RaceEnums.QualifyingType.RawValueInjective | RaceSyncAPI/Enums/RaceEnums.swift:113-122 | two cases with the same raw value are the same case |
| RaceEnums.QualifyingType.TitleInjective | RaceSyncAPI/Enums/RaceEnums.swift:113-122 | two cases with the same title are the same case |
| RaceEnums.QualifyingType.AllCases | RaceSyncAPI/Enums/RaceEnums.swift:113-122 | `allCases` has one entry per case (2) |
| RaceEnums.QualifyingType.Listed | RaceSyncAPI/Enums/RaceEnums.swift:113-122 | every case is in `allCases` |
| RaceEnums.QualifyingType.FromTitle | RaceSyncAPI/Enums/RaceEnums.swift:113-122 | `init(title:)` only returns a case with that title |
| RaceEnums.QualifyingType.TitleRoundTrip | RaceSyncAPI/Enums/RaceEnums.swift:113-122 | `init(title:)` finds every case again from its title |
| RaceEnums.RaceType.RawValue | RaceSyncAPI/Enums/RaceEnums.swift:12-14 | the raw values normal "1", qualifier "2", final "3"; distinct by `RawValueInjective`, decoded back by `FromRaw` |
| RaceEnums.RaceType.Title | RaceSyncAPI/Enums/RaceEnums.swift:16-22 | the titles "Normal", "Qualifiers", "Championship"; distinct by `TitleInjective` |
| RaceEnums.RaceStatus.RawValue | RaceSyncAPI/Enums/RaceEnums.swift:27-28 | the raw values open "0", closed "1"; distinct by `RawValueInjective`, decoded back by `FromRaw` |
| RaceEnums.RaceStatus.Title | RaceSyncAPI/Enums/RaceEnums.swift:30-35 | the titles "Open", "Closed"; distinct by `TitleInjective` |
| RaceEnums.EventType.RawValue | RaceSyncAPI/Enums/RaceEnums.swift:41-42 | the raw values public "1", private "0"; distinct by `RawValueInjective`, decoded back by `FromRaw` |
| RaceEnums.EventType.Title | RaceSyncAPI/Enums/RaceEnums.swift:44-49 | the titles "Public Event", "Private Event"; distinct by `TitleInjective` |
| RaceEnums.RaceOfficialStatus.RawValue | RaceSyncAPI/Enums/RaceEnums.swift:54-56 | the raw values normal "0", requested "1", approved "2"; distinct by `RawValueInjective`, decoded back by `FromRaw` |
| RaceEnums.RaceOfficialStatus.Title | RaceSyncAPI/Enums/RaceEnums.swift:58-64 | the titles "Normal", "Requested", "Official"; distinct by `TitleInjective` |
| RaceEnums.ScoringFormat.RawValue | RaceSyncAPI/Enums/RaceEnums.swift:69-72 | the raw values aggregate lap "0", fastest lap "1", fastest 2 laps "6", fastest 3 laps "2"; distinct by `RawValueInjective`, decoded back by `FromRaw` |
| RaceEnums.ScoringFormat.Title | RaceSyncAPI/Enums/RaceEnums.swift:74-81 | the titles "Aggregate Laps", "Fastest Lap", "Fastest 2 Consecutive Laps", "Fastest 3 Consecutive Laps"; distinct by `TitleInjective` |
| RaceEnums.RaceClass.RawValue | RaceSyncAPI/Enums/RaceEnums.swift:87-95 | the raw values open "0" through pro spec "8", in declaration order; distinct by `RawValueInjective`, decoded back by `FromRaw` |
| RaceEnums.RaceClass.Title | RaceSyncAPI/Enums/RaceEnums.swift:97-109 | the titles "Open", "Whoop", "Micro", "Freedom Spec", "7 Inch Spec", "Mega", "E-Sport class", "5 Inch Spec", "Pro Spec"; distinct by `TitleInjective` |
| RaceEnums.QualifyingType.RawValue | RaceSyncAPI/Enums/RaceEnums.swift:114-115 | the raw values controlled "0", open "1"; distinct by `RawValueInjective`, decoded back by `FromRaw` |
| RaceEnums.QualifyingType.Title | RaceSyncAPI/Enums/RaceEnums.swift:117-122 | the titles "Controlled Qualifying", "Open ZippyQ"; distinct by `TitleInjective` |
| RaceFilters.GQSeries.Title | RaceSyncAPI/APIRaceFilters.swift:111-113 | `GQ` followed by the year; distinct per year by `GQSeries.TitleInjective` |
| RaceFilters.GQSeries.IsValidYear | RaceSyncAPI/APIRaceFilters.swift:122-124 | a year from 2017 through the current year; exactly the years `GQSeries.AllCases` lists |
| RaceFilters.RaceFilter.Title | RaceSyncAPI/APIRaceFilters.swift:23-36 | the title switch, pinned down by `TitleTable` and `TitleInjective` |
| RaceFilters.RaceFilter.Subtitle | RaceSyncAPI/APIRaceFilters.swift:38-47 | the subtitle switch, pinned down by `SubtitleTable` |
| RaceFilters.RaceFilter.Equal | RaceSyncAPI/APIRaceFilters.swift:72-85 | the hand-written `==`; structural equality by `EqualIsStructural` |
| RaceFilters.RaceFilter.HashInputs | RaceSyncAPI/APIRaceFilters.swift:55-69 | what `hash(into:)` combines: the tag, plus the class for `.classes`; see `EqualFiltersHashAlike` and `SeriesHashCollides` |
| RaceFilters.ParseItem | RaceSyncAPI/APIRaceFilters.swift:93-99 | one item tried as a filter title, then a class title, then a series title; its properties are `ParseItemSound` and `FilterTitleRoundTrip` |
| RaceModel.MappedSummary | RaceSyncAPI/Models/Race.swift:96-108 | the `<-` assignments of this block of `mapping(map:)`; idempotent by `MappedSummaryIdempotent` |
| RaceModel.MappedClassification | RaceSyncAPI/Models/Race.swift:110-115 | the `<-` assignments of this block of `mapping(map:)`; idempotent by `MappedClassificationIdempotent` |
| RaceModel.MappedSettings | RaceSyncAPI/Models/Race.swift:116-123 | the `<-` assignments of this block of `mapping(map:)`; idempotent by `MappedSettingsIdempotent` |
| RaceModel.MappedText | RaceSyncAPI/Models/Race.swift:125-131 | the `<-` assignments of this block of `mapping(map:)`; idempotent by `MappedTextIdempotent` |
| RaceModel.MappedLocation | RaceSyncAPI/Models/Race.swift:133-139 | the `<-` assignments of this block of `mapping(map:)`; idempotent by `MappedLocationIdempotent` |
| RaceModel.MappedOwnership | RaceSyncAPI/Models/Race.swift:141-146 | the `<-` assignments of this block of `mapping(map:)`; idempotent by `MappedOwnershipIdempotent` |
| RaceModel.MappedHierarchy | RaceSyncAPI/Models/Race.swift:148-153 | the `<-` assignments of this block of `mapping(map:)`; idempotent by `MappedHierarchyIdempotent` |
| RaceModel.MappedRestrictions | RaceSyncAPI/Models/Race.swift:155-158 | the `<-` assignments of this block of `mapping(map:)`; idempotent by `MappedRestrictionsIdempotent` |
| RaceModel.MappedRelated | RaceSyncAPI/Models/Race.swift:160-162 | the `<-` assignments of this block of `mapping(map:)`; idempotent by `MappedRelatedIdempotent` |
| RaceEntryModel.Mapped | RaceSyncAPI/Models/RaceEntry.swift:45-63 | every `<-` assignment of `mapping(map:)`; idempotent by `RaceEntryModel.MappedIdempotent`; `DecodedIds` gives the ids |
| RaceApi.RaceListParams | RaceSyncAPI/Network/RaceApi.swift:184-204 | the `getRaces` dictionary: `RaceQuery` extended with the optional keys; exact contents in `RaceListParamsContents` |
| DateUtil.DisplayFormatter.Config | RaceSyncAPI/Utils/DateUtil.swift:51-93 | the format string and AM/PM symbols of each display formatter; `YearShownExactly` and `TimeShownExactly` read them |
| UrlExtensions.Join | RaceSyncAPI/Extensions/URL+Extensions.swift:44 | `joined(separator: ".")`; the inverse of `Split` by `JoinSplit` and `SplitJoin` |
| EnumTitle.FirstWhere | RaceSyncAPI/APIRaceFilters.swift:93-97 | `init(title:)`: a case in the list satisfying the test, none iff no case does; the first by `FirstWhereIsFirst` |
| RaceEnums.RaceClassRawValuesSequential | RaceSyncAPI/Enums/RaceEnums.swift:86-95 | the nine class raw values are "0" through "8" in declaration order |
| RaceEnums.RaceStatusTable | RaceSyncAPI/Enums/RaceEnums.swift:26-35 | open is raw "0" titled "Open", closed is raw "1" titled "Closed" |
| RaceEnums.ScoringFormatRawValues | RaceSyncAPI/Enums/RaceEnums.swift:68-72 | aggregate "0", fastest lap "1", fastest 3 laps "2", fastest 2 laps "6"; "3" to "5" decode to no format |
| RaceFilters.GQSeries.AllCases | RaceSyncAPI/APIRaceFilters.swift:116-120 | one series per year from 2017 through the current year, in increasing order, and exactly the valid years |
| RaceFilters.GQSeries.Create | RaceSyncAPI/APIRaceFilters.swift:122-129 | a series exactly for the years in 2017...currentYear, carrying that year |
| RaceFilters.GQSeries.TitleInjective | RaceSyncAPI/APIRaceFilters.swift:111-113 | `GQ<year>` titles of different years differ |
| RaceFilters.GQSeries.FromTitle | RaceSyncAPI/APIRaceFilters.swift:105-118 | `init(title:)` only returns a valid series titled with the string |
| RaceFilters.GQSeries.TitleRoundTrip | RaceSyncAPI/APIRaceFilters.swift:105-118 | every valid series is found again from its title |
| RaceFilters.Hasher.constructor | RaceSyncAPI/APIRaceFilters.swift:55 | a fresh hasher has combined nothing |
| RaceFilters.Hasher.Combine | RaceSyncAPI/APIRaceFilters.swift:58-67 | `combine` appends one input after those already combined |
| RaceFilters.RaceFilter.AllCases | RaceSyncAPI/APIRaceFilters.swift:50-52 | the default menu has five filters |
| RaceFilters.RaceFilter.FromTitle | RaceSyncAPI/APIRaceFilters.swift:19-36 | `init(title:)` only returns a default filter titled with the string |
| RaceFilters.RaceFilter.HashInto | RaceSyncAPI/APIRaceFilters.swift:55-69 | `hash(into:)` appends the filter's hash inputs after what the hasher already holds |
| RaceFilters.RaceFilter.FiltersWith | RaceSyncAPI/APIRaceFilters.swift:90-102 | the loop's output equals `ParsedFilters`: each item tried as a filter title, then a class title, then a series title |
| RaceFilters.ParseItemSound | RaceSyncAPI/APIRaceFilters.swift:93-99 | an item gives at most one filter, titled by the item, and a series only in the valid range |
| RaceFilters.ParseItems | RaceSyncAPI/APIRaceFilters.swift:92-100 | one parse per item, position by position |
| RaceFilters.ParsedFilters | RaceSyncAPI/APIRaceFilters.swift:90-102 | never more filters than items; each filter valid and titled by one of the items |
| RaceFilters.ParsedFiltersStep | RaceSyncAPI/APIRaceFilters.swift:92-100 | one more item appends its parse, if any, at the end |
| RaceFilters.ParseItemsAppend | RaceSyncAPI/APIRaceFilters.swift:92-100 | parsing item by item distributes over concatenation |
| RaceFilters.ParsedFiltersAppend | RaceSyncAPI/APIRaceFilters.swift:90-102 | parsing distributes over concatenation, so the output keeps the items' order |
| RaceFilters.EqualIsStructural | RaceSyncAPI/APIRaceFilters.swift:72-85 | `==` holds exactly when the two filters are the same case with equal class or series |
| RaceFilters.DifferentCasesNeverEqual | RaceSyncAPI/APIRaceFilters.swift:82-83 | filters of different cases are never equal |
| RaceFilters.EqualFiltersHashAlike | RaceSyncAPI/APIRaceFilters.swift:55-85 | equal filters feed the hasher the same inputs |
| RaceFilters.SeriesHashCollides | RaceSyncAPI/APIRaceFilters.swift:66-67 | series of different years hash alike yet are unequal |
| RaceFilters.ClassesHashApart | RaceSyncAPI/APIRaceFilters.swift:63-65 | different classes feed the hasher different inputs |
| RaceFilters.DefaultFilterTitles | RaceSyncAPI/APIRaceFilters.swift:23-52 | the default menu is Joined, Nearby, My Chapters, this year's `GQ<year>` series and the Open class, in that order |
| RaceFilters.TitleTable | RaceSyncAPI/APIRaceFilters.swift:23-36 | "Joined", "Nearby", "My Chapters"; a class's own title; `GQ` followed by the series year |
| RaceFilters.SubtitleTable | RaceSyncAPI/APIRaceFilters.swift:38-47 | "Race Classes" for classes, "Global Qualifiers" for series, the title otherwise |
| RaceFilters.TitleStartsWithG | RaceSyncAPI/APIRaceFilters.swift:23-36 | only a series title starts with 'G' |
| RaceFilters.TitleInjective | RaceSyncAPI/APIRaceFilters.swift:23-36 | no two filters share a title |
| RaceFilters.FilterTitleRoundTrip | RaceSyncAPI/APIRaceFilters.swift:93-99 | every producible filter parses back from its title |
| RaceFilters.ParseTitlesRoundTrip | RaceSyncAPI/APIRaceFilters.swift:90-102 | parsing the titles of valid filters gives back exactly those filters |
| DateUtil.DeserializeJSONDate | RaceSyncAPI/Utils/DateUtil.swift:21-29 | the standard parse whenever it succeeds, else the legacy parse; nil iff both fail |
| DateUtil.FallbackIsDistinct | RaceSyncAPI/Utils/DateUtil.swift:13-19 | the standard and legacy formatters are configured differently |
| DateUtil.LegacyParserOnlyOnFailure | RaceSyncAPI/Utils/DateUtil.swift:21-24 | the legacy parser is not consulted when the standard parse succeeds |
| DateUtil.FormatterFor | RaceSyncAPI/Utils/DateUtil.swift:34-45 | full: full date-time iff this year, else with year; otherwise date-time iff this year or not in the past, else date only |
| DateUtil.LocalizedString | RaceSyncAPI/Utils/DateUtil.swift:31-46 | nil iff no date; otherwise the date formatted with the selected formatter |
| DateUtil.YearShownExactly | RaceSyncAPI/Utils/DateUtil.swift:31-93 | the year appears exactly for a date outside this year shown in full or lying in the past |
| DateUtil.TimeShownExactly | RaceSyncAPI/Utils/DateUtil.swift:31-93 | the time of day appears unless the date-only formatter is picked |
| JsonMap.AsBool | RaceSyncAPI/Models/Race.swift:101 | `as? Bool`: a JSON boolean, or a number that is 0 (false) or 1 (true); nothing for any other value |
| JsonMap.Assign | RaceSyncAPI/Models/Race.swift:96-158 | `<-` on a non-optional field: a present key with a convertible value replaces the field, otherwise it is kept |
| JsonMap.AssignOptional | RaceSyncAPI/Models/Race.swift:96-161 | `<-` on an optional field: a present key sets the converted value or nil, an absent key keeps the field |
| JsonMap.AssignIdempotent | RaceSyncAPI/Models/Race.swift:96-158 | assigning from the same JSON twice equals assigning once |
| JsonMap.AssignOptionalIdempotent | RaceSyncAPI/Models/Race.swift:96-161 | assigning an optional from the same JSON twice equals assigning once |
| JsonMap.CheckRequiredProperties | RaceSyncAPI/Models/Race.swift:84-89 | the loop succeeds iff every required key is present |
| RaceEntryModel.DecodeFields | RaceSyncAPI/Models/RaceEntry.swift:34-43 | nil iff id or pilotId is missing; otherwise the defaults mapped from the JSON |
| RaceEntryModel.RaceEntry.constructor | RaceSyncAPI/Models/RaceEntry.swift:14-30 | a new entry holds the declared defaults |
| RaceEntryModel.RaceEntry.Mapping | RaceSyncAPI/Models/RaceEntry.swift:45-63 | the new fields are `Mapped` of the old fields |
| RaceEntryModel.RaceEntry.MapIdentity | RaceSyncAPI/Models/RaceEntry.swift:46-53 | each id and name field is assigned from its key, the others untouched |
| RaceEntryModel.RaceEntry.MapDetails | RaceSyncAPI/Models/RaceEntry.swift:54-62 | score, picture, radio and date fields are assigned from their keys |
| RaceEntryModel.RaceEntry.Decode | RaceSyncAPI/Models/RaceEntry.swift:36-43 | null iff a required key is missing; otherwise a fresh entry holding the decoded fields |
| RaceEntryModel.MappedIdempotent | RaceSyncAPI/Models/RaceEntry.swift:45-63 | mapping the same JSON twice equals mapping it once |
| RaceEntryModel.DecodedIds | RaceSyncAPI/Models/RaceEntry.swift:34-47 | a decoded entry carries the JSON's id and pilotId when they are strings, else "" |
| RaceEntryModel.OnlyIdsRequired | RaceSyncAPI/Models/RaceEntry.swift:34-43 | a JSON with only the two ids decodes, every other field at its default |
| RaceEntryModel.DefaultFieldValues | RaceSyncAPI/Models/RaceEntry.swift:14-30 | string fields start ""; score, picture, radio and date fields start nil |
| RaceModel.StatusFromString | RaceSyncAPI/Models/Race.swift:102-108 | open iff the status string is "Open", closed for every other string |
| RaceModel.DecodeEntries | RaceSyncAPI/Models/Race.swift:160 | an array of objects gives its decodable entries (never more than the items); anything else gives nil |
| RaceModel.EntriesDecoder | RaceSyncAPI/Models/Race.swift:160 | the `entries` conversion is `DecodeEntries` on every JSON value |
| RaceModel.EntryDecodings | RaceSyncAPI/Models/Race.swift:160 | one `RaceEntry` decode per item, in order |
| RaceModel.Mapped | RaceSyncAPI/Models/Race.swift:95-163 | after mapping, status is open iff the status string is "Open", and results are derived from the new schedule |
| RaceModel.DecodeFields | RaceSyncAPI/Models/Race.swift:82-93 | nil iff name, chapterId or ownerId is missing; otherwise the defaults mapped from the JSON |
| RaceModel.Race.constructor | RaceSyncAPI/Models/Race.swift:13-75 | a new race holds the declared defaults |
| RaceModel.Race.Mapping | RaceSyncAPI/Models/Race.swift:95-163 | the new fields are `Mapped` of the old fields |
| RaceModel.Race.Decode | RaceSyncAPI/Models/Race.swift:84-93 | null iff a required key is missing; otherwise a fresh race holding the decoded fields |
| RaceModel.MappedSummaryIdempotent | RaceSyncAPI/Models/Race.swift:96-108 | mapping this block twice with the same JSON equals mapping it once |
| RaceModel.MappedClassificationIdempotent | RaceSyncAPI/Models/Race.swift:110-115 | mapping this block twice with the same JSON equals mapping it once |
| RaceModel.MappedSettingsIdempotent | RaceSyncAPI/Models/Race.swift:116-123 | mapping this block twice with the same JSON equals mapping it once |
| RaceModel.MappedTextIdempotent | RaceSyncAPI/Models/Race.swift:125-131 | mapping this block twice with the same JSON equals mapping it once |
| RaceModel.MappedLocationIdempotent | RaceSyncAPI/Models/Race.swift:133-139 | mapping this block twice with the same JSON equals mapping it once |
| RaceModel.MappedOwnershipIdempotent | RaceSyncAPI/Models/Race.swift:141-146 | mapping this block twice with the same JSON equals mapping it once |
| RaceModel.MappedHierarchyIdempotent | RaceSyncAPI/Models/Race.swift:148-153 | mapping this block twice with the same JSON equals mapping it once |
| RaceModel.MappedRestrictionsIdempotent | RaceSyncAPI/Models/Race.swift:155-158 | mapping this block twice with the same JSON equals mapping it once |
| RaceModel.MappedRelatedIdempotent | RaceSyncAPI/Models/Race.swift:160-162 | mapping this block twice with the same JSON equals mapping it once |
| RaceModel.MappedIdempotent | RaceSyncAPI/Models/Race.swift:95-163 | mapping the same JSON twice equals mapping it once |
| RaceModel.StatusFollowsWire | RaceSyncAPI/Models/Race.swift:102-108 | with a status string on the wire, the race is open iff that string is "Open" |
| RaceModel.MissingStatusDecodesClosed | RaceSyncAPI/Models/Race.swift:21-108 | a new race starts open, yet a decoded race with no status string is closed |
| RaceModel.IdNotRequired | RaceSyncAPI/Models/Race.swift:82-93 | name, chapterId and ownerId alone decode, and the id stays "" |
| RaceModel.DecodedEntriesComeFromItems | RaceSyncAPI/Models/Race.swift:160 | an entry is kept iff some object of the array decodes to it |
| RaceModel.DefaultFieldValues | RaceSyncAPI/Models/Race.swift:15-75 | defaults: status open, scoring fastest 3 laps, class open, type normal, capture time on, not finalized, no entries, schedule or results |
| RaceExtensions.ManagedChapterIds | RaceSyncAPI/Models/Extensions/Race+Extensions.swift:15 | an id is listed iff some managed chapter carries it; never more ids than chapters |
| RaceExtensions.IsMyChapter | RaceSyncAPI/Models/Extensions/Race+Extensions.swift:13-17 | false before managed chapters are loaded; otherwise true iff some managed chapter's id is the race's chapter id |
| RaceExtensions.CanBeEdited | RaceSyncAPI/Models/Extensions/Race+Extensions.swift:19-22 | editing needs loaded managed chapters |
| RaceExtensions.CanChangeEnrollment | RaceSyncAPI/Models/Extensions/Race+Extensions.swift:24-27 | changing enrolment needs loaded managed chapters |
| RaceExtensions.CanBeDuplicated | RaceSyncAPI/Models/Extensions/Race+Extensions.swift:29-33 | only a normal race can be duplicated |
| RaceExtensions.CanBeDeleted | RaceSyncAPI/Models/Extensions/Race+Extensions.swift:35-39 | deleting needs a signed-in user who owns the race |
| RaceExtensions.CanBeFinalized | RaceSyncAPI/Models/Extensions/Race+Extensions.swift:41-46 | finalizing needs a start date that has passed and a race not yet finalized |
| RaceExtensions.IsGQ | RaceSyncAPI/Models/Extensions/Race+Extensions.swift:48-51 | a Global Qualifier iff the race type is qualifier |
| RaceExtensions.TrueScoringFormat | RaceSyncAPI/Models/Extensions/Race+Extensions.swift:53-55 | fastest 3 laps for every Global Qualifier, the stored format otherwise |
| RaceExtensions.PermissionsNarrow | RaceSyncAPI/Models/Extensions/Race+Extensions.swift:19-46 | finalize implies delete, delete implies edit, duplicate implies edit; enrolment equals edit |
| RaceExtensions.DeletableExactly | RaceSyncAPI/Models/Extensions/Race+Extensions.swift:13-39 | deletable iff the signed-in user owns the race and manages its chapter |
| RaceExtensions.EditableExactly | RaceSyncAPI/Models/Extensions/Race+Extensions.swift:19-22 | editable iff the managed chapters are loaded and one carries the race's chapter id, i.e. `isMyChapter` |
| RaceExtensions.EnrollmentExactly | RaceSyncAPI/Models/Extensions/Race+Extensions.swift:24-27 | enrolment can change iff the managed chapters are loaded and one carries the race's chapter id, i.e. `isMyChapter` |
| RaceExtensions.DuplicableExactly | RaceSyncAPI/Models/Extensions/Race+Extensions.swift:29-33 | duplicable iff `isMyChapter` and the race type is normal |
| RaceExtensions.FinalizableExactly | RaceSyncAPI/Models/Extensions/Race+Extensions.swift:41-46 | finalizable iff deletable, with a start date that has passed, and not finalized yet |
| RaceExtensions.FinalizedStaysFinal | RaceSyncAPI/Models/Extensions/Race+Extensions.swift:45 | a finalized race can never be finalized |
| RaceExtensions.IsMyChapterMonotone | RaceSyncAPI/Models/Extensions/Race+Extensions.swift:13-17 | more managed chapters never revoke `isMyChapter` |
| RaceExtensions.GQFormatIgnoresStored | RaceSyncAPI/Models/Extensions/Race+Extensions.swift:53-55 | a Global Qualifier's true format does not depend on its stored format |
| Requests.Entry | RaceSyncAPI/Network/RaceApi.swift:271-272 | `params[key] = value` on an empty dictionary: the key is present iff the value is, with that value |
| Requests.WithQuery | RaceSyncAPI/Network/RaceApi.swift:211 | `"\(endpoint)?\(key)=\(value)"`: the endpoint, a '?', and the value at the end |
| Requests.QueryValue | RaceSyncAPI/Network/RaceApi.swift:211 | a query value read back is never longer than the path |
| Requests.QueryValueOfWithQuery | RaceSyncAPI/Network/RaceApi.swift:211 | reading the query back gives the interpolated value |
| Requests.WithQueryInjective | RaceSyncAPI/Network/RaceApi.swift:211 | equal query paths on one endpoint and key have equal values |
| Requests.QueryValueHasEndpoint | RaceSyncAPI/Network/RaceApi.swift:211 | a path carrying a query on an endpoint starts with that endpoint |
| Requests.Extend | RaceSyncAPI/Network/RaceApi.swift:186-204 | `if let v = value { params[key] = v }`: adds the key iff the value is present, other keys unchanged |
| RaceApi.RaceListFilters.RawValue | RaceSyncAPI/APIRaceFilters.swift:12-16 | every raw value is non-empty; `FilterRawRoundTrip` decodes each back to its filter |
| RaceApi.RaceListFilters.FromRaw | RaceSyncAPI/APIRaceFilters.swift:11-17 | decoding gives exactly the filter with that raw value |
| RaceApi.FilterRawRoundTrip | RaceSyncAPI/APIRaceFilters.swift:11-17 | every filter decodes back from its raw value |
| RaceApi.RadiusInMiles | RaceSyncAPI/Network/RaceApi.swift:337-343 | kilometres are converted to miles, miles sent as they are |
| RaceApi.NearbyParams | RaceSyncAPI/Network/RaceApi.swift:345-347 | always the radius; latitude and longitude iff given; no other key |
| RaceApi.WindowParams | RaceSyncAPI/Network/RaceApi.swift:359-361 | exactly `limit = pageSize` |
| RaceApi.RaceQuery | RaceSyncAPI/Network/RaceApi.swift:329-365 | nearBy iff nearby; joined iff joined and not nearby; isQualifier iff series; upcoming iff upcoming; past iff past and not upcoming; no other key; each with its value |
| RaceApi.ParametersForRaces | RaceSyncAPI/Network/RaceApi.swift:329-365 | the dictionary built step by step equals `RaceQuery` |
| RaceApi.RaceQueryIgnoresFilterOrder | RaceSyncAPI/Network/RaceApi.swift:336-362 | only which filters are present matters, not their order or repetition |
| RaceApi.NoFiltersNoParameters | RaceSyncAPI/Network/RaceApi.swift:334 | no filters give an empty dictionary |
| RaceApi.NonEmptyText | RaceSyncAPI/Network/RaceApi.swift:186-200 | a text value is sent iff it is present and non-empty |
| RaceApi.NonEmptyIds | RaceSyncAPI/Network/RaceApi.swift:194-196 | the chapter ids are sent iff present and non-empty, as a list |
| RaceApi.RaceClassValue | RaceSyncAPI/Network/RaceApi.swift:202-204 | the class is sent iff given, as its raw value |
| RaceApi.ListKeysFresh | RaceSyncAPI/Network/RaceApi.swift:184-204 | the list query's own keys are distinct from each other and from the filter keys |
| RaceApi.RaceListParamsContents | RaceSyncAPI/Network/RaceApi.swift:184-204 | every filter parameter kept; name, startDate, chapterId, seasonId iff non-empty, raceClass iff given; nothing else added |
| RaceApi.GetRaces | RaceSyncAPI/Network/RaceApi.swift:172-207 | a `race/list` call with `RaceListParams`, paged at the given page and size |
| RaceApi.MyRacesQuery | RaceSyncAPI/Network/RaceApi.swift:164-169 | the user's id, and the given coordinates or else the user's own; other arguments at their defaults |
| RaceApi.GetMyRaces | RaceSyncAPI/Network/RaceApi.swift:160-170 | no call iff no user; otherwise the list call for `MyRacesQuery` on the first standard page |
| RaceApi.MyNearbyRacesAroundUser | RaceSyncAPI/Network/RaceApi.swift:164-348 | a nearby query without coordinates searches around the user's stored coordinates |
| RaceApi.MyJoinedRacesAreTheUsers | RaceSyncAPI/Network/RaceApi.swift:164-352 | a joined-only query sends exactly `joined = {pilotId: user id}` |
| RaceApi.View | RaceSyncAPI/Network/RaceApi.swift:209-214 | a get on `race/view` with no parameters; the race id reads back from the `id` query |
| RaceApi.ViewSimple | RaceSyncAPI/Network/RaceApi.swift:216-221 | a get on `race/viewSimple` with no parameters; the race id reads back from the `id` query |
| RaceApi.Join | RaceSyncAPI/Network/RaceApi.swift:223-229 | an action on `race/join` sending the aircraft id; the race id reads back from the `id` query |
| RaceApi.Resign | RaceSyncAPI/Network/RaceApi.swift:231-236 | an action on `race/resign` with no parameters; the race id reads back from the `id` query |
| RaceApi.ForceJoin | RaceSyncAPI/Network/RaceApi.swift:238-244 | an action on `race/forceJoinPilot` sending the pilot id; the race id reads back from the `id` query |
| RaceApi.ForceResign | RaceSyncAPI/Network/RaceApi.swift:246-252 | an action on `race/resign` sending the pilot id; the race id reads back from the `id` query |
| RaceApi.Open | RaceSyncAPI/Network/RaceApi.swift:254-259 | an action on `race/open`; the race id reads back from the `id` query |
| RaceApi.Close | RaceSyncAPI/Network/RaceApi.swift:261-266 | an action on `race/close`; the race id reads back from the `id` query |
| RaceApi.CheckIn | RaceSyncAPI/Network/RaceApi.swift:268-275 | a get on `race/checkIn`, sending the pilot id iff one is given; the race id reads back from the `id` query |
| RaceApi.CheckOut | RaceSyncAPI/Network/RaceApi.swift:277-284 | a get on `race/checkOut`, sending the pilot id iff one is given; the race id reads back from the `id` query |
| RaceApi.DeleteRace | RaceSyncAPI/Network/RaceApi.swift:308-313 | an action on `race/delete`; the race id reads back from the `id` query |
| RaceApi.FinalizeRace | RaceSyncAPI/Network/RaceApi.swift:315-320 | an action on `race/finalize`; the race id reads back from the `id` query |
| RaceApi.CreateRace | RaceSyncAPI/Network/RaceApi.swift:286-292 | a get on `race/create` sending the data's parameters; the chapter id reads back from the `chapterId` query |
| RaceApi.UpdateRace | RaceSyncAPI/Network/RaceApi.swift:294-306 | the diff against the previous data when given, else all the data; the race id reads back from the query |
| RaceApi.QueryOnRaceEndpointCancelled | RaceSyncAPI/Network/RaceApi.swift:322-324 | a call with a query on a `race/` endpoint is under the cancel prefix |
| RaceApi.CancelAllCoversRaceCalls | RaceSyncAPI/Network/RaceApi.swift:322-324 | every race call's path starts with `race/`, so `cancelAll()` cancels it |
| RaceApi.ForceResignIsResignForAPilot | RaceSyncAPI/Network/RaceApi.swift:231-252 | forcing a pilot out uses resign's path, told apart only by the pilot parameter |
| RaceApi.ActionNamesOneRace | RaceSyncAPI/Network/RaceApi.swift:211-317 | distinct race ids give distinct view, join, delete and finalize calls |
| ChapterApi.GetChapters | RaceSyncAPI/Network/ChapterApi.swift:52-59 | a paged `chapter/list` call sending only `joined = {pilotId: userId}` |
| ChapterApi.LocalChapterParams | RaceSyncAPI/Network/ChapterApi.swift:116-125 | empty with no user; else exactly latitude, longitude and the stored radius |
| ChapterApi.ParametersForMyLocalChapters | RaceSyncAPI/Network/ChapterApi.swift:116-125 | the dictionary built key by key equals `LocalChapterParams` |
| ChapterApi.GetLocalChapters | RaceSyncAPI/Network/ChapterApi.swift:61-67 | a paged `chapter/findLocal` call with the local parameters |
| ChapterApi.GetChapter | RaceSyncAPI/Network/ChapterApi.swift:69-75 | a get on `chapter/search` keyed only by id |
| ChapterApi.SearchChapter | RaceSyncAPI/Network/ChapterApi.swift:77-83 | a get on `chapter/search` keyed only by chapterName |
| ChapterApi.GetChapterMembers | RaceSyncAPI/Network/ChapterApi.swift:85-90 | an unpaginated list with no parameters; the chapter id reads back from the query |
| ChapterApi.GetMyManagedChapters | RaceSyncAPI/Network/ChapterApi.swift:92-97 | a `chapter/listManaged` list read under the `managedChapters` key, default paging |
| ChapterApi.JoinChapter | RaceSyncAPI/Network/ChapterApi.swift:99-104 | an action on `chapter/join`; the chapter id reads back from the query |
| ChapterApi.ResignChapter | RaceSyncAPI/Network/ChapterApi.swift:106-111 | an action on `chapter/resign`; the chapter id reads back from the query |
| ChapterApi.ChapterMembersIgnorePaging | RaceSyncAPI/Network/ChapterApi.swift:85-89 | the page arguments never change the members call |
| ChapterApi.LookupsDistinct | RaceSyncAPI/Network/ChapterApi.swift:69-83 | a lookup by id and one by name never send the same request |
| ChapterApi.LocalChapterRadiusIsUnconverted | RaceSyncAPI/Network/ChapterApi.swift:123 | for a kilometre user the chapter query sends the stored radius while the race query converts it |
| ChapterApi.MembershipActionsDistinct | RaceSyncAPI/Network/ChapterApi.swift:99-111 | join and resign calls differ, and each names one chapter |
| UrlExtensions.AppendedComponents | RaceSyncAPI/Extensions/URL+Extensions.swift:17-26 | the existing items, in order, then exactly the new item; the rest of the URL unchanged |
| UrlExtensions.AppendedTwice | RaceSyncAPI/Extensions/URL+Extensions.swift:13-30 | two appends keep both new items after the existing ones, in order |
| UrlExtensions.Appending | RaceSyncAPI/Extensions/URL+Extensions.swift:13-30 | the URL unchanged when it cannot be split; otherwise the URL built from the appended components |
| UrlExtensions.Split | RaceSyncAPI/Extensions/URL+Extensions.swift:36-41 | `components(separatedBy: ".")` gives at least one part and no part holds a '.' |
| UrlExtensions.JoinPrefixFirst | RaceSyncAPI/Extensions/URL+Extensions.swift:36-44 | prefixing the first part prefixes the joined string |
| UrlExtensions.JoinSplit | RaceSyncAPI/Extensions/URL+Extensions.swift:36-44 | joining the split parts with '.' gives the string back |
| UrlExtensions.SplitAfterPart | RaceSyncAPI/Extensions/URL+Extensions.swift:36-44 | splitting a dotless part and a dot splits off exactly that part |
| UrlExtensions.SplitNoDot | RaceSyncAPI/Extensions/URL+Extensions.swift:36-41 | a dotless string is one part |
| UrlExtensions.SplitJoin | RaceSyncAPI/Extensions/URL+Extensions.swift:36-44 | splitting joined dotless parts gives the parts back |
| UrlExtensions.JoinTailIsSuffix | RaceSyncAPI/Extensions/URL+Extensions.swift:44 | any tail of the parts joins to a suffix of the whole |
| UrlExtensions.LastTwo | RaceSyncAPI/Extensions/URL+Extensions.swift:36-44 | `suffix(2)`: the last two elements, or all when fewer |
| UrlExtensions.LastTwoIsSuffix | RaceSyncAPI/Extensions/URL+Extensions.swift:44 | the last two parts join to a suffix of the whole |
| UrlExtensions.SLD | RaceSyncAPI/Extensions/URL+Extensions.swift:35-37 | nil iff no host; otherwise a suffix of the host |
| UrlExtensions.RootDomain | RaceSyncAPI/Extensions/URL+Extensions.swift:39-48 | nil iff no host; a host of at most two parts unchanged; else its last two parts, which split back to two parts; always a suffix of the host |
| UrlExtensions.SLDIsRootDomain | RaceSyncAPI/Extensions/URL+Extensions.swift:35-48 | `SLD == rootDomain` for every URL |
| UrlExtensions.RootDomainIdempotent | RaceSyncAPI/Extensions/URL+Extensions.swift:39-48 | the root domain of a root domain is itself |
| ImageConstants.ImageType.Title | RaceSyncAPI/Constants/ImageConstants.swift:15-20 | "avatar" for main, "background" for background |
| ImageConstants.ImageType.Key | RaceSyncAPI/Constants/ImageConstants.swift:22-27 | "mainImageInput" for main, "backgroundImageInput" for background |
| ImageConstants.ImageType.Endpoint | RaceSyncAPI/Constants/ImageConstants.swift:29-34 | "uploadMainImage" for main, "uploadBackground" for background |
| ImageConstants.EndpointUnderAircraft | RaceSyncAPI/Constants/ImageConstants.swift:29-34 | each image endpoint completes the matching aircraft upload path |
| ImageConstants.TablesInjective | RaceSyncAPI/Constants/ImageConstants.swift:15-34 | title, key and endpoint each tell the two kinds apart |

## Left out

- Network execution: the repository adapter, Alamofire requests, completion handlers, error values and request cancellation are not modelled. A call is modelled as the request it describes, and `cancelAll()` as the `race/` prefix it cancels.
- The repository adapter's own defaults: a call that passes no pagination or key path is `AdapterDefault` (the adapter's values are not part of this model).
- `APIServices.shared` is a `Session` parameter. Loading the user, the settings and the managed chapters is not modelled.
- `APIUnitSystem.convert` is the `toMiles` parameter. Its arithmetic and string formatting are not modelled.
- `DateFormatter` parsing and formatting, time zones and locales are functions or configuration values. A `Date` is a whole number of seconds, and `isPassed`, `isInThisYear` and the current year are inputs.
- ObjectMapper internals: the `<-` operator is modelled as ObjectMapper documents it (an absent key leaves the field alone). The `MapperUtil` transforms are parameters. Untransformed casts are `AsString` (a JSON string only) and `AsBool` (a JSON boolean, or a number 0 or 1, as `NSNumber` bridges). JSON numbers are whole numbers in this model.
- `RaceSchedule` and `ResultEntry` are opaque types, decoded through `NestedDecoders`. `RaceData` and its `toParameters`/`toDiffParameters` are the `RaceDataCodec` parameter.
- `URLComponents` parsing and building are the `UrlCodec` parameter. Only absolute URLs are modelled.
- UrlExtensions.Appending: requires that building succeeds whenever parsing succeeds, because the source force-unwraps `components.url!` and would crash otherwise.
- RaceFilters.GQSeries.AllCases: requires the current year to be at least 2017, because the source's `2017...currentYear` range traps below that. The same requirement carries over to the series and filter parsing that uses it.
- EnumTitle.FirstWhere: `init(title:)` returns the first case whose title matches. The model uses the same first-match rule; since titles are distinct, first match and the unique match coincide.
- RaceModel.Race.Mapping: the Race fields are grouped into nine section records, one per block of `mapping(map:)`, and mapping computes all sections before storing them. The source assigns field by field; because each block reads only the JSON and its own earlier fields, the order of statements inside `mapping(map:)` is not modelled beyond that.
- RaceExtensions.CanBeEdited, RaceExtensions.CanChangeEnrollment, RaceExtensions.CanBeDuplicated, RaceExtensions.CanBeDeleted, RaceExtensions.CanBeFinalized: each contract states only a necessary condition. The exact conditions are the lemmas `EditableExactly`, `EnrollmentExactly`, `DuplicableExactly`, `DeletableExactly` and `FinalizableExactly`.
- ChapterApi page-size defaults: Swift default arguments are passed explicitly by every caller of the model.
- Integer width: `Int` is unbounded except for the `Int32` the integer transform returns. Page numbers and sizes are not range-checked by the source either.
- RaceSyncAPI/Constants/RaceConstants.swift, the network proxy, API credentials, the app delegate and the UI image assets are not part of this model.
