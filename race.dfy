/**
 * A race: the `Race` object, the required-property check of its `init?(map:)` and its field mapping.
 * The object is a class whose mapping updates it in place. Its 54 properties are grouped in nine
 * records, one per block of `mapping(map:)`; `Fields` is the object's value, and `Mapped` is the
 * mapping as a function of that value, which the lemmas reason about. The schedule's decoding and
 * the results derived from it are parameters.
 */
module RaceModel {
  import opened Wrappers
  import opened JsonMap
  import opened DateUtil
  import opened RaceEnums
  import opened OptionSeq
  import RaceEntryModel
  import ParamKey

  /** A race's schedule, as decoded by its own mapping (not part of this model). */
  datatype RaceSchedule = RaceSchedule(source: JsonObject)

  /** One result row derived from a schedule (not part of this model). */
  datatype ResultEntry = ResultEntry(source: JsonObject)

  /** The nested decoders `mapping` relies on: the schedule object and `ResultEntry.resultEntries(from:)`. */
  datatype NestedDecoders = NestedDecoders(
    schedule: Json -> Option<RaceSchedule>,
    resultEntries: Option<RaceSchedule> -> Option<seq<ResultEntry>>)

  /** The keys `init?(map:)` requires, in the order it checks them; the id is deliberately not among them. */
  const RequiredProperties: seq<string> := [ParamKey.Name, ParamKey.ChapterId, ParamKey.OwnerId]

  /** The status the API's status string stands for: open only for the title of `RaceStatus.open`. */
  function StatusFromString(statusString: string): (r: RaceStatus)
    ensures r == RaceStatus.Open <==> statusString == "Open"
  {
    if statusString == RaceStatus.Open.Title() then RaceStatus.Open else RaceStatus.Closed
  }

  /**
   * ObjectMapper's mapping of an array of entries: nil unless the value is an array of objects;
   * otherwise each object decoded as an entry, dropping those that fail.
   */
  function DecodeEntries(j: Json, t: Transforms): (r: Option<seq<RaceEntryModel.RaceEntryFields>>)
    ensures r.Some? <==> j.JArray? && forall i | 0 <= i < |j.items| :: j.items[i].JObject?
    ensures r.Some? ==> |r.value| <= |j.items|
  {
    if j.JArray? && forall i | 0 <= i < |j.items| :: j.items[i].JObject? then
      Some(Compact(EntryDecodings(j.items, t)))
    else None
  }

  /** The `entries` conversion: `DecodeEntries` under the given transforms. */
  function EntriesDecoder(t: Transforms): (r: Json -> Option<seq<RaceEntryModel.RaceEntryFields>>)
    ensures forall j :: r(j) == DecodeEntries(j, t)
  {
    (j: Json) => DecodeEntries(j, t)
  }

  /** `EnumTransform<EventType>`: a string raw value read as the enumeration `EventType`. */
  function AsEventType(j: Json): Option<EventType> {
    AsEnum(j, EventType.FromRaw)
  }

  /** `EnumTransform<ScoringFormat>`: a string raw value read as the enumeration `ScoringFormat`. */
  function AsScoringFormat(j: Json): Option<ScoringFormat> {
    AsEnum(j, ScoringFormat.FromRaw)
  }

  /** `EnumTransform<RaceClass>`: a string raw value read as the enumeration `RaceClass`. */
  function AsRaceClass(j: Json): Option<RaceClass> {
    AsEnum(j, RaceClass.FromRaw)
  }

  /** `EnumTransform<RaceType>`: a string raw value read as the enumeration `RaceType`. */
  function AsRaceType(j: Json): Option<RaceType> {
    AsEnum(j, RaceType.FromRaw)
  }

  /** `EnumTransform<RaceOfficialStatus>`: a string raw value read as the enumeration `RaceOfficialStatus`. */
  function AsRaceOfficialStatus(j: Json): Option<RaceOfficialStatus> {
    AsEnum(j, RaceOfficialStatus.FromRaw)
  }

  /** `EnumTransform<QualifyingType>`: a string raw value read as the enumeration `QualifyingType`. */
  function AsQualifyingType(j: Json): Option<QualifyingType> {
    AsEnum(j, QualifyingType.FromRaw)
  }

  /** Each object of an array of entries decoded on its own. */
  function EntryDecodings(items: seq<Json>, t: Transforms): (r: seq<Option<RaceEntryModel.RaceEntryFields>>)
    requires forall i | 0 <= i < |items| :: items[i].JObject?
    ensures |r| == |items| && forall i | 0 <= i < |items| :: r[i] == RaceEntryModel.DecodeFields(items[i].fields, t)
  {
    seq(|items|, i requires 0 <= i < |items| => RaceEntryModel.DecodeFields(items[i].fields, t))
  }

  /** The fields `mapping(map:)` sets in Race.swift lines 96-108: identity, name, dates, image, enrolment and status. */
  datatype SummaryFields = SummaryFields(
    id: string,
    name: string,
    startDate: Option<Date>,
    endDate: Option<Date>,
    mainImageFileName: Option<string>,
    isJoined: bool,
    statusString: string,
    status: RaceStatus)

  /** The fields `mapping(map:)` sets in Race.swift lines 110-115: the event type, scoring format, class, race type and official status. */
  datatype ClassificationFields = ClassificationFields(
    eventType: EventType,
    scoringFormat: ScoringFormat,
    raceClass: RaceClass,
    raceClassString: string,
    raceType: RaceType,
    officialStatus: RaceOfficialStatus)

  /** The fields `mapping(map:)` sets in Race.swift lines 116-123: the flags and counters sent as strings. */
  datatype SettingsFields = SettingsFields(
    captureTimeEnabled: bool,
    isFinalized: bool,
    scoringDisabled: bool,
    cycleCount: Int32,
    disableSlotAutoPopulation: QualifyingType,
    maxZippyqDepth: Int32,
    zippyqIterator: bool,
    maxBatteriesForQualifying: Int32)

  /** The fields `mapping(map:)` sets in Race.swift lines 125-131: the descriptive text. */
  datatype TextFields = TextFields(
    urlName: string,
    liveTimeEventUrl: Option<string>,
    description: string,
    content: string,
    itinerary: string,
    raceEntryCount: string,
    participantCount: string)

  /** The fields `mapping(map:)` sets in Race.swift lines 133-139: the address and coordinates. */
  datatype LocationFields = LocationFields(
    address: Option<string>,
    city: Option<string>,
    state: Option<string>,
    country: Option<string>,
    zip: Option<string>,
    latitude: string,
    longitude: string)

  /** The fields `mapping(map:)` sets in Race.swift lines 141-146: the chapter and the owner. */
  datatype OwnershipFields = OwnershipFields(
    chapterId: string,
    chapterName: string,
    chapterImageFileName: Option<string>,
    ownerId: string,
    ownerUserName: string)

  /** The fields `mapping(map:)` sets in Race.swift lines 148-153: the parent race, season and course. */
  datatype HierarchyFields = HierarchyFields(
    childRaceCount: Option<string>,
    parentRaceId: Option<string>,
    seasonId: Option<string>,
    seasonName: string,
    courseId: Option<string>,
    courseName: string)

  /** The fields `mapping(map:)` sets in Race.swift lines 155-158: the equipment restrictions. */
  datatype RestrictionsFields = RestrictionsFields(
    typeRestriction: string,
    sizeRestriction: string,
    batteryRestriction: string,
    propSizeRestriction: string)

  /** The fields `mapping(map:)` sets in Race.swift lines 160-162: the entries and schedule, then the results derived from the schedule. */
  datatype RelatedFields = RelatedFields(
    entries: Option<seq<RaceEntryModel.RaceEntryFields>>,
    schedule: Option<RaceSchedule>,
    results: Option<seq<ResultEntry>>)

  /** The value of a `Race`'s fields, grouped as `mapping(map:)` assigns them. */
  datatype RaceFields = RaceFields(
    summary: SummaryFields,
    classification: ClassificationFields,
    settings: SettingsFields,
    text: TextFields,
    location: LocationFields,
    ownership: OwnershipFields,
    hierarchy: HierarchyFields,
    restrictions: RestrictionsFields,
    related: RelatedFields)

  /** A new race's fields, before any mapping. */
  const Default: RaceFields := RaceFields(
    summary := SummaryFields(
      id := "",
      name := "",
      startDate := None,
      endDate := None,
      mainImageFileName := None,
      isJoined := false,
      statusString := "",
      status := RaceStatus.Open),
    classification := ClassificationFields(
      eventType := EventType.Public,
      scoringFormat := ScoringFormat.Fastest3Laps,
      raceClass := RaceClass.Open,
      raceClassString := RaceClass.Open.Title(),
      raceType := RaceType.Normal,
      officialStatus := RaceOfficialStatus.Normal),
    settings := SettingsFields(
      captureTimeEnabled := true,
      isFinalized := false,
      scoringDisabled := false,
      cycleCount := 0,
      disableSlotAutoPopulation := QualifyingType.Controlled,
      maxZippyqDepth := 0,
      zippyqIterator := false,
      maxBatteriesForQualifying := 0),
    text := TextFields(
      urlName := "",
      liveTimeEventUrl := None,
      description := "",
      content := "",
      itinerary := "",
      raceEntryCount := "",
      participantCount := ""),
    location := LocationFields(
      address := None,
      city := None,
      state := None,
      country := None,
      zip := None,
      latitude := "",
      longitude := ""),
    ownership := OwnershipFields(
      chapterId := "",
      chapterName := "",
      chapterImageFileName := None,
      ownerId := "",
      ownerUserName := ""),
    hierarchy := HierarchyFields(
      childRaceCount := None,
      parentRaceId := None,
      seasonId := None,
      seasonName := "",
      courseId := None,
      courseName := ""),
    restrictions := RestrictionsFields(
      typeRestriction := "",
      sizeRestriction := "",
      batteryRestriction := "",
      propSizeRestriction := ""),
    related := RelatedFields(
      entries := None,
      schedule := None,
      results := None))

  /** `mapping(map:)` on the summary section, Race.swift lines 96-108: identity, name, dates, image, enrolment and status. */
  function MappedSummary(s: SummaryFields, json: JsonObject, t: Transforms, nested: NestedDecoders): SummaryFields {
    var statusString := Assign(s.statusString, json, ParamKey.Status, AsString);
    SummaryFields(
      id := Assign(s.id, json, ParamKey.Id, AsString),
      name := Assign(s.name, json, ParamKey.Name, t.text),
      startDate := AssignOptional(s.startDate, json, ParamKey.StartDate, t.date),
      endDate := AssignOptional(s.endDate, json, ParamKey.EndDate, t.date),
      mainImageFileName := AssignOptional(s.mainImageFileName, json, ParamKey.MainImageFileName, AsString),
      isJoined := Assign(s.isJoined, json, ParamKey.IsJoined, AsBool),
      statusString := statusString,
      status := StatusFromString(statusString))
  }

  /** `mapping(map:)` on the classification section, Race.swift lines 110-115: the event type, scoring format, class, race type and official status. */
  function MappedClassification(s: ClassificationFields, json: JsonObject, t: Transforms, nested: NestedDecoders): ClassificationFields {
    ClassificationFields(
      eventType := Assign(s.eventType, json, ParamKey.Type, AsEventType),
      scoringFormat := Assign(s.scoringFormat, json, ParamKey.ScoringFormat, AsScoringFormat),
      raceClass := Assign(s.raceClass, json, ParamKey.RaceClass, AsRaceClass),
      raceClassString := Assign(s.raceClassString, json, ParamKey.RaceClassString, AsString),
      raceType := Assign(s.raceType, json, ParamKey.RaceType, AsRaceType),
      officialStatus := Assign(s.officialStatus, json, ParamKey.OfficialStatus, AsRaceOfficialStatus))
  }

  /** `mapping(map:)` on the settings section, Race.swift lines 116-123: the flags and counters sent as strings. */
  function MappedSettings(s: SettingsFields, json: JsonObject, t: Transforms, nested: NestedDecoders): SettingsFields {
    SettingsFields(
      captureTimeEnabled := Assign(s.captureTimeEnabled, json, ParamKey.CaptureTimeEnabled, t.boolean),
      isFinalized := Assign(s.isFinalized, json, ParamKey.Finalized, t.boolean),
      scoringDisabled := Assign(s.scoringDisabled, json, ParamKey.ScoringDisabled, t.boolean),
      cycleCount := Assign(s.cycleCount, json, ParamKey.CycleCount, t.integer),
      disableSlotAutoPopulation := Assign(s.disableSlotAutoPopulation, json, ParamKey.DisableSlotAutoPopulation, AsQualifyingType),
      maxZippyqDepth := Assign(s.maxZippyqDepth, json, ParamKey.MaxZippyqDepth, t.integer),
      zippyqIterator := Assign(s.zippyqIterator, json, ParamKey.ZippyqIterator, AsBool),
      maxBatteriesForQualifying := Assign(s.maxBatteriesForQualifying, json, ParamKey.MaxBatteriesForQualifying, t.integer))
  }

  /** `mapping(map:)` on the text section, Race.swift lines 125-131: the descriptive text. */
  function MappedText(s: TextFields, json: JsonObject, t: Transforms, nested: NestedDecoders): TextFields {
    TextFields(
      urlName := Assign(s.urlName, json, ParamKey.UrlName, AsString),
      liveTimeEventUrl := AssignOptional(s.liveTimeEventUrl, json, ParamKey.LiveTimeEventUrl, AsString),
      description := Assign(s.description, json, ParamKey.Description, AsString),
      content := Assign(s.content, json, ParamKey.Content, AsString),
      itinerary := Assign(s.itinerary, json, ParamKey.ItineraryContent, AsString),
      raceEntryCount := Assign(s.raceEntryCount, json, ParamKey.RaceEntryCount, AsString),
      participantCount := Assign(s.participantCount, json, ParamKey.ParticipantCount, AsString))
  }

  /** `mapping(map:)` on the location section, Race.swift lines 133-139: the address and coordinates. */
  function MappedLocation(s: LocationFields, json: JsonObject, t: Transforms, nested: NestedDecoders): LocationFields {
    LocationFields(
      address := AssignOptional(s.address, json, ParamKey.Address, AsString),
      city := AssignOptional(s.city, json, ParamKey.City, AsString),
      state := AssignOptional(s.state, json, ParamKey.State, AsString),
      country := AssignOptional(s.country, json, ParamKey.Country, AsString),
      zip := AssignOptional(s.zip, json, ParamKey.Zip, AsString),
      latitude := Assign(s.latitude, json, ParamKey.Latitude, AsString),
      longitude := Assign(s.longitude, json, ParamKey.Longitude, AsString))
  }

  /** `mapping(map:)` on the ownership section, Race.swift lines 141-146: the chapter and the owner. */
  function MappedOwnership(s: OwnershipFields, json: JsonObject, t: Transforms, nested: NestedDecoders): OwnershipFields {
    OwnershipFields(
      chapterId := Assign(s.chapterId, json, ParamKey.ChapterId, AsString),
      chapterName := Assign(s.chapterName, json, ParamKey.ChapterName, t.text),
      chapterImageFileName := AssignOptional(s.chapterImageFileName, json, ParamKey.ChapterImageFileName, AsString),
      ownerId := Assign(s.ownerId, json, ParamKey.OwnerId, AsString),
      ownerUserName := Assign(s.ownerUserName, json, ParamKey.OwnerUserName, t.text))
  }

  /** `mapping(map:)` on the hierarchy section, Race.swift lines 148-153: the parent race, season and course. */
  function MappedHierarchy(s: HierarchyFields, json: JsonObject, t: Transforms, nested: NestedDecoders): HierarchyFields {
    HierarchyFields(
      childRaceCount := AssignOptional(s.childRaceCount, json, ParamKey.ChildRaceCount, AsString),
      parentRaceId := AssignOptional(s.parentRaceId, json, ParamKey.ParentRaceId, AsString),
      seasonId := AssignOptional(s.seasonId, json, ParamKey.SeasonId, AsString),
      seasonName := Assign(s.seasonName, json, ParamKey.SeasonName, t.text),
      courseId := AssignOptional(s.courseId, json, ParamKey.CourseId, AsString),
      courseName := Assign(s.courseName, json, ParamKey.CourseName, t.text))
  }

  /** `mapping(map:)` on the restrictions section, Race.swift lines 155-158: the equipment restrictions. */
  function MappedRestrictions(s: RestrictionsFields, json: JsonObject, t: Transforms, nested: NestedDecoders): RestrictionsFields {
    RestrictionsFields(
      typeRestriction := Assign(s.typeRestriction, json, ParamKey.TypeRestriction, AsString),
      sizeRestriction := Assign(s.sizeRestriction, json, ParamKey.SizeRestriction, AsString),
      batteryRestriction := Assign(s.batteryRestriction, json, ParamKey.BatteryRestriction, AsString),
      propSizeRestriction := Assign(s.propSizeRestriction, json, ParamKey.PropellerSizeRestriction, AsString))
  }

  /** `mapping(map:)` on the related section, Race.swift lines 160-162: the entries and schedule, then the results derived from the schedule. */
  function MappedRelated(s: RelatedFields, json: JsonObject, t: Transforms, nested: NestedDecoders): RelatedFields {
    var schedule := AssignOptional(s.schedule, json, ParamKey.Schedule, nested.schedule);
    RelatedFields(
      entries := AssignOptional(s.entries, json, ParamKey.Entries, EntriesDecoder(t)),
      schedule := schedule,
      results := nested.resultEntries(schedule))
  }

  /**
   * `mapping(map:)` as a function of the fields before it: each field read from its key, or kept;
   * the status recomputed from the new status string, the results from the new schedule.
   */
  function Mapped(f: RaceFields, json: JsonObject, t: Transforms, nested: NestedDecoders): (r: RaceFields)
    ensures r.summary.status == RaceStatus.Open <==> r.summary.statusString == RaceStatus.Open.Title()
    ensures r.related.results == nested.resultEntries(r.related.schedule)
  {
    RaceFields(
      MappedSummary(f.summary, json, t, nested),
      MappedClassification(f.classification, json, t, nested),
      MappedSettings(f.settings, json, t, nested),
      MappedText(f.text, json, t, nested),
      MappedLocation(f.location, json, t, nested),
      MappedOwnership(f.ownership, json, t, nested),
      MappedHierarchy(f.hierarchy, json, t, nested),
      MappedRestrictions(f.restrictions, json, t, nested),
      MappedRelated(f.related, json, t, nested))
  }

  /** `init?(map:)`: nil when a required key is missing, otherwise a new race mapped from the JSON. */
  function DecodeFields(json: JsonObject, t: Transforms, nested: NestedDecoders): (r: Option<RaceFields>)
    ensures r.None? <==> ParamKey.Name !in json || ParamKey.ChapterId !in json || ParamKey.OwnerId !in json
    ensures r.Some? ==> r.value == Mapped(Default, json, t, nested)
  {
    if HasRequired(json, RequiredProperties) then Some(Mapped(Default, json, t, nested)) else None
  }

  class Race {
    var summary: SummaryFields
    var classification: ClassificationFields
    var settings: SettingsFields
    var text: TextFields
    var location: LocationFields
    var ownership: OwnershipFields
    var hierarchy: HierarchyFields
    var restrictions: RestrictionsFields
    var related: RelatedFields

    function Fields(): RaceFields
      reads this
    {
      RaceFields(summary, classification, settings, text, location, ownership, hierarchy, restrictions, related)
    }

    constructor ()
      ensures Fields() == Default
    {
      summary := Default.summary;
      classification := Default.classification;
      settings := Default.settings;
      text := Default.text;
      location := Default.location;
      ownership := Default.ownership;
      hierarchy := Default.hierarchy;
      restrictions := Default.restrictions;
      related := Default.related;
    }

    /**
     * `mapping(map:)`: every section is read from the fields before the call (no section reads
     * another), then the sections are stored in the source's order.
     */
    method Mapping(json: JsonObject, t: Transforms, nested: NestedDecoders)
      modifies this
      ensures Fields() == Mapped(old(Fields()), json, t, nested)
    {
      var mapped := Mapped(Fields(), json, t, nested);
      summary := mapped.summary;
      classification := mapped.classification;
      settings := mapped.settings;
      text := mapped.text;
      location := mapped.location;
      ownership := mapped.ownership;
      hierarchy := mapped.hierarchy;
      restrictions := mapped.restrictions;
      related := mapped.related;
    }

    /** `init?(map:)`: checks the required keys, then maps a new race. */
    static method Decode(json: JsonObject, t: Transforms, nested: NestedDecoders) returns (race: Race?)
      ensures race == null <==> DecodeFields(json, t, nested).None?
      ensures race != null ==> fresh(race) && race.Fields() == DecodeFields(json, t, nested).value
    {
      var ok := CheckRequiredProperties(json, RequiredProperties);
      if !ok {
        return null;
      }
      race := new Race();
      race.Mapping(json, t, nested);
    }
  }

  /** Mapping the summary section twice with the same JSON changes nothing more. */
  lemma MappedSummaryIdempotent(s: SummaryFields, json: JsonObject, t: Transforms, nested: NestedDecoders)
    ensures MappedSummary(MappedSummary(s, json, t, nested), json, t, nested) == MappedSummary(s, json, t, nested)
  {
  }

  /** Mapping the classification section twice with the same JSON changes nothing more. */
  lemma MappedClassificationIdempotent(s: ClassificationFields, json: JsonObject, t: Transforms, nested: NestedDecoders)
    ensures MappedClassification(MappedClassification(s, json, t, nested), json, t, nested) == MappedClassification(s, json, t, nested)
  {
  }

  /** Mapping the settings section twice with the same JSON changes nothing more. */
  lemma MappedSettingsIdempotent(s: SettingsFields, json: JsonObject, t: Transforms, nested: NestedDecoders)
    ensures MappedSettings(MappedSettings(s, json, t, nested), json, t, nested) == MappedSettings(s, json, t, nested)
  {
  }

  /** Mapping the text section twice with the same JSON changes nothing more. */
  lemma MappedTextIdempotent(s: TextFields, json: JsonObject, t: Transforms, nested: NestedDecoders)
    ensures MappedText(MappedText(s, json, t, nested), json, t, nested) == MappedText(s, json, t, nested)
  {
  }

  /** Mapping the location section twice with the same JSON changes nothing more. */
  lemma MappedLocationIdempotent(s: LocationFields, json: JsonObject, t: Transforms, nested: NestedDecoders)
    ensures MappedLocation(MappedLocation(s, json, t, nested), json, t, nested) == MappedLocation(s, json, t, nested)
  {
  }

  /** Mapping the ownership section twice with the same JSON changes nothing more. */
  lemma MappedOwnershipIdempotent(s: OwnershipFields, json: JsonObject, t: Transforms, nested: NestedDecoders)
    ensures MappedOwnership(MappedOwnership(s, json, t, nested), json, t, nested) == MappedOwnership(s, json, t, nested)
  {
  }

  /** Mapping the hierarchy section twice with the same JSON changes nothing more. */
  lemma MappedHierarchyIdempotent(s: HierarchyFields, json: JsonObject, t: Transforms, nested: NestedDecoders)
    ensures MappedHierarchy(MappedHierarchy(s, json, t, nested), json, t, nested) == MappedHierarchy(s, json, t, nested)
  {
  }

  /** Mapping the restrictions section twice with the same JSON changes nothing more. */
  lemma MappedRestrictionsIdempotent(s: RestrictionsFields, json: JsonObject, t: Transforms, nested: NestedDecoders)
    ensures MappedRestrictions(MappedRestrictions(s, json, t, nested), json, t, nested) == MappedRestrictions(s, json, t, nested)
  {
  }

  /** Mapping the related section twice with the same JSON changes nothing more. */
  lemma MappedRelatedIdempotent(s: RelatedFields, json: JsonObject, t: Transforms, nested: NestedDecoders)
    ensures MappedRelated(MappedRelated(s, json, t, nested), json, t, nested) == MappedRelated(s, json, t, nested)
  {
  }

  /** Mapping the same JSON twice leaves the fields mapping it once left. */
  lemma MappedIdempotent(f: RaceFields, json: JsonObject, t: Transforms, nested: NestedDecoders)
    ensures Mapped(Mapped(f, json, t, nested), json, t, nested) == Mapped(f, json, t, nested)
  {
    MappedSummaryIdempotent(f.summary, json, t, nested);
    MappedClassificationIdempotent(f.classification, json, t, nested);
    MappedSettingsIdempotent(f.settings, json, t, nested);
    MappedTextIdempotent(f.text, json, t, nested);
    MappedLocationIdempotent(f.location, json, t, nested);
    MappedOwnershipIdempotent(f.ownership, json, t, nested);
    MappedHierarchyIdempotent(f.hierarchy, json, t, nested);
    MappedRestrictionsIdempotent(f.restrictions, json, t, nested);
    MappedRelatedIdempotent(f.related, json, t, nested);
  }

  /** A status string on the wire decides the status: open exactly when it is "Open". */
  lemma StatusFollowsWire(f: RaceFields, json: JsonObject, t: Transforms, nested: NestedDecoders)
    requires ParamKey.Status in json && json[ParamKey.Status].JString?
    ensures Mapped(f, json, t, nested).summary.status == RaceStatus.Open <==> json[ParamKey.Status].s == "Open"
  {
  }

  /** A race decoded without a status string is closed, although a new race starts open. */
  lemma MissingStatusDecodesClosed(json: JsonObject, t: Transforms, nested: NestedDecoders)
    requires DecodeFields(json, t, nested).Some?
    requires ParamKey.Status !in json || !json[ParamKey.Status].JString?
    ensures Default.summary.status == RaceStatus.Open
    ensures DecodeFields(json, t, nested).value.summary.status == RaceStatus.Closed
  {
  }

  /** The id is not required: the three required keys alone decode, and the id stays "". */
  lemma IdNotRequired(name: string, chapterId: string, ownerId: string, t: Transforms, nested: NestedDecoders)
    ensures var json := map[ParamKey.Name := JString(name), ParamKey.ChapterId := JString(chapterId), ParamKey.OwnerId := JString(ownerId)];
      DecodeFields(json, t, nested).Some? && DecodeFields(json, t, nested).value.summary.id == ""
  {
    var json := map[ParamKey.Name := JString(name), ParamKey.ChapterId := JString(chapterId), ParamKey.OwnerId := JString(ownerId)];
    assert HasRequired(json, RequiredProperties);
    assert ParamKey.Id !in json by {
      assert |ParamKey.Id| !in {|ParamKey.Name|, |ParamKey.ChapterId|, |ParamKey.OwnerId|};
    }
    assert MappedSummary(Default.summary, json, t, nested).id == "";
  }

  /** Every decoded entry is the decoding of one of the array's objects, and every object that decodes is kept. */
  lemma DecodedEntriesComeFromItems(j: Json, t: Transforms, e: RaceEntryModel.RaceEntryFields)
    requires DecodeEntries(j, t).Some?
    ensures e in DecodeEntries(j, t).value <==> exists i | 0 <= i < |j.items| :: RaceEntryModel.DecodeFields(j.items[i].fields, t) == Some(e)
  {
    var ds := EntryDecodings(j.items, t);
    CompactContains(ds, e);
    if Some(e) in ds {
      var i :| 0 <= i < |ds| && ds[i] == Some(e);
      assert RaceEntryModel.DecodeFields(j.items[i].fields, t) == Some(e);
    }
  }

  /** The declared defaults of a new race. */
  lemma DefaultFieldValues()
    ensures Default.summary.status == RaceStatus.Open && Default.classification.scoringFormat == ScoringFormat.Fastest3Laps
    ensures Default.classification.raceClass == RaceClass.Open && Default.classification.raceType == RaceType.Normal
    ensures Default.settings.captureTimeEnabled && !Default.settings.isFinalized && Default.classification.raceClassString == "Open"
    ensures Default.related.entries.None? && Default.related.schedule.None? && Default.related.results.None?
  {
  }
}
