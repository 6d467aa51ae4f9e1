/**
 * A pilot's entry in a race: the `RaceEntry` object, its required-property check and its field
 * mapping. The object is a class whose mapping assigns its fields in place; `Fields` is its value,
 * and `Mapped` is the mapping as a function of that value, which the lemmas reason about.
 */
module RaceEntryModel {
  import opened Wrappers
  import opened JsonMap
  import opened DateUtil
  import ParamKey

  /** The keys `init?(map:)` requires, in the order it checks them. */
  const RequiredProperties: seq<string> := [ParamKey.Id, ParamKey.PilotId]

  /** The value of a `RaceEntry`'s fields. */
  datatype RaceEntryFields = RaceEntryFields(
    id: string,
    pilotId: string,
    pilotUserName: string,
    pilotName: string,
    userName: string,
    displayName: string,
    firstName: string,
    lastName: string,
    score: Option<Int32>,
    profilePictureUrl: Option<string>,
    frequency: Option<string>,
    band: Option<string>,
    channel: Option<string>,
    dateAdded: Option<Date>,
    dateModified: Option<Date>)

  /** A new entry's fields, before any mapping. */
  const Default: RaceEntryFields := RaceEntryFields(
    id := "",
    pilotId := "",
    pilotUserName := "",
    pilotName := "",
    userName := "",
    displayName := "",
    firstName := "",
    lastName := "",
    score := None,
    profilePictureUrl := None,
    frequency := None,
    band := None,
    channel := None,
    dateAdded := None,
    dateModified := None)

  /** `mapping(map:)` as a function of the fields before it: each field read from its key, or kept. */
  function Mapped(f: RaceEntryFields, json: JsonObject, t: Transforms): (r: RaceEntryFields)
  {
    RaceEntryFields(
      id := Assign(f.id, json, ParamKey.Id, AsString),
      pilotId := Assign(f.pilotId, json, ParamKey.PilotId, AsString),
      pilotUserName := Assign(f.pilotUserName, json, ParamKey.PilotUserName, t.text),
      pilotName := Assign(f.pilotName, json, ParamKey.PilotName, t.text),
      userName := Assign(f.userName, json, ParamKey.UserName, t.text),
      displayName := Assign(f.displayName, json, ParamKey.DisplayName, t.text),
      firstName := Assign(f.firstName, json, ParamKey.FirstName, t.text),
      lastName := Assign(f.lastName, json, ParamKey.LastName, t.text),
      score := AssignOptional(f.score, json, ParamKey.Score, t.integer),
      profilePictureUrl := AssignOptional(f.profilePictureUrl, json, ParamKey.ProfilePictureUrl, AsString),
      frequency := AssignOptional(f.frequency, json, ParamKey.Frequency, AsString),
      band := AssignOptional(f.band, json, ParamKey.Band, AsString),
      channel := AssignOptional(f.channel, json, ParamKey.Channel, AsString),
      dateAdded := AssignOptional(f.dateAdded, json, ParamKey.DateAdded, t.date),
      dateModified := AssignOptional(f.dateModified, json, ParamKey.DateModified, t.date))
  }

  /** `init?(map:)`: nil when a required key is missing, otherwise a new entry mapped from the JSON. */
  function DecodeFields(json: JsonObject, t: Transforms): (r: Option<RaceEntryFields>)
    ensures r.None? <==> ParamKey.Id !in json || ParamKey.PilotId !in json
    ensures r.Some? ==> r.value == Mapped(Default, json, t)
  {
    if HasRequired(json, RequiredProperties) then Some(Mapped(Default, json, t)) else None
  }

  class RaceEntry {
    var id: string
    var pilotId: string
    var pilotUserName: string
    var pilotName: string
    var userName: string
    var displayName: string
    var firstName: string
    var lastName: string
    var score: Option<Int32>
    var profilePictureUrl: Option<string>
    var frequency: Option<string>
    var band: Option<string>
    var channel: Option<string>
    var dateAdded: Option<Date>
    var dateModified: Option<Date>

    function Fields(): RaceEntryFields
      reads this
    {
      RaceEntryFields(
        id := id,
        pilotId := pilotId,
        pilotUserName := pilotUserName,
        pilotName := pilotName,
        userName := userName,
        displayName := displayName,
        firstName := firstName,
        lastName := lastName,
        score := score,
        profilePictureUrl := profilePictureUrl,
        frequency := frequency,
        band := band,
        channel := channel,
        dateAdded := dateAdded,
        dateModified := dateModified)
    }

    constructor ()
      ensures Fields() == Default
    {
      id := "";
      pilotId := "";
      pilotUserName := "";
      pilotName := "";
      userName := "";
      displayName := "";
      firstName := "";
      lastName := "";
      score := None;
      profilePictureUrl := None;
      frequency := None;
      band := None;
      channel := None;
      dateAdded := None;
      dateModified := None;
    }

    /** `mapping(map:)`: assigns the fields in place, one after another. */
    method Mapping(json: JsonObject, t: Transforms)
      modifies this
      ensures Fields() == Mapped(old(Fields()), json, t)
    {
      MapIdentity(json, t);
      MapDetails(json, t);
    }

    /** Lines 46-53 of `mapping(map:)`: the ids and the names. */
    method MapIdentity(json: JsonObject, t: Transforms)
      modifies this`id, this`pilotId, this`pilotUserName, this`pilotName, this`userName, this`displayName, this`firstName, this`lastName
      ensures id == Assign(old(id), json, ParamKey.Id, AsString)
      ensures pilotId == Assign(old(pilotId), json, ParamKey.PilotId, AsString)
      ensures pilotUserName == Assign(old(pilotUserName), json, ParamKey.PilotUserName, t.text)
      ensures pilotName == Assign(old(pilotName), json, ParamKey.PilotName, t.text)
      ensures userName == Assign(old(userName), json, ParamKey.UserName, t.text)
      ensures displayName == Assign(old(displayName), json, ParamKey.DisplayName, t.text)
      ensures firstName == Assign(old(firstName), json, ParamKey.FirstName, t.text)
      ensures lastName == Assign(old(lastName), json, ParamKey.LastName, t.text)
    {
      id := Assign(id, json, ParamKey.Id, AsString);
      pilotId := Assign(pilotId, json, ParamKey.PilotId, AsString);
      pilotUserName := Assign(pilotUserName, json, ParamKey.PilotUserName, t.text);
      pilotName := Assign(pilotName, json, ParamKey.PilotName, t.text);
      userName := Assign(userName, json, ParamKey.UserName, t.text);
      displayName := Assign(displayName, json, ParamKey.DisplayName, t.text);
      firstName := Assign(firstName, json, ParamKey.FirstName, t.text);
      lastName := Assign(lastName, json, ParamKey.LastName, t.text);
    }

    /** Lines 54-62 of `mapping(map:)`: the score, the picture, the radio settings and the dates. */
    method MapDetails(json: JsonObject, t: Transforms)
      modifies this`score, this`profilePictureUrl, this`frequency, this`band, this`channel, this`dateAdded, this`dateModified
      ensures score == AssignOptional(old(score), json, ParamKey.Score, t.integer)
      ensures profilePictureUrl == AssignOptional(old(profilePictureUrl), json, ParamKey.ProfilePictureUrl, AsString)
      ensures frequency == AssignOptional(old(frequency), json, ParamKey.Frequency, AsString)
      ensures band == AssignOptional(old(band), json, ParamKey.Band, AsString)
      ensures channel == AssignOptional(old(channel), json, ParamKey.Channel, AsString)
      ensures dateAdded == AssignOptional(old(dateAdded), json, ParamKey.DateAdded, t.date)
      ensures dateModified == AssignOptional(old(dateModified), json, ParamKey.DateModified, t.date)
    {
      score := AssignOptional(score, json, ParamKey.Score, t.integer);
      profilePictureUrl := AssignOptional(profilePictureUrl, json, ParamKey.ProfilePictureUrl, AsString);
      frequency := AssignOptional(frequency, json, ParamKey.Frequency, AsString);
      band := AssignOptional(band, json, ParamKey.Band, AsString);
      channel := AssignOptional(channel, json, ParamKey.Channel, AsString);
      dateAdded := AssignOptional(dateAdded, json, ParamKey.DateAdded, t.date);
      dateModified := AssignOptional(dateModified, json, ParamKey.DateModified, t.date);
    }

    /** `init?(map:)`: checks the required keys, then maps a new entry. */
    static method Decode(json: JsonObject, t: Transforms) returns (entry: RaceEntry?)
      ensures entry == null <==> DecodeFields(json, t).None?
      ensures entry != null ==> fresh(entry) && entry.Fields() == DecodeFields(json, t).value
    {
      var ok := CheckRequiredProperties(json, RequiredProperties);
      if !ok {
        return null;
      }
      entry := new RaceEntry();
      entry.Mapping(json, t);
    }
  }

  /** Mapping the same JSON twice leaves the fields mapping it once left. */
  lemma MappedIdempotent(f: RaceEntryFields, json: JsonObject, t: Transforms)
    ensures Mapped(Mapped(f, json, t), json, t) == Mapped(f, json, t)
  {
  }

  /** A decoded entry carries the JSON's ids when they are strings, and keeps "" when they are not. */
  lemma DecodedIds(json: JsonObject, t: Transforms)
    requires DecodeFields(json, t).Some?
    ensures json[ParamKey.Id].JString? ==> DecodeFields(json, t).value.id == json[ParamKey.Id].s
    ensures json[ParamKey.PilotId].JString? ==> DecodeFields(json, t).value.pilotId == json[ParamKey.PilotId].s
    ensures !json[ParamKey.Id].JString? ==> DecodeFields(json, t).value.id == ""
    ensures !json[ParamKey.PilotId].JString? ==> DecodeFields(json, t).value.pilotId == ""
  {
  }

  /** Only the two ids are required: with just them, every other field keeps its default. */
  lemma OnlyIdsRequired(id: string, pilotId: string, t: Transforms)
    ensures DecodeFields(map[ParamKey.Id := JString(id), ParamKey.PilotId := JString(pilotId)], t)
         == Some(Default.(id := id, pilotId := pilotId))
  {
  }

  /** String fields start empty; the score, picture, radio and date fields start absent. */
  lemma DefaultFieldValues()
    ensures Default.id == "" && Default.pilotId == "" && Default.pilotName == "" && Default.displayName == ""
    ensures Default.score.None? && Default.profilePictureUrl.None? && Default.frequency.None?
    ensures Default.band.None? && Default.channel.None? && Default.dateAdded.None? && Default.dateModified.None?
  {
  }
}
