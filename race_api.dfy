/**
 * The race calls of the API layer (RaceApi.swift): the parameter dictionary a race list query sends,
 * the list call built from it, and the call each race action makes. A call is the request handed to
 * the repository adapter; sending it and decoding the answer are not part of this model.
 */
module RaceApi {
  import opened Wrappers
  import opened RaceEnums
  import opened Services
  import opened Requests
  import opened ApiConstants
  import EndPoint
  import ParamKey

  /** The filters of a race list query, with the raw values the app stores them under. */
  datatype RaceListFilters = Upcoming | Past | Nearby | Series | Joined {
    function RawValue(): (r: string)
      ensures |r| > 0
    {
      match this
      case Upcoming => "upcoming"
      case Past => "past"
      case Nearby => "nearby"
      case Series => "qualifier"
      case Joined => "joined"
    }

    /** `RaceListFilters(rawValue:)`: the filter with that raw value, if any. */
    static function FromRaw(raw: string): (r: Option<RaceListFilters>)
      ensures r.Some? ==> r.value.RawValue() == raw
      ensures forall f: RaceListFilters :: f.RawValue() == raw ==> r == Some(f)
    {
      if raw == "upcoming" then Some(Upcoming)
      else if raw == "past" then Some(Past)
      else if raw == "nearby" then Some(Nearby)
      else if raw == "qualifier" then Some(Series)
      else if raw == "joined" then Some(Joined)
      else None
    }
  }

  /** Every filter reads back from its raw value. */
  lemma FilterRawRoundTrip(f: RaceListFilters)
    ensures RaceListFilters.FromRaw(f.RawValue()) == Some(f)
  {
  }

  /** The radius a nearby query sends: the user's radius, converted to miles when it is kept in kilometres. */
  function RadiusInMiles(settings: Settings, toMiles: string -> string): (r: string)
    ensures settings.lengthUnit == Kilometers ==> r == toMiles(settings.searchRadius)
    ensures settings.lengthUnit == Miles ==> r == settings.searchRadius
  {
    if settings.lengthUnit == Kilometers then toMiles(settings.searchRadius) else settings.searchRadius
  }

  /** The `nearBy` dictionary: always the radius, and each coordinate that was given. */
  function NearbyParams(radius: string, latitude: Option<string>, longitude: Option<string>): (r: Params)
    ensures ParamKey.Radius in r && r[ParamKey.Radius] == PText(radius)
    ensures ParamKey.Latitude in r <==> latitude.Some?
    ensures latitude.Some? ==> r[ParamKey.Latitude] == PText(latitude.value)
    ensures ParamKey.Longitude in r <==> longitude.Some?
    ensures longitude.Some? ==> r[ParamKey.Longitude] == PText(longitude.value)
    ensures r.Keys <= {ParamKey.Radius, ParamKey.Latitude, ParamKey.Longitude}
  {
    var withRadius := map[ParamKey.Radius := PText(radius)];
    var withLatitude := if latitude.Some? then withRadius[ParamKey.Latitude := PText(latitude.value)] else withRadius;
    if longitude.Some? then withLatitude[ParamKey.Longitude := PText(longitude.value)] else withLatitude
  }

  /** The dictionary limiting a time window to one page: `[limit: pageSize]`. */
  function WindowParams(pageSize: int): (r: Params)
    ensures r.Keys == {ParamKey.Limit} && r[ParamKey.Limit] == PNumber(pageSize)
  {
    map[ParamKey.Limit := PNumber(pageSize)]
  }

  /** The key set a race query can carry. */
  function RaceQueryKeys(): set<string> {
    {ParamKey.NearBy, ParamKey.Joined, ParamKey.IsQualifier, ParamKey.Upcoming, ParamKey.Past}
  }

  /**
   * The dictionary `parametersForRaces` builds. The location filter sends either the nearby
   * dictionary or, failing that, the joined pilot; the series filter sends the qualifier flag; the
   * time filter sends either the upcoming window or, failing that, the past one.
   */
  function RaceQuery(filters: seq<RaceListFilters>, userId: string, latitude: Option<string>, longitude: Option<string>,
                     pageSize: int, settings: Settings, toMiles: string -> string): (r: Params)
    ensures ParamKey.NearBy in r <==> Nearby in filters
    ensures ParamKey.Joined in r <==> Joined in filters && Nearby !in filters
    ensures ParamKey.IsQualifier in r <==> Series in filters
    ensures ParamKey.Upcoming in r <==> Upcoming in filters
    ensures ParamKey.Past in r <==> Past in filters && Upcoming !in filters
    ensures r.Keys <= RaceQueryKeys()
    ensures ParamKey.NearBy in r ==> r[ParamKey.NearBy] == PDict(NearbyParams(RadiusInMiles(settings, toMiles), latitude, longitude))
    ensures ParamKey.Joined in r ==> r[ParamKey.Joined] == PDict(map[ParamKey.PilotId := PText(userId)])
    ensures ParamKey.IsQualifier in r ==> r[ParamKey.IsQualifier] == PFlag(true)
    ensures ParamKey.Upcoming in r ==> r[ParamKey.Upcoming] == PDict(WindowParams(pageSize))
    ensures ParamKey.Past in r ==> r[ParamKey.Past] == PDict(WindowParams(pageSize))
  {
    var location: Params :=
      if Nearby in filters then map[ParamKey.NearBy := PDict(NearbyParams(RadiusInMiles(settings, toMiles), latitude, longitude))]
      else if Joined in filters then map[ParamKey.Joined := PDict(map[ParamKey.PilotId := PText(userId)])]
      else map[];
    var qualifier := if Series in filters then location[ParamKey.IsQualifier := PFlag(true)] else location;
    if Upcoming in filters then qualifier[ParamKey.Upcoming := PDict(WindowParams(pageSize))]
    else if Past in filters then qualifier[ParamKey.Past := PDict(WindowParams(pageSize))]
    else qualifier
  }

  /** `parametersForRaces(with:userId:latitude:longitude:pageSize:)`, reading the session's settings. */
  method ParametersForRaces(filters: seq<RaceListFilters>, userId: string, latitude: Option<string>, longitude: Option<string>,
                            pageSize: int, settings: Settings, toMiles: string -> string) returns (parameters: Params)
    ensures parameters == RaceQuery(filters, userId, latitude, longitude, pageSize, settings, toMiles)
  {
    parameters := map[];
    if Nearby in filters {
      var lengthUnit := settings.lengthUnit;
      var radiusString := settings.searchRadius;
      if lengthUnit == Kilometers {
        radiusString := toMiles(radiusString);
      }
      var nearbyDict := map[ParamKey.Radius := PText(radiusString)];
      if latitude.Some? {
        nearbyDict := nearbyDict[ParamKey.Latitude := PText(latitude.value)];
      }
      if longitude.Some? {
        nearbyDict := nearbyDict[ParamKey.Longitude := PText(longitude.value)];
      }
      parameters := parameters[ParamKey.NearBy := PDict(nearbyDict)];
    } else if Joined in filters {
      parameters := parameters[ParamKey.Joined := PDict(map[ParamKey.PilotId := PText(userId)])];
    }
    if Series in filters {
      parameters := parameters[ParamKey.IsQualifier := PFlag(true)];
    }
    if Upcoming in filters {
      parameters := parameters[ParamKey.Upcoming := PDict(map[ParamKey.Limit := PNumber(pageSize)])];
    } else if Past in filters {
      parameters := parameters[ParamKey.Past := PDict(map[ParamKey.Limit := PNumber(pageSize)])];
    }
  }

  /** Only which filters are chosen matters, not their order or repetition. */
  lemma RaceQueryIgnoresFilterOrder(a: seq<RaceListFilters>, b: seq<RaceListFilters>, userId: string,
                                    latitude: Option<string>, longitude: Option<string>, pageSize: int,
                                    settings: Settings, toMiles: string -> string)
    requires forall f :: f in a <==> f in b
    ensures RaceQuery(a, userId, latitude, longitude, pageSize, settings, toMiles) ==
            RaceQuery(b, userId, latitude, longitude, pageSize, settings, toMiles)
  {
  }

  /** A query without filters sends no parameters at all. */
  lemma NoFiltersNoParameters(userId: string, latitude: Option<string>, longitude: Option<string>, pageSize: int,
                              settings: Settings, toMiles: string -> string)
    ensures RaceQuery([], userId, latitude, longitude, pageSize, settings, toMiles) == map[]
  {
  }

  /** The arguments of `getRaces`, with the defaults the Swift signature gives them. */
  datatype RaceListQuery = RaceListQuery(
    filters: seq<RaceListFilters>,
    userId: string,
    name: Option<string>,
    startDate: Option<string>,
    chapterIds: Option<seq<string>>,
    seasonId: Option<string>,
    raceClass: Option<RaceClass>,
    latitude: Option<string>,
    longitude: Option<string>,
    currentPage: int,
    pageSize: int)

  /** `getRaces`'s default arguments: no filters, an empty user id, nothing optional, the first standard page. */
  const DefaultRaceListQuery := RaceListQuery([], "", None, None, None, None, None, None, None, 0, StandardPageSize)

  /** A text parameter's value when it is present and not empty (`if let name = name, name.count > 0`). */
  function NonEmptyText(value: Option<string>): (r: Option<ParamValue>)
    ensures r.Some? <==> value.Some? && |value.value| > 0
    ensures r.Some? ==> r.value == PText(value.value)
  {
    if value.Some? && |value.value| > 0 then Some(PText(value.value)) else None
  }

  /** The chapter filter's value: the list of ids, when there is at least one. */
  function NonEmptyIds(ids: Option<seq<string>>): (r: Option<ParamValue>)
    ensures r.Some? <==> ids.Some? && |ids.value| > 0
    ensures r.Some? ==> r.value == PTextList(ids.value)
  {
    if ids.Some? && |ids.value| > 0 then Some(PTextList(ids.value)) else None
  }

  /** The race class's value: its raw value, when a class is given. */
  function RaceClassValue(raceClass: Option<RaceClass>): (r: Option<ParamValue>)
    ensures r.Some? <==> raceClass.Some?
    ensures r.Some? ==> r.value == PText(raceClass.value.RawValue())
  {
    if raceClass.Some? then Some(PText(raceClass.value.RawValue())) else None
  }

  /** The keys a list query adds are distinct from each other and from the filters' keys. */
  lemma ListKeysFresh()
    ensures ParamKey.Name !in RaceQueryKeys() && ParamKey.StartDate !in RaceQueryKeys() && ParamKey.ChapterId !in RaceQueryKeys()
    ensures ParamKey.SeasonId !in RaceQueryKeys() && ParamKey.RaceClass !in RaceQueryKeys()
    ensures |{ParamKey.Name, ParamKey.StartDate, ParamKey.ChapterId, ParamKey.SeasonId, ParamKey.RaceClass}| == 5
  {
  }

  /**
   * The filters' dictionary extended, in `getRaces`'s order, with the name, start date, chapters,
   * season and class the query gives. The chapter ids go under the `chapterId` key.
   */
  function RaceListParams(q: RaceListQuery, settings: Settings, toMiles: string -> string): (r: Params)
  {
    var base := RaceQuery(q.filters, q.userId, q.latitude, q.longitude, q.pageSize, settings, toMiles);
    var named := Extend(base, ParamKey.Name, NonEmptyText(q.name));
    var dated := Extend(named, ParamKey.StartDate, NonEmptyText(q.startDate));
    var chaptered := Extend(dated, ParamKey.ChapterId, NonEmptyIds(q.chapterIds));
    var seasoned := Extend(chaptered, ParamKey.SeasonId, NonEmptyText(q.seasonId));
    Extend(seasoned, ParamKey.RaceClass, RaceClassValue(q.raceClass))
  }

  /** A list query keeps every filter parameter and adds exactly the optional arguments that were given. */
  lemma RaceListParamsContents(q: RaceListQuery, settings: Settings, toMiles: string -> string)
    ensures var base := RaceQuery(q.filters, q.userId, q.latitude, q.longitude, q.pageSize, settings, toMiles);
      var r := RaceListParams(q, settings, toMiles);
      && (forall k | k in base :: k in r && r[k] == base[k])
      && (forall k | k in r && k !in base ::
            k in {ParamKey.Name, ParamKey.StartDate, ParamKey.ChapterId, ParamKey.SeasonId, ParamKey.RaceClass})
      && (ParamKey.Name in r <==> NonEmptyText(q.name).Some?) && (ParamKey.Name in r ==> r[ParamKey.Name] == PText(q.name.value))
      && (ParamKey.StartDate in r <==> NonEmptyText(q.startDate).Some?) && (ParamKey.StartDate in r ==> r[ParamKey.StartDate] == PText(q.startDate.value))
      && (ParamKey.ChapterId in r <==> NonEmptyIds(q.chapterIds).Some?) && (ParamKey.ChapterId in r ==> r[ParamKey.ChapterId] == PTextList(q.chapterIds.value))
      && (ParamKey.SeasonId in r <==> NonEmptyText(q.seasonId).Some?) && (ParamKey.SeasonId in r ==> r[ParamKey.SeasonId] == PText(q.seasonId.value))
      && (ParamKey.RaceClass in r <==> q.raceClass.Some?) && (ParamKey.RaceClass in r ==> r[ParamKey.RaceClass] == PText(q.raceClass.value.RawValue()))
  {
    ListKeysFresh();
  }

  /** `getRaces(with:...)`: the list call on `race/list`, paged as asked. */
  method GetRaces(q: RaceListQuery, settings: Settings, toMiles: string -> string) returns (call: Call)
    ensures call == GetObjects(EndPoint.RaceList, RaceListParams(q, settings, toMiles), Paged(q.currentPage, q.pageSize), None)
  {
    var endpoint := EndPoint.RaceList;
    var params := ParametersForRaces(q.filters, q.userId, q.latitude, q.longitude, q.pageSize, settings, toMiles);
    if q.name.Some? && |q.name.value| > 0 {
      params := params[ParamKey.Name := PText(q.name.value)];
    }
    if q.startDate.Some? && |q.startDate.value| > 0 {
      params := params[ParamKey.StartDate := PText(q.startDate.value)];
    }
    if q.chapterIds.Some? && |q.chapterIds.value| > 0 {
      params := params[ParamKey.ChapterId := PTextList(q.chapterIds.value)];
    }
    if q.seasonId.Some? && |q.seasonId.value| > 0 {
      params := params[ParamKey.SeasonId := PText(q.seasonId.value)];
    }
    if q.raceClass.Some? {
      params := params[ParamKey.RaceClass := PText(q.raceClass.value.RawValue())];
    }
    call := GetObjects(endpoint, params, Paged(q.currentPage, q.pageSize), None);
  }

  /** The list query `getMyRaces` makes for the signed-in user: the user's id, and the user's coordinates unless others are given. */
  function MyRacesQuery(user: User, filters: seq<RaceListFilters>, latitude: Option<string>, longitude: Option<string>): (r: RaceListQuery)
    ensures r.userId == user.id && r.filters == filters
    ensures r.latitude == Some(latitude.GetOr(user.latitude)) && r.longitude == Some(longitude.GetOr(user.longitude))
    ensures r == DefaultRaceListQuery.(filters := filters, userId := user.id, latitude := r.latitude, longitude := r.longitude)
  {
    DefaultRaceListQuery.(filters := filters, userId := user.id,
                          latitude := Some(latitude.GetOr(user.latitude)), longitude := Some(longitude.GetOr(user.longitude)))
  }

  /** `getMyRaces`: no call at all before a user has signed in; otherwise the user's list query. */
  method GetMyRaces(session: Session, filters: seq<RaceListFilters>, latitude: Option<string>, longitude: Option<string>,
                    toMiles: string -> string) returns (call: Option<Call>)
    ensures call.None? <==> session.myUser.None?
    ensures call.Some? ==> call.value == GetObjects(EndPoint.RaceList,
      RaceListParams(MyRacesQuery(session.myUser.value, filters, latitude, longitude), session.settings, toMiles),
      Paged(0, StandardPageSize), None)
  {
    if session.myUser.None? {
      return None;
    }
    var user := session.myUser.value;
    var lat := latitude.GetOr(user.latitude);
    var long := longitude.GetOr(user.longitude);
    var c := GetRaces(DefaultRaceListQuery.(filters := filters, userId := user.id, latitude := Some(lat), longitude := Some(long)),
                      session.settings, toMiles);
    call := Some(c);
  }

  /** A nearby query for the user's own races searches around the user's coordinates when none are given. */
  lemma MyNearbyRacesAroundUser(user: User, filters: seq<RaceListFilters>, settings: Settings, toMiles: string -> string)
    requires Nearby in filters
    ensures var p := RaceListParams(MyRacesQuery(user, filters, None, None), settings, toMiles);
      ParamKey.NearBy in p && p[ParamKey.NearBy] ==
        PDict(map[ParamKey.Radius := PText(RadiusInMiles(settings, toMiles)),
                  ParamKey.Latitude := PText(user.latitude), ParamKey.Longitude := PText(user.longitude)])
  {
    var q := MyRacesQuery(user, filters, None, None);
    var p := RaceListParams(q, settings, toMiles);
    var n := NearbyParams(RadiusInMiles(settings, toMiles), Some(user.latitude), Some(user.longitude));
    assert n == map[ParamKey.Radius := PText(RadiusInMiles(settings, toMiles)),
                    ParamKey.Latitude := PText(user.latitude), ParamKey.Longitude := PText(user.longitude)];
  }

  /** A joined-only query for the user's own races asks for the user's own enrolments. */
  lemma MyJoinedRacesAreTheUsers(user: User, latitude: Option<string>, longitude: Option<string>, settings: Settings, toMiles: string -> string)
    ensures var p := RaceListParams(MyRacesQuery(user, [Joined], latitude, longitude), settings, toMiles);
      p == map[ParamKey.Joined := PDict(map[ParamKey.PilotId := PText(user.id)])]
  {
    var q := MyRacesQuery(user, [Joined], latitude, longitude);
    var p := RaceListParams(q, settings, toMiles);
    assert p.Keys == {ParamKey.Joined};
  }

  /** `view(race:)`: the race, read with its id in the query. */
  function View(raceId: string): (r: Call)
    ensures r.GetObject? && r.parameters == map[]
    ensures QueryValue(r.endpoint, EndPoint.RaceView, ParamKey.Id) == Some(raceId)
  {
    QueryValueOfWithQuery(EndPoint.RaceView, ParamKey.Id, raceId);
    GetObject(WithQuery(EndPoint.RaceView, ParamKey.Id, raceId), map[])
  }

  /** `viewSimple(race:)`: the race's short form, read with its id in the query. */
  function ViewSimple(raceId: string): (r: Call)
    ensures r.GetObject? && r.parameters == map[]
    ensures QueryValue(r.endpoint, EndPoint.RaceViewSimple, ParamKey.Id) == Some(raceId)
  {
    QueryValueOfWithQuery(EndPoint.RaceViewSimple, ParamKey.Id, raceId);
    GetObject(WithQuery(EndPoint.RaceViewSimple, ParamKey.Id, raceId), map[])
  }

  /** `join(race:aircraftId:)`: the user joins with the given aircraft. */
  function Join(raceId: string, aircraftId: string): (r: Call)
    ensures r.PerformAction? && r.parameters == map[ParamKey.AircraftId := PText(aircraftId)]
    ensures QueryValue(r.endpoint, EndPoint.RaceJoin, ParamKey.Id) == Some(raceId)
  {
    QueryValueOfWithQuery(EndPoint.RaceJoin, ParamKey.Id, raceId);
    PerformAction(WithQuery(EndPoint.RaceJoin, ParamKey.Id, raceId), map[ParamKey.AircraftId := PText(aircraftId)])
  }

  /** `resign(race:)`: the user leaves the race. */
  function Resign(raceId: string): (r: Call)
    ensures r.PerformAction? && r.parameters == map[]
    ensures QueryValue(r.endpoint, EndPoint.RaceResign, ParamKey.Id) == Some(raceId)
  {
    QueryValueOfWithQuery(EndPoint.RaceResign, ParamKey.Id, raceId);
    PerformAction(WithQuery(EndPoint.RaceResign, ParamKey.Id, raceId), map[])
  }

  /** `forceJoin(race:pilotId:)`: an organiser enrols another pilot. */
  function ForceJoin(raceId: string, pilotId: string): (r: Call)
    ensures r.PerformAction? && r.parameters == map[ParamKey.PilotId := PText(pilotId)]
    ensures QueryValue(r.endpoint, EndPoint.RaceForceJoin, ParamKey.Id) == Some(raceId)
  {
    QueryValueOfWithQuery(EndPoint.RaceForceJoin, ParamKey.Id, raceId);
    PerformAction(WithQuery(EndPoint.RaceForceJoin, ParamKey.Id, raceId), map[ParamKey.PilotId := PText(pilotId)])
  }

  /** `forceResign(race:pilotId:)`: an organiser removes another pilot, through the plain resign endpoint. */
  function ForceResign(raceId: string, pilotId: string): (r: Call)
    ensures r.PerformAction? && r.parameters == map[ParamKey.PilotId := PText(pilotId)]
    ensures QueryValue(r.endpoint, EndPoint.RaceResign, ParamKey.Id) == Some(raceId)
  {
    QueryValueOfWithQuery(EndPoint.RaceResign, ParamKey.Id, raceId);
    PerformAction(WithQuery(EndPoint.RaceResign, ParamKey.Id, raceId), map[ParamKey.PilotId := PText(pilotId)])
  }

  /** `open(race:)`: opens the race's registration. */
  function Open(raceId: string): (r: Call)
    ensures r.PerformAction? && r.parameters == map[]
    ensures QueryValue(r.endpoint, EndPoint.RaceOpen, ParamKey.Id) == Some(raceId)
  {
    QueryValueOfWithQuery(EndPoint.RaceOpen, ParamKey.Id, raceId);
    PerformAction(WithQuery(EndPoint.RaceOpen, ParamKey.Id, raceId), map[])
  }

  /** `close(race:)`: closes the race's registration. */
  function Close(raceId: string): (r: Call)
    ensures r.PerformAction? && r.parameters == map[]
    ensures QueryValue(r.endpoint, EndPoint.RaceClose, ParamKey.Id) == Some(raceId)
  {
    QueryValueOfWithQuery(EndPoint.RaceClose, ParamKey.Id, raceId);
    PerformAction(WithQuery(EndPoint.RaceClose, ParamKey.Id, raceId), map[])
  }

  /** `checkIn(race:pilotId:)`: checks in the user, or the given pilot; answers with the entry. */
  function CheckIn(raceId: string, pilotId: Option<string>): (r: Call)
    ensures r.GetObject?
    ensures ParamKey.PilotId in r.parameters <==> pilotId.Some?
    ensures pilotId.Some? ==> r.parameters == map[ParamKey.PilotId := PText(pilotId.value)]
    ensures pilotId.None? ==> r.parameters == map[]
    ensures QueryValue(r.endpoint, EndPoint.RaceCheckIn, ParamKey.Id) == Some(raceId)
  {
    QueryValueOfWithQuery(EndPoint.RaceCheckIn, ParamKey.Id, raceId);
    GetObject(WithQuery(EndPoint.RaceCheckIn, ParamKey.Id, raceId),
              Entry(ParamKey.PilotId, if pilotId.Some? then Some(PText(pilotId.value)) else None))
  }

  /** `checkOut(race:pilotId:)`: checks out the user, or the given pilot; answers with the entry. */
  function CheckOut(raceId: string, pilotId: Option<string>): (r: Call)
    ensures r.GetObject?
    ensures ParamKey.PilotId in r.parameters <==> pilotId.Some?
    ensures pilotId.Some? ==> r.parameters == map[ParamKey.PilotId := PText(pilotId.value)]
    ensures pilotId.None? ==> r.parameters == map[]
    ensures QueryValue(r.endpoint, EndPoint.RaceCheckOut, ParamKey.Id) == Some(raceId)
  {
    QueryValueOfWithQuery(EndPoint.RaceCheckOut, ParamKey.Id, raceId);
    GetObject(WithQuery(EndPoint.RaceCheckOut, ParamKey.Id, raceId),
              Entry(ParamKey.PilotId, if pilotId.Some? then Some(PText(pilotId.value)) else None))
  }

  /** What the race calls need of `RaceData` (not part of this model): its chapter and its two encodings. */
  datatype RaceDataCodec<!D> = RaceDataCodec(chapterId: D -> string, toParams: D -> Params, toDiffParams: (D, D) -> Params)

  /** `createRace(withData:)`: the new race's data, posted under its chapter. */
  function CreateRace<D>(data: D, codec: RaceDataCodec<D>): (r: Call)
    ensures r.GetObject? && r.parameters == codec.toParams(data)
    ensures QueryValue(r.endpoint, EndPoint.RaceCreate, ParamKey.ChapterId) == Some(codec.chapterId(data))
  {
    QueryValueOfWithQuery(EndPoint.RaceCreate, ParamKey.ChapterId, codec.chapterId(data));
    GetObject(WithQuery(EndPoint.RaceCreate, ParamKey.ChapterId, codec.chapterId(data)), codec.toParams(data))
  }

  /** `updateRace(race:with:afterData:)`: only what changed when the previous data is known, else everything. */
  function UpdateRace<D>(raceId: string, beforeData: Option<D>, afterData: D, codec: RaceDataCodec<D>): (r: Call)
    ensures r.GetObject?
    ensures beforeData.Some? ==> r.parameters == codec.toDiffParams(afterData, beforeData.value)
    ensures beforeData.None? ==> r.parameters == codec.toParams(afterData)
    ensures QueryValue(r.endpoint, EndPoint.RaceUpdate, ParamKey.Id) == Some(raceId)
  {
    QueryValueOfWithQuery(EndPoint.RaceUpdate, ParamKey.Id, raceId);
    GetObject(WithQuery(EndPoint.RaceUpdate, ParamKey.Id, raceId),
              if beforeData.Some? then codec.toDiffParams(afterData, beforeData.value) else codec.toParams(afterData))
  }

  /** `deleteRace(with:)`: deletes the race. */
  function DeleteRace(raceId: string): (r: Call)
    ensures r.PerformAction? && r.parameters == map[]
    ensures QueryValue(r.endpoint, EndPoint.RaceDelete, ParamKey.Id) == Some(raceId)
  {
    QueryValueOfWithQuery(EndPoint.RaceDelete, ParamKey.Id, raceId);
    PerformAction(WithQuery(EndPoint.RaceDelete, ParamKey.Id, raceId), map[])
  }

  /** `finalizeRace(with:)`: finalizes the race's results. */
  function FinalizeRace(raceId: string): (r: Call)
    ensures r.PerformAction? && r.parameters == map[]
    ensures QueryValue(r.endpoint, EndPoint.RaceFinalize, ParamKey.Id) == Some(raceId)
  {
    QueryValueOfWithQuery(EndPoint.RaceFinalize, ParamKey.Id, raceId);
    PerformAction(WithQuery(EndPoint.RaceFinalize, ParamKey.Id, raceId), map[])
  }

  /** `cancelAll()`: cancels every request whose path starts with this prefix. */
  const CancelAllPrefix: string := EndPoint.Race

  /** A call that carries a query on an endpoint under `race/` is one `cancelAll()` cancels. */
  lemma QueryOnRaceEndpointCancelled(c: Call, endpoint: string, key: string)
    requires CancelAllPrefix <= endpoint && QueryValue(EndpointOf(c), endpoint, key).Some?
    ensures CancelAllPrefix <= EndpointOf(c)
  {
    QueryValueHasEndpoint(EndpointOf(c), endpoint, key);
  }

  /** Every call of the race API is one `cancelAll()` cancels. */
  lemma CancelAllCoversRaceCalls<D>(raceId: string, other: string, pilotId: Option<string>, data: D, before: Option<D>, codec: RaceDataCodec<D>)
    ensures CancelAllPrefix <= EndpointOf(View(raceId)) && CancelAllPrefix <= EndpointOf(ViewSimple(raceId))
    ensures CancelAllPrefix <= EndpointOf(Join(raceId, other)) && CancelAllPrefix <= EndpointOf(Resign(raceId))
    ensures CancelAllPrefix <= EndpointOf(ForceJoin(raceId, other)) && CancelAllPrefix <= EndpointOf(ForceResign(raceId, other))
    ensures CancelAllPrefix <= EndpointOf(Open(raceId)) && CancelAllPrefix <= EndpointOf(Close(raceId))
    ensures CancelAllPrefix <= EndpointOf(CheckIn(raceId, pilotId)) && CancelAllPrefix <= EndpointOf(CheckOut(raceId, pilotId))
    ensures CancelAllPrefix <= EndpointOf(CreateRace(data, codec)) && CancelAllPrefix <= EndpointOf(UpdateRace(raceId, before, data, codec))
    ensures CancelAllPrefix <= EndpointOf(DeleteRace(raceId)) && CancelAllPrefix <= EndpointOf(FinalizeRace(raceId))
    ensures CancelAllPrefix <= EndPoint.RaceList
  {
    QueryOnRaceEndpointCancelled(View(raceId), EndPoint.RaceView, ParamKey.Id);
    QueryOnRaceEndpointCancelled(ViewSimple(raceId), EndPoint.RaceViewSimple, ParamKey.Id);
    QueryOnRaceEndpointCancelled(Join(raceId, other), EndPoint.RaceJoin, ParamKey.Id);
    QueryOnRaceEndpointCancelled(Resign(raceId), EndPoint.RaceResign, ParamKey.Id);
    QueryOnRaceEndpointCancelled(ForceJoin(raceId, other), EndPoint.RaceForceJoin, ParamKey.Id);
    QueryOnRaceEndpointCancelled(ForceResign(raceId, other), EndPoint.RaceResign, ParamKey.Id);
    QueryOnRaceEndpointCancelled(Open(raceId), EndPoint.RaceOpen, ParamKey.Id);
    QueryOnRaceEndpointCancelled(Close(raceId), EndPoint.RaceClose, ParamKey.Id);
    QueryOnRaceEndpointCancelled(CheckIn(raceId, pilotId), EndPoint.RaceCheckIn, ParamKey.Id);
    QueryOnRaceEndpointCancelled(CheckOut(raceId, pilotId), EndPoint.RaceCheckOut, ParamKey.Id);
    QueryOnRaceEndpointCancelled(CreateRace(data, codec), EndPoint.RaceCreate, ParamKey.ChapterId);
    QueryOnRaceEndpointCancelled(UpdateRace(raceId, before, data, codec), EndPoint.RaceUpdate, ParamKey.Id);
    QueryOnRaceEndpointCancelled(DeleteRace(raceId), EndPoint.RaceDelete, ParamKey.Id);
    QueryOnRaceEndpointCancelled(FinalizeRace(raceId), EndPoint.RaceFinalize, ParamKey.Id);
  }

  /** Forcing a pilot out goes to the same path as resigning oneself; only the pilot parameter tells them apart. */
  lemma ForceResignIsResignForAPilot(raceId: string, pilotId: string)
    ensures ForceResign(raceId, pilotId).endpoint == Resign(raceId).endpoint
    ensures ForceResign(raceId, pilotId).parameters != Resign(raceId).parameters
  {
    assert ParamKey.PilotId in ForceResign(raceId, pilotId).parameters;
  }

  /** Distinct races give distinct action paths: a call names exactly one race. */
  lemma ActionNamesOneRace(a: string, b: string)
    requires a != b
    ensures View(a) != View(b) && Join(a, "") != Join(b, "") && DeleteRace(a) != DeleteRace(b) && FinalizeRace(a) != FinalizeRace(b)
  {
    if View(a) == View(b) { WithQueryInjective(EndPoint.RaceView, ParamKey.Id, a, b); }
    if Join(a, "") == Join(b, "") { WithQueryInjective(EndPoint.RaceJoin, ParamKey.Id, a, b); }
    if DeleteRace(a) == DeleteRace(b) { WithQueryInjective(EndPoint.RaceDelete, ParamKey.Id, a, b); }
    if FinalizeRace(a) == FinalizeRace(b) { WithQueryInjective(EndPoint.RaceFinalize, ParamKey.Id, a, b); }
  }
}
