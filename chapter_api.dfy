/**
 * The chapter calls of the API layer (ChapterApi.swift): the chapter lists, the local-chapter query
 * built from the signed-in user, the chapter lookups and the membership actions.
 */
module ChapterApi {
  import opened Wrappers
  import opened Services
  import opened Requests
  import EndPoint
  import ParamKey
  import RaceApi

  /** `getChapters(forUser:currentPage:pageSize:)`: the chapters the pilot has joined, one page at a time. */
  method GetChapters(userId: string, currentPage: int, pageSize: int) returns (call: Call)
    ensures call.GetObjects? && call.endpoint == EndPoint.ChapterList && call.keyPath.None?
    ensures call.paging == Paged(currentPage, pageSize)
    ensures call.parameters.Keys == {ParamKey.Joined}
    ensures call.parameters[ParamKey.Joined] == PDict(map[ParamKey.PilotId := PText(userId)])
  {
    var endpoint := EndPoint.ChapterList;
    var parameters: Params := map[];
    parameters := parameters[ParamKey.Joined := PDict(map[ParamKey.PilotId := PText(userId)])];
    call := GetObjects(endpoint, parameters, Paged(currentPage, pageSize), None);
  }

  /**
   * The dictionary `parametersForMyLocalChapters` builds: empty before sign-in; otherwise the user's
   * coordinates and the search radius exactly as the settings keep it.
   */
  function LocalChapterParams(session: Session): (r: Params)
    ensures session.myUser.None? ==> r == map[]
    ensures session.myUser.Some? ==> r.Keys == {ParamKey.Latitude, ParamKey.Longitude, ParamKey.Radius}
    ensures session.myUser.Some? ==>
      && r[ParamKey.Latitude] == PText(session.myUser.value.latitude)
      && r[ParamKey.Longitude] == PText(session.myUser.value.longitude)
      && r[ParamKey.Radius] == PText(session.settings.searchRadius)
  {
    match session.myUser
    case None => map[]
    case Some(user) =>
      map[ParamKey.Latitude := PText(user.latitude),
          ParamKey.Longitude := PText(user.longitude),
          ParamKey.Radius := PText(session.settings.searchRadius)]
  }

  /** `parametersForMyLocalChapters()`, reading the session. */
  method ParametersForMyLocalChapters(session: Session) returns (parameters: Params)
    ensures parameters == LocalChapterParams(session)
  {
    parameters := map[];
    if session.myUser.None? {
      return parameters;
    }
    var myUser := session.myUser.value;
    parameters := parameters[ParamKey.Latitude := PText(myUser.latitude)];
    parameters := parameters[ParamKey.Longitude := PText(myUser.longitude)];
    parameters := parameters[ParamKey.Radius := PText(session.settings.searchRadius)];
  }

  /** `getLocalChapters(currentPage:pageSize:)`: the chapters around the signed-in user. */
  method GetLocalChapters(session: Session, currentPage: int, pageSize: int) returns (call: Call)
    ensures call == GetObjects(EndPoint.ChapterFindLocal, LocalChapterParams(session), Paged(currentPage, pageSize), None)
  {
    var endpoint := EndPoint.ChapterFindLocal;
    var parameters := ParametersForMyLocalChapters(session);
    call := GetObjects(endpoint, parameters, Paged(currentPage, pageSize), None);
  }

  /** `getChapter(with:)`: a chapter looked up by id. */
  function GetChapter(chapterId: string): (r: Call)
    ensures r.GetObject? && r.endpoint == EndPoint.ChapterSearch
    ensures r.parameters.Keys == {ParamKey.Id} && r.parameters[ParamKey.Id] == PText(chapterId)
  {
    GetObject(EndPoint.ChapterSearch, map[ParamKey.Id := PText(chapterId)])
  }

  /** `searchChapter(with:)`: a chapter looked up by name, on the same endpoint as by id. */
  function SearchChapter(chapterName: string): (r: Call)
    ensures r.GetObject? && r.endpoint == EndPoint.ChapterSearch
    ensures r.parameters.Keys == {ParamKey.ChapterName} && r.parameters[ParamKey.ChapterName] == PText(chapterName)
  {
    GetObject(EndPoint.ChapterSearch, map[ParamKey.ChapterName := PText(chapterName)])
  }

  /** `getChapterMembers(with:currentPage:pageSize:)`: every member at once; the page arguments are ignored. */
  function GetChapterMembers(chapterId: string, currentPage: int, pageSize: int): (r: Call)
    ensures r.GetObjects? && r.paging == SkipPagination && r.parameters == map[] && r.keyPath.None?
    ensures QueryValue(r.endpoint, EndPoint.ChapterUsers, ParamKey.Id) == Some(chapterId)
  {
    QueryValueOfWithQuery(EndPoint.ChapterUsers, ParamKey.Id, chapterId);
    GetObjects(WithQuery(EndPoint.ChapterUsers, ParamKey.Id, chapterId), map[], SkipPagination, None)
  }

  /** `getMyManagedChapters()`: the managed chapters, read from the answer's `managedChapters` key. */
  function GetMyManagedChapters(): (r: Call)
    ensures r.GetObjects? && r.endpoint == EndPoint.ChapterListManaged && r.parameters == map[]
    ensures r.paging == AdapterDefault && r.keyPath == Some(ParamKey.ManagedChapters)
  {
    GetObjects(EndPoint.ChapterListManaged, map[], AdapterDefault, Some(ParamKey.ManagedChapters))
  }

  /** `join(chapter:)`: the user joins the chapter. */
  function JoinChapter(chapterId: string): (r: Call)
    ensures r.PerformAction? && r.parameters == map[]
    ensures QueryValue(r.endpoint, EndPoint.ChapterJoin, ParamKey.Id) == Some(chapterId)
  {
    QueryValueOfWithQuery(EndPoint.ChapterJoin, ParamKey.Id, chapterId);
    PerformAction(WithQuery(EndPoint.ChapterJoin, ParamKey.Id, chapterId), map[])
  }

  /** `resign(chapter:)`: the user leaves the chapter. */
  function ResignChapter(chapterId: string): (r: Call)
    ensures r.PerformAction? && r.parameters == map[]
    ensures QueryValue(r.endpoint, EndPoint.ChapterResign, ParamKey.Id) == Some(chapterId)
  {
    QueryValueOfWithQuery(EndPoint.ChapterResign, ParamKey.Id, chapterId);
    PerformAction(WithQuery(EndPoint.ChapterResign, ParamKey.Id, chapterId), map[])
  }

  /** The page a chapter-member listing asks for never depends on the page arguments. */
  lemma ChapterMembersIgnorePaging(chapterId: string, p1: int, s1: int, p2: int, s2: int)
    ensures GetChapterMembers(chapterId, p1, s1) == GetChapterMembers(chapterId, p2, s2)
  {
  }

  /** Looking a chapter up by id and by name never send the same request. */
  lemma LookupsDistinct(chapterId: string, chapterName: string)
    ensures GetChapter(chapterId) != SearchChapter(chapterName)
  {
    assert ParamKey.Id in GetChapter(chapterId).parameters;
    assert ParamKey.Id !in SearchChapter(chapterName).parameters;
  }

  /**
   * The local-chapter query sends the radius as stored, while a nearby race query converts a
   * kilometre radius to miles first: for a user in kilometres the two differ whenever the
   * conversion changes the radius.
   */
  lemma LocalChapterRadiusIsUnconverted(user: User, radius: string, chapters: Option<seq<ManagedChapter>>, toMiles: string -> string)
    requires toMiles(radius) != radius
    ensures var session := Session(Some(user), Settings(Kilometers, radius), chapters);
      LocalChapterParams(session)[ParamKey.Radius] == PText(radius)
      && RaceApi.RadiusInMiles(session.settings, toMiles) != radius
  {
  }

  /** Joining and resigning the same chapter go to different paths, and each names one chapter. */
  lemma MembershipActionsDistinct(a: string, b: string)
    ensures JoinChapter(a) != ResignChapter(b)
    ensures JoinChapter(a) == JoinChapter(b) ==> a == b
    ensures ResignChapter(a) == ResignChapter(b) ==> a == b
  {
    if JoinChapter(a) == JoinChapter(b) { WithQueryInjective(EndPoint.ChapterJoin, ParamKey.Id, a, b); }
    if ResignChapter(a) == ResignChapter(b) { WithQueryInjective(EndPoint.ChapterResign, ParamKey.Id, a, b); }
  }
}
