/** Page size and wire date formats shared by the API layer. */
module ApiConstants {

  /** Default page size of every paginated list call. */
  const StandardPageSize: int := 100

  const StandardDateFormat: string := "yyyy-MM-dd"
  /** The date-time format the server sends today. */
  const StandardDateTimeFormat: string := "yyyy-MM-dd HH:mm:ss"
  /** The legacy date-time format, tried when the standard one does not parse. */
  const OldDateTimeFormat: string := "yyyy-MM-dd h:mm a"
  const USLocale: string := "en_US_POSIX"

  /** The two date-time formats differ, so falling back from one to the other can change the outcome. */
  lemma DateTimeFormatsDistinct()
    ensures StandardDateTimeFormat != OldDateTimeFormat
    ensures StandardDateTimeFormat[..|StandardDateFormat|] == StandardDateFormat
    ensures OldDateTimeFormat[..|StandardDateFormat|] == StandardDateFormat
  {
  }
}

/** The server's endpoint paths. */
module EndPoint {

  const UserLogin: string := "user/login"
  const UserLogout: string := "user/logout"
  const UserProfile: string := "user/profile"
  const UserSearch: string := "user/search"
  const UserUpdateProfile: string := "user/updateProfile"

  /** The common prefix of every race endpoint; cancelling by this prefix cancels every race call. */
  const Race: string := "race/"
  const RaceList: string := "race/list"
  const RaceListForChapter: string := "race/listForChapter"
  const RaceFindLocal: string := "race/findLocal"
  const RaceView: string := "race/view"
  const RaceViewSimple: string := "race/viewSimple"
  const RaceJoin: string := "race/join"
  const RaceResign: string := "race/resign"
  const RaceForceJoin: string := "race/forceJoinPilot"
  const RaceOpen: string := "race/open"
  const RaceClose: string := "race/close"
  const RaceCheckIn: string := "race/checkIn"
  const RaceCheckOut: string := "race/checkOut"
  const RaceCreate: string := "race/create"
  const RaceUpdate: string := "race/update"
  const RaceDelete: string := "race/delete"
  const RaceFinalize: string := "race/finalize"

  /** The common prefix of the chapter endpoints (a name of this model; the source spells it in each path). */
  const Chapter: string := "chapter/"
  const ChapterList: string := "chapter/list"
  const ChapterFindLocal: string := "chapter/findLocal"
  const ChapterUsers: string := "chapter/users"
  const ChapterListManaged: string := "chapter/listManaged"
  const ChapterSearch: string := "chapter/search"
  const ChapterJoin: string := "chapter/join"
  const ChapterResign: string := "chapter/resign"

  const SeasonList: string := "season/list"
  const SeasonSearch: string := "season/search"
  const SeasonCreate: string := "season/create"
  const SeasonUpdate: string := "season/update"
  const SeasonDelete: string := "season/delete"

  const CourseList: string := "course/list"
  const CourseSearch: string := "course/search"
  const CourseCreate: string := "course/create"
  const CourseUpdate: string := "course/update"
  const CourseDelete: string := "course/delete"

  /** The common prefix of the aircraft endpoints (a name of this model; the source spells it in each path). */
  const Aircraft: string := "aircraft/"
  const AircraftList: string := "aircraft/list"
  const AircraftCreate: string := "aircraft/create"
  const AircraftUpdate: string := "aircraft/update"
  const AircraftRetire: string := "aircraft/retire"
  const AircraftUploadMainImage: string := "aircraft/uploadMainImage"
  const AircraftUploadBackground: string := "aircraft/uploadBackground"

  /** A path with no query part: the place where `?` starts a query is after the whole path. */
  predicate IsPath(e: string) {
    '?' !in e
  }

  /** Every race endpoint the API declares. */
  function RaceEndpoints(): (r: seq<string>)
    ensures |r| == 17
    ensures forall e | e in r :: Race <= e && IsPath(e)
  {
    [Race, RaceList, RaceListForChapter, RaceFindLocal, RaceView, RaceViewSimple, RaceJoin, RaceResign,
     RaceForceJoin, RaceOpen, RaceClose, RaceCheckIn, RaceCheckOut, RaceCreate, RaceUpdate, RaceDelete,
     RaceFinalize]
  }

  /** Every chapter endpoint the API declares. */
  function ChapterEndpoints(): (r: seq<string>)
    ensures |r| == 7
    ensures forall e | e in r :: Chapter <= e && IsPath(e)
  {
    [ChapterList, ChapterFindLocal, ChapterUsers, ChapterListManaged, ChapterSearch, ChapterJoin, ChapterResign]
  }

  /** No endpoint path is declared twice among the race and chapter endpoints. */
  lemma RaceAndChapterEndpointsDistinct()
    ensures forall i, j :: 0 <= i < j < |RaceEndpoints()| ==> RaceEndpoints()[i] != RaceEndpoints()[j]
    ensures forall i, j :: 0 <= i < j < |ChapterEndpoints()| ==> ChapterEndpoints()[i] != ChapterEndpoints()[j]
    ensures forall e | e in RaceEndpoints() :: e !in ChapterEndpoints()
  {
  }
}

/** The parameter and JSON keys used by the modelled calls and decoders. */
module ParamKey {

  const Id: string := "id"
  const PilotId: string := "pilotId"
  const ChapterId: string := "chapterId"
  const AircraftId: string := "aircraftId"
  const SeasonId: string := "seasonId"
  const OwnerId: string := "ownerId"
  const CourseId: string := "courseId"
  const ParentRaceId: string := "parentRaceId"
  const ChapterIds: string := "chapterIds"
  const Limit: string := "limit"

  const Name: string := "name"
  const FirstName: string := "firstName"
  const LastName: string := "lastName"
  const DisplayName: string := "displayName"
  const UserName: string := "userName"
  const OwnerUserName: string := "ownerUserName"
  const ChapterName: string := "chapterName"
  const SeasonName: string := "seasonName"
  const CourseName: string := "courseName"
  const PilotUserName: string := "pilotUserName"
  const PilotName: string := "pilotName"
  const UrlName: string := "urlName"
  const Description: string := "description"

  const Joined: string := "joined"
  const IsJoined: string := "isJoined"
  const Upcoming: string := "upcoming"
  const Past: string := "past"
  const Status: string := "status"
  const NearBy: string := "nearBy"
  const IsQualifier: string := "isQualifier"
  const Type: string := "type"
  const ManagedChapters: string := "managedChapters"
  const Entries: string := "entries"
  const Schedule: string := "schedule"
  const RaceType: string := "raceType"
  const StartDate: string := "startDate"
  const EndDate: string := "endDate"
  const ChildRaceCount: string := "childRaceCount"
  const RaceEntryCount: string := "raceEntryCount"
  const ParticipantCount: string := "participantCount"
  const OfficialStatus: string := "officialStatus"
  const CaptureTimeEnabled: string := "captureTimeEnabled"
  const Finalized: string := "finalized"
  const ScoringDisabled: string := "scoringDisabled"
  const ScoringFormat: string := "scoringFormat"
  const Score: string := "score"
  const CycleCount: string := "cycleCount"
  const ZippyqIterator: string := "zippyqIterator"
  const MaxZippyqDepth: string := "maxZippyqDepth"
  const DisableSlotAutoPopulation: string := "disableSlotAutoPopulation"
  const MaxBatteriesForQualifying: string := "maxBatteriesForQualifying"
  const Content: string := "content"
  const ItineraryContent: string := "itineraryContent"
  const TypeRestriction: string := "typeRestriction"
  const SizeRestriction: string := "sizeRestriction"
  const BatteryRestriction: string := "batteryRestriction"
  const PropellerSizeRestriction: string := "propellerSizeRestriction"
  const Frequency: string := "frequency"
  const Band: string := "band"
  const Channel: string := "channel"
  const RaceClass: string := "raceClass"
  const RaceClassString: string := "raceClassString"

  const Address: string := "address"
  const City: string := "city"
  const State: string := "state"
  const Zip: string := "zip"
  const Country: string := "country"
  const Latitude: string := "latitude"
  const Longitude: string := "longitude"
  const Radius: string := "radius"

  const LiveTimeEventUrl: string := "liveTimeEventUrl"
  const ProfilePictureUrl: string := "profilePictureUrl"
  const MainImageFileName: string := "mainImageFileName"
  const ChapterImageFileName: string := "chapterImageFileName"

  const DateAdded: string := "dateAdded"
  const DateModified: string := "dateModified"
}
