/**
 * The permission and presentation properties a race derives from the session (Race+Extensions.swift):
 * whether the race belongs to a chapter the user manages, what the user may do with it, and the
 * scoring format that actually applies. Each reads a race's value (`Race.Fields()`) and the session.
 */
module RaceExtensions {
  import opened Wrappers
  import opened OptionSeq
  import opened RaceEnums
  import opened DateUtil
  import opened Services
  import opened RaceModel

  /** The ids the managed chapters carry, in order: `managedChapters.compactMap { $0.id }`. */
  function ManagedChapterIds(chapters: seq<ManagedChapter>): (r: seq<string>)
    ensures |r| <= |chapters|
    ensures forall id :: id in r <==> exists i | 0 <= i < |chapters| :: chapters[i].id == Some(id)
  {
    var ids := seq(|chapters|, i requires 0 <= i < |chapters| => chapters[i].id);
    forall id ensures id in Compact(ids) <==> exists i | 0 <= i < |chapters| :: chapters[i].id == Some(id) {
      CompactContains(ids, id);
      if Some(id) in ids {
        var i :| 0 <= i < |ids| && ids[i] == Some(id);
        assert chapters[i].id == Some(id);
      }
      if exists i | 0 <= i < |chapters| :: chapters[i].id == Some(id) {
        var i :| 0 <= i < |chapters| && chapters[i].id == Some(id);
        assert ids[i] == Some(id);
      }
    }
    Compact(ids)
  }

  /** The race's chapter is one the user manages; never before the managed chapters are loaded. */
  function IsMyChapter(race: RaceFields, session: Session): (r: bool)
    ensures session.myManagedChapters.None? ==> !r
    ensures session.myManagedChapters.Some? ==>
      (r <==> exists i | 0 <= i < |session.myManagedChapters.value| ::
                session.myManagedChapters.value[i].id == Some(race.ownership.chapterId))
  {
    match session.myManagedChapters
    case None => false
    case Some(chapters) => race.ownership.chapterId in ManagedChapterIds(chapters)
  }

  /** Whether the user may edit the race. */
  function CanBeEdited(race: RaceFields, session: Session): (r: bool)
    ensures r ==> session.myManagedChapters.Some?
  {
    IsMyChapter(race, session)
  }

  /** Whether the user may join or resign pilots. */
  function CanChangeEnrollment(race: RaceFields, session: Session): (r: bool)
    ensures r ==> session.myManagedChapters.Some?
  {
    IsMyChapter(race, session)
  }

  /** Whether the user may duplicate the race: only a normal race of one of the user's chapters. */
  function CanBeDuplicated(race: RaceFields, session: Session): (r: bool)
    ensures r ==> race.classification.raceType == RaceType.Normal
  {
    IsMyChapter(race, session) && race.classification.raceType == RaceType.Normal
  }

  /** Whether the user may delete the race: one of the user's chapters, and the user owns it. */
  function CanBeDeleted(race: RaceFields, session: Session): (r: bool)
    ensures r ==> session.myUser.Some? && session.myUser.value.id == race.ownership.ownerId
  {
    IsMyChapter(race, session) && Some(race.ownership.ownerId) == (if session.myUser.Some? then Some(session.myUser.value.id) else None)
  }

  /** Whether the user may finalize the race: deletable, started in the past, and not finalized yet. */
  function CanBeFinalized(race: RaceFields, session: Session, isPassed: Date -> bool): (r: bool)
    ensures r ==> race.summary.startDate.Some? && isPassed(race.summary.startDate.value)
    ensures r ==> !race.settings.isFinalized
  {
    IsMyChapter(race, session)
    && Some(race.ownership.ownerId) == (if session.myUser.Some? then Some(session.myUser.value.id) else None)
    && race.summary.startDate.Some? && isPassed(race.summary.startDate.value)
    && !race.settings.isFinalized
  }

  /** Whether the race is a Global Qualifier. */
  function IsGQ(race: RaceFields): (r: bool)
    ensures r <==> race.classification.raceType == RaceType.Qualifier
  {
    race.classification.raceType == RaceType.Qualifier
  }

  /** The scoring format that applies: a Global Qualifier is always scored on the fastest three laps. */
  function TrueScoringFormat(race: RaceFields): (r: ScoringFormat)
    ensures IsGQ(race) ==> r == ScoringFormat.Fastest3Laps
    ensures !IsGQ(race) ==> r == race.classification.scoringFormat
  {
    if IsGQ(race) then ScoringFormat.Fastest3Laps else race.classification.scoringFormat
  }

  /** Each permission narrows the previous one: finalize, then delete, then edit; duplicating needs editing too. */
  lemma PermissionsNarrow(race: RaceFields, session: Session, isPassed: Date -> bool)
    ensures CanBeFinalized(race, session, isPassed) ==> CanBeDeleted(race, session)
    ensures CanBeDeleted(race, session) ==> CanBeEdited(race, session)
    ensures CanBeDuplicated(race, session) ==> CanBeEdited(race, session)
    ensures CanChangeEnrollment(race, session) == CanBeEdited(race, session)
  {
  }

  /** Deleting and finalizing open exactly to the owner who manages the race's chapter. */
  lemma DeletableExactly(race: RaceFields, session: Session)
    ensures CanBeDeleted(race, session) <==>
      session.myUser.Some? && session.myUser.value.id == race.ownership.ownerId &&
      session.myManagedChapters.Some? &&
      exists i | 0 <= i < |session.myManagedChapters.value| ::
        session.myManagedChapters.value[i].id == Some(race.ownership.chapterId)
  {
  }

  /** Editing needs exactly managed chapters that are loaded and include the race's chapter. */
  lemma EditableExactly(race: RaceFields, session: Session)
    ensures CanBeEdited(race, session) <==>
      session.myManagedChapters.Some? &&
      exists i | 0 <= i < |session.myManagedChapters.value| ::
        session.myManagedChapters.value[i].id == Some(race.ownership.chapterId)
  {
  }

  /** Changing enrolment needs exactly what editing needs: the race's chapter among the managed ones. */
  lemma EnrollmentExactly(race: RaceFields, session: Session)
    ensures CanChangeEnrollment(race, session) <==>
      session.myManagedChapters.Some? &&
      exists i | 0 <= i < |session.myManagedChapters.value| ::
        session.myManagedChapters.value[i].id == Some(race.ownership.chapterId)
  {
  }

  /** Duplicating needs exactly a race of one of the user's chapters whose type is normal. */
  lemma DuplicableExactly(race: RaceFields, session: Session)
    ensures CanBeDuplicated(race, session) <==>
      IsMyChapter(race, session) && race.classification.raceType == RaceType.Normal
  {
  }

  /** Finalizing needs exactly a deletable race whose start date has passed and that is not finalized yet. */
  lemma FinalizableExactly(race: RaceFields, session: Session, isPassed: Date -> bool)
    ensures CanBeFinalized(race, session, isPassed) <==>
      CanBeDeleted(race, session) && race.summary.startDate.Some? &&
      isPassed(race.summary.startDate.value) && !race.settings.isFinalized
  {
  }

  /** A race that is finalized can never be finalized again, whoever asks and whenever. */
  lemma FinalizedStaysFinal(race: RaceFields, session: Session, isPassed: Date -> bool)
    requires race.settings.isFinalized
    ensures !CanBeFinalized(race, session, isPassed)
  {
  }

  /** Loading more managed chapters never takes away a permission derived from them. */
  lemma IsMyChapterMonotone(race: RaceFields, user: Option<User>, settings: Settings, chapters: seq<ManagedChapter>, more: seq<ManagedChapter>)
    ensures IsMyChapter(race, Session(user, settings, Some(chapters))) ==>
            IsMyChapter(race, Session(user, settings, Some(chapters + more)))
  {
    if IsMyChapter(race, Session(user, settings, Some(chapters))) {
      var i :| 0 <= i < |chapters| && chapters[i].id == Some(race.ownership.chapterId);
      assert (chapters + more)[i] == chapters[i];
    }
  }

  /** A Global Qualifier's true format does not depend on the format it was saved with. */
  lemma GQFormatIgnoresStored(race: RaceFields, format: ScoringFormat)
    requires IsGQ(race)
    ensures TrueScoringFormat(race) == TrueScoringFormat(race.(classification := race.classification.(scoringFormat := format)))
  {
  }
}
