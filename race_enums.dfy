/**
 * The race enumerations: each case's wire raw value and display title, decoding from a raw value
 * (`init(rawValue:)`) and, for the types that conform to `EnumTitle`, lookup by title.
 */
module RaceEnums {
  import opened Wrappers
  import EnumTitle
  import Text


  datatype RaceType = Normal | Qualifier | Final {

    function RawValue(): string {
      match this
      case Normal => "1"
      case Qualifier => "2"
      case Final => "3"
    }

    function Title(): string {
      match this
      case Normal => "Normal"
      case Qualifier => "Qualifiers"
      case Final => "Championship"
    }

    /** Decoding a raw value gives the one case with that raw value, and `None` when no case has it. */
    static function FromRaw(raw: string): (r: Option<RaceType>)
      ensures forall c: RaceType :: r == Some(c) <==> c.RawValue() == raw
    {
      if raw == "1" then Some(RaceType.Normal)
      else if raw == "2" then Some(RaceType.Qualifier)
      else if raw == "3" then Some(RaceType.Final)
      else None
    }

    static lemma RawValueInjective(a: RaceType, b: RaceType)
      requires a.RawValue() == b.RawValue()
      ensures a == b
    {
      assert FromRaw(a.RawValue()) == Some(b);
    }

    static lemma TitleInjective(a: RaceType, b: RaceType)
      requires a.Title() == b.Title()
      ensures a == b
    {
    }

    static function AllCases(): (r: seq<RaceType>)
      ensures |r| == 3
    {
      [RaceType.Normal, RaceType.Qualifier, RaceType.Final]
    }

    static lemma Listed(c: RaceType)
      ensures c in AllCases()
    {
    }

    /** `init(title:)`: the first case whose title is `title`. */
    static function FromTitle(title: string): (r: Option<RaceType>)
      ensures r.Some? ==> r.value.Title() == title
    {
      EnumTitle.FirstWhere(AllCases(), (c: RaceType) => c.Title() == title)
    }

    /** Titles are pairwise distinct, so the lookup finds the one case with the title, whenever there is one. */
    static lemma TitleRoundTrip(title: string, c: RaceType)
      requires c.Title() == title
      ensures FromTitle(title) == Some(c)
    {
      Listed(c);
      TitleInjective(c, FromTitle(title).value);
    }
  }

  datatype RaceStatus = Open | Closed {

    function RawValue(): string {
      match this
      case Open => "0"
      case Closed => "1"
    }

    function Title(): string {
      match this
      case Open => "Open"
      case Closed => "Closed"
    }

    /** Decoding a raw value gives the one case with that raw value, and `None` when no case has it. */
    static function FromRaw(raw: string): (r: Option<RaceStatus>)
      ensures forall c: RaceStatus :: r == Some(c) <==> c.RawValue() == raw
    {
      if raw == "0" then Some(RaceStatus.Open)
      else if raw == "1" then Some(RaceStatus.Closed)
      else None
    }

    static lemma RawValueInjective(a: RaceStatus, b: RaceStatus)
      requires a.RawValue() == b.RawValue()
      ensures a == b
    {
      assert FromRaw(a.RawValue()) == Some(b);
    }

    static lemma TitleInjective(a: RaceStatus, b: RaceStatus)
      requires a.Title() == b.Title()
      ensures a == b
    {
    }

    static function AllCases(): (r: seq<RaceStatus>)
      ensures |r| == 2
    {
      [RaceStatus.Open, RaceStatus.Closed]
    }

    static lemma Listed(c: RaceStatus)
      ensures c in AllCases()
    {
    }

    /** `init(title:)`: the first case whose title is `title`. */
    static function FromTitle(title: string): (r: Option<RaceStatus>)
      ensures r.Some? ==> r.value.Title() == title
    {
      EnumTitle.FirstWhere(AllCases(), (c: RaceStatus) => c.Title() == title)
    }

    /** Titles are pairwise distinct, so the lookup finds the one case with the title, whenever there is one. */
    static lemma TitleRoundTrip(title: string, c: RaceStatus)
      requires c.Title() == title
      ensures FromTitle(title) == Some(c)
    {
      Listed(c);
      TitleInjective(c, FromTitle(title).value);
    }
  }

  datatype EventType = Public | Private {

    function RawValue(): string {
      match this
      case Public => "1"
      case Private => "0"
    }

    function Title(): string {
      match this
      case Public => "Public Event"
      case Private => "Private Event"
    }

    /** Decoding a raw value gives the one case with that raw value, and `None` when no case has it. */
    static function FromRaw(raw: string): (r: Option<EventType>)
      ensures forall c: EventType :: r == Some(c) <==> c.RawValue() == raw
    {
      if raw == "1" then Some(EventType.Public)
      else if raw == "0" then Some(EventType.Private)
      else None
    }

    static lemma RawValueInjective(a: EventType, b: EventType)
      requires a.RawValue() == b.RawValue()
      ensures a == b
    {
      assert FromRaw(a.RawValue()) == Some(b);
    }

    static lemma TitleInjective(a: EventType, b: EventType)
      requires a.Title() == b.Title()
      ensures a == b
    {
    }

    static function AllCases(): (r: seq<EventType>)
      ensures |r| == 2
    {
      [EventType.Public, EventType.Private]
    }

    static lemma Listed(c: EventType)
      ensures c in AllCases()
    {
    }

    /** `init(title:)`: the first case whose title is `title`. */
    static function FromTitle(title: string): (r: Option<EventType>)
      ensures r.Some? ==> r.value.Title() == title
    {
      EnumTitle.FirstWhere(AllCases(), (c: EventType) => c.Title() == title)
    }

    /** Titles are pairwise distinct, so the lookup finds the one case with the title, whenever there is one. */
    static lemma TitleRoundTrip(title: string, c: EventType)
      requires c.Title() == title
      ensures FromTitle(title) == Some(c)
    {
      Listed(c);
      TitleInjective(c, FromTitle(title).value);
    }
  }

  /** Not an `EnumTitle`: it has titles but no lookup by title. */
  datatype RaceOfficialStatus = Normal | Requested | Approved {

    function RawValue(): string {
      match this
      case Normal => "0"
      case Requested => "1"
      case Approved => "2"
    }

    function Title(): string {
      match this
      case Normal => "Normal"
      case Requested => "Requested"
      case Approved => "Official"
    }

    /** Decoding a raw value gives the one case with that raw value, and `None` when no case has it. */
    static function FromRaw(raw: string): (r: Option<RaceOfficialStatus>)
      ensures forall c: RaceOfficialStatus :: r == Some(c) <==> c.RawValue() == raw
    {
      if raw == "0" then Some(RaceOfficialStatus.Normal)
      else if raw == "1" then Some(RaceOfficialStatus.Requested)
      else if raw == "2" then Some(RaceOfficialStatus.Approved)
      else None
    }

    static lemma RawValueInjective(a: RaceOfficialStatus, b: RaceOfficialStatus)
      requires a.RawValue() == b.RawValue()
      ensures a == b
    {
      assert FromRaw(a.RawValue()) == Some(b);
    }

    static lemma TitleInjective(a: RaceOfficialStatus, b: RaceOfficialStatus)
      requires a.Title() == b.Title()
      ensures a == b
    {
    }
  }

  datatype ScoringFormat = AggregateLap | FastestLap | Fastest2Laps | Fastest3Laps {

    function RawValue(): string {
      match this
      case AggregateLap => "0"
      case FastestLap => "1"
      case Fastest2Laps => "6"
      case Fastest3Laps => "2"
    }

    function Title(): string {
      match this
      case AggregateLap => "Aggregate Laps"
      case FastestLap => "Fastest Lap"
      case Fastest2Laps => "Fastest 2 Consecutive Laps"
      case Fastest3Laps => "Fastest 3 Consecutive Laps"
    }

    /** Decoding a raw value gives the one case with that raw value, and `None` when no case has it. */
    static function FromRaw(raw: string): (r: Option<ScoringFormat>)
      ensures forall c: ScoringFormat :: r == Some(c) <==> c.RawValue() == raw
    {
      if raw == "0" then Some(ScoringFormat.AggregateLap)
      else if raw == "1" then Some(ScoringFormat.FastestLap)
      else if raw == "6" then Some(ScoringFormat.Fastest2Laps)
      else if raw == "2" then Some(ScoringFormat.Fastest3Laps)
      else None
    }

    static lemma RawValueInjective(a: ScoringFormat, b: ScoringFormat)
      requires a.RawValue() == b.RawValue()
      ensures a == b
    {
      assert FromRaw(a.RawValue()) == Some(b);
    }

    static lemma TitleInjective(a: ScoringFormat, b: ScoringFormat)
      requires a.Title() == b.Title()
      ensures a == b
    {
    }

    static function AllCases(): (r: seq<ScoringFormat>)
      ensures |r| == 4
    {
      [ScoringFormat.AggregateLap, ScoringFormat.FastestLap, ScoringFormat.Fastest2Laps, ScoringFormat.Fastest3Laps]
    }

    static lemma Listed(c: ScoringFormat)
      ensures c in AllCases()
    {
    }

    /** `init(title:)`: the first case whose title is `title`. */
    static function FromTitle(title: string): (r: Option<ScoringFormat>)
      ensures r.Some? ==> r.value.Title() == title
    {
      EnumTitle.FirstWhere(AllCases(), (c: ScoringFormat) => c.Title() == title)
    }

    /** Titles are pairwise distinct, so the lookup finds the one case with the title, whenever there is one. */
    static lemma TitleRoundTrip(title: string, c: ScoringFormat)
      requires c.Title() == title
      ensures FromTitle(title) == Some(c)
    {
      Listed(c);
      TitleInjective(c, FromTitle(title).value);
    }
  }

  datatype RaceClass = Open | Whoop | Micro | Freedom | Spec7in | Mega | Esport | Spec5in | Prospec {

    function RawValue(): string {
      match this
      case Open => "0"
      case Whoop => "1"
      case Micro => "2"
      case Freedom => "3"
      case Spec7in => "4"
      case Mega => "5"
      case Esport => "6"
      case Spec5in => "7"
      case Prospec => "8"
    }

    function Title(): string {
      match this
      case Open => "Open"
      case Whoop => "Whoop"
      case Micro => "Micro"
      case Freedom => "Freedom Spec"
      case Spec7in => "7 Inch Spec"
      case Mega => "Mega"
      case Esport => "E-Sport class"
      case Spec5in => "5 Inch Spec"
      case Prospec => "Pro Spec"
    }

    /** Decoding a raw value gives the one case with that raw value, and `None` when no case has it. */
    static function FromRaw(raw: string): (r: Option<RaceClass>)
      ensures forall c: RaceClass :: r == Some(c) <==> c.RawValue() == raw
    {
      if raw == "0" then Some(RaceClass.Open)
      else if raw == "1" then Some(RaceClass.Whoop)
      else if raw == "2" then Some(RaceClass.Micro)
      else if raw == "3" then Some(RaceClass.Freedom)
      else if raw == "4" then Some(RaceClass.Spec7in)
      else if raw == "5" then Some(RaceClass.Mega)
      else if raw == "6" then Some(RaceClass.Esport)
      else if raw == "7" then Some(RaceClass.Spec5in)
      else if raw == "8" then Some(RaceClass.Prospec)
      else None
    }

    static lemma RawValueInjective(a: RaceClass, b: RaceClass)
      requires a.RawValue() == b.RawValue()
      ensures a == b
    {
      assert FromRaw(a.RawValue()) == Some(b);
    }

    static lemma TitleInjective(a: RaceClass, b: RaceClass)
      requires a.Title() == b.Title()
      ensures a == b
    {
    }

    static function AllCases(): (r: seq<RaceClass>)
      ensures |r| == 9
    {
      [RaceClass.Open, RaceClass.Whoop, RaceClass.Micro, RaceClass.Freedom, RaceClass.Spec7in, RaceClass.Mega, RaceClass.Esport, RaceClass.Spec5in, RaceClass.Prospec]
    }

    static lemma Listed(c: RaceClass)
      ensures c in AllCases()
    {
    }

    /** `init(title:)`: the first case whose title is `title`. */
    static function FromTitle(title: string): (r: Option<RaceClass>)
      ensures r.Some? ==> r.value.Title() == title
    {
      EnumTitle.FirstWhere(AllCases(), (c: RaceClass) => c.Title() == title)
    }

    /** Titles are pairwise distinct, so the lookup finds the one case with the title, whenever there is one. */
    static lemma TitleRoundTrip(title: string, c: RaceClass)
      requires c.Title() == title
      ensures FromTitle(title) == Some(c)
    {
      Listed(c);
      TitleInjective(c, FromTitle(title).value);
    }
  }

  datatype QualifyingType = Controlled | Open {

    function RawValue(): string {
      match this
      case Controlled => "0"
      case Open => "1"
    }

    function Title(): string {
      match this
      case Controlled => "Controlled Qualifying"
      case Open => "Open ZippyQ"
    }

    /** Decoding a raw value gives the one case with that raw value, and `None` when no case has it. */
    static function FromRaw(raw: string): (r: Option<QualifyingType>)
      ensures forall c: QualifyingType :: r == Some(c) <==> c.RawValue() == raw
    {
      if raw == "0" then Some(QualifyingType.Controlled)
      else if raw == "1" then Some(QualifyingType.Open)
      else None
    }

    static lemma RawValueInjective(a: QualifyingType, b: QualifyingType)
      requires a.RawValue() == b.RawValue()
      ensures a == b
    {
      assert FromRaw(a.RawValue()) == Some(b);
    }

    static lemma TitleInjective(a: QualifyingType, b: QualifyingType)
      requires a.Title() == b.Title()
      ensures a == b
    {
    }

    static function AllCases(): (r: seq<QualifyingType>)
      ensures |r| == 2
    {
      [QualifyingType.Controlled, QualifyingType.Open]
    }

    static lemma Listed(c: QualifyingType)
      ensures c in AllCases()
    {
    }

    /** `init(title:)`: the first case whose title is `title`. */
    static function FromTitle(title: string): (r: Option<QualifyingType>)
      ensures r.Some? ==> r.value.Title() == title
    {
      EnumTitle.FirstWhere(AllCases(), (c: QualifyingType) => c.Title() == title)
    }

    /** Titles are pairwise distinct, so the lookup finds the one case with the title, whenever there is one. */
    static lemma TitleRoundTrip(title: string, c: QualifyingType)
      requires c.Title() == title
      ensures FromTitle(title) == Some(c)
    {
      Listed(c);
      TitleInjective(c, FromTitle(title).value);
    }
  }

  /** The class raw values are "0" through "8", in declaration order, one per case. */
  lemma RaceClassRawValuesSequential()
    ensures forall i | 0 <= i < 9 :: RaceClass.AllCases()[i].RawValue() == Text.NatToString(i)
  {
  }

  /** An open race is sent as "0" and shown as "Open"; a closed one as "1" and "Closed". */
  lemma RaceStatusTable()
    ensures RaceStatus.Open.RawValue() == "0" && RaceStatus.Open.Title() == "Open"
    ensures RaceStatus.Closed.RawValue() == "1" && RaceStatus.Closed.Title() == "Closed"
  {
  }

  /** The scoring raw values are not sequential: fastest 2 laps is "6", and "3" to "5" name no format. */
  lemma ScoringFormatRawValues()
    ensures ScoringFormat.AggregateLap.RawValue() == "0" && ScoringFormat.FastestLap.RawValue() == "1"
    ensures ScoringFormat.Fastest3Laps.RawValue() == "2" && ScoringFormat.Fastest2Laps.RawValue() == "6"
    ensures forall raw | raw in ["3", "4", "5"] :: ScoringFormat.FromRaw(raw) == None
  {
  }
}
