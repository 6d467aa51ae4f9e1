/**
 * What the API layer reads from its session singleton (`APIServices.shared`): the signed-in user,
 * the user's settings and the chapters the user manages. The model passes these as a value.
 */
module Services {
  import opened Wrappers

  /** The signed-in user, as far as the modelled calls read it. */
  datatype User = User(id: string, latitude: string, longitude: string)

  /** The unit the user's search radius is expressed in. */
  datatype LengthUnit = Kilometers | Miles

  /** The user's search settings: the unit and the radius, kept as the API's string. */
  datatype Settings = Settings(lengthUnit: LengthUnit, searchRadius: string)

  /** A chapter the user manages; its id may be missing from the server's answer. */
  datatype ManagedChapter = ManagedChapter(id: Option<string>)

  /** The session state: nil user before sign-in, nil managed chapters before they are loaded. */
  datatype Session = Session(myUser: Option<User>, settings: Settings, myManagedChapters: Option<seq<ManagedChapter>>)
}
