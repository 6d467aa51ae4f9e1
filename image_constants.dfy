/** The image kinds an aircraft can upload (ImageConstants.swift): their titles, form keys and upload endpoints. */
module ImageConstants {
  import EndPoint

  datatype ImageType = Main | Background {
    /** The image's title. */
    function Title(): (r: string)
      ensures this == Main ==> r == "avatar"
      ensures this == Background ==> r == "background"
    {
      match this
      case Main => "avatar"
      case Background => "background"
    }

    /** The multipart form key the image is uploaded under. */
    function Key(): (r: string)
      ensures this == Main ==> r == "mainImageInput"
      ensures this == Background ==> r == "backgroundImageInput"
    {
      match this
      case Main => "mainImageInput"
      case Background => "backgroundImageInput"
    }

    /** The upload endpoint's last path component. */
    function Endpoint(): (r: string)
      ensures this == Main ==> r == "uploadMainImage"
      ensures this == Background ==> r == "uploadBackground"
    {
      match this
      case Main => "uploadMainImage"
      case Background => "uploadBackground"
    }
  }

  /** Each image's endpoint completes the matching aircraft upload path under `aircraft/`. */
  lemma EndpointUnderAircraft()
    ensures EndPoint.Aircraft + ImageType.Main.Endpoint() == EndPoint.AircraftUploadMainImage
    ensures EndPoint.Aircraft + ImageType.Background.Endpoint() == EndPoint.AircraftUploadBackground
  {
  }

  /** The title, key and endpoint each tell the two kinds apart. */
  lemma TablesInjective(a: ImageType, b: ImageType)
    ensures a.Title() == b.Title() ==> a == b
    ensures a.Key() == b.Key() ==> a == b
    ensures a.Endpoint() == b.Endpoint() ==> a == b
  {
  }
}
