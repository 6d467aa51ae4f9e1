/**
 * The slice of ObjectMapper the models rely on: a JSON object, the `<-` operator for one field, and
 * the required-property check that `init?(map:)` runs before mapping. The value transforms of
 * `MapperUtil` and ObjectMapper are parameters.
 */
module JsonMap {
  import opened Wrappers
  import DateUtil

  /** Swift's `Int32`. */
  newtype Int32 = x: int | -0x8000_0000 <= x < 0x8000_0000

  datatype Json =
    | JNull
    | JBool(b: bool)
    | JNumber(n: int)
    | JString(s: string)
    | JArray(items: seq<Json>)
    | JObject(fields: map<string, Json>)

  type JsonObject = map<string, Json>

  /** The transforms the mappings name: `stringTransform`, `dateTransform`, `BooleanTransform`, `IntegerTransform`. */
  datatype Transforms = Transforms(
    text: Json -> Option<string>,
    date: Json -> Option<DateUtil.Date>,
    boolean: Json -> Option<bool>,
    integer: Json -> Option<Int32>)

  /** A JSON value read as the field's type, with no transform: a string. */
  function AsString(j: Json): Option<string> {
    if j.JString? then Some(j.s) else None
  }

  /**
   * A JSON value read as the field's type, with no transform: `as? Bool`. Foundation hands JSON
   * numbers over as `NSNumber`, which casts to a boolean only when it is 0 or 1.
   */
  function AsBool(j: Json): (r: Option<bool>)
    ensures r.Some? <==> j.JBool? || j == JNumber(0) || j == JNumber(1)
    ensures j.JBool? ==> r == Some(j.b)
    ensures j.JNumber? && r.Some? ==> (r.value <==> j.n == 1)
  {
    match j
    case JBool(b) => Some(b)
    case JNumber(n) => if n == 0 then Some(false) else if n == 1 then Some(true) else None
    case _ => None
  }

  /** `EnumTransform`: a string raw value decoded by the enumeration's `init(rawValue:)`. */
  function AsEnum<T>(j: Json, fromRaw: string -> Option<T>): Option<T> {
    if j.JString? then fromRaw(j.s) else None
  }

  /**
   * `field <- map[key]` for a non-optional field: when the key is present and its value converts,
   * the converted value replaces the field; otherwise the field keeps its value.
   */
  function Assign<T>(current: T, json: JsonObject, key: string, convert: Json -> Option<T>): (r: T)
    ensures key !in json ==> r == current
    ensures key in json && convert(json[key]).Some? ==> r == convert(json[key]).value
    ensures key in json && convert(json[key]).None? ==> r == current
  {
    if key in json then convert(json[key]).GetOr(current) else current
  }

  /**
   * `field <- map[key]` for an optional field: when the key is present the field becomes the
   * converted value, which is nil when the value does not convert; otherwise the field is kept.
   */
  function AssignOptional<T>(current: Option<T>, json: JsonObject, key: string, convert: Json -> Option<T>): (r: Option<T>)
    ensures key !in json ==> r == current
    ensures key in json ==> r == convert(json[key])
  {
    if key in json then convert(json[key]) else current
  }

  /** Mapping the same value twice leaves what mapping it once left. */
  lemma AssignIdempotent<T>(current: T, json: JsonObject, key: string, convert: Json -> Option<T>)
    ensures Assign(Assign(current, json, key, convert), json, key, convert) == Assign(current, json, key, convert)
  {
  }

  lemma AssignOptionalIdempotent<T>(current: Option<T>, json: JsonObject, key: string, convert: Json -> Option<T>)
    ensures AssignOptional(AssignOptional(current, json, key, convert), json, key, convert) == AssignOptional(current, json, key, convert)
  {
  }

  /** Whether every required key is present (with any value, including null). */
  predicate HasRequired(json: JsonObject, required: seq<string>) {
    forall k | k in required :: k in json
  }

  /** `init?(map:)`'s loop: fails at the first required key missing from the JSON. */
  method CheckRequiredProperties(json: JsonObject, required: seq<string>) returns (ok: bool)
    ensures ok <==> HasRequired(json, required)
  {
    for i := 0 to |required|
      invariant forall j | 0 <= j < i :: required[j] in json
    {
      if required[i] !in json {
        return false;
      }
    }
    return true;
  }
}
