/** JSON values as request bodies and upstream replies carry them, together with
    the few pieces of Python semantics the handlers rely on: truthiness, dict.get,
    subscripting (which raises on a missing key or a non-dict) and f-string
    formatting. */
module Json {

  datatype Option<+T> = None | Some(value: T)

  datatype JsonValue =
    | Null
    | Bool(b: bool)
    | Int(i: int)
    | Float(x: real)
    | Str(s: string)
    | Arr(items: seq<JsonValue>)
    | Obj(fields: map<string, JsonValue>)

  /** A request body as Flask's request.json hands it to a handler: a JSON object. */
  type Request = map<string, JsonValue>

  /** Python truthiness: None, False, zero and empty strings, lists and dicts are false. */
  predicate Truthy(v: JsonValue)
  {
    match v
    case Null => false
    case Bool(b) => b
    case Int(i) => i != 0
    case Float(x) => x != 0.0
    case Str(s) => s != ""
    case Arr(items) => items != []
    case Obj(fields) => fields != map[]
  }

  /** body.get(key): the value under key, or None when the key is absent. */
  function Get(body: Request, key: string): JsonValue
  {
    if key in body then body[key] else Null
  }

  /** v[key]: None stands for the KeyError or TypeError Python raises when v is
      not a dict or has no such key. */
  function Subscript(v: JsonValue, key: string): Option<JsonValue>
  {
    if v.Obj? && key in v.fields then Some(v.fields[key]) else None
  }

  /** (v["geometry"]["location"]["lat"], v["geometry"]["location"]["lng"]), the
      coordinates of one result of a Google Maps reply; None when a step raises. */
  function GeometryLatLng(v: JsonValue): Option<(JsonValue, JsonValue)>
  {
    match Subscript(v, "geometry")
    case None => None
    case Some(geometry) =>
      match Subscript(geometry, "location")
      case None => None
      case Some(location) =>
        match (Subscript(location, "lat"), Subscript(location, "lng"))
        case (Some(lat), Some(lng)) => Some((lat, lng))
        case _ => None
  }

  /** The name Python gives the type of a decoded JSON value, as it appears in
      the text of an AttributeError. */
  function TypeName(v: JsonValue): string
  {
    match v
    case Null => "NoneType"
    case Bool(_) => "bool"
    case Int(_) => "int"
    case Float(_) => "float"
    case Str(_) => "str"
    case Arr(_) => "list"
    case Obj(_) => "dict"
  }

  function DigitChar(d: nat): char
    requires d < 10
  {
    "0123456789"[d]
  }

  /** Decimal digits of a natural number, most significant first. */
  function NatDigits(n: nat): (r: string)
    ensures |r| > 0
    decreases n
  {
    if n < 10 then [DigitChar(n)] else NatDigits(n / 10) + [DigitChar(n % 10)]
  }

  /** The text an f-string substitutes for v ({v}), for the values whose
      rendering the model spells out; floats, lists and dicts get a fixed stand-in. */
  function Format(v: JsonValue): string
  {
    match v
    case Null => "None"
    case Bool(b) => if b then "True" else "False"
    case Int(i) => if i < 0 then "-" + NatDigits(-i) else NatDigits(i)
    case Float(_) => "<float>"
    case Str(s) => s
    case Arr(_) => "<list>"
    case Obj(_) => "<dict>"
  }
}
