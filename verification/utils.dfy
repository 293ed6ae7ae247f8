/** get_coordinates of utils.py: the Google Geocoding reply read as an optional
    (lat, lng) pair. The HTTP request itself is the Geocoder parameter. */
module Utils {
  import opened Json

  /** What get_coordinates sees of the Geocoding reply: the HTTP status and the
      "results" list, None when the body has no "results" key. */
  datatype GeocodeReply = GeocodeReply(status: int, results: Option<seq<JsonValue>>)

  /** The Geocoding call for an address. */
  type Geocoder = string -> GeocodeReply

  /** The coordinates of the first result, or None: on a non-200 status, on a
      missing or empty "results" list, and on a first result without
      geometry.location.lat and .lng (the exceptions the function swallows). */
  function GetCoordinates(reply: GeocodeReply): (r: Option<(JsonValue, JsonValue)>)
    ensures reply.status != 200 ==> r.None?
    ensures reply.results.None? || reply.results.value == [] ==> r.None?
    ensures r.Some? <==>
      reply.status == 200 && reply.results.Some? && reply.results.value != [] &&
      GeometryLatLng(reply.results.value[0]).Some?
    ensures r.Some? ==> r == GeometryLatLng(reply.results.value[0])
  {
    if reply.status != 200 then None
    else match reply.results
      case None => None
      case Some(results) =>
        if results == [] then None
        else GeometryLatLng(results[0])
  }

  /** Only the first result counts: what follows it never changes the answer,
      even when it is malformed. */
  lemma LaterResultsIgnored(status: int, first: JsonValue, rest: seq<JsonValue>, other: seq<JsonValue>)
    ensures GetCoordinates(GeocodeReply(status, Some([first] + rest))) ==
            GetCoordinates(GeocodeReply(status, Some([first] + other)))
  {
  }
}
