/** The prediction and slot-listing handlers of app.py, with its own version of
    get_nearby_parking. The Places service and the classifier are parameters;
    every handler returns its response together with the external calls it made. */
module App {
  import opened Json
  import opened Weather
  import opened Places
  import opened Web

  /** get_nearby_parking of app.py: None on a non-200 status, on a missing or
      empty "results" list, and when any place is malformed (the exception is
      swallowed); otherwise one lot per place, in upstream order, without a
      rating. */
  function GetNearbyParking(reply: PlacesReply): (r: Option<seq<Lot>>)
    ensures r.Some? <==>
      && reply.status == 200 && reply.results.Some? && reply.results.value != []
      && forall i :: 0 <= i < |reply.results.value| ==> WellFormedPlace(reply.results.value[i])
    ensures r.Some? ==> r.value != [] && |r.value| == |reply.results.value|
    ensures r.Some? ==> forall i :: 0 <= i < |r.value| ==>
      && r.value[i].rating.None?
      && r.value[i].name == DictGet(reply.results.value[i], "name", Null)
      && r.value[i].address == DictGet(reply.results.value[i], "vicinity", Null)
      && (r.value[i].lat, r.value[i].lng) == GeometryLatLng(reply.results.value[i]).value
  {
    if reply.status != 200 then None
    else match reply.results
      case None => None
      case Some(results) =>
        if results == [] then None else ToLots(results, false)
  }

  /** The feature row app.py gives the classifier for one spot: weather before hour. */
  function Features(spot: Lot, day: JsonValue, weather: JsonValue, hour: JsonValue): seq<JsonValue>
  {
    [spot.lat, spot.lng, day, weather, hour]
  }

  /** The comprehension that builds "predicted_parking_spots". */
  function Predictions(spots: seq<Lot>, day: JsonValue, weather: JsonValue, hour: JsonValue, classify: Classifier): (r: seq<Prediction>)
    ensures |r| == |spots|
    ensures forall i :: 0 <= i < |spots| ==>
      && (r[i].name, r[i].address, r[i].lat, r[i].lng) == (spots[i].name, spots[i].address, spots[i].lat, spots[i].lng)
      && (r[i].availability == "Available" <==> classify(Features(spots[i], day, weather, hour)) == 1)
      && (r[i].availability == "Available" || r[i].availability == "Not Available")
  {
    seq(|spots|, i requires 0 <= i < |spots| =>
      Prediction(spots[i].name, spots[i].address, spots[i].lat, spots[i].lng,
                 Availability(classify(Features(spots[i], day, weather, hour)))))
  }

  /** The classifier calls that comprehension makes, one per spot, in order. */
  function ClassifierCalls(spots: seq<Lot>, day: JsonValue, weather: JsonValue, hour: JsonValue): seq<Call>
  {
    seq(|spots|, i requires 0 <= i < |spots| => Classify(Features(spots[i], day, weather, hour)))
  }

  /** The text of the AttributeError that weather.title() raises on a non-string. */
  function NoTitleMessage(v: JsonValue): string
  {
    "'" + TypeName(v) + "' object has no attribute 'title'"
  }

  /** POST /predict_parking_availability of app.py. */
  function PredictParkingAvailability(body: Request, places: PlacesService, classify: Classifier): (x: Exchange)
    // weather.title() runs before any check: a missing or non-string weather is a 500
    ensures !Get(body, "weather").Str? ==>
      x == Exchange(Response(500, Error(NoTitleMessage(Get(body, "weather")))), [])
    // a missing field is a 400 and nothing external is called
    ensures Get(body, "weather").Str? &&
            Null in [Get(body, "latitude"), Get(body, "longitude"), Get(body, "day_of_week"), Get(body, "hour_of_day")] ==>
      x == Exchange(Response(400, Error("All fields are required")), [])
    // the Places search is made exactly when the weather is a string and no field is missing
    ensures (|x.calls| > 0) <==>
      Get(body, "weather").Str? &&
      Null !in [Get(body, "latitude"), Get(body, "longitude"), Get(body, "day_of_week"), Get(body, "hour_of_day")]
    ensures |x.calls| > 0 ==> x.calls[0] == PlacesSearch(Get(body, "latitude"), Get(body, "longitude"))
    // no spots: a 404 before the classifier
    ensures |x.calls| > 0 && GetNearbyParking(places(Get(body, "latitude"), Get(body, "longitude"))).None? ==>
      x.response == Response(404, Error("No nearby parking locations found")) && |x.calls| == 1
    // spots found: a 200 with the predictions
    ensures |x.calls| > 0 && GetNearbyParking(places(Get(body, "latitude"), Get(body, "longitude"))).Some? ==>
      x.response.status == 200
    // otherwise one prediction per spot, in order, labelled from the classifier
    ensures x.response.status == 200 ==>
      var spots := GetNearbyParking(places(Get(body, "latitude"), Get(body, "longitude"))).value;
      var weather := NormaliseWeather(Get(body, "weather").s);
      && x.response.payload.PredictedSpots?
      && |x.response.payload.predictions| == |spots| == |x.calls| - 1
      && forall i :: 0 <= i < |spots| ==>
        var p := x.response.payload.predictions[i];
        var row := [spots[i].lat, spots[i].lng, Get(body, "day_of_week"), weather, Get(body, "hour_of_day")];
        && (p.name, p.address, p.lat, p.lng) == (spots[i].name, spots[i].address, spots[i].lat, spots[i].lng)
        && x.calls[i + 1] == Classify(row)
        && (p.availability == "Available" <==> classify(row) == 1)
        && (p.availability == "Available" || p.availability == "Not Available")
    ensures x.response.status in {200, 400, 404, 500}
  {
    var latitude := Get(body, "latitude");
    var longitude := Get(body, "longitude");
    var dayOfWeek := Get(body, "day_of_week");
    var hourOfDay := Get(body, "hour_of_day");
    var raw := Get(body, "weather");
    if !raw.Str? then Exchange(Response(500, Error(NoTitleMessage(raw))), [])
    else
      var weather := NormaliseWeather(raw.s);
      if Null in [latitude, longitude, dayOfWeek, hourOfDay, weather] then
        Exchange(Response(400, Error("All fields are required")), [])
      else
        var lookup := [PlacesSearch(latitude, longitude)];
        var spots := GetNearbyParking(places(latitude, longitude));
        if spots.None? || spots.value == [] then
          Exchange(Response(404, Error("No nearby parking locations found")), lookup)
        else
          Exchange(Response(200, PredictedSpots(Predictions(spots.value, dayOfWeek, weather, hourOfDay, classify))),
                   lookup + ClassifierCalls(spots.value, dayOfWeek, weather, hourOfDay))
  }

  /** POST /get_parking_slots of app.py. */
  function GetParkingSlots(body: Request, places: PlacesService): (x: Exchange)
    // a falsy coordinate (missing, null, 0, 0.0, "") is a 400 before any lookup
    ensures !Truthy(Get(body, "latitude")) || !Truthy(Get(body, "longitude")) ==>
      x == Exchange(Response(400, Error("Latitude and longitude are required")), [])
    ensures Truthy(Get(body, "latitude")) && Truthy(Get(body, "longitude")) ==>
      x.calls == [PlacesSearch(Get(body, "latitude"), Get(body, "longitude"))]
    // the spots found are returned unchanged; none found is a 404
    ensures Truthy(Get(body, "latitude")) && Truthy(Get(body, "longitude")) ==>
      var spots := GetNearbyParking(places(Get(body, "latitude"), Get(body, "longitude")));
      x.response == if spots.None? then Response(404, Error("No nearby parking locations found"))
                    else Response(200, ParkingSpots(spots.value))
  {
    var latitude := Get(body, "latitude");
    var longitude := Get(body, "longitude");
    if !Truthy(latitude) || !Truthy(longitude) then
      Exchange(Response(400, Error("Latitude and longitude are required")), [])
    else
      var spots := GetNearbyParking(places(latitude, longitude));
      if spots.None? || spots.value == [] then
        Exchange(Response(404, Error("No nearby parking locations found")), [PlacesSearch(latitude, longitude)])
      else
        Exchange(Response(200, ParkingSpots(spots.value)), [PlacesSearch(latitude, longitude)])
  }

  /** A missing weather value ends in a 500, not in the 400 of the presence
      check, and no field is ever checked. */
  lemma MissingWeatherIsServerError(body: Request, places: PlacesService, classify: Classifier)
    requires "weather" !in body
    ensures PredictParkingAvailability(body, places, classify) ==
      Exchange(Response(500, Error(NoTitleMessage(Null))), [])
  {
    assert Get(body, "weather") == Null;
  }

  /** A coordinate of zero is rejected as missing. */
  lemma ZeroLatitudeRejected(body: Request, places: PlacesService)
    requires Get(body, "latitude") == Float(0.0) || Get(body, "latitude") == Int(0)
    ensures GetParkingSlots(body, places).response.status == 400
  {
  }

  /** Worked example: "rainy" on day 2 at 14h with one spot, classifier saying 1. */
  lemma RainyAfternoonExample(places: PlacesService, classify: Classifier, spot: Lot)
    requires GetNearbyParking(places(Float(51.523), Float(-0.1586))) == Some([spot])
    requires classify([spot.lat, spot.lng, Int(2), Int(3), Int(14)]) == 1
    ensures PredictParkingAvailability(
              map["latitude" := Float(51.523), "longitude" := Float(-0.1586), "day_of_week" := Int(2),
                  "hour_of_day" := Int(14), "weather" := Str("rainy")],
              places, classify).response ==
            Response(200, PredictedSpots([Prediction(spot.name, spot.address, spot.lat, spot.lng, "Available")]))
  {
    RainyAndSunny();
  }
}
