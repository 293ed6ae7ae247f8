/** The parking blueprint (parking_routes.py): its own get_nearby_parking, the
    geocode-then-search slot listing and the single-row prediction. None of its
    handlers catches exceptions. */
module ParkingRoutes {
  import opened Json
  import opened Places
  import opened Web
  import opened Utils
  import App

  /** What get_nearby_parking of parking_routes.py ends in: a list (possibly
      empty), None, or an exception, which nothing in the blueprint catches. */
  datatype Nearby = Listed(lots: seq<Lot>) | NoneReturned | Raised

  /** get_nearby_parking of parking_routes.py. */
  function GetNearbyParking(reply: PlacesReply): (r: Nearby)
    ensures r.NoneReturned? <==> reply.status != 200 || reply.results.None?
    ensures r.Raised? <==>
      reply.status == 200 && reply.results.Some? &&
      exists i :: 0 <= i < |reply.results.value| && !WellFormedPlace(reply.results.value[i])
    ensures r.Listed? ==> |r.lots| == |reply.results.value|
    ensures r.Listed? ==> forall i :: 0 <= i < |r.lots| ==>
      var place := reply.results.value[i];
      && r.lots[i].name == DictGet(place, "name", Null)
      && r.lots[i].address == DictGet(place, "vicinity", Null)
      && r.lots[i].rating == Some(if "rating" in place.fields then place.fields["rating"] else Str("No rating"))
      && (r.lots[i].lat, r.lots[i].lng) == GeometryLatLng(place).value
  {
    if reply.status == 200 && reply.results.Some? then
      var lots := ToLots(reply.results.value, true);
      if lots.Some? then Listed(lots.value) else Raised
    else NoneReturned
  }

  /** The address handed to the geocoder: f"{location}, {postcode}". */
  function Address(location: JsonValue, postcode: JsonValue): (r: string)
    // two strings are joined by a comma and a space
    ensures location.Str? && postcode.Str? ==> r == location.s + ", " + postcode.s
  {
    Format(location) + ", " + Format(postcode)
  }

  /** POST /parking/get_parking_slots. */
  function GetParkingSlots(body: Request, geocoder: Geocoder, places: PlacesService): (x: Exchange)
    // a falsy location or postcode is a 400 before any geocoding
    ensures !Truthy(Get(body, "location")) || !Truthy(Get(body, "postcode")) ==>
      x == Exchange(Response(400, Error("Location and postcode are required")), [])
    // otherwise the geocoder is called first, with "<location>, <postcode>"
    ensures Truthy(Get(body, "location")) && Truthy(Get(body, "postcode")) ==>
      |x.calls| > 0 && x.calls[0] == Geocode(Address(Get(body, "location"), Get(body, "postcode")))
    // no coordinates: a 500 and no Places search
    ensures |x.calls| > 0 && GetCoordinates(geocoder(x.calls[0].address)).None? ==>
      x == Exchange(Response(500, Error("Failed to get location coordinates")), x.calls[..1])
    // coordinates: one Places search at them, then a 404, a 500 or the spots unchanged
    ensures |x.calls| > 0 && GetCoordinates(geocoder(x.calls[0].address)).Some? ==>
      var coordinates := GetCoordinates(geocoder(x.calls[0].address)).value;
      var nearby := GetNearbyParking(places(coordinates.0, coordinates.1));
      && x.calls == [x.calls[0], PlacesSearch(coordinates.0, coordinates.1)]
      && x.response == match nearby
        case Raised => Response(500, InternalServerError)
        case NoneReturned => Response(404, Error("No parking spots found nearby"))
        case Listed(lots) =>
          if lots == [] then Response(404, Error("No parking spots found nearby"))
          else Response(200, ParkingSpots(lots))
  {
    var location := Get(body, "location");
    var postcode := Get(body, "postcode");
    if !Truthy(location) || !Truthy(postcode) then
      Exchange(Response(400, Error("Location and postcode are required")), [])
    else
      var address := Address(location, postcode);
      match GetCoordinates(geocoder(address))
      case None =>
        Exchange(Response(500, Error("Failed to get location coordinates")), [Geocode(address)])
      case Some(coordinates) =>
        var calls := [Geocode(address), PlacesSearch(coordinates.0, coordinates.1)];
        match GetNearbyParking(places(coordinates.0, coordinates.1))
        case Raised => Exchange(Response(500, InternalServerError), calls)
        case NoneReturned => Exchange(Response(404, Error("No parking spots found nearby")), calls)
        case Listed(lots) =>
          if lots == [] then Exchange(Response(404, Error("No parking spots found nearby")), calls)
          else Exchange(Response(200, ParkingSpots(lots)), calls)
  }

  /** The feature row this blueprint gives the classifier: hour before weather. */
  function Features(latitude: JsonValue, longitude: JsonValue, day: JsonValue, hour: JsonValue, weather: JsonValue): seq<JsonValue>
  {
    [latitude, longitude, day, hour, weather]
  }

  /** POST /parking/predict_parking_availability. */
  function PredictParkingAvailability(body: Request, classify: Classifier): (x: Exchange)
    // a missing field is a 400 and the classifier is not called
    ensures Null in [Get(body, "latitude"), Get(body, "longitude"), Get(body, "day_of_week"), Get(body, "hour_of_day"), Get(body, "weather")] ==>
      x == Exchange(Response(400, Error("All fields are required")), [])
    // otherwise exactly one classifier call, on the raw fields in this order
    ensures Null !in [Get(body, "latitude"), Get(body, "longitude"), Get(body, "day_of_week"), Get(body, "hour_of_day"), Get(body, "weather")] ==>
      var row := [Get(body, "latitude"), Get(body, "longitude"), Get(body, "day_of_week"), Get(body, "hour_of_day"), Get(body, "weather")];
      && x.calls == [Classify(row)]
      && x.response.status == 200
      && x.response.payload.SinglePrediction?
      && (x.response.payload.prediction == "Available" <==> classify(row) == 1)
      && (x.response.payload.prediction == "Available" || x.response.payload.prediction == "Not Available")
  {
    var latitude := Get(body, "latitude");
    var longitude := Get(body, "longitude");
    var dayOfWeek := Get(body, "day_of_week");
    var hourOfDay := Get(body, "hour_of_day");
    var weather := Get(body, "weather");
    if Null in [latitude, longitude, dayOfWeek, hourOfDay, weather] then
      Exchange(Response(400, Error("All fields are required")), [])
    else
      var row := Features(latitude, longitude, dayOfWeek, hourOfDay, weather);
      Exchange(Response(200, SinglePrediction(Availability(classify(row)))), [Classify(row)])
  }

  /** Zeros and a weather word outside the app.py table are all accepted here. */
  lemma ZerosAndUnmappedWeatherAccepted(classify: Classifier)
    ensures PredictParkingAvailability(
              map["latitude" := Float(0.0), "longitude" := Float(0.0), "day_of_week" := Int(0),
                  "hour_of_day" := Int(0), "weather" := Str("Sunny")],
              classify).response.status == 200
  {
  }

  /** The two versions of get_nearby_parking part ways on an empty "results":
      app.py answers None, this blueprint an empty list. */
  lemma EmptyResultsDiffer()
    ensures App.GetNearbyParking(PlacesReply(200, Some([]))).None?
    ensures GetNearbyParking(PlacesReply(200, Some([]))) == Listed([])
  {
  }

  /** Wherever app.py's version finds lots, this one finds the same lots in the
      same order, each with a rating added. */
  lemma VersionsAgreeOnFoundLots(reply: PlacesReply)
    requires App.GetNearbyParking(reply).Some?
    ensures GetNearbyParking(reply).Listed?
    ensures App.GetNearbyParking(reply).value ==
      seq(|GetNearbyParking(reply).lots|, i requires 0 <= i < |GetNearbyParking(reply).lots| =>
        Unrated(GetNearbyParking(reply).lots[i]))
  {
    var results := reply.results.value;
    assert ToLots(results, true).Some?;
    UnratedLots(results);
  }

  /** The two prediction call sites feed the classifier the same row only when
      the hour and the weather values coincide. */
  lemma FeatureOrdersDiffer(spot: Lot, day: JsonValue, hour: JsonValue, weather: JsonValue)
    ensures App.Features(spot, day, weather, hour) == Features(spot.lat, spot.lng, day, hour, weather) <==> hour == weather
  {
    if App.Features(spot, day, weather, hour) == Features(spot.lat, spot.lng, day, hour, weather) {
      assert App.Features(spot, day, weather, hour)[3] == Features(spot.lat, spot.lng, day, hour, weather)[3];
    }
  }

  /** Worked example: geocoding "221B Baker St, NW16XE" gives (51.523, -0.1586)
      and the search there finds one car park, which is returned as found. */
  lemma BakerStreetExample(geocoder: Geocoder, places: PlacesService)
    requires geocoder("221B Baker St, NW16XE") ==
      GeocodeReply(200, Some([Obj(map["geometry" := Obj(map["location" :=
        Obj(map["lat" := Float(51.523), "lng" := Float(-0.1586)])])])]))
    requires places(Float(51.523), Float(-0.1586)) ==
      PlacesReply(200, Some([Obj(map["name" := Str("Baker St Car Park"), "vicinity" := Str("Baker Street"),
        "geometry" := Obj(map["location" := Obj(map["lat" := Float(51.523), "lng" := Float(-0.1586)])])])]))
    ensures GetParkingSlots(map["location" := Str("221B Baker St"), "postcode" := Str("NW16XE")], geocoder, places).response ==
      Response(200, ParkingSpots([Lot(Str("Baker St Car Park"), Str("Baker Street"), Some(Str("No rating")),
                                      Float(51.523), Float(-0.1586))]))
  {
    var body := map["location" := Str("221B Baker St"), "postcode" := Str("NW16XE")];
    assert Address(Get(body, "location"), Get(body, "postcode")) == "221B Baker St, NW16XE";
    var geometry := Obj(map["location" := Obj(map["lat" := Float(51.523), "lng" := Float(-0.1586)])]);
    assert GetCoordinates(geocoder("221B Baker St, NW16XE")) == Some((Float(51.523), Float(-0.1586))) by {
      assert GeometryLatLng(Obj(map["geometry" := geometry])) == Some((Float(51.523), Float(-0.1586)));
    }
    var place := Obj(map["name" := Str("Baker St Car Park"), "vicinity" := Str("Baker Street"), "geometry" := geometry]);
    var lot := Lot(Str("Baker St Car Park"), Str("Baker Street"), Some(Str("No rating")), Float(51.523), Float(-0.1586));
    assert GeometryLatLng(place) == Some((Float(51.523), Float(-0.1586)));
    assert ToLot(place, true) == Some(lot);
    assert GetNearbyParking(places(Float(51.523), Float(-0.1586))) == Listed([lot]);
  }
}
