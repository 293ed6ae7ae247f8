/** The reply of the Google Places "nearby search" call and the dict literal both
    versions of get_nearby_parking build from each place in it. */
module Places {
  import opened Json

  /** What a handler sees of the Places reply: the HTTP status and the "results"
      list of the JSON body, None when the body has no "results" key. */
  datatype PlacesReply = PlacesReply(status: int, results: Option<seq<JsonValue>>)

  /** One normalised parking lot. rating is None in the app.py version, whose
      dict has no "rating" key. */
  datatype Lot = Lot(name: JsonValue, address: JsonValue, rating: Option<JsonValue>, lat: JsonValue, lng: JsonValue)

  /** place.get(key, default) on a dict. */
  function DictGet(place: JsonValue, key: string, default: JsonValue): JsonValue
    requires place.Obj?
  {
    if key in place.fields then place.fields[key] else default
  }

  /** A place the comprehension can turn into a lot without raising: a dict
      (place.get needs one) with geometry.location.lat and .lng. */
  predicate WellFormedPlace(place: JsonValue)
  {
    place.Obj? && GeometryLatLng(place).Some?
  }

  /** The dict literal for one place, with a "rating" key when rated; None
      stands for the exception building it raises. */
  function ToLot(place: JsonValue, rated: bool): (r: Option<Lot>)
    ensures r.Some? <==> WellFormedPlace(place)
    ensures r.Some? ==> r.value.lat == GeometryLatLng(place).value.0 && r.value.lng == GeometryLatLng(place).value.1
  {
    if !place.Obj? then None
    else match GeometryLatLng(place)
      case None => None
      case Some(coordinates) =>
        Some(Lot(DictGet(place, "name", Null),
                 DictGet(place, "vicinity", Null),
                 if rated then Some(DictGet(place, "rating", Str("No rating"))) else None,
                 coordinates.0, coordinates.1))
  }

  /** The list comprehension over the results: one lot per place in upstream
      order, or None (the exception) as soon as one place is malformed. */
  function ToLots(places: seq<JsonValue>, rated: bool): (r: Option<seq<Lot>>)
    ensures r.Some? <==> forall i :: 0 <= i < |places| ==> WellFormedPlace(places[i])
    ensures r.Some? ==> |r.value| == |places|
    ensures r.Some? ==> forall i :: 0 <= i < |places| ==> Some(r.value[i]) == ToLot(places[i], rated)
  {
    if places == [] then Some([])
    else
      var first, rest := ToLot(places[0], rated), ToLots(places[1..], rated);
      if first.Some? && rest.Some? then
        assert forall i :: 1 <= i < |places| ==> places[i] == places[1..][i - 1];
        Some([first.value] + rest.value)
      else
        None
  }

  /** Every lot of a list carries a rating: the stored one, or "No rating". */
  lemma {:induction false} RatedLotsCarryRating(places: seq<JsonValue>)
    requires ToLots(places, true).Some?
    ensures forall i :: 0 <= i < |places| ==>
      ToLots(places, true).value[i].rating ==
        Some(if "rating" in places[i].fields then places[i].fields["rating"] else Str("No rating"))
  {
  }

  /** A lot of a list takes its address from the place's "vicinity". */
  lemma AddressIsVicinity(places: seq<JsonValue>, rated: bool, i: nat)
    requires ToLots(places, rated).Some? && i < |places|
    ensures ToLots(places, rated).value[i].address == DictGet(places[i], "vicinity", Null)
    ensures ToLots(places, rated).value[i].name == DictGet(places[i], "name", Null)
  {
  }

  /** The lot as the app.py version builds it: the same fields, no rating. */
  function Unrated(lot: Lot): Lot
  {
    lot.(rating := None)
  }

  /** Dropping the rating from the rated lots gives exactly the unrated lots. */
  lemma {:induction false} UnratedLots(places: seq<JsonValue>)
    requires ToLots(places, true).Some?
    ensures ToLots(places, false).Some?
    ensures ToLots(places, false).value ==
      seq(|places|, i requires 0 <= i < |places| => Unrated(ToLots(places, true).value[i]))
  {
  }
}
