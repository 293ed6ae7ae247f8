/** What a handler returns (an HTTP status and a JSON payload) and the external
    calls it makes on the way, which the model records so that "the classifier
    is never called" and the like can be stated. */
module Web {
  import opened Json
  import opened Places

  /** One entry of "predicted_parking_spots". */
  datatype Prediction = Prediction(name: JsonValue, address: JsonValue, lat: JsonValue, lng: JsonValue, availability: string)

  datatype Payload =
    | Error(error: string)                        // {"error": ...}
    | Message(message: string)                    // {"message": ...}
    | ParkingSpots(spots: seq<Lot>)               // {"parking_spots": [...]}
    | PredictedSpots(predictions: seq<Prediction>) // {"predicted_parking_spots": [...]}
    | SinglePrediction(prediction: string)        // {"prediction": ...}
    | LoginSuccess(message: string, token: string) // {"message": ..., "token": ...}
    | LibraryError                                // {"error": str(e)} for an exception raised inside a library
    | InternalServerError                         // Flask's own page for an exception no handler catches

  datatype Response = Response(status: int, payload: Payload)

  /** An external call a handler makes, with its argument. */
  datatype Call =
    | Geocode(address: string)
    | PlacesSearch(lat: JsonValue, lng: JsonValue)
    | Classify(features: seq<JsonValue>)

  datatype Exchange = Exchange(response: Response, calls: seq<Call>)

  /** The trained model: model.predict on one feature row, first label. */
  type Classifier = seq<JsonValue> -> int

  /** The Places nearby search around (latitude, longitude). */
  type PlacesService = (JsonValue, JsonValue) -> PlacesReply

  /** The label shown for a classifier output. */
  function Availability(output: int): string
  {
    if output == 1 then "Available" else "Not Available"
  }
}
