# Smart Parking backend — a Dafny model

This project models the deterministic core of the Smart Parking System's Flask
backend and proves properties of it:

- the **booking ledger** of `app.py` (`book_parking`, `cancel_booking`): the
  `parking_slots` collection as a class holding a map from `location_id` to a
  record of free slots and of the users holding a slot, updated in place;
- the **prediction handlers** of `app.py` and of the parking blueprint
  (`parking_routes.py`), including `app.py`'s weather normalisation (Python's
  `str.title()` over ASCII letters, then the seven-entry code table);
- the two **`get_nearby_parking`** functions, which turn a Google Places reply
  into a list of lots, and both **`get_parking_slots`** handlers;
- **`get_coordinates`** of `utils.py`, which reads a Google Geocoding reply;
- **`login`** of `auth_routes.py`, which registers an unknown email on the fly
  as a class over the `users` collection.

The Places search, the geocoder, the trained classifier, bcrypt, JWT signing and
the clock are parameters (`PlacesService`, `Geocoder`, `Classifier`, `Crypto`,
`now`). Every handler that talks to the Places search, the geocoder or the
classifier returns an `Exchange`: its response plus the list of external calls it
made. `login`, whose only services are bcrypt and JWT, returns a `LoginStep`
instead: its response and the users table it leaves behind. So "a 400 is returned and the
classifier is never called" can be stated and proved. JSON values (`Json.JsonValue`)
carry Python's truthiness, `dict.get` and subscripting, where a missing key or a
non-dict raises. Coordinates are passed through untouched: `Float` holds an exact `real`.

Modules: `Json` (json.dfy), `Web` (web.dfy: responses and calls), `Weather`
(weather.dfy), `Places` (places.dfy: the place-to-lot dict literal shared by both
versions), `Utils` (utils.dfy), `App` (app.dfy), `Booking` (booking.dfy),
`ParkingRoutes` (parking_routes.dfy), `AuthRoutes` (auth.dfy).

The code differs from what a reader might expect in these places, and the model follows the code:

- An unresolvable location is a 500 ("Failed to get location coordinates"), not a 404.
- The blueprint's `get_nearby_parking` turns an empty `results` into an empty list,
  and only its caller turns that into a 404.
- The two prediction call sites order the features differently:
  `[lat, lng, day, weather, hour]` in `app.py` and `[lat, lng, day, hour, weather]`
  in the blueprint. Both are modelled as written.
- The ledger update is a read followed by a separate write, not one conditional update.
- `booked_slots` is a list that can hold a user twice, not a set.
- `book_parking` reads its ids from the request keys `"67d3276d26360c86d007935b"`
  (the user) and `""` (the location). The class method `Booking.SlotTable.BookParking`
  does the same.

## Model

| member | source | states |
|---|---|---|
| `Weather.Title` | app.py:83 | `title()` keeps the length of the label (each character is given by `Weather.TitleAt`) |
| `Weather.TitleFrom` | app.py:83 | title-casing the rest of a label, given whether the character before it is cased, keeps its length (each character is given by `Weather.TitleFromAt`) |
| `Weather.TitleFromAt` | app.py:83 | character k of the title-cased rest depends only on that character and on whether the one before it (or the flag, at the start) is cased |
| `Weather.NormaliseWeather` | app.py:82-87 | the result is never None: it is the code of the title-cased label when that is a table key, and the title-cased string otherwise |
| `Weather.TitleAt` | app.py:83 | character k of `title()` is lowered exactly when the character before it is a cased letter, and uppered otherwise |
| `Weather.TitleIgnoresCase` | app.py:83 | two labels that differ only in letter case title-case to the same string |
| `Weather.TitleKeepsLetters` | app.py:83 | `title()` changes only the case of letters |
| `Weather.TitleIdempotent` | app.py:83 | title-casing twice is the same as once |
| `Weather.TableLabelsAreTitled` | app.py:85 | every key of `weather_dict` is already title-cased |
| `Weather.WeatherCodeIff` | app.py:82-87 | a label becomes the code of a table entry if and only if it spells that entry in any mix of case |
| `Weather.UnmappedLabelPassesThrough` | app.py:86-87 | a label spelling no table entry reaches the classifier as its title-cased string, and only such a label does |
| `Weather.RainyAndSunny` | app.py:82-87 | "rainy" becomes code 3; "sunny" stays the string "Sunny" |
| `Places.ToLot` | parking_routes.py:27-33 | a place yields a lot if and only if it is a dict with geometry.location.lat/lng, and the lot carries those coordinates |
| `Places.ToLots` | app.py:60-68 | the comprehension yields a list if and only if every place is well formed, with one lot per place, in upstream order |
| `Places.RatedLotsCarryRating` | parking_routes.py:30 | each rated lot's rating is the place's "rating", or "No rating" when the place has none |
| `Places.AddressIsVicinity` | app.py:62-63 | each lot's address is the place's "vicinity" and its name the place's "name" (None when absent) |
| `Places.UnratedLots` | parking_routes.py:26-35 | the unrated lots are exactly the rated lots with the rating dropped |
| `Utils.GetCoordinates` | utils.py:54-75 | None on a non-200 status, a missing or empty results list, or a malformed first result; otherwise the first result's (lat, lng) |
| `Utils.LaterResultsIgnored` | utils.py:70-71 | results after the first never change the answer |
| `App.GetNearbyParking` | app.py:46-71 | None on a non-200 status, missing or empty results, or any malformed place; otherwise a non-empty list, one unrated lot per place in order, with name from "name", address from "vicinity" and the coordinates from geometry.location |
| `App.PredictParkingAvailability` | app.py:75-116 | a non-string weather is a 500 with Python's AttributeError text; a None field is a 400 with no external call; no spots is a 404 after one Places search; spots found is always a 200, with one prediction per spot in order, copying name/address/lat/lng, "Available" iff the classifier returns 1 on [lat, lng, day, weather, hour] |
| `App.Predictions` | app.py:102-111 | one prediction per spot, in order, copying name/address/lat/lng, "Available" iff the classifier returns 1 on [lat, lng, day, weather, hour] and "Not Available" otherwise |
| `App.GetParkingSlots` | app.py:120-136 | a falsy latitude or longitude (including 0) is a 400 with no search; otherwise one search, then a 404 or the spots unchanged |
| `App.MissingWeatherIsServerError` | app.py:82-83 | a request without weather ends in a 500 carrying the AttributeError text for NoneType, with no external call, not in the 400 of the presence check |
| `App.ZeroLatitudeRejected` | app.py:126-127 | a latitude of 0 or 0.0 is rejected as missing |
| `App.RainyAfternoonExample` | app.py:102-113 | day 2, hour 14, "rainy", one spot, classifier answering 1: the spot is "Available" |
| `Booking.RemoveAll` | app.py:207 | `$pull` leaves no occurrence of the user and keeps every other element with its multiplicity |
| `Booking.RemoveAllConcat` | app.py:207 | `$pull` from a concatenation is the concatenation of the pulls, so the kept elements stay in their order |
| `Booking.RemoveAllSingleton` | app.py:207 | `$pull` keeps a one-element list exactly when its element is not the user |
| `Booking.Book` | app.py:154-176 | missing ids give 400, an unknown lot 404, no free slot 400, each leaving the ledger unchanged; a request passing all three checks always succeeds, and success takes one slot, appends the user and leaves every other record unchanged |
| `Booking.Cancel` | app.py:189-211 | missing ids give 400, an unknown lot 404, a user not booked 400, each leaving the ledger unchanged; a request passing all three checks always succeeds, and success frees one slot, removes every occurrence of the user (the rest keeping their order) and leaves every other record unchanged |
| `Booking.SlotTable.BookParking` | app.py:140-179 | the collection after a booking request, and the response, are those of `Book` on the ids read from the literal keys |
| `Booking.SlotTable.CancelBooking` | app.py:183-214 | the collection after a cancel request, and the response, are those of `Cancel` on "location_id" and "user_id" |
| `Booking.RemoveAllAbsent` | app.py:207 | pulling a user who is not in the list changes nothing |
| `Booking.RemoveAllAppended` | app.py:172 | pulling a user removes what pushing the user appended |
| `Booking.ReleaseUndoesTake` | app.py:168-209 | cancelling right after booking restores a record exactly, for a user not already booked there |
| `Booking.CancelUndoesBook` | app.py:158-211 | a successful booking followed by a cancellation with the same ids succeeds and restores the whole ledger |
| `Booking.CountsStayNonNegative` | app.py:164-171 | free-slot counts that start non-negative stay non-negative under both handlers |
| `Booking.BookKeepsLoad` | app.py:168-174 | a booking keeps free slots plus bookings held of every lot |
| `Booking.CancelLoad` | app.py:203-209 | a cancellation changes free slots plus bookings by 1 minus the user's bookings there, so it keeps that sum exactly when the user held one booking |
| `Booking.DoubleBookingLosesASlot` | app.py:164-209 | booking twice and cancelling once leaves a two-slot lot with one slot and no bookings |
| `Booking.LastSlotGoesToFirstBooker` | app.py:164-174 | of two bookings in a row for a lot's last free slot, the first takes it and the second gets 400 "No available slots left" and changes nothing |
| `Booking.DashboardBookingRejected` | app.py:149-155 | as written, a request carrying "user_id" and "location_id" is always a 400 and books nothing |
| `Booking.IntendedBookingRoundTrip` | app.py:186-211 | reading "location_id" and "user_id", a booking for a lot with a free slot succeeds and the matching cancel restores the ledger |
| `ParkingRoutes.GetNearbyParking` | parking_routes.py:19-36 | None exactly on a non-200 status or absent results; an exception when a place is malformed; otherwise a possibly empty list, one rated lot per place in order |
| `ParkingRoutes.Address` | parking_routes.py:47 | a string location and postcode are joined by ", " |
| `ParkingRoutes.GetParkingSlots` | parking_routes.py:39-58 | a falsy location or postcode is a 400 before geocoding; the geocoder gets "location, postcode"; no coordinates is a 500 with no search; otherwise one search, then an uncaught-exception 500, a 404 for none or empty, or the spots unchanged |
| `ParkingRoutes.PredictParkingAvailability` | parking_routes.py:61-76 | a None among the five fields is a 400 with no classifier call; otherwise one call on [lat, lng, day, hour, weather] and "Available" iff it returns 1 |
| `ParkingRoutes.ZerosAndUnmappedWeatherAccepted` | parking_routes.py:69-70 | zero values and an unmapped weather word pass the presence check |
| `ParkingRoutes.EmptyResultsDiffer` | parking_routes.py:25-36 | on an empty results list app.py's version answers None and the blueprint's an empty list |
| `ParkingRoutes.VersionsAgreeOnFoundLots` | parking_routes.py:25-35 | wherever app.py's version finds lots, the blueprint's finds the same lots in order, each with a rating added |
| `ParkingRoutes.FeatureOrdersDiffer` | parking_routes.py:72 | the two call sites build the same feature row only when hour and weather coincide |
| `ParkingRoutes.BakerStreetExample` | parking_routes.py:39-58 | the worked example: "221B Baker St", "NW16XE", one car park found, returned as found |
| `AuthRoutes.Login` | auth_routes.py:14-44 | a missing email or password is a 400 with nothing stored; a truthy non-string password is a 500 raised inside bcrypt with nothing stored; a non-empty string password always ends in 200 or 401; the table only ever gains the requesting email; a known email leaves it unchanged; an unknown one is stored with its hash before the password check; 401 "Invalid credentials" or 200 with a token for the email expiring two hours after now, as the password check decides |
| `AuthRoutes.UserTable.HandleLogin` | auth_routes.py:14-44 | the users collection after a login request, and the response, are those of `Login` |
| `AuthRoutes.FirstLoginSucceeds` | auth_routes.py:26-41 | with a hash that accepts its own password, a first login succeeds and stores exactly that email with its hash |
| `AuthRoutes.SecondLoginSucceeds` | auth_routes.py:23-41 | logging in again with the registration password succeeds and changes nothing |

## Findings

| source | as written | input that shows it | evidently intended | confidence | as-written member | corrected member |
|---|---|---|---|---|---|---|
| app.py:149-150 | `book_parking` reads the user id from the key "67d3276d26360c86d007935b" and the location id from the key "" | the dashboard's body `{"user_id": u, "location_id": l}` (ParkingDashboard.js:130-133) always gets 400 "Location ID and User ID are required" | read "user_id" and "location_id", as `cancel_booking` does | high (not executed) | `Booking.DashboardBookingRejected` | `Booking.IntendedBookingRoundTrip` |

The corrected reading is `Booking.RequestIds`, which the cancel handler already
uses. The booking handler of the class, `Booking.SlotTable.BookParking`, keeps the
code's literal keys, so the rest of the model describes the code as it runs.

## Left out

- HTTP: building the Google URLs (and the API key in them), `requests.get`, a reply body that is not JSON, and `print` logging. A reply is modelled by its status and its `results` list.
- Request bodies that are not a JSON object (`request.json` is None). `data.get` then raises: a 500 in `app.py` and `login`, and Flask's own 500 in the blueprint.
- `Weather.TitleAt`: only ASCII letters count as cased. Python's `title()` also changes the case of non-ASCII letters, and those letters count as cased too.
- `ParkingRoutes.GetParkingSlots`: the geocoder address is exact for string, integer, boolean and null fields. Floats, lists and dicts are rendered by fixed stand-ins, because Python's float `repr` and container formatting are not modelled.
- `AuthRoutes.Login`: the users table is looked up by structural equality of the email value. In MongoDB, `find_one({"email": email})` treats a dict email such as `{"$ne": null}` as a query operator, which finds an existing user, so nothing is inserted and that user's hash is checked; a number email matches stored emails by numeric value (`5.0` finds `5`). The model inserts a new entry in both cases.
- Request bodies with `NaN` or `Infinity`, which Python's `json` accepts: `Float` holds an exact `real` and has no such values.
- Python's cross-type equality (`1 == 1.0 == True`) in `in` and in `$pull`: the model compares JSON values structurally.
- MongoDB query semantics beyond looking up a string `location_id`. A non-string id finds nothing, while in the store a number could match a numeric id and a dict would act as a query operator. Records are assumed to have an integer `available_slots` and a `booked_slots` list; a missing field would raise a KeyError.
- The race between `find_one` and `update_one` under concurrent requests: each handler is one sequential step over the table.
- `App.PredictParkingAvailability`: the classifier is a total function. The trained model may raise on a non-numeric row, for example an unmapped weather string; that would be a 500 here and Flask's 500 in the blueprint.
- `AuthRoutes.Login`: the text of a 500 raised inside bcrypt (a non-string password) is not reproduced (`LibraryError`). bcrypt's random salt is folded into the hash function, and the clock is `now` in whole seconds.
- bcrypt, JWT encoding and the trained model's internals; `train_model.py`; the React front end; configuration, database connection, index creation and the start-up `ValueError` / `FileNotFoundError`.
