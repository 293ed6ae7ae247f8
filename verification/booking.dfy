/** The booking ledger of app.py: the parking_slots collection, one record per
    location_id, updated in place by book_parking and cancel_booking. */
module Booking {
  import opened Json
  import opened Web

  /** One parking_slots document: the free slot count and the users holding a slot. */
  datatype SlotRecord = SlotRecord(available: int, booked: seq<JsonValue>)

  /** The collection, keyed by location_id (stored ids are strings). */
  type Slots = map<string, SlotRecord>

  /** A handler's response and the collection it leaves behind. */
  datatype LedgerStep = LedgerStep(response: Response, slots: Slots)

  /** The request keys book_parking reads its ids from, as written. */
  const BookUserKey := "67d3276d26360c86d007935b"
  const BookLocationKey := ""

  /** $pull: the list without any occurrence of x, the rest in order. */
  function RemoveAll(s: seq<JsonValue>, x: JsonValue): (r: seq<JsonValue>)
    ensures x !in r
    ensures multiset(r) == multiset(s)[x := 0]
    ensures |r| == |s| - multiset(s)[x]
  {
    if s == [] then []
    else
      assert s == [s[0]] + s[1..];
      (if s[0] == x then [] else [s[0]]) + RemoveAll(s[1..], x)
  }

  /** $pull works element by element: pulling from a concatenation is pulling
      from each part, so the kept elements stay in their order. */
  lemma {:induction false} RemoveAllConcat(s: seq<JsonValue>, t: seq<JsonValue>, x: JsonValue)
    ensures RemoveAll(s + t, x) == RemoveAll(s, x) + RemoveAll(t, x)
  {
    if s == [] {
      assert s + t == t;
    } else {
      assert (s + t)[1..] == s[1..] + t;
      RemoveAllConcat(s[1..], t, x);
    }
  }

  /** Pulling from a one-element list keeps it exactly when it is not x. */
  lemma RemoveAllSingleton(y: JsonValue, x: JsonValue)
    ensures RemoveAll([y], x) == if y == x then [] else [y]
  {
  }

  /** The update of a successful booking: $inc -1 and $push. */
  function Take(rec: SlotRecord, user: JsonValue): SlotRecord
  {
    SlotRecord(rec.available - 1, rec.booked + [user])
  }

  /** The update of a successful cancellation: $inc +1 and $pull. */
  function Release(rec: SlotRecord, user: JsonValue): SlotRecord
  {
    SlotRecord(rec.available + 1, RemoveAll(rec.booked, user))
  }

  /** find_one({"location_id": id}) finds a document. */
  predicate Known(slots: Slots, id: JsonValue)
  {
    id.Str? && id.s in slots
  }

  /** book_parking once its two ids have been read. */
  function Book(slots: Slots, locationId: JsonValue, userId: JsonValue): (o: LedgerStep)
    ensures o.response == Response(400, Error("Location ID and User ID are required")) <==>
      !Truthy(locationId) || !Truthy(userId)
    ensures o.response == Response(404, Error("Parking lot not found")) <==>
      Truthy(locationId) && Truthy(userId) && !Known(slots, locationId)
    ensures o.response == Response(400, Error("No available slots left")) <==>
      Truthy(locationId) && Truthy(userId) && Known(slots, locationId) && slots[locationId.s].available <= 0
    ensures o.response.status != 200 ==> o.slots == slots
    // a request that passes all three checks is booked
    ensures Truthy(locationId) && Truthy(userId) && Known(slots, locationId) && slots[locationId.s].available > 0 ==>
      o.response.status == 200
    ensures o.response.status == 200 ==>
      && o.response.payload == Message("Slot booked successfully!")
      && o.slots.Keys == slots.Keys
      && (forall k :: k in slots && k != locationId.s ==> o.slots[k] == slots[k])
      && o.slots[locationId.s].available == slots[locationId.s].available - 1 >= 0
      && o.slots[locationId.s].booked == slots[locationId.s].booked + [userId]
  {
    if !Truthy(locationId) || !Truthy(userId) then
      LedgerStep(Response(400, Error("Location ID and User ID are required")), slots)
    else if !Known(slots, locationId) then
      LedgerStep(Response(404, Error("Parking lot not found")), slots)
    else if slots[locationId.s].available <= 0 then
      LedgerStep(Response(400, Error("No available slots left")), slots)
    else
      LedgerStep(Response(200, Message("Slot booked successfully!")),
                 slots[locationId.s := Take(slots[locationId.s], userId)])
  }

  /** cancel_booking once its two ids have been read. */
  function Cancel(slots: Slots, locationId: JsonValue, userId: JsonValue): (o: LedgerStep)
    ensures o.response == Response(400, Error("Location ID and User ID are required")) <==>
      !Truthy(locationId) || !Truthy(userId)
    ensures o.response == Response(404, Error("Parking lot not found")) <==>
      Truthy(locationId) && Truthy(userId) && !Known(slots, locationId)
    ensures o.response == Response(400, Error("User has not booked this slot")) <==>
      Truthy(locationId) && Truthy(userId) && Known(slots, locationId) && userId !in slots[locationId.s].booked
    ensures o.response.status != 200 ==> o.slots == slots
    // a request that passes all three checks is cancelled
    ensures Truthy(locationId) && Truthy(userId) && Known(slots, locationId) && userId in slots[locationId.s].booked ==>
      o.response.status == 200
    ensures o.response.status == 200 ==>
      && o.response.payload == Message("Booking canceled successfully!")
      && o.slots.Keys == slots.Keys
      && (forall k :: k in slots && k != locationId.s ==> o.slots[k] == slots[k])
      && o.slots[locationId.s].available == slots[locationId.s].available + 1
      && userId !in o.slots[locationId.s].booked
      && multiset(o.slots[locationId.s].booked) == multiset(slots[locationId.s].booked)[userId := 0]
      && o.slots[locationId.s].booked == RemoveAll(slots[locationId.s].booked, userId)
  {
    if !Truthy(locationId) || !Truthy(userId) then
      LedgerStep(Response(400, Error("Location ID and User ID are required")), slots)
    else if !Known(slots, locationId) then
      LedgerStep(Response(404, Error("Parking lot not found")), slots)
    else if userId !in slots[locationId.s].booked then
      LedgerStep(Response(400, Error("User has not booked this slot")), slots)
    else
      LedgerStep(Response(200, Message("Booking canceled successfully!")),
                 slots[locationId.s := Release(slots[locationId.s], userId)])
  }

  /** The parking_slots collection as the booking handlers update it. */
  class SlotTable {
    var slots: Slots

    constructor (initial: Slots)
      ensures slots == initial
    {
      slots := initial;
    }

    /** POST /book_parking, reading the ids from the keys the code names. */
    method BookParking(body: Request) returns (r: Response)
      modifies this
      ensures LedgerStep(r, slots) == Book(old(slots), Get(body, BookLocationKey), Get(body, BookUserKey))
    {
      var userId := Get(body, BookUserKey);
      var locationId := Get(body, BookLocationKey);
      if !Truthy(locationId) || !Truthy(userId) {
        return Response(400, Error("Location ID and User ID are required"));
      }
      if !(locationId.Str? && locationId.s in slots) {
        return Response(404, Error("Parking lot not found"));
      }
      var lot := slots[locationId.s];
      if lot.available <= 0 {
        return Response(400, Error("No available slots left"));
      }
      slots := slots[locationId.s := SlotRecord(lot.available - 1, lot.booked + [userId])];
      r := Response(200, Message("Slot booked successfully!"));
    }

    /** POST /cancel_booking. */
    method CancelBooking(body: Request) returns (r: Response)
      modifies this
      ensures LedgerStep(r, slots) == Cancel(old(slots), Get(body, "location_id"), Get(body, "user_id"))
    {
      var locationId := Get(body, "location_id");
      var userId := Get(body, "user_id");
      if !Truthy(locationId) || !Truthy(userId) {
        return Response(400, Error("Location ID and User ID are required"));
      }
      if !(locationId.Str? && locationId.s in slots) {
        return Response(404, Error("Parking lot not found"));
      }
      var lot := slots[locationId.s];
      if userId !in lot.booked {
        return Response(400, Error("User has not booked this slot"));
      }
      slots := slots[locationId.s := SlotRecord(lot.available + 1, RemoveAll(lot.booked, userId))];
      r := Response(200, Message("Booking canceled successfully!"));
    }
  }

  /** $pull of a user who holds no slot changes nothing. */
  lemma {:induction false} RemoveAllAbsent(s: seq<JsonValue>, x: JsonValue)
    requires x !in s
    ensures RemoveAll(s, x) == s
  {
    if s != [] {
      RemoveAllAbsent(s[1..], x);
    }
  }

  /** $pull removes what $push appended. */
  lemma {:induction false} RemoveAllAppended(s: seq<JsonValue>, x: JsonValue)
    ensures RemoveAll(s + [x], x) == RemoveAll(s, x)
  {
    if s == [] {
      assert [x][1..] == [];
    } else {
      assert (s + [x])[1..] == s[1..] + [x];
      RemoveAllAppended(s[1..], x);
    }
  }

  /** Releasing the slot a user just took restores the record exactly, when the
      user held no slot there before. */
  lemma ReleaseUndoesTake(rec: SlotRecord, user: JsonValue)
    requires user !in rec.booked
    ensures Release(Take(rec, user), user) == rec
  {
    RemoveAllAppended(rec.booked, user);
    RemoveAllAbsent(rec.booked, user);
  }

  /** A booking followed by a cancellation for the same ids succeeds and leaves
      the collection as it was, for a user not already holding a slot there. */
  lemma CancelUndoesBook(slots: Slots, locationId: JsonValue, userId: JsonValue)
    requires Book(slots, locationId, userId).response.status == 200
    requires userId !in slots[locationId.s].booked
    ensures Cancel(Book(slots, locationId, userId).slots, locationId, userId) ==
      LedgerStep(Response(200, Message("Booking canceled successfully!")), slots)
  {
    var rec := slots[locationId.s];
    ReleaseUndoesTake(rec, userId);
    assert Book(slots, locationId, userId).slots == slots[locationId.s := Take(rec, userId)];
    assert slots[locationId.s := Take(rec, userId)][locationId.s := rec] == slots;
  }

  /** No record's free count is negative. */
  ghost predicate NonNegative(slots: Slots)
  {
    forall k :: k in slots ==> slots[k].available >= 0
  }

  /** Both handlers keep every free count non-negative. */
  lemma CountsStayNonNegative(slots: Slots, locationId: JsonValue, userId: JsonValue)
    requires NonNegative(slots)
    ensures NonNegative(Book(slots, locationId, userId).slots)
    ensures NonNegative(Cancel(slots, locationId, userId).slots)
  {
    var booked := Book(slots, locationId, userId);
    if booked.response.status == 200 {
      forall k | k in booked.slots
        ensures booked.slots[k].available >= 0
      {
        if k != locationId.s {
          assert booked.slots[k] == slots[k];
        }
      }
    }
    var canceled := Cancel(slots, locationId, userId);
    if canceled.response.status == 200 {
      forall k | k in canceled.slots
        ensures canceled.slots[k].available >= 0
      {
        if k != locationId.s {
          assert canceled.slots[k] == slots[k];
        }
      }
    }
  }

  /** Free slots plus bookings held: the capacity of a lot. */
  function Load(rec: SlotRecord): int
  {
    rec.available + |rec.booked|
  }

  /** A booking keeps the capacity of every lot. */
  lemma BookKeepsLoad(slots: Slots, locationId: JsonValue, userId: JsonValue, k: string)
    requires k in slots
    ensures k in Book(slots, locationId, userId).slots
    ensures Load(Book(slots, locationId, userId).slots[k]) == Load(slots[k])
  {
  }

  /** A cancellation keeps the capacity of the lot exactly when the user held
      one booking there; a user holding n bookings takes n - 1 slots with them. */
  lemma CancelLoad(slots: Slots, locationId: JsonValue, userId: JsonValue)
    requires Cancel(slots, locationId, userId).response.status == 200
    ensures Load(Cancel(slots, locationId, userId).slots[locationId.s]) ==
      Load(slots[locationId.s]) + 1 - multiset(slots[locationId.s].booked)[userId]
    ensures Load(Cancel(slots, locationId, userId).slots[locationId.s]) == Load(slots[locationId.s]) <==>
      multiset(slots[locationId.s].booked)[userId] == 1
  {
    var rec := slots[locationId.s];
    assert Cancel(slots, locationId, userId).slots[locationId.s] == Release(rec, userId);
  }

  /** Nothing stops a user from booking twice; one cancellation then drops both
      bookings and frees one slot, so the lot loses a slot for good. */
  lemma DoubleBookingLosesASlot(user: JsonValue)
    requires Truthy(user)
    ensures
      var once := Book(map["lot" := SlotRecord(2, [])], Str("lot"), user);
      var twice := Book(once.slots, Str("lot"), user);
      var after := Cancel(twice.slots, Str("lot"), user);
      && twice.response.status == 200 && after.response.status == 200
      && after.slots["lot"] == SlotRecord(1, [])
      && Load(after.slots["lot"]) == Load(SlotRecord(2, [])) - 1
  {
    var once := Book(map["lot" := SlotRecord(2, [])], Str("lot"), user);
    assert once.slots["lot"] == SlotRecord(1, [user]);
    var twice := Book(once.slots, Str("lot"), user);
    assert twice.slots["lot"] == SlotRecord(0, [user, user]);
    assert RemoveAll([user, user], user) == [] by {
      assert [user, user][1..] == [user];
    }
  }

  /** Two bookings in a row for the last free slot: the first takes it, the
      second is refused and changes nothing. */
  lemma LastSlotGoesToFirstBooker(slots: Slots, location: string, first: JsonValue, second: JsonValue)
    requires location != "" && location in slots && slots[location].available == 1
    requires Truthy(first) && Truthy(second)
    ensures var one := Book(slots, Str(location), first);
      var two := Book(one.slots, Str(location), second);
      && one.response.status == 200
      && two == LedgerStep(Response(400, Error("No available slots left")), one.slots)
      && two.slots[location] == SlotRecord(0, slots[location].booked + [first])
  {
  }

  /** The ids of a book_parking request, as the code reads them. */
  function LiteralKeyIds(body: Request): (JsonValue, JsonValue)
  {
    (Get(body, BookLocationKey), Get(body, BookUserKey))
  }

  /** The ids of a request read from "location_id" and "user_id", as
      cancel_booking does and as the front end sends them. */
  function RequestIds(body: Request): (JsonValue, JsonValue)
  {
    (Get(body, "location_id"), Get(body, "user_id"))
  }

  /** The request the dashboard posts to /book_parking. */
  function DashboardRequest(locationId: JsonValue, userId: JsonValue): Request
  {
    map["user_id" := userId, "location_id" := locationId]
  }

  /** As written, book_parking rejects every request the dashboard sends with
      a 400, whatever the ledger holds, and books nothing. */
  lemma DashboardBookingRejected(slots: Slots, locationId: JsonValue, userId: JsonValue)
    ensures var ids := LiteralKeyIds(DashboardRequest(locationId, userId));
      Book(slots, ids.0, ids.1) == LedgerStep(Response(400, Error("Location ID and User ID are required")), slots)
  {
    var ids := LiteralKeyIds(DashboardRequest(locationId, userId));
    assert ids.0 == Null;
  }

  /** book_parking reading "location_id" and "user_id": a dashboard request for
      a lot with a free slot books it, and the matching cancellation request
      restores the ledger. */
  lemma IntendedBookingRoundTrip(slots: Slots, location: string, userId: JsonValue)
    requires location != "" && location in slots && slots[location].available > 0
    requires Truthy(userId) && userId !in slots[location].booked
    ensures var ids := RequestIds(DashboardRequest(Str(location), userId));
      && Book(slots, ids.0, ids.1).response == Response(200, Message("Slot booked successfully!"))
      && Cancel(Book(slots, ids.0, ids.1).slots, ids.0, ids.1).slots == slots
  {
    var ids := RequestIds(DashboardRequest(Str(location), userId));
    assert ids == (Str(location), userId);
    CancelUndoesBook(slots, ids.0, ids.1);
  }
}
