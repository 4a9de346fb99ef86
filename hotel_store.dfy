/// The request handlers of the hotel service over one consistent store: create a
/// booking, list the available rooms, check a guest in and out, add and delete a
/// room. Each handler is one atomic step on the Rooms and Bookings tables.
module HotelStore {
  import opened BookingRules

  datatype Option<+T> = None | Some(value: T)

  /** The failures a handler answers with. */
  datatype Error =
    | MissingFields                             // 400: a required field is missing or falsy
    | InvalidTransition(current: BookingStatus) // 400: the booking is not in the state the transition needs
    | DuplicateRoomNumber                       // 400: the UNIQUE index on room_number rejected the insert
    | NotFound                                  // 404: no row with that id
    | Unavailable                               // 409: an active booking overlaps the requested stay
    | StorageError                              // 500: the store rejected the write (a foreign key)

  /** The HTTP status the handlers send for each failure. */
  function HttpStatus(e: Error): int {
    match e
    case MissingFields => 400
    case InvalidTransition(_) => 400
    case DuplicateRoomNumber => 400
    case NotFound => 404
    case Unavailable => 409
    case StorageError => 500
  }

  datatype Response<+T> = Success(value: T) | Failure(error: Error)

  /** The body of a create-booking request. A missing or empty date string is None; a missing
      name, room id or price is "", 0 or 0, which the handler treats like any falsy value. */
  datatype BookingRequest = BookingRequest(guestName: string, roomId: int,
                                           checkIn: Option<int>, checkOut: Option<int>,
                                           totalPrice: int)

  /** The create-booking guard: some required field is missing or falsy. */
  predicate Incomplete(req: BookingRequest) {
    req.guestName == [] || req.roomId == 0 || req.checkIn.None? || req.checkOut.None? || req.totalPrice == 0
  }

  /** The booking row create-booking inserts for a complete request. */
  function NewBooking(req: BookingRequest): Booking
    requires !Incomplete(req)
  {
    Booking(req.guestName, req.roomId, req.checkIn.value, req.checkOut.value, req.totalPrice, Confirmed)
  }

  class Hotel {
    /** The ids of the RoomTypes table, which no core handler changes. */
    const roomTypes: set<int>
    var rooms: map<int, Room>
    var bookings: map<int, Booking>
    /** The AUTO_INCREMENT counters of Rooms and Bookings. */
    var nextRoomId: int
    var nextBookingId: int

    /** The schema's constraints: primary keys issued by the counters, unique room numbers,
        and the foreign keys from rooms to room types and from bookings to rooms. */
    ghost predicate Valid()
      reads this
    {
      1 <= nextRoomId && 1 <= nextBookingId &&
      (forall id :: id in rooms ==> 1 <= id < nextRoomId) &&
      (forall id :: id in bookings ==> 1 <= id < nextBookingId) &&
      NumbersUnique(rooms) &&
      (forall id :: id in rooms ==> rooms[id].typeId in roomTypes) &&
      (forall id :: id in bookings ==> bookings[id].roomId in rooms)
    }

    /** Empty Rooms and Bookings tables over the given room types. */
    constructor (roomTypes: set<int>)
      ensures Valid()
      ensures this.roomTypes == roomTypes && rooms == map[] && bookings == map[]
    {
      this.roomTypes := roomTypes;
      rooms := map[];
      bookings := map[];
      nextRoomId := 1;
      nextBookingId := 1;
    }

    /** POST /bookings: validate the fields, reject an overlapping stay with 409, otherwise
        insert a Confirmed booking under a fresh id and return that id. */
    method CreateBooking(req: BookingRequest) returns (resp: Response<int>)
      requires Valid()
      modifies this
      ensures Valid() && rooms == old(rooms) && nextRoomId == old(nextRoomId)
      ensures Incomplete(req) ==> resp == Failure(MissingFields)
      ensures !Incomplete(req) ==>
        var nb := NewBooking(req);
        if exists id :: id in old(bookings) && Blocks(old(bookings)[id], nb.roomId, nb.checkIn, nb.checkOut)
        then resp == Failure(Unavailable)
        else if nb.roomId !in rooms then resp == Failure(StorageError)
        else resp.Success? && resp.value !in old(bookings) &&
             (forall id :: id in old(bookings) ==> id < resp.value) &&
             bookings == old(bookings)[resp.value := nb]
      ensures resp.Failure? ==> bookings == old(bookings) && nextBookingId == old(nextBookingId)
      ensures NoDoubleBooking(old(bookings)) ==> NoDoubleBooking(bookings)
    {
      if Incomplete(req) {
        return Failure(MissingFields);
      }
      var nb := NewBooking(req);
      var existing := OverlapQuery(bookings, nb.roomId, nb.checkIn, nb.checkOut);
      OverlapQueryEmptyIff(bookings, nb.roomId, nb.checkIn, nb.checkOut);
      if existing != {} {
        return Failure(Unavailable);
      }
      if nb.roomId !in rooms {
        // the INSERT violates the FOREIGN KEY on Bookings.room_id
        return Failure(StorageError);
      }
      var id := nextBookingId;
      if NoDoubleBooking(bookings) {
        AdmitPreservesNoDoubleBooking(bookings, id, nb);
      }
      bookings := bookings[id := nb];
      nextBookingId := nextBookingId + 1;
      resp := Success(id);
    }

    /** GET /rooms/available: every room with an existing room type that no active booking
        blocks over [checkIn, checkOut); 400 when either date is missing. */
    method AvailableRooms(checkIn: Option<int>, checkOut: Option<int>) returns (resp: Response<map<int, Room>>)
      ensures resp.Failure? <==> checkIn.None? || checkOut.None?
      ensures resp.Failure? ==> resp.error == MissingFields
      ensures resp.Success? ==>
        forall id :: id in resp.value <==>
          id in rooms && rooms[id].typeId in roomTypes &&
          forall k :: k in bookings ==> !Blocks(bookings[k], id, checkIn.value, checkOut.value)
      ensures resp.Success? ==> forall id :: id in resp.value ==> resp.value[id] == rooms[id]
    {
      if checkIn.None? || checkOut.None? {
        return Failure(MissingFields);
      }
      var available := AvailableQuery(roomTypes, rooms, bookings, checkIn.value, checkOut.value);
      forall id
        ensures id in available <==>
          id in rooms && rooms[id].typeId in roomTypes &&
          forall k :: k in bookings ==> !Blocks(bookings[k], id, checkIn.value, checkOut.value)
      {
        AvailableIffNoConflict(roomTypes, rooms, bookings, checkIn.value, checkOut.value, id);
        OverlapQueryEmptyIff(bookings, id, checkIn.value, checkOut.value);
      }
      resp := Success(available);
    }

    /** PATCH /bookings/:id/check-in: only a Confirmed booking may check in; it becomes
        Checked_In and its room Occupied. */
    method CheckIn(id: int) returns (resp: Response<()>)
      requires Valid()
      modifies this
      ensures Valid() && nextRoomId == old(nextRoomId) && nextBookingId == old(nextBookingId)
      ensures id !in old(bookings) ==>
        resp == Failure(NotFound) && bookings == old(bookings) && rooms == old(rooms)
      ensures id in old(bookings) && old(bookings)[id].status != Confirmed ==>
        resp == Failure(InvalidTransition(old(bookings)[id].status)) &&
        bookings == old(bookings) && rooms == old(rooms)
      ensures id in old(bookings) && old(bookings)[id].status == Confirmed ==>
        var b := old(bookings)[id];
        resp == Success(()) &&
        bookings == old(bookings)[id := b.(status := CheckedIn)] &&
        rooms == old(rooms)[b.roomId := old(rooms)[b.roomId].(status := Occupied)]
      ensures NoDoubleBooking(old(bookings)) ==> NoDoubleBooking(bookings)
    {
      if id !in bookings {
        return Failure(NotFound);
      }
      var b := bookings[id];
      if b.status != Confirmed {
        return Failure(InvalidTransition(b.status));
      }
      if NoDoubleBooking(bookings) {
        StatusChangePreservesNoDoubleBooking(bookings, id, CheckedIn);
      }
      bookings := bookings[id := b.(status := CheckedIn)];
      rooms := rooms[b.roomId := rooms[b.roomId].(status := Occupied)];
      resp := Success(());
    }

    /** PATCH /bookings/:id/check-out: only a Checked_In booking may check out; it becomes
        Checked_Out and its room Available. */
    method CheckOut(id: int) returns (resp: Response<()>)
      requires Valid()
      modifies this
      ensures Valid() && nextRoomId == old(nextRoomId) && nextBookingId == old(nextBookingId)
      ensures id !in old(bookings) ==>
        resp == Failure(NotFound) && bookings == old(bookings) && rooms == old(rooms)
      ensures id in old(bookings) && old(bookings)[id].status != CheckedIn ==>
        resp == Failure(InvalidTransition(old(bookings)[id].status)) &&
        bookings == old(bookings) && rooms == old(rooms)
      ensures id in old(bookings) && old(bookings)[id].status == CheckedIn ==>
        var b := old(bookings)[id];
        resp == Success(()) &&
        bookings == old(bookings)[id := b.(status := CheckedOut)] &&
        rooms == old(rooms)[b.roomId := old(rooms)[b.roomId].(status := Available)]
      ensures NoDoubleBooking(old(bookings)) ==> NoDoubleBooking(bookings)
    {
      if id !in bookings {
        return Failure(NotFound);
      }
      var b := bookings[id];
      if b.status != CheckedIn {
        return Failure(InvalidTransition(b.status));
      }
      if NoDoubleBooking(bookings) {
        StatusChangePreservesNoDoubleBooking(bookings, id, CheckedOut);
      }
      bookings := bookings[id := b.(status := CheckedOut)];
      rooms := rooms[b.roomId := rooms[b.roomId].(status := Available)];
      resp := Success(());
    }

    /** POST /rooms: validate the fields, then insert an Available room under a fresh id,
        unless the room number is taken (400) or the room type does not exist (500). */
    method AddRoom(number: string, typeId: int) returns (resp: Response<int>)
      requires Valid()
      modifies this
      ensures Valid() && bookings == old(bookings) && nextBookingId == old(nextBookingId)
      ensures number == [] || typeId == 0 ==> resp == Failure(MissingFields)
      ensures number != [] && typeId != 0 ==>
        if NumberTaken(old(rooms), number) then resp == Failure(DuplicateRoomNumber)
        else if typeId !in roomTypes then resp == Failure(StorageError)
        else resp.Success? && resp.value !in old(rooms) &&
             (forall id :: id in old(rooms) ==> id < resp.value) &&
             rooms == old(rooms)[resp.value := Room(number, typeId, Available)]
      ensures resp.Failure? ==> rooms == old(rooms) && nextRoomId == old(nextRoomId)
    {
      if number == [] || typeId == 0 {
        return Failure(MissingFields);
      }
      if NumberTaken(rooms, number) {
        return Failure(DuplicateRoomNumber);
      }
      if typeId !in roomTypes {
        // the INSERT violates the FOREIGN KEY on Rooms.room_type_id
        return Failure(StorageError);
      }
      var id := nextRoomId;
      rooms := rooms[id := Room(number, typeId, Available)];
      nextRoomId := nextRoomId + 1;
      resp := Success(id);
    }

    /** DELETE /rooms/:id: 404 for an unknown room; the store refuses to delete a room that
        bookings still reference (500); otherwise only that room is removed. */
    method DeleteRoom(id: int) returns (resp: Response<()>)
      requires Valid()
      modifies this
      ensures Valid() && bookings == old(bookings)
      ensures nextRoomId == old(nextRoomId) && nextBookingId == old(nextBookingId)
      ensures id !in old(rooms) ==> resp == Failure(NotFound) && rooms == old(rooms)
      ensures id in old(rooms) && RoomReferenced(old(bookings), id) ==>
        resp == Failure(StorageError) && rooms == old(rooms)
      ensures id in old(rooms) && !RoomReferenced(old(bookings), id) ==>
        resp == Success(()) && rooms == old(rooms) - {id}
    {
      if id !in rooms {
        return Failure(NotFound);
      }
      if RoomReferenced(bookings, id) {
        // the DELETE violates the FOREIGN KEY on Bookings.room_id
        return Failure(StorageError);
      }
      rooms := rooms - {id};
      resp := Success(());
    }
  }

  /** The booking scenario for room 101: Alice's stay is admitted, Bob's overlapping stay is
      refused with 409, Carol's back-to-back stay is admitted; Alice checks in once (a second
      check-in fails and leaves the room alone) and checks out. Days count from 1970-01-01. */
  method Room101Scenario() {
    var hotel := new Hotel({1});
    var added := hotel.AddRoom("101", 1);
    assert added.Success?;
    var room := added.value;

    var alice := hotel.CreateBooking(BookingRequest("Alice", room, Some(19875), Some(19877), 300000));
    assert alice.Success?;
    var bobReq := BookingRequest("Bob", room, Some(19876), Some(19878), 300000);
    var bobStay := NewBooking(bobReq);
    ghost var aliceId := alice.value;
    assert Blocks(hotel.bookings[aliceId], bobStay.roomId, bobStay.checkIn, bobStay.checkOut);
    var bob := hotel.CreateBooking(bobReq);
    assert bob == Failure(Unavailable);
    var carol := hotel.CreateBooking(BookingRequest("Carol", room, Some(19877), Some(19879), 300000));
    assert carol.Success? && carol.value != alice.value;

    var first := hotel.CheckIn(alice.value);
    assert first == Success(()) && hotel.rooms[room].status == Occupied;
    var second := hotel.CheckIn(alice.value);
    assert second == Failure(InvalidTransition(CheckedIn)) && hotel.rooms[room].status == Occupied;
    var out := hotel.CheckOut(alice.value);
    assert out == Success(()) && hotel.rooms[room].status == Available;
    assert hotel.bookings[alice.value].status == CheckedOut;
  }
}
