/// The admission rules of the hotel booking service: the rows of the Rooms and
/// Bookings tables, the overlap test that the create-booking and available-rooms
/// queries share, and the invariant that active bookings on one room never
/// overlap.
///
/// Tables are maps from the primary key (the AUTO_INCREMENT id) to the rest of
/// the row. Dates are day numbers and money is an amount in minor units.
module BookingRules {

  /** The Rooms.status column. */
  datatype RoomStatus = Available | Occupied | Cleaning | Maintenance

  /** The Bookings.status column. */
  datatype BookingStatus = Confirmed | CheckedIn | CheckedOut | Cancelled

  /** A row of Rooms; its id is the key under which it is stored. */
  datatype Room = Room(number: string, typeId: int, status: RoomStatus)

  /** A row of Bookings; its id is the key under which it is stored. */
  datatype Booking = Booking(guestName: string, roomId: int, checkIn: int, checkOut: int,
                             totalPrice: int, status: BookingStatus)

  /** Bookings that count against availability. */
  predicate Active(s: BookingStatus) {
    s == Confirmed || s == CheckedIn
  }

  /** The half-open stays [in1, out1) and [in2, out2) share a night. */
  predicate Overlaps(in1: int, out1: int, in2: int, out2: int) {
    in1 < out2 && in2 < out1
  }

  /** The WHERE clause of the overlap queries as the handlers write it:
      an existing booking `b` blocks a request for `roomId` over [checkIn, checkOut). */
  predicate Blocks(b: Booking, roomId: int, checkIn: int, checkOut: int) {
    b.roomId == roomId && Active(b.status) && b.checkIn < checkOut && b.checkOut > checkIn
  }

  /** The ids that create-booking's overlap query selects. */
  function OverlapQuery(bookings: map<int, Booking>, roomId: int, checkIn: int, checkOut: int): set<int> {
    set id | id in bookings && Blocks(bookings[id], roomId, checkIn, checkOut)
  }

  /** The room ids that the available-rooms subquery selects. */
  function BlockedRooms(bookings: map<int, Booking>, checkIn: int, checkOut: int): set<int> {
    set id | id in bookings && Active(bookings[id].status)
                            && bookings[id].checkIn < checkOut && bookings[id].checkOut > checkIn
           :: bookings[id].roomId
  }

  /** The available-rooms query: rooms joined with an existing room type whose id is
      not among the blocked rooms. */
  function AvailableQuery(roomTypes: set<int>, rooms: map<int, Room>, bookings: map<int, Booking>,
                          checkIn: int, checkOut: int): map<int, Room>
  {
    var blocked := BlockedRooms(bookings, checkIn, checkOut);
    map id | id in rooms && rooms[id].typeId in roomTypes && id !in blocked :: rooms[id]
  }

  /** Some room already carries this room number (the UNIQUE index on Rooms.room_number). */
  predicate NumberTaken(rooms: map<int, Room>, number: string) {
    exists id :: id in rooms && rooms[id].number == number
  }

  /** Some booking references this room (the FOREIGN KEY on Bookings.room_id). */
  predicate RoomReferenced(bookings: map<int, Booking>, roomId: int) {
    exists id :: id in bookings && bookings[id].roomId == roomId
  }

  /** No two rooms share a room number. */
  predicate NumbersUnique(rooms: map<int, Room>) {
    forall i, j :: i in rooms && j in rooms && rooms[i].number == rooms[j].number ==> i == j
  }

  /** The core invariant: on every room, the active bookings are pairwise non-overlapping. */
  predicate NoDoubleBooking(bookings: map<int, Booking>) {
    forall i, j ::
      i in bookings && j in bookings && i != j &&
      bookings[i].roomId == bookings[j].roomId &&
      Active(bookings[i].status) && Active(bookings[j].status)
      ==> !Overlaps(bookings[i].checkIn, bookings[i].checkOut, bookings[j].checkIn, bookings[j].checkOut)
  }

  /** The overlap test is symmetric in its two stays. */
  lemma OverlapsSymmetric(in1: int, out1: int, in2: int, out2: int)
    ensures Overlaps(in1, out1, in2, out2) <==> Overlaps(in2, out2, in1, out1)
  {
  }

  /** The query's clause, with the request's dates passed as [checkOut, checkIn], is exactly the
      half-open overlap test between the existing stay and the requested one. */
  lemma BlocksIsHalfOpenOverlap(b: Booking, roomId: int, checkIn: int, checkOut: int)
    ensures Blocks(b, roomId, checkIn, checkOut)
        <==> b.roomId == roomId && Active(b.status) && Overlaps(b.checkIn, b.checkOut, checkIn, checkOut)
  {
  }

  /** Back-to-back stays never conflict: the check-out day is free for the next check-in. */
  lemma AdjacentStaysDoNotBlock(b: Booking, roomId: int, checkIn: int, checkOut: int)
    requires b.checkOut == checkIn || checkOut == b.checkIn
    ensures !Blocks(b, roomId, checkIn, checkOut)
  {
  }

  /** Checked-out and cancelled bookings never block. */
  lemma InactiveBookingsDoNotBlock(b: Booking, roomId: int, checkIn: int, checkOut: int)
    requires !Active(b.status)
    ensures !Blocks(b, roomId, checkIn, checkOut)
  {
  }

  /** An active booking blocks a repeat of its own request exactly when its range holds a night:
      the server admits a second identical request for an empty or inverted range. */
  lemma RepeatRequestBlockedIffNonEmpty(b: Booking)
    requires Active(b.status)
    ensures Blocks(b, b.roomId, b.checkIn, b.checkOut) <==> b.checkIn < b.checkOut
  {
  }

  /** Create-booking answers 409 exactly when some booking on the room blocks the request. */
  lemma OverlapQueryEmptyIff(bookings: map<int, Booking>, roomId: int, checkIn: int, checkOut: int)
    ensures OverlapQuery(bookings, roomId, checkIn, checkOut) == {}
        <==> forall id :: id in bookings ==> !Blocks(bookings[id], roomId, checkIn, checkOut)
  {
    var q := OverlapQuery(bookings, roomId, checkIn, checkOut);
    if exists id :: id in bookings && Blocks(bookings[id], roomId, checkIn, checkOut) {
      var id :| id in bookings && Blocks(bookings[id], roomId, checkIn, checkOut);
      assert id in q;
    } else {
      assert q == {};
    }
  }

  /** Admitting a booking that the overlap query did not reject keeps the invariant: the query
      tests every existing stay against the new one, and the test is symmetric. */
  lemma AdmitPreservesNoDoubleBooking(bookings: map<int, Booking>, id: int, nb: Booking)
    requires NoDoubleBooking(bookings)
    requires id !in bookings
    requires OverlapQuery(bookings, nb.roomId, nb.checkIn, nb.checkOut) == {}
    ensures NoDoubleBooking(bookings[id := nb])
  {
    var after := bookings[id := nb];
    forall i, j | i in after && j in after && i != j &&
                  after[i].roomId == after[j].roomId &&
                  Active(after[i].status) && Active(after[j].status)
      ensures !Overlaps(after[i].checkIn, after[i].checkOut, after[j].checkIn, after[j].checkOut)
    {
      if i == id {
        assert j !in OverlapQuery(bookings, nb.roomId, nb.checkIn, nb.checkOut);
        OverlapsSymmetric(nb.checkIn, nb.checkOut, after[j].checkIn, after[j].checkOut);
      } else if j == id {
        assert i !in OverlapQuery(bookings, nb.roomId, nb.checkIn, nb.checkOut);
      }
    }
  }

  /** A status change that moves a booking within the active set or out of it keeps the
      invariant: it never makes an inactive booking active, and dates and rooms stay put. */
  lemma StatusChangePreservesNoDoubleBooking(bookings: map<int, Booking>, id: int, s: BookingStatus)
    requires NoDoubleBooking(bookings)
    requires id in bookings
    requires Active(s) ==> Active(bookings[id].status)
    ensures NoDoubleBooking(bookings[id := bookings[id].(status := s)])
  {
  }

  /** The available-rooms list and the create-booking overlap query agree: a room is listed
      for a range exactly when it exists, has a room type, and create-booking would not
      answer 409 for it over the same range. */
  lemma AvailableIffNoConflict(roomTypes: set<int>, rooms: map<int, Room>, bookings: map<int, Booking>,
                               checkIn: int, checkOut: int, roomId: int)
    ensures roomId in AvailableQuery(roomTypes, rooms, bookings, checkIn, checkOut)
        <==> roomId in rooms && rooms[roomId].typeId in roomTypes &&
             OverlapQuery(bookings, roomId, checkIn, checkOut) == {}
  {
    var blocked := BlockedRooms(bookings, checkIn, checkOut);
    var q := OverlapQuery(bookings, roomId, checkIn, checkOut);
    if exists k :: k in bookings && Blocks(bookings[k], roomId, checkIn, checkOut) {
      var k :| k in bookings && Blocks(bookings[k], roomId, checkIn, checkOut);
      assert k in q;
      assert roomId in blocked;
    } else {
      assert q == {};
      assert roomId !in blocked;
    }
  }
}
