# Hotel booking admission and availability

This project models the booking core of a hotel reservation web service. The service keeps
two tables that matter here: Rooms (room number, room type, status Available / Occupied /
Cleaning / Maintenance) and Bookings (guest, room, check-in and check-out dates, total price,
status Confirmed / Checked_In / Checked_Out / Cancelled). Six request handlers act on them:

- create booking: reject an overlapping stay with 409, otherwise insert it as Confirmed;
- list the rooms available for a date range;
- check a guest in or out;
- add or delete a room.

The central promise is this: on any one room, the active bookings never overlap. Active
bookings are those that are Confirmed or Checked_In, and stays are half-open ranges of days,
so a guest may check in on the day the previous one checks out.

The model works on one consistent store. Each handler runs as one atomic sequential step.

- `booking_rules.dfy` (module `BookingRules`) holds the row types and the overlap clause
  shared by the create-booking and available-rooms queries (`Blocks`). It also holds the two
  queries as functions (`OverlapQuery`, `AvailableQuery`), the invariant (`NoDoubleBooking`)
  and the lemmas about them.
- `hotel_store.dfy` (module `HotelStore`) holds class `Hotel`, which owns the tables and has one
  method per handler. Each method states its whole result and its whole new state, and that
  the invariant carries over. `Hotel.Valid()` holds the schema's constraints: keys issued by
  the AUTO_INCREMENT counters, unique room numbers, and foreign keys from rooms to room
  types and from bookings to rooms. `Room101Scenario` walks through a concrete sequence of
  requests; its assertions are proved from the method contracts alone.

Tables are maps keyed by the primary key. RoomTypes is reduced to its set of ids, because
the core uses only the ids (in the available-rooms join and the foreign-key check). Dates are
day numbers and money is an integer in minor units. A handler's answer is
`Response.Success(value)` or `Response.Failure(error)`. `HttpStatus` maps each error to the
status code the handler sends: 400, 404, 409 or 500.

Where the code and the service's design description disagree, the model follows the code:

- The server never checks that check-out comes after check-in. Only the browser does
  (html/app.js:34). The model has no range check. `RepeatRequestBlockedIffNonEmpty` shows one
  consequence: a second identical request for an empty or inverted range is admitted. The
  invariant still holds, because it depends only on the overlap test being symmetric.
- The price is rejected only when it is falsy (zero). A negative price is accepted.
- Create-booking for a room id that does not exist passes the overlap query. The INSERT then
  fails on the foreign key to Rooms, which gives 500 (`StorageError`), not 400 or 404.
- Delete-room of a room that bookings still reference fails on that foreign key, which has no
  ON DELETE clause (modules/backend/mysql_db.js:60). The answer is 500 and nothing is deleted.
- Add-room with an unknown room type fails on the foreign key to RoomTypes with 500. A
  duplicate room number gives 400 and is detected before the room type is checked.

## Model

| member | source | states |
|---|---|---|
| `BookingRules.Blocks` | Database/index.js:354-360 | definition, no contract: the WHERE clause of the overlap queries (same room, status Confirmed or Checked_In, existing check-in before the requested check-out, existing check-out after the requested check-in) |
| `BookingRules.OverlapQuery` | Database/index.js:354-364 | definition, no contract: the ids of the bookings that satisfy the overlap clause for the requested room and range |
| `BookingRules.BlockedRooms` | Database/index.js:205-211 | definition, no contract: the room ids of the active bookings that overlap the requested range (the NOT IN subquery) |
| `BookingRules.AvailableQuery` | Database/index.js:201-212 | definition, no contract: the rooms joined with an existing room type whose id is not among the blocked rooms |
| `HotelStore.Incomplete` | Database/index.js:348-350 | definition, no contract: the create-booking guard, true when the name, room id, either date or the price is missing or falsy |
| `HotelStore.NewBooking` | Database/index.js:369-373 | definition, no contract: the row the INSERT writes, carrying the request's fields and status Confirmed |
| `HotelStore.HttpStatus` | Database/index.js:349-588 | definition, no contract: the status code each handler failure is answered with (400, 404, 409, 500) |
| `BookingRules.OverlapsSymmetric` | Database/index.js:209 | the half-open overlap test does not depend on which stay is the existing one |
| `BookingRules.BlocksIsHalfOpenOverlap` | Database/index.js:354-362 | the query's clause, with the request passed as [check_out, check_in], holds exactly when the booking is on the room, is active, and its stay overlaps the requested stay |
| `BookingRules.AdjacentStaysDoNotBlock` | Database/index.js:359 | a stay that ends on the requested check-in day, or starts on the requested check-out day, never blocks |
| `BookingRules.InactiveBookingsDoNotBlock` | Database/index.js:357 | Checked_Out and Cancelled bookings never block a request |
| `BookingRules.RepeatRequestBlockedIffNonEmpty` | Database/index.js:354-366 | an active booking blocks a repeat of its own request exactly when its check-in is before its check-out |
| `BookingRules.OverlapQueryEmptyIff` | Database/index.js:362-366 | the overlap query returns no row, so there is no 409, exactly when no booking blocks the request |
| `BookingRules.AdmitPreservesNoDoubleBooking` | Database/index.js:354-373 | inserting under a fresh id a booking that the overlap query did not reject keeps active bookings on every room pairwise non-overlapping |
| `BookingRules.StatusChangePreservesNoDoubleBooking` | Database/index.js:416-467 | a status change that never turns an inactive booking active keeps the invariant; check-in and check-out are such changes |
| `BookingRules.AvailableIffNoConflict` | Database/index.js:201-217 | a room is listed for a range exactly when it exists, has an existing room type, and create-booking's overlap query is empty for that room and range |
| `HotelStore.Hotel.constructor` | Database/mysql_db.js:30-48 | empty Rooms and Bookings tables satisfy every schema constraint |
| `HotelStore.Hotel.CreateBooking` | Database/index.js:345-383 | a missing or falsy field gives 400; a blocking booking gives 409; an unknown room gives 500; otherwise exactly one Confirmed booking with the request's fields is added under a fresh id greater than every existing one, and that id is returned; rooms never change; bookings are unchanged on every failure; the no-double-booking invariant is preserved |
| `HotelStore.Hotel.AvailableRooms` | Database/index.js:190-223 | a missing date gives 400; otherwise the answer holds exactly the rooms with an existing room type on which no booking blocks the range, each with its own row |
| `HotelStore.Hotel.CheckIn` | Database/index.js:407-429 | an unknown id gives 404; a booking that is not Confirmed gives 400 carrying its current status, with nothing changed, so a second check-in fails; otherwise that booking becomes Checked_In and its room Occupied, nothing else changes, and the invariant is preserved |
| `HotelStore.Hotel.CheckOut` | Database/index.js:453-474 | an unknown id gives 404; a booking that is not Checked_In gives 400 carrying its current status, with nothing changed; otherwise that booking becomes Checked_Out and its room Available, nothing else changes, and the invariant is preserved |
| `HotelStore.Hotel.AddRoom` | Database/index.js:536-558 | a missing number or room type gives 400; a room number already in use gives 400 and inserts nothing; an unknown room type gives 500; otherwise one Available room is added under a fresh id; bookings never change |
| `HotelStore.Hotel.DeleteRoom` | Database/index.js:582-598 | an unknown id gives 404; a room that bookings reference gives 500 and stays; otherwise only that room is removed; bookings never change |

## Left out

- Concurrency and replication. The race between the overlap read (Database/index.js:362) and
  the insert (:373) is not modelled. Neither are reads from a replica that may lag. The
  invariant is proved for sequential, atomic handlers only.
- Partial failure between the two UPDATEs of check-in and check-out (Database/index.js:421-422,
  466-467). Each transition is modelled as one atomic step.
- Storage failures other than foreign-key and unique-key violations, such as a lost
  connection. In the source they surface as 500. Error message texts are not modelled.
- Parsing dates and prices from JSON and query strings. Fields are already integers, and a
  missing or empty value is `""`, `0` or `None`. Values that JavaScript finds truthy but the
  store would reject or convert, such as the string "0" or a malformed date, are not modelled.
- The display columns that the available-rooms query joins from RoomTypes (type name, base
  price, capacity). The row order of its answer is also left out, since the query has no
  ORDER BY.
- AUTO_INCREMENT gaps. The store may use up an id on a failed insert. The model advances its
  counters only on success, and its contracts promise only an id that is fresh and larger
  than every existing one.
- Collation. MySQL's default collation compares room numbers without regard to case, so
  "a1" and "A1" clash there. The model compares exact strings.
- NULL room ids in Bookings. No handler inserts one, so the NOT IN subquery never meets one.
- The Cancelled transition. No handler in this core performs it. Cancelled bookings appear
  only as an inactive status.
- The plain read handlers (GET /rooms, /bookings, /bookings/:id, /roomtypes), /seed, Swagger
  annotations, the browser code (html/app.js), staff authentication
  (modules/backend/auth.js), pool set-up, seeding and the start-up retry loop
  (modules/backend/mysql_db.js, Database/mysql_db.js), and the SQLite variant
  (Database/sqlite3.js).
