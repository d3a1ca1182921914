/** BookController: creating a booking, a user cancelling one, and the
    "my bookings" list. */
module BookController {
  import opened Wrappers
  import opened Domain
  import opened Availability
  import opened Database

  datatype BookingRequest = BookingRequest(roomId: int, checkIn: Day, checkOut: Day)

  datatype BookingError =
    | CheckInInPast
    | CheckOutNotAfterCheckIn
    | NoUsers
    | RoomNotFound
    | RoomTypeMissing
    | RoomUnavailable

  /** The JSON reply: on success the new id, the total price and the night count. */
  datatype BookingReply = Created(bookingId: int, totalPrice: Cents, nights: int) | Rejected(error: BookingError)

  /** The booking CreateBooking would insert, or the first check that refuses it.
      `callerId` is the signed-in user's id ("" when there is none) and
      `firstUserId` the first user of the user table, used in that case. */
  function DecideBooking(
    bookings: seq<Booking>, rooms: seq<Room>, req: BookingRequest,
    callerId: string, firstUserId: Option<string>, today: Day, now: Timestamp): (r: Result<Booking, BookingError>)
    ensures req.checkIn < today ==> r == Failure(CheckInInPast)
    ensures today <= req.checkIn && req.checkOut <= req.checkIn ==> r == Failure(CheckOutNotAfterCheckIn)
    ensures r == Failure(NoUsers) ==> callerId == "" && firstUserId.None?
    ensures r == Failure(RoomNotFound) ==> FindRoom(rooms, req.roomId).None?
    ensures r == Failure(RoomTypeMissing) ==>
      FindRoom(rooms, req.roomId).Some? && FindRoom(rooms, req.roomId).value.roomType.None?
    ensures r == Failure(RoomUnavailable) ==> BlockingBookings(bookings, req.roomId, req.checkIn, req.checkOut) != []
    ensures today <= req.checkIn < req.checkOut && callerId == "" && firstUserId.None? ==> r == Failure(NoUsers)
    ensures today <= req.checkIn < req.checkOut && (callerId != "" || firstUserId.Some?)
      && FindRoom(rooms, req.roomId).None?
      ==> r == Failure(RoomNotFound)
    ensures today <= req.checkIn < req.checkOut && (callerId != "" || firstUserId.Some?)
      && FindRoom(rooms, req.roomId).Some? && FindRoom(rooms, req.roomId).value.roomType.None?
      ==> r == Failure(RoomTypeMissing)
    ensures today <= req.checkIn < req.checkOut && (callerId != "" || firstUserId.Some?)
      && FindRoom(rooms, req.roomId).Some? && FindRoom(rooms, req.roomId).value.roomType.Some?
      && BlockingBookings(bookings, req.roomId, req.checkIn, req.checkOut) != []
      ==> r == Failure(RoomUnavailable)
    ensures r.Success? ==>
      && today <= req.checkIn < req.checkOut
      && r.value.id == |bookings| + 1
      && r.value.roomId == req.roomId
      && r.value.checkIn == req.checkIn && r.value.checkOut == req.checkOut
      && (if callerId != "" then r.value.userId == callerId else firstUserId == Some(r.value.userId))
      && r.value.status == Pending
      && r.value.createdAt == now
      && FindRoom(rooms, req.roomId).Some?
      && FindRoom(rooms, req.roomId).value.roomType.Some?
      && r.value.price == Nights(req.checkIn, req.checkOut) * FindRoom(rooms, req.roomId).value.roomType.value.basePrice
      && BlockingBookings(bookings, req.roomId, req.checkIn, req.checkOut) == []
    ensures
      && today <= req.checkIn < req.checkOut
      && (callerId != "" || firstUserId.Some?)
      && FindRoom(rooms, req.roomId).Some? && FindRoom(rooms, req.roomId).value.roomType.Some?
      && BlockingBookings(bookings, req.roomId, req.checkIn, req.checkOut) == []
      ==> r.Success?
  {
    if req.checkIn < today then Failure(CheckInInPast)
    else if req.checkOut <= req.checkIn then Failure(CheckOutNotAfterCheckIn)
    else if callerId == "" && firstUserId.None? then Failure(NoUsers)
    else
      var userId := if callerId != "" then callerId else firstUserId.value;
      match FindRoom(rooms, req.roomId)
      case None => Failure(RoomNotFound)
      case Some(room) =>
        match room.roomType
        case None => Failure(RoomTypeMissing)
        case Some(roomType) =>
          if BlockingBookings(bookings, req.roomId, req.checkIn, req.checkOut) != [] then Failure(RoomUnavailable)
          else
            var nights := Nights(req.checkIn, req.checkOut);
            Success(Booking(|bookings| + 1, req.roomId, userId, req.checkIn, req.checkOut,
                            StayPrice(nights, roomType.basePrice), Pending, now))
  }

  /** An accepted booking shares no night with any active booking of its room,
      and has at least one night. */
  lemma AcceptedBookingIsFree(
    bookings: seq<Booking>, rooms: seq<Room>, req: BookingRequest,
    callerId: string, firstUserId: Option<string>, today: Day, now: Timestamp)
    requires StaysNonEmpty(bookings)
    requires DecideBooking(bookings, rooms, req, callerId, firstUserId, today, now).Success?
    ensures var b := DecideBooking(bookings, rooms, req, callerId, firstUserId, today, now).value;
      Nights(b.checkIn, b.checkOut) >= 1 &&
      forall k :: 0 <= k < |bookings| && bookings[k].roomId == b.roomId && Active(bookings[k]) ==>
        !HalfOpenOverlap(bookings[k].checkIn, bookings[k].checkOut, b.checkIn, b.checkOut)
  {
    NothingBlocksIffNoActiveOverlap(bookings, req.roomId, req.checkIn, req.checkOut);
  }

  /** Appending an accepted booking keeps the tables consistent, never creates a
      double booking, and adds exactly its price to the revenue. */
  lemma {:induction false} AcceptedBookingKeepsInvariants(
    bookings: seq<Booking>, payments: seq<Payment>, rooms: seq<Room>, req: BookingRequest,
    callerId: string, firstUserId: Option<string>, today: Day, now: Timestamp)
    requires TablesConsistent(bookings, payments)
    requires DecideBooking(bookings, rooms, req, callerId, firstUserId, today, now).Success?
    ensures var b := DecideBooking(bookings, rooms, req, callerId, firstUserId, today, now).value;
      && TablesConsistent(bookings + [b], payments)
      && (NoDoubleBooking(bookings) ==> NoDoubleBooking(bookings + [b]))
      && SumPrices(bookings + [b]) == SumPrices(bookings) + b.price
  {
    var b := DecideBooking(bookings, rooms, req, callerId, firstUserId, today, now).value;
    var t := bookings + [b];
    AcceptedBookingIsFree(bookings, rooms, req, callerId, firstUserId, today, now);
    assert t[..|t| - 1] == bookings;
    forall k | 0 <= k < |payments|
      ensures 1 <= payments[k].bookingId <= |t| && payments[k].amount == t[payments[k].bookingId - 1].price
    {
      assert t[payments[k].bookingId - 1] == bookings[payments[k].bookingId - 1];
    }
    if NoDoubleBooking(bookings) {
      forall i, j | 0 <= i < j < |t| && t[i].roomId == t[j].roomId && Active(t[i]) && Active(t[j])
        ensures !HalfOpenOverlap(t[i].checkIn, t[i].checkOut, t[j].checkIn, t[j].checkOut)
      {
        if j < |bookings| {
          assert t[i] == bookings[i] && t[j] == bookings[j];
        } else {
          assert t[i] == bookings[i] && t[j] == b;
        }
      }
    }
  }

  /** CreateBooking as the action runs it: validate, look up, test for clashes,
      then append one Pending booking. */
  method CreateBooking(
    db: BookifyDb, rooms: seq<Room>, req: BookingRequest,
    callerId: string, firstUserId: Option<string>, today: Day, now: Timestamp) returns (reply: BookingReply)
    requires db.Valid()
    modifies db
    ensures db.Valid()
    ensures db.payments == old(db.payments)
    ensures match DecideBooking(old(db.bookings), rooms, req, callerId, firstUserId, today, now)
      case Success(b) =>
        db.bookings == old(db.bookings) + [b] && reply == Created(b.id, b.price, Nights(b.checkIn, b.checkOut))
      case Failure(e) =>
        db.bookings == old(db.bookings) && reply == Rejected(e)
    ensures NoDoubleBooking(old(db.bookings)) ==> NoDoubleBooking(db.bookings)
  {
    if req.checkIn < today {
      return Rejected(CheckInInPast);
    }
    if req.checkOut <= req.checkIn {
      return Rejected(CheckOutNotAfterCheckIn);
    }
    var userId := callerId;
    if userId == "" {
      if firstUserId.None? {
        return Rejected(NoUsers);
      }
      userId := firstUserId.value;
    }
    var room := FindRoom(rooms, req.roomId);
    if room.None? {
      return Rejected(RoomNotFound);
    }
    if room.value.roomType.None? {
      return Rejected(RoomTypeMissing);
    }
    var existing := BlockingBookings(db.bookings, req.roomId, req.checkIn, req.checkOut);
    if |existing| > 0 {
      return Rejected(RoomUnavailable);
    }
    var nights := Nights(req.checkIn, req.checkOut);
    var totalPrice := StayPrice(nights, room.value.roomType.value.basePrice);
    var booking := Booking(|db.bookings| + 1, req.roomId, userId, req.checkIn, req.checkOut,
                           totalPrice, Pending, now);
    AcceptedBookingKeepsInvariants(db.bookings, db.payments, rooms, req, callerId, firstUserId, today, now);
    db.bookings := db.bookings + [booking];
    reply := Created(booking.id, totalPrice, nights);
  }

  datatype CancelError = BookingNotFound | Unauthorized | CannotCancel

  /** The user-facing cancel: the owner may cancel a Pending or a Confirmed
      booking; Completed and Cancelled ones are refused. On success the table is
      the old one with only that booking's status changed. */
  function UserCancel(bookings: seq<Booking>, id: int, requesterId: string): (r: Result<seq<Booking>, CancelError>)
    ensures GetBooking(bookings, id).None? ==> r == Failure(BookingNotFound)
    ensures GetBooking(bookings, id).Some? && GetBooking(bookings, id).value.userId != requesterId ==>
      r == Failure(Unauthorized)
    ensures r.Success? <==>
      GetBooking(bookings, id).Some? && GetBooking(bookings, id).value.userId == requesterId
      && (GetBooking(bookings, id).value.status == Pending || GetBooking(bookings, id).value.status == Confirmed)
    ensures r == Failure(CannotCancel) ==>
      GetBooking(bookings, id).value.status == Completed || GetBooking(bookings, id).value.status == Cancelled
    ensures r.Success? ==> 1 <= id <= |bookings| && r.value == SetStatus(bookings, id, Cancelled)
  {
    match GetBooking(bookings, id)
    case None => Failure(BookingNotFound)
    case Some(b) =>
      if b.userId != requesterId then Failure(Unauthorized)
      else if b.status == Completed || b.status == Cancelled then Failure(CannotCancel)
      else
        assert b.status == Pending || b.status == Confirmed;
        Success(SetStatus(bookings, id, Cancelled))
  }

  /** Cancelling is not repeatable: once a user's cancel succeeds, the same
      request is refused with CannotCancel and changes nothing. */
  lemma CancelTwiceIsRefused(bookings: seq<Booking>, id: int, requesterId: string)
    requires UserCancel(bookings, id, requesterId).Success?
    ensures UserCancel(UserCancel(bookings, id, requesterId).value, id, requesterId) == Failure(CannotCancel)
  {
    var once := UserCancel(bookings, id, requesterId).value;
    assert GetBooking(once, id).value == bookings[id - 1].(status := Cancelled);
  }

  /** CancelBooking, the user's action. */
  method CancelBooking(db: BookifyDb, id: int, requesterId: string) returns (r: Result<(), CancelError>)
    requires db.Valid()
    modifies db
    ensures db.Valid()
    ensures db.payments == old(db.payments)
    ensures match UserCancel(old(db.bookings), id, requesterId)
      case Success(t) => db.bookings == t && r == Success(())
      case Failure(e) => db.bookings == old(db.bookings) && r == Failure(e)
    ensures NoDoubleBooking(old(db.bookings)) ==> NoDoubleBooking(db.bookings)
    ensures SumPrices(db.bookings) == SumPrices(old(db.bookings))
  {
    var booking := GetBooking(db.bookings, id);
    if booking.None? {
      return Failure(BookingNotFound);
    }
    if booking.value.userId != requesterId {
      return Failure(Unauthorized);
    }
    if booking.value.status == Completed || booking.value.status == Cancelled {
      return Failure(CannotCancel);
    }
    SetStatusKeepsConsistency(db.bookings, db.payments, id, Cancelled);
    SetStatusKeepsSumPrices(db.bookings, id, Cancelled);
    if NoDoubleBooking(db.bookings) {
      CancellingKeepsNoDoubleBooking(db.bookings, id);
    }
    db.bookings := SetStatus(db.bookings, id, Cancelled);
    r := Success(());
  }

  /** The bookings of one user, in table order (`Where(b => b.UserId == userId)`). */
  function OwnedBy(bookings: seq<Booking>, userId: string): (r: seq<Booking>)
    ensures forall b :: b in r <==> b in bookings && b.userId == userId
    ensures multiset(r) <= multiset(bookings)
    ensures forall b :: multiset(r)[b] == if b.userId == userId then multiset(bookings)[b] else 0
  {
    if bookings == [] then []
    else
      var rest := OwnedBy(bookings[1..], userId);
      assert bookings == [bookings[0]] + bookings[1..];
      if bookings[0].userId == userId then [bookings[0]] + rest else rest
  }

  /** Newest first: creation times never increase along the list. */
  predicate NewestFirst(s: seq<Booking>) {
    forall i, j :: 0 <= i < j < |s| ==> s[i].createdAt >= s[j].createdAt
  }

  /** Places `b` before the first booking that is not newer than it, so that among
      equal creation times the earlier table position stays first. */
  function InsertNewestFirst(b: Booking, s: seq<Booking>): (r: seq<Booking>)
    requires NewestFirst(s)
    ensures NewestFirst(r)
    ensures forall x :: x in r ==> x in s || x == b
    ensures multiset(r) == multiset(s) + multiset{b}
  {
    if s == [] || s[0].createdAt <= b.createdAt then [b] + s
    else
      var rest := InsertNewestFirst(b, s[1..]);
      InsertBehindHead(b, s, rest);
      [s[0]] + rest
  }

  /** The recursive step of InsertNewestFirst: `b` is older than the head of `s`
      and went into the tail, so keeping the head in front keeps the order. */
  lemma InsertBehindHead(b: Booking, s: seq<Booking>, rest: seq<Booking>)
    requires NewestFirst(s) && s != [] && s[0].createdAt > b.createdAt
    requires NewestFirst(rest)
    requires forall x :: x in rest ==> x in s[1..] || x == b
    requires multiset(rest) == multiset(s[1..]) + multiset{b}
    ensures NewestFirst([s[0]] + rest)
    ensures forall x :: x in [s[0]] + rest ==> x in s || x == b
    ensures multiset([s[0]] + rest) == multiset(s) + multiset{b}
  {
    assert s == [s[0]] + s[1..];
    var r := [s[0]] + rest;
    forall i, j | 0 <= i < j < |r| ensures r[i].createdAt >= r[j].createdAt
    {
      assert r[j] == rest[j - 1];
      if i > 0 { assert r[i] == rest[i - 1]; }
      else if rest[j - 1] != b {
        assert rest[j - 1] in s[1..];
        var k :| 0 <= k < |s[1..]| && s[1..][k] == rest[j - 1];
        assert s[k + 1] == rest[j - 1];
      }
    }
  }

  /** `OrderByDescending(b => b.CreatedAt)`, a stable sort. */
  function SortNewestFirst(s: seq<Booking>): (r: seq<Booking>)
    ensures NewestFirst(r)
    ensures multiset(r) == multiset(s)
  {
    if s == [] then []
    else
      assert s == [s[0]] + s[1..];
      InsertNewestFirst(s[0], SortNewestFirst(s[1..]))
  }

  /** MyBookings: without a signed-in user the action redirects to the login page
      (`None`); otherwise it lists exactly that user's bookings, newest first. */
  function MyBookings(bookings: seq<Booking>, userId: string): (r: Option<seq<Booking>>)
    ensures r.None? <==> userId == ""
    ensures r.Some? ==> NewestFirst(r.value)
    ensures r.Some? ==> multiset(r.value) == multiset(OwnedBy(bookings, userId))
    ensures r.Some? ==> forall b :: b in r.value <==> b in bookings && b.userId == userId
  {
    if userId == "" then None
    else
      var mine := OwnedBy(bookings, userId);
      var sorted := SortNewestFirst(mine);
      assert forall b :: b in sorted <==> b in multiset(mine);
      Some(sorted)
  }
}
