/** PaymentController: the payment page for a booking, the payment itself
    (one payment per booking, exact amount, booking becomes Confirmed) and the
    booking summary endpoint. */
module PaymentController {
  import opened Wrappers
  import opened Domain
  import opened Availability
  import opened Database

  datatype PaymentRequest = PaymentRequest(bookingId: int, amount: Cents, paymentMethod: string)

  datatype PaymentError = BookingNotFound | AlreadyPaid | AmountMismatch

  /** ProcessPayment's three checks: the payment they accept, or the first refusal.
      The booking's current status is not consulted. */
  function PaymentDecision(bookings: seq<Booking>, payments: seq<Payment>, req: PaymentRequest, now: Timestamp)
    : (r: Result<Payment, PaymentError>)
    ensures GetBooking(bookings, req.bookingId).None? ==> r == Failure(BookingNotFound)
    ensures GetBooking(bookings, req.bookingId).Some? && HasPayment(payments, req.bookingId) ==>
      r == Failure(AlreadyPaid)
    ensures r == Failure(AmountMismatch) ==> req.amount != GetBooking(bookings, req.bookingId).value.price
    ensures GetBooking(bookings, req.bookingId).Some? && !HasPayment(payments, req.bookingId)
      && req.amount != GetBooking(bookings, req.bookingId).value.price
      ==> r == Failure(AmountMismatch)
    ensures r.Success? <==>
      GetBooking(bookings, req.bookingId).Some? && !HasPayment(payments, req.bookingId)
      && req.amount == GetBooking(bookings, req.bookingId).value.price
    ensures r.Success? ==>
      r.value == Payment(req.bookingId, bookings[req.bookingId - 1].price, req.paymentMethod, now,
                         TransactionId(now, req.bookingId), "Completed")
  {
    match GetBooking(bookings, req.bookingId)
    case None => Failure(BookingNotFound)
    case Some(b) =>
      if HasPayment(payments, req.bookingId) then Failure(AlreadyPaid)
      else if req.amount != b.price then Failure(AmountMismatch)
      else Success(Payment(req.bookingId, req.amount, req.paymentMethod, now,
                           TransactionId(now, req.bookingId), "Completed"))
  }

  /** Recording an accepted payment and confirming its booking keeps the tables
      consistent; in particular the booking now has exactly one payment. */
  lemma {:induction false} PaymentKeepsConsistency(bookings: seq<Booking>, payments: seq<Payment>, req: PaymentRequest, now: Timestamp)
    requires TablesConsistent(bookings, payments)
    requires PaymentDecision(bookings, payments, req, now).Success?
    ensures var p := PaymentDecision(bookings, payments, req, now).value;
      && TablesConsistent(SetStatus(bookings, req.bookingId, Confirmed), payments + [p])
      && forall k :: 0 <= k < |payments + [p]| && (payments + [p])[k].bookingId == req.bookingId ==> k == |payments|
  {
    var p := PaymentDecision(bookings, payments, req, now).value;
    SetStatusKeepsConsistency(bookings, payments, req.bookingId, Confirmed);
    var t := SetStatus(bookings, req.bookingId, Confirmed);
    var ps := payments + [p];
    forall k | 0 <= k < |ps|
      ensures 1 <= ps[k].bookingId <= |t| && ps[k].amount == t[ps[k].bookingId - 1].price
    {
      if k < |payments| { assert ps[k] == payments[k]; }
    }
    assert forall k :: 0 <= k < |payments| ==> ps[k] == payments[k];
  }

  /** ProcessPayment, the action as written: not found, already paid, amount
      mismatch, then one payment recorded and the booking Confirmed. The status
      is not consulted, so the no-double-booking property is kept only when the
      paid booking was not Cancelled. */
  method ProcessPayment(db: BookifyDb, req: PaymentRequest, now: Timestamp) returns (reply: Result<Payment, PaymentError>)
    requires db.Valid()
    modifies db
    ensures db.Valid()
    ensures reply == PaymentDecision(old(db.bookings), old(db.payments), req, now)
    ensures reply.Success? ==>
      db.payments == old(db.payments) + [reply.value]
      && db.bookings == SetStatus(old(db.bookings), req.bookingId, Confirmed)
    ensures reply.Failure? ==> db.payments == old(db.payments) && db.bookings == old(db.bookings)
    ensures reply.Success? && Active(old(db.bookings)[req.bookingId - 1]) && NoDoubleBooking(old(db.bookings)) ==>
      NoDoubleBooking(db.bookings)
  {
    var booking := GetBooking(db.bookings, req.bookingId);
    if booking.None? {
      return Failure(BookingNotFound);
    }
    if HasPayment(db.payments, req.bookingId) {
      return Failure(AlreadyPaid);
    }
    if req.amount != booking.value.price {
      return Failure(AmountMismatch);
    }
    var transactionId := TransactionId(now, req.bookingId);
    var payment := Payment(req.bookingId, req.amount, req.paymentMethod, now, transactionId, "Completed");
    PaymentKeepsConsistency(db.bookings, db.payments, req, now);
    if Active(booking.value) && NoDoubleBooking(db.bookings) {
      ActiveToActiveKeepsNoDoubleBooking(db.bookings, req.bookingId, Confirmed);
    }
    db.payments := db.payments + [payment];
    db.bookings := SetStatus(db.bookings, req.bookingId, Confirmed);
    reply := Success(payment);
  }

  /** As written, paying for a Cancelled booking re-activates it: after the room
      was re-let for the same nights, the old booking becomes Confirmed beside the
      new one, and the room is held twice. */
  lemma PayingCancelledBookingDoubleBooks()
    ensures var before := [Booking(1, 101, "a", 10, 13, 30000, Cancelled, 0),
                           Booking(2, 101, "b", 10, 13, 30000, Pending, 1)];
      && TablesConsistent(before, [])
      && NoDoubleBooking(before)
      && PaymentDecision(before, [], PaymentRequest(1, 30000, "Card"), 2).Success?
      && !NoDoubleBooking(SetStatus(before, 1, Confirmed))
  {
    var before := [Booking(1, 101, "a", 10, 13, 30000, Cancelled, 0),
                   Booking(2, 101, "b", 10, 13, 30000, Pending, 1)];
    var after := SetStatus(before, 1, Confirmed);
    assert after[0].status == Confirmed && after[1] == before[1];
  }

  datatype GuardedPaymentError = NotPayable | Refused(error: PaymentError)

  /** The evidently intended rule: only a Pending booking can be paid for, so
      Confirmed is reached from Pending alone and terminal states stay terminal.
      A Pending booking then goes through the three checks of PaymentDecision. */
  function PendingOnlyPaymentDecision(bookings: seq<Booking>, payments: seq<Payment>, req: PaymentRequest, now: Timestamp)
    : (r: Result<Payment, GuardedPaymentError>)
    ensures GetBooking(bookings, req.bookingId).None? ==> r == Failure(Refused(BookingNotFound))
    ensures r == Failure(NotPayable) <==>
      GetBooking(bookings, req.bookingId).Some? && GetBooking(bookings, req.bookingId).value.status != Pending
    ensures r.Success? <==>
      GetBooking(bookings, req.bookingId).Some? && GetBooking(bookings, req.bookingId).value.status == Pending
      && PaymentDecision(bookings, payments, req, now).Success?
    ensures r.Success? ==> PaymentDecision(bookings, payments, req, now) == Success(r.value)
    ensures r.Failure? && r.error.Refused? ==> PaymentDecision(bookings, payments, req, now) == Failure(r.error.error)
  {
    match GetBooking(bookings, req.bookingId)
    case None => Failure(Refused(BookingNotFound))
    case Some(b) =>
      if b.status != Pending then Failure(NotPayable)
      else match PaymentDecision(bookings, payments, req, now)
        case Success(p) => Success(p)
        case Failure(e) => Failure(Refused(e))
  }

  /** With the Pending-only rule, payment never creates a double booking. */
  lemma PendingOnlyPaymentKeepsNoDoubleBooking(bookings: seq<Booking>, payments: seq<Payment>, req: PaymentRequest, now: Timestamp)
    requires NoDoubleBooking(bookings)
    requires PendingOnlyPaymentDecision(bookings, payments, req, now).Success?
    ensures NoDoubleBooking(SetStatus(bookings, req.bookingId, Confirmed))
  {
    ActiveToActiveKeepsNoDoubleBooking(bookings, req.bookingId, Confirmed);
  }

  /** The payment page's view model. Guest and room-type fields follow the
      booking's navigations and are `None` where the source yields null. */
  datatype PaymentPage = PaymentPage(
    bookingId: int,
    amount: Cents,
    guestName: Option<string>,
    guestEmail: Option<string>,
    roomTypeName: Option<string>,
    checkIn: Day,
    checkOut: Day,
    numberOfNights: int)

  datatype PageError = InvalidBookingId | PageBookingNotFound

  function UserOf(users: map<string, User>, b: Booking): Option<User> {
    if b.userId in users then Some(users[b.userId]) else None
  }

  /** The booking's `Room?.RoomType`: null when no room has its id or the room
      has no type. */
  function RoomTypeOf(rooms: seq<Room>, b: Booking): Option<RoomType> {
    match FindRoom(rooms, b.roomId)
    case None => None
    case Some(room) => room.roomType
  }

  /** Index: a non-positive id is refused before any lookup; otherwise the page
      shows the booking's stored price and its night count. */
  function Index(bookings: seq<Booking>, rooms: seq<Room>, users: map<string, User>, bookingId: int)
    : (r: Result<PaymentPage, PageError>)
    ensures bookingId <= 0 ==> r == Failure(InvalidBookingId)
    ensures bookingId > 0 && GetBooking(bookings, bookingId).None? ==> r == Failure(PageBookingNotFound)
    ensures bookingId > 0 && GetBooking(bookings, bookingId).Some? ==> r.Success? && r.value.bookingId == bookings[bookingId - 1].id
    ensures r.Success? ==>
      && GetBooking(bookings, bookingId).Some?
      && r.value.amount == GetBooking(bookings, bookingId).value.price
      && r.value.numberOfNights == Nights(GetBooking(bookings, bookingId).value.checkIn,
                                          GetBooking(bookings, bookingId).value.checkOut)
    ensures r.Success? ==> var b := bookings[bookingId - 1];
      && r.value.checkIn == b.checkIn && r.value.checkOut == b.checkOut
      && (b.userId in users ==>
            r.value.guestName == users[b.userId].fullName && r.value.guestEmail == users[b.userId].email)
      && (b.userId !in users ==> r.value.guestName.None? && r.value.guestEmail.None?)
      && (RoomTypeOf(rooms, b).Some? ==> r.value.roomTypeName == Some(RoomTypeOf(rooms, b).value.name))
      && (RoomTypeOf(rooms, b).None? ==> r.value.roomTypeName.None?)
  {
    if bookingId <= 0 then Failure(InvalidBookingId)
    else match GetBooking(bookings, bookingId)
      case None => Failure(PageBookingNotFound)
      case Some(b) =>
        var user := UserOf(users, b);
        var roomType := RoomTypeOf(rooms, b);
        Success(PaymentPage(
          b.id, b.price,
          if user.Some? then user.value.fullName else None,
          if user.Some? then user.value.email else None,
          if roomType.Some? then Some(roomType.value.name) else None,
          b.checkIn, b.checkOut, Nights(b.checkIn, b.checkOut)))
  }

  /** The page and the payment agree: on consistent tables the page shows at
      least one night, and paying exactly the amount it shows is never refused as
      a mismatch. Under the written checks only an earlier payment can refuse it;
      under the Pending-only rule the booking must also still be Pending. */
  lemma PageAmountIsAccepted(
    bookings: seq<Booking>, payments: seq<Payment>, rooms: seq<Room>, users: map<string, User>,
    bookingId: int, paymentMethod: string, now: Timestamp)
    requires TablesConsistent(bookings, payments)
    requires Index(bookings, rooms, users, bookingId).Success?
    ensures var page := Index(bookings, rooms, users, bookingId).value;
      && page.numberOfNights >= 1
      && page.bookingId == bookingId
      && (PaymentDecision(bookings, payments, PaymentRequest(bookingId, page.amount, paymentMethod), now).Success?
          <==> !HasPayment(payments, bookingId))
      && (PendingOnlyPaymentDecision(bookings, payments, PaymentRequest(bookingId, page.amount, paymentMethod), now).Success?
          <==> bookings[bookingId - 1].status == Pending && !HasPayment(payments, bookingId))
  {
  }

  datatype PaymentDetails = PaymentDetails(
    bookingId: int,
    roomTypeName: Option<string>,
    roomDescription: Option<string>,
    checkIn: Day,
    checkOut: Day,
    numberOfNights: int,
    pricePerNight: Option<Cents>,
    totalPrice: Cents,
    userName: Option<string>,
    userEmail: Option<string>,
    status: BookingStatus)

  /** GetPaymentDetails: the same lookup without the positive-id check. */
  function GetPaymentDetails(bookings: seq<Booking>, rooms: seq<Room>, users: map<string, User>, bookingId: int)
    : (r: Option<PaymentDetails>)
    ensures r.None? <==> GetBooking(bookings, bookingId).None?
    ensures r.Some? ==>
      && r.value.totalPrice == bookings[bookingId - 1].price
      && r.value.numberOfNights == Nights(bookings[bookingId - 1].checkIn, bookings[bookingId - 1].checkOut)
      && r.value.status == bookings[bookingId - 1].status
    ensures r.Some? ==> var b := bookings[bookingId - 1];
      && r.value.bookingId == b.id && r.value.checkIn == b.checkIn && r.value.checkOut == b.checkOut
      && (b.userId in users ==>
            r.value.userName == users[b.userId].userName && r.value.userEmail == users[b.userId].email)
      && (b.userId !in users ==> r.value.userName.None? && r.value.userEmail.None?)
      && (RoomTypeOf(rooms, b).Some? ==>
            var t := RoomTypeOf(rooms, b).value;
            r.value.roomTypeName == Some(t.name) && r.value.roomDescription == Some(t.description)
            && r.value.pricePerNight == Some(t.basePrice))
      && (RoomTypeOf(rooms, b).None? ==>
            r.value.roomTypeName.None? && r.value.roomDescription.None? && r.value.pricePerNight.None?)
  {
    match GetBooking(bookings, bookingId)
    case None => None
    case Some(b) =>
      var user := UserOf(users, b);
      var roomType := RoomTypeOf(rooms, b);
      Some(PaymentDetails(
        b.id,
        if roomType.Some? then Some(roomType.value.name) else None,
        if roomType.Some? then Some(roomType.value.description) else None,
        b.checkIn, b.checkOut, Nights(b.checkIn, b.checkOut),
        if roomType.Some? then Some(roomType.value.basePrice) else None,
        b.price,
        if user.Some? then user.value.userName else None,
        if user.Some? then user.value.email else None,
        b.status))
  }
}
