/** The two tables the booking flow writes (Bookings and Payments), held in one
    object the way the controllers share one database context. */
module Database {
  import opened Domain
  import opened Availability

  /** Payments point at stored bookings, carry exactly that booking's price, and
      no booking has two of them. */
  predicate PaymentsConsistent(bookings: seq<Booking>, payments: seq<Payment>) {
    && (forall k :: 0 <= k < |payments| ==>
          1 <= payments[k].bookingId <= |bookings|
          && payments[k].amount == bookings[payments[k].bookingId - 1].price)
    && (forall k, l :: 0 <= k < l < |payments| ==> payments[k].bookingId != payments[l].bookingId)
  }

  /** What every operation of the model keeps true of the two tables. */
  predicate TablesConsistent(bookings: seq<Booking>, payments: seq<Payment>) {
    IdsArePositions(bookings) && StaysNonEmpty(bookings) && PaymentsConsistent(bookings, payments)
  }

  /** No room is held by two active bookings that share a night. */
  predicate NoDoubleBooking(bookings: seq<Booking>) {
    forall i, j ::
      0 <= i < j < |bookings| && bookings[i].roomId == bookings[j].roomId
      && Active(bookings[i]) && Active(bookings[j])
      ==> !HalfOpenOverlap(bookings[i].checkIn, bookings[i].checkOut, bookings[j].checkIn, bookings[j].checkOut)
  }

  /** A status change that leaves prices, ids and dates alone keeps the tables consistent. */
  lemma {:induction false} SetStatusKeepsConsistency(bookings: seq<Booking>, payments: seq<Payment>, id: int, s: BookingStatus)
    requires TablesConsistent(bookings, payments) && 1 <= id <= |bookings|
    ensures TablesConsistent(SetStatus(bookings, id, s), payments)
  {
    var r := SetStatus(bookings, id, s);
    forall k | 0 <= k < |bookings| ensures r[k].id == bookings[k].id && r[k].price == bookings[k].price
      && r[k].checkIn == bookings[k].checkIn && r[k].checkOut == bookings[k].checkOut
    {
    }
  }

  /** Cancelling frees a room; it can never create a clash. */
  lemma {:induction false} CancellingKeepsNoDoubleBooking(bookings: seq<Booking>, id: int)
    requires NoDoubleBooking(bookings) && 1 <= id <= |bookings|
    ensures NoDoubleBooking(SetStatus(bookings, id, Cancelled))
  {
    var r := SetStatus(bookings, id, Cancelled);
    forall i, j | 0 <= i < j < |r| && r[i].roomId == r[j].roomId && Active(r[i]) && Active(r[j])
      ensures !HalfOpenOverlap(r[i].checkIn, r[i].checkOut, r[j].checkIn, r[j].checkOut)
    {
      assert r[i] == bookings[i] && r[j] == bookings[j];
    }
  }

  /** Moving a booking between active states (Pending, Confirmed, Completed)
      leaves the set of held nights unchanged. */
  lemma {:induction false} ActiveToActiveKeepsNoDoubleBooking(bookings: seq<Booking>, id: int, s: BookingStatus)
    requires NoDoubleBooking(bookings) && 1 <= id <= |bookings|
    requires Active(bookings[id - 1]) && s != Cancelled
    ensures NoDoubleBooking(SetStatus(bookings, id, s))
  {
    var r := SetStatus(bookings, id, s);
    forall i, j | 0 <= i < j < |r| && r[i].roomId == r[j].roomId && Active(r[i]) && Active(r[j])
      ensures !HalfOpenOverlap(r[i].checkIn, r[i].checkOut, r[j].checkIn, r[j].checkOut)
    {
      assert Active(bookings[i]) && Active(bookings[j]);
    }
  }

  /** Status changes never move money: revenue is the same before and after. */
  lemma {:induction false} SetStatusKeepsSumPrices(bookings: seq<Booking>, id: int, s: BookingStatus)
    requires 1 <= id <= |bookings|
    ensures SumPrices(SetStatus(bookings, id, s)) == SumPrices(bookings)
  {
    var n := |bookings|;
    var r := SetStatus(bookings, id, s);
    if id == n {
      assert r[..n - 1] == bookings[..n - 1];
    } else {
      assert r[..n - 1] == SetStatus(bookings[..n - 1], id, s);
      SetStatusKeepsSumPrices(bookings[..n - 1], id, s);
    }
  }

  /** The database context: the Bookings and Payments tables. */
  class BookifyDb {
    var bookings: seq<Booking>
    var payments: seq<Payment>

    /** The tables are consistent. No double booking is not part of it: paying
        for a Cancelled booking can break it (see PaymentController). */
    ghost predicate Valid()
      reads this
    {
      TablesConsistent(bookings, payments)
    }

    constructor ()
      ensures Valid() && NoDoubleBooking(bookings) && bookings == [] && payments == []
    {
      bookings := [];
      payments := [];
    }
  }
}
