/** The availability test and the price rule of BookController.CreateBooking. */
module Availability {
  import opened Domain

  /** The date part of the existing-bookings query, written as the source writes it:
      the existing stay [bIn, bOut) against the requested stay [mIn, mOut). */
  predicate ThreeClauseOverlap(bIn: Day, bOut: Day, mIn: Day, mOut: Day) {
    || (bIn <= mIn && bOut > mIn)
    || (bIn < mOut && bOut >= mOut)
    || (bIn >= mIn && bOut <= mOut)
  }

  /** Two stays share a night: check-in inclusive, check-out exclusive. */
  predicate HalfOpenOverlap(aIn: Day, aOut: Day, bIn: Day, bOut: Day) {
    aIn < bOut && bIn < aOut
  }

  /** For stays of at least one night, the source's three clauses are exactly the
      half-open overlap test. */
  lemma ThreeClauseIsHalfOpen(bIn: Day, bOut: Day, mIn: Day, mOut: Day)
    requires bIn < bOut && mIn < mOut
    ensures ThreeClauseOverlap(bIn, bOut, mIn, mOut) <==> HalfOpenOverlap(bIn, bOut, mIn, mOut)
  {
  }

  /** The non-empty hypothesis is needed: a zero-night stay on the requested
      check-in day satisfies the third clause without sharing any night. */
  lemma ThreeClauseBlocksZeroNightStay()
    ensures ThreeClauseOverlap(3, 3, 3, 5) && !HalfOpenOverlap(3, 3, 3, 5)
  {
  }

  /** Same-day turnover: arriving on an existing stay's check-out day is allowed. */
  lemma ArrivalOnCheckOutDayIsFree(bIn: Day, bOut: Day, mIn: Day, mOut: Day)
    requires bIn < bOut && mIn < mOut && mIn == bOut
    ensures !ThreeClauseOverlap(bIn, bOut, mIn, mOut)
  {
  }

  /** Leaving on an existing stay's check-in day is allowed. */
  lemma DepartureOnCheckInDayIsFree(bIn: Day, bOut: Day, mIn: Day, mOut: Day)
    requires bIn < bOut && mIn < mOut && mOut == bIn
    ensures !ThreeClauseOverlap(bIn, bOut, mIn, mOut)
  {
  }

  /** Two stays that start on the same day always collide. */
  lemma SameCheckInIsBlocked(bIn: Day, bOut: Day, mIn: Day, mOut: Day)
    requires bIn < bOut && mIn < mOut && mIn == bIn
    ensures ThreeClauseOverlap(bIn, bOut, mIn, mOut)
  {
  }

  /** The whole `Where` predicate of the existing-bookings query. */
  predicate Blocks(b: Booking, roomId: int, checkIn: Day, checkOut: Day) {
    b.roomId == roomId && b.status != Cancelled
    && ThreeClauseOverlap(b.checkIn, b.checkOut, checkIn, checkOut)
  }

  /** `GetAll().Where(...).ToList()`: the bookings that block the request, in table order. */
  function BlockingBookings(bookings: seq<Booking>, roomId: int, checkIn: Day, checkOut: Day): (r: seq<Booking>)
    ensures |r| <= |bookings|
    ensures forall b :: b in r <==> b in bookings && Blocks(b, roomId, checkIn, checkOut)
    ensures forall b :: multiset(r)[b] == if Blocks(b, roomId, checkIn, checkOut) then multiset(bookings)[b] else 0
  {
    if bookings == [] then []
    else
      var rest := BlockingBookings(bookings[1..], roomId, checkIn, checkOut);
      assert bookings == [bookings[0]] + bookings[1..];
      if Blocks(bookings[0], roomId, checkIn, checkOut) then [bookings[0]] + rest else rest
  }

  /** Every stored stay has at least one night (the invariant CreateBooking keeps). */
  predicate StaysNonEmpty(bookings: seq<Booking>) {
    forall k :: 0 <= k < |bookings| ==> bookings[k].checkIn < bookings[k].checkOut
  }

  /** Over well-formed stays, the query finds nothing exactly when no active
      booking of the same room shares a night with the request. Bookings of other
      rooms and cancelled bookings therefore never block. */
  lemma {:induction false} NothingBlocksIffNoActiveOverlap(bookings: seq<Booking>, roomId: int, checkIn: Day, checkOut: Day)
    requires StaysNonEmpty(bookings) && checkIn < checkOut
    ensures BlockingBookings(bookings, roomId, checkIn, checkOut) == [] <==>
      forall k :: 0 <= k < |bookings| && bookings[k].roomId == roomId && Active(bookings[k]) ==>
        !HalfOpenOverlap(bookings[k].checkIn, bookings[k].checkOut, checkIn, checkOut)
  {
    var r := BlockingBookings(bookings, roomId, checkIn, checkOut);
    forall k | 0 <= k < |bookings|
      ensures Blocks(bookings[k], roomId, checkIn, checkOut) <==>
        bookings[k].roomId == roomId && Active(bookings[k])
        && HalfOpenOverlap(bookings[k].checkIn, bookings[k].checkOut, checkIn, checkOut)
    {
      ThreeClauseIsHalfOpen(bookings[k].checkIn, bookings[k].checkOut, checkIn, checkOut);
    }
    if r != [] {
      assert r[0] in bookings;
    }
  }

  /** `(checkOut - checkIn).Days` on whole dates. */
  function Nights(checkIn: Day, checkOut: Day): int {
    checkOut - checkIn
  }

  /** `nights * room.RoomType.BasePrice`, exact (no rounding). */
  function StayPrice(nights: int, basePrice: Cents): Cents {
    nights * basePrice
  }

  /** Pricing is additive over consecutive stays: booking [a, c) costs what
      [a, b) and [b, c) cost together, so a stay twice as long costs twice as much. */
  lemma StayPriceIsAdditive(a: Day, b: Day, c: Day, basePrice: Cents)
    requires a <= b <= c
    ensures StayPrice(Nights(a, c), basePrice)
      == StayPrice(Nights(a, b), basePrice) + StayPrice(Nights(b, c), basePrice)
    ensures Nights(a, c) == 2 * Nights(a, b) ==>
      StayPrice(Nights(a, c), basePrice) == 2 * StayPrice(Nights(a, b), basePrice)
  {
    calc {
      StayPrice(Nights(a, c), basePrice);
      (c - a) * basePrice;
      { assert c - a == (b - a) + (c - b); }
      ((b - a) + (c - b)) * basePrice;
      (b - a) * basePrice + (c - b) * basePrice;
    }
  }
}
