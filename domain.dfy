/** The entities the controllers work on (Booking.cs, Payment.cs, the Room and
    RoomType records of the database context), with dates as day numbers,
    timestamps as integers and money as integer cents. */
module Domain {
  import opened Wrappers

  /** A calendar date as a day number; `checkOut - checkIn` is the night count. */
  type Day = int
  /** A point in time (`DateTime.Now`), only ever compared or stored. */
  type Timestamp = int
  /** An amount of money in cents (the source's `decimal(18,2)`). */
  type Cents = int

  datatype BookingStatus = Pending | Confirmed | Cancelled | Completed

  datatype Booking = Booking(
    id: int,
    roomId: int,
    userId: string,
    checkIn: Day,
    checkOut: Day,
    price: Cents,
    status: BookingStatus,
    createdAt: Timestamp)

  datatype RoomType = RoomType(name: string, description: string, area: int, guests: int, basePrice: Cents)

  /** A room; `roomType` is `None` when the room's type navigation is null. */
  datatype Room = Room(
    id: int,
    roomNumber: string,
    floor: int,
    isAvailable: bool,
    imageUrl: string,
    roomType: Option<RoomType>,
    amenities: seq<string>)

  datatype User = User(fullName: Option<string>, email: Option<string>, userName: Option<string>)

  /** `TXN-{yyyyMMddHHmmss}-{id}`, kept as its two ingredients. */
  datatype TransactionId = TransactionId(stamp: Timestamp, bookingId: int)

  datatype Payment = Payment(
    bookingId: int,
    amount: Cents,
    paymentMethod: string,
    paidAt: Timestamp,
    transactionId: TransactionId,
    status: string)

  /** A booking that still holds its room: everything but Cancelled. */
  predicate Active(b: Booking) {
    b.status != Cancelled
  }

  /** Booking ids are the identity column: the booking at position k has id k + 1. */
  predicate IdsArePositions(bookings: seq<Booking>) {
    forall k :: 0 <= k < |bookings| ==> bookings[k].id == k + 1
  }

  /** `Bookings.Get(id)`, i.e. `FirstOrDefault(b => b.Id == id)` on the table. */
  function GetBooking(bookings: seq<Booking>, id: int): (r: Option<Booking>)
    ensures r.Some? ==> 1 <= id <= |bookings| && r.value == bookings[id - 1]
    ensures IdsArePositions(bookings) ==>
      (r.None? <==> forall k :: 0 <= k < |bookings| ==> bookings[k].id != id)
    ensures IdsArePositions(bookings) && r.Some? ==> r.value.id == id
  {
    if 1 <= id <= |bookings| then Some(bookings[id - 1]) else None
  }

  /** `Rooms...FirstOrDefault(r => r.Id == id)`: a room with that id, if any. */
  function FindRoom(rooms: seq<Room>, id: int): (r: Option<Room>)
    ensures r.None? <==> forall k :: 0 <= k < |rooms| ==> rooms[k].id != id
    ensures r.Some? ==> r.value in rooms && r.value.id == id
  {
    if rooms == [] then None
    else if rooms[0].id == id then Some(rooms[0])
    else FindRoom(rooms[1..], id)
  }

  /** `Payments.GetByBookingId(id) != null`. */
  predicate HasPayment(payments: seq<Payment>, bookingId: int) {
    exists k :: 0 <= k < |payments| && payments[k].bookingId == bookingId
  }

  /** The table with one booking's status overwritten, as `booking.Status = s;
      Update(booking)` leaves it: every other booking and field is as before. */
  function SetStatus(bookings: seq<Booking>, id: int, s: BookingStatus): (r: seq<Booking>)
    requires 1 <= id <= |bookings|
    ensures |r| == |bookings|
    ensures r[id - 1] == bookings[id - 1].(status := s)
    ensures forall k :: 0 <= k < |bookings| && k != id - 1 ==> r[k] == bookings[k]
  {
    bookings[id - 1 := bookings[id - 1].(status := s)]
  }

  /** Sum of booking prices, in table order (`Sum(b => b.Price)`). */
  function SumPrices(bookings: seq<Booking>): Cents
  {
    if bookings == [] then 0 else SumPrices(bookings[..|bookings| - 1]) + bookings[|bookings| - 1].price
  }
}
