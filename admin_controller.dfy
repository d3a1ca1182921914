/** AdminController: dashboard statistics, the JSON listings of rooms and
    bookings, and the administrator's unconditional cancel. */
module AdminController {
  import opened Wrappers
  import opened Domain
  import opened Database

  datatype DashboardStats = DashboardStats(totalBookings: nat, totalRevenue: Cents, totalRooms: nat, totalRoomTypes: nat)

  /** The bookings of one status, in table order. */
  function WithStatus(bookings: seq<Booking>, s: BookingStatus): (r: seq<Booking>)
    ensures |r| <= |bookings|
    ensures forall b :: b in r <==> b in bookings && b.status == s
  {
    if bookings == [] then []
    else
      var last := bookings[|bookings| - 1];
      assert bookings == bookings[..|bookings| - 1] + [last];
      WithStatus(bookings[..|bookings| - 1], s) + (if last.status == s then [last] else [])
  }

  /** The filter drops no duplicate: each booking with the status appears in the
      result exactly as often as in the table. */
  lemma {:induction false} WithStatusKeepsMultiplicity(bookings: seq<Booking>, s: BookingStatus)
    ensures forall b :: multiset(WithStatus(bookings, s))[b] == if b.status == s then multiset(bookings)[b] else 0
    decreases |bookings|
  {
    if bookings != [] {
      var init := bookings[..|bookings| - 1];
      var last := bookings[|bookings| - 1];
      assert bookings == init + [last];
      WithStatusKeepsMultiplicity(init, s);
    }
  }

  /** Index: the dashboard's four figures. Revenue is the plain sum of every
      stored booking's price. */
  function Dashboard(bookings: seq<Booking>, rooms: seq<Room>, roomTypes: seq<RoomType>): (d: DashboardStats)
    ensures d.totalBookings == |WithStatus(bookings, Pending)| + |WithStatus(bookings, Confirmed)|
                             + |WithStatus(bookings, Cancelled)| + |WithStatus(bookings, Completed)|
    ensures d.totalRevenue == SumPrices(WithStatus(bookings, Pending)) + SumPrices(WithStatus(bookings, Confirmed))
                            + SumPrices(WithStatus(bookings, Cancelled)) + SumPrices(WithStatus(bookings, Completed))
    ensures d.totalRooms == |rooms| && d.totalRoomTypes == |roomTypes|
  {
    RevenueCountsEveryStatus(bookings);
    DashboardStats(|bookings|, SumPrices(bookings), |rooms|, |roomTypes|)
  }

  /** The dashboard's count and revenue split over the four statuses: Cancelled
      bookings are counted and their prices are part of the revenue. */
  lemma {:induction false} RevenueCountsEveryStatus(bookings: seq<Booking>)
    ensures |bookings| == |WithStatus(bookings, Pending)| + |WithStatus(bookings, Confirmed)|
                        + |WithStatus(bookings, Cancelled)| + |WithStatus(bookings, Completed)|
    ensures SumPrices(bookings) == SumPrices(WithStatus(bookings, Pending)) + SumPrices(WithStatus(bookings, Confirmed))
                                 + SumPrices(WithStatus(bookings, Cancelled)) + SumPrices(WithStatus(bookings, Completed))
    decreases |bookings|
  {
    if bookings != [] {
      var init := bookings[..|bookings| - 1];
      var last := bookings[|bookings| - 1];
      RevenueCountsEveryStatus(init);
      WithStatusSnoc(bookings, Pending);
      WithStatusSnoc(bookings, Confirmed);
      WithStatusSnoc(bookings, Cancelled);
      WithStatusSnoc(bookings, Completed);
    }
  }

  /** Filtering a table with one more booking at its end: the count and the
      revenue grow by that booking when it has the status. */
  lemma WithStatusSnoc(bookings: seq<Booking>, s: BookingStatus)
    requires bookings != []
    ensures var init := bookings[..|bookings| - 1]; var last := bookings[|bookings| - 1];
      && |WithStatus(bookings, s)| == |WithStatus(init, s)| + (if last.status == s then 1 else 0)
      && SumPrices(WithStatus(bookings, s)) == SumPrices(WithStatus(init, s)) + (if last.status == s then last.price else 0)
  {
    var init := bookings[..|bookings| - 1];
    var last := bookings[|bookings| - 1];
    var tail := if last.status == s then [last] else [];
    assert WithStatus(bookings, s) == WithStatus(init, s) + tail;
    SumPricesAppend(WithStatus(init, s), tail);
  }

  /** The sum of a concatenation is the sum of the parts. */
  lemma {:induction false} SumPricesAppend(a: seq<Booking>, b: seq<Booking>)
    ensures SumPrices(a + b) == SumPrices(a) + SumPrices(b)
    decreases |b|
  {
    if b == [] {
      assert a + b == a;
    } else {
      var init := b[..|b| - 1];
      assert (a + b)[..|a + b| - 1] == a + init;
      SumPricesAppend(a, init);
    }
  }

  datatype AdminCancelError = BookingNotFound

  /** CancelBooking (Admin): any existing booking becomes Cancelled, whatever its
      status, with no owner check. */
  function AdminCancel(bookings: seq<Booking>, id: int): (r: Result<seq<Booking>, AdminCancelError>)
    ensures r.Failure? <==> GetBooking(bookings, id).None?
    ensures r.Success? ==> r.value == SetStatus(bookings, id, Cancelled)
  {
    match GetBooking(bookings, id)
    case None => Failure(BookingNotFound)
    case Some(_) => Success(SetStatus(bookings, id, Cancelled))
  }

  /** Unlike the user's cancel, the administrator's cancel can be repeated: the
      second one succeeds and changes nothing. */
  lemma AdminCancelIsIdempotent(bookings: seq<Booking>, id: int)
    requires AdminCancel(bookings, id).Success?
    ensures AdminCancel(AdminCancel(bookings, id).value, id) == AdminCancel(bookings, id)
  {
    var once := SetStatus(bookings, id, Cancelled);
    assert SetStatus(once, id, Cancelled) == once;
  }

  /** The administrator's cancel keeps the dashboard figures: the booking is
      still counted and its price still counts as revenue. */
  lemma AdminCancelKeepsDashboard(bookings: seq<Booking>, rooms: seq<Room>, roomTypes: seq<RoomType>, id: int)
    requires AdminCancel(bookings, id).Success?
    ensures Dashboard(AdminCancel(bookings, id).value, rooms, roomTypes) == Dashboard(bookings, rooms, roomTypes)
  {
    SetStatusKeepsSumPrices(bookings, id, Cancelled);
  }

  /** The action: on success the booking is Cancelled and nothing else changes. */
  method AdminCancelBooking(db: BookifyDb, id: int) returns (r: Result<(), AdminCancelError>)
    requires db.Valid()
    modifies db
    ensures db.Valid()
    ensures db.payments == old(db.payments)
    ensures r.Failure? <==> AdminCancel(old(db.bookings), id).Failure?
    ensures r.Success? ==> db.bookings == AdminCancel(old(db.bookings), id).value
    ensures r.Failure? ==> db.bookings == old(db.bookings)
    ensures NoDoubleBooking(old(db.bookings)) ==> NoDoubleBooking(db.bookings)
  {
    var booking := GetBooking(db.bookings, id);
    if booking.None? {
      return Failure(BookingNotFound);
    }
    SetStatusKeepsConsistency(db.bookings, db.payments, id, Cancelled);
    if NoDoubleBooking(db.bookings) {
      CancellingKeepsNoDoubleBooking(db.bookings, id);
    }
    db.bookings := SetStatus(db.bookings, id, Cancelled);
    r := Success(());
  }

  datatype RoomRow = RoomRow(id: int, roomNumber: string, floor: int, roomType: string,
                             basePrice: Cents, isAvailable: bool, imageUrl: string)

  /** GetRooms: one row per room, in order; a room without a type shows "N/A"
      and a base price of 0. */
  function RoomRows(rooms: seq<Room>): (r: seq<RoomRow>)
    ensures |r| == |rooms|
    ensures forall i :: 0 <= i < |rooms| ==>
      && r[i].id == rooms[i].id && r[i].roomNumber == rooms[i].roomNumber
      && r[i].floor == rooms[i].floor && r[i].imageUrl == rooms[i].imageUrl
      && r[i].isAvailable == rooms[i].isAvailable
      && (rooms[i].roomType.None? ==> r[i].roomType == "N/A" && r[i].basePrice == 0)
      && (rooms[i].roomType.Some? ==>
            r[i].roomType == rooms[i].roomType.value.name && r[i].basePrice == rooms[i].roomType.value.basePrice)
  {
    if rooms == [] then []
    else
      var room := rooms[0];
      [RoomRow(room.id, room.roomNumber, room.floor,
               if room.roomType.Some? then room.roomType.value.name else "N/A",
               if room.roomType.Some? then room.roomType.value.basePrice else 0,
               room.isAvailable, room.imageUrl)]
      + RoomRows(rooms[1..])
  }

  datatype BookingRow = BookingRow(id: int, customerName: string, roomNumber: string,
                                   checkIn: Day, checkOut: Day, price: Cents,
                                   status: BookingStatus, createdAt: Timestamp)

  /** The customer's name, or "N/A" when the user or the name is missing. */
  function CustomerName(users: map<string, User>, b: Booking): string {
    if b.userId in users && users[b.userId].fullName.Some? then users[b.userId].fullName.value else "N/A"
  }

  /** GetBookings: one row per booking, in order, with "N/A" for a missing
      customer name or room. */
  function BookingRows(bookings: seq<Booking>, rooms: seq<Room>, users: map<string, User>): (r: seq<BookingRow>)
    ensures |r| == |bookings|
    ensures forall i :: 0 <= i < |bookings| ==>
      && r[i].id == bookings[i].id && r[i].price == bookings[i].price && r[i].status == bookings[i].status
      && r[i].checkIn == bookings[i].checkIn && r[i].checkOut == bookings[i].checkOut
      && (FindRoom(rooms, bookings[i].roomId).None? ==> r[i].roomNumber == "N/A")
      && (FindRoom(rooms, bookings[i].roomId).Some? ==>
            r[i].roomNumber == FindRoom(rooms, bookings[i].roomId).value.roomNumber)
      && (bookings[i].userId in users && users[bookings[i].userId].fullName.Some? ==>
            r[i].customerName == users[bookings[i].userId].fullName.value)
      && (bookings[i].userId !in users || users[bookings[i].userId].fullName.None? ==> r[i].customerName == "N/A")
  {
    if bookings == [] then []
    else
      var b := bookings[0];
      var room := FindRoom(rooms, b.roomId);
      [BookingRow(b.id, CustomerName(users, b),
                  if room.Some? then room.value.roomNumber else "N/A",
                  b.checkIn, b.checkOut, b.price, b.status, b.createdAt)]
      + BookingRows(bookings[1..], rooms, users)
  }
}
