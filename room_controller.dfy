/** RoomController: the rooms listing with its price and guest ranges, and the
    details page of one room. */
module RoomController {
  import opened Wrappers
  import opened Domain

  /** RoomDetailsViewModel: a room flattened with its type; a room without a
      type shows empty text and zero numbers. */
  datatype RoomCard = RoomCard(
    roomId: int,
    floor: int,
    imageUrl: string,
    roomTypeName: string,
    roomDescription: string,
    area: int,
    guests: int,
    basePrice: Cents,
    amenities: seq<string>)

  function Card(room: Room): (c: RoomCard)
    ensures c.roomId == room.id && c.floor == room.floor && c.imageUrl == room.imageUrl
    ensures c.amenities == room.amenities
    ensures room.roomType.None? ==>
      c.roomTypeName == "" && c.roomDescription == "" && c.area == 0 && c.guests == 0 && c.basePrice == 0
    ensures room.roomType.Some? ==>
      && c.roomTypeName == room.roomType.value.name && c.roomDescription == room.roomType.value.description
      && c.area == room.roomType.value.area && c.guests == room.roomType.value.guests
      && c.basePrice == room.roomType.value.basePrice
  {
    match room.roomType
    case None => RoomCard(room.id, room.floor, room.imageUrl, "", "", 0, 0, 0, room.amenities)
    case Some(t) => RoomCard(room.id, room.floor, room.imageUrl, t.name, t.description, t.area, t.guests, t.basePrice, room.amenities)
  }

  function Cards(rooms: seq<Room>): (r: seq<RoomCard>)
    ensures |r| == |rooms|
    ensures forall i :: 0 <= i < |rooms| ==> r[i] == Card(rooms[i])
  {
    if rooms == [] then [] else [Card(rooms[0])] + Cards(rooms[1..])
  }

  /** The price a room contributes to the range: its type's base price, or 0. */
  function PriceKey(room: Room): Cents {
    if room.roomType.Some? then room.roomType.value.basePrice else 0
  }

  /** The guest count a room contributes to MaxGuests: its type's, or 1. */
  function GuestKey(room: Room): int {
    if room.roomType.Some? then room.roomType.value.guests else 1
  }

  function PriceKeys(rooms: seq<Room>): (r: seq<int>)
    ensures |r| == |rooms| && forall i :: 0 <= i < |rooms| ==> r[i] == PriceKey(rooms[i])
  {
    if rooms == [] then [] else [PriceKey(rooms[0])] + PriceKeys(rooms[1..])
  }

  function GuestKeys(rooms: seq<Room>): (r: seq<int>)
    ensures |r| == |rooms| && forall i :: 0 <= i < |rooms| ==> r[i] == GuestKey(rooms[i])
  {
    if rooms == [] then [] else [GuestKey(rooms[0])] + GuestKeys(rooms[1..])
  }

  /** `Min` over a non-empty sequence: a member that no member is below. */
  function MinOf(xs: seq<int>): (m: int)
    requires xs != []
    ensures m in xs
    ensures forall i :: 0 <= i < |xs| ==> m <= xs[i]
  {
    if |xs| == 1 then xs[0]
    else
      var rest := MinOf(xs[1..]);
      assert forall i :: 1 <= i < |xs| ==> xs[i] == xs[1..][i - 1];
      if xs[0] <= rest then xs[0] else rest
  }

  /** `Max` over a non-empty sequence: a member that no member is above. */
  function MaxOf(xs: seq<int>): (m: int)
    requires xs != []
    ensures m in xs
    ensures forall i :: 0 <= i < |xs| ==> xs[i] <= m
  {
    if |xs| == 1 then xs[0]
    else
      var rest := MaxOf(xs[1..]);
      assert forall i :: 1 <= i < |xs| ==> xs[i] == xs[1..][i - 1];
      if xs[0] >= rest then xs[0] else rest
  }

  /** `Select(rt => rt.Name).Distinct()`: each type name once. */
  function DistinctNames(roomTypes: seq<RoomType>): (r: seq<string>)
    ensures forall n :: n in r <==> exists k :: 0 <= k < |roomTypes| && roomTypes[k].name == n
    ensures forall i, j :: 0 <= i < j < |r| ==> r[i] != r[j]
  {
    if roomTypes == [] then []
    else
      var rest := DistinctNames(roomTypes[1..]);
      assert forall k :: 1 <= k < |roomTypes| ==> roomTypes[k] == roomTypes[1..][k - 1];
      if roomTypes[0].name in rest then rest else [roomTypes[0].name] + rest
  }

  datatype RoomIndex = RoomIndex(
    rooms: seq<RoomCard>,
    roomTypeNames: seq<string>,
    minPrice: Cents,
    maxPrice: Cents,
    maxGuests: int)

  /** Index. The query-string arguments are accepted and ignored. With no rooms
      `Min` and `Max` throw; that outcome is `None`. */
  function Index(rooms: seq<Room>, roomTypes: seq<RoomType>): (r: Option<RoomIndex>)
    ensures r.None? <==> rooms == []
    ensures r.Some? ==>
      && r.value.rooms == Cards(rooms)
      && r.value.roomTypeNames == DistinctNames(roomTypes)
      && (exists i :: 0 <= i < |rooms| && r.value.minPrice == PriceKey(rooms[i]))
      && (exists i :: 0 <= i < |rooms| && r.value.maxPrice == PriceKey(rooms[i]))
      && (exists i :: 0 <= i < |rooms| && r.value.maxGuests == GuestKey(rooms[i]))
      && (forall i :: 0 <= i < |rooms| ==>
            r.value.minPrice <= PriceKey(rooms[i]) <= r.value.maxPrice && GuestKey(rooms[i]) <= r.value.maxGuests)
  {
    if rooms == [] then None
    else
      var prices := PriceKeys(rooms);
      var guests := GuestKeys(rooms);
      Some(RoomIndex(Cards(rooms), DistinctNames(roomTypes), MinOf(prices), MaxOf(prices), MaxOf(guests)))
  }

  /** The price range covers every card on the page, and a room without a type
      lifts MaxGuests to at least 1 although its card shows 0 guests. */
  lemma {:induction false} IndexRangeCoversCards(rooms: seq<Room>, roomTypes: seq<RoomType>)
    requires rooms != []
    ensures var page := Index(rooms, roomTypes).value;
      && page.minPrice <= page.maxPrice
      && (forall c :: c in page.rooms ==> page.minPrice <= c.basePrice <= page.maxPrice)
      && (forall i :: 0 <= i < |rooms| && rooms[i].roomType.None? ==>
            page.rooms[i].guests == 0 && page.maxGuests >= 1)
  {
    var page := Index(rooms, roomTypes).value;
    assert page.minPrice <= PriceKey(rooms[0]) <= page.maxPrice;
    forall c | c in page.rooms ensures page.minPrice <= c.basePrice <= page.maxPrice
    {
      var i :| 0 <= i < |rooms| && page.rooms[i] == c;
      assert c.basePrice == PriceKey(rooms[i]);
    }
  }

  /** Details: NotFound (`None`) when no room has the id, else its card. */
  function Details(rooms: seq<Room>, id: int): (r: Option<RoomCard>)
    ensures r.None? <==> forall k :: 0 <= k < |rooms| ==> rooms[k].id != id
    ensures r.Some? ==> r.value.roomId == id && exists k :: 0 <= k < |rooms| && r.value == Card(rooms[k])
  {
    match FindRoom(rooms, id)
    case None => None
    case Some(room) => Some(Card(room))
  }

  /** A details page shows the same card as the listing does for that room. */
  lemma DetailsCardIsListed(rooms: seq<Room>, roomTypes: seq<RoomType>, id: int)
    requires Details(rooms, id).Some?
    ensures Index(rooms, roomTypes).Some?
    ensures Details(rooms, id).value in Index(rooms, roomTypes).value.rooms
  {
    var k :| 0 <= k < |rooms| && Details(rooms, id).value == Card(rooms[k]);
    assert Cards(rooms)[k] == Card(rooms[k]);
  }
}
