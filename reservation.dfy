/** The reservation page script: the list of rooms taken over from the cart,
    choosing one to book and removing entries. */
module Reservation {
  import opened Wrappers
  import opened Cart

  /** The badge renderReservation leaves behind. An empty list returns early,
      before updateCartCountFromReservation runs, so the badge is not touched. */
  function RenderedBadge(rooms: seq<CartItem>, shown: Badge): (b: Badge)
    ensures rooms != [] ==> b == CountBadge(rooms)
    ensures rooms == [] ==> b == shown
  {
    if |rooms| == 0 then shown else CountBadge(rooms)
  }

  /** As written, removing the last room leaves the badge showing one room. */
  lemma RemovingLastRoomLeavesStaleBadge(room: CartItem)
    ensures var rooms := RemoveAt([room], 0);
      && rooms == []
      && RenderedBadge(rooms, CountBadge([room])) == Badge(1, true)
      && RenderedBadge(rooms, CountBadge([room])) != CountBadge(rooms)
  {
  }

  /** The evidently intended render: the badge is refreshed for every list,
      the empty one included. */
  function IntendedRenderedBadge(rooms: seq<CartItem>, shown: Badge): (b: Badge)
    ensures b.visible <==> rooms != []
    ensures b.count == |rooms|
  {
    CountBadge(rooms)
  }

  /** The reservation page. `reservationRooms` is the page's list, `stored` the
      `reservationRooms` entry of local storage, `selectedRoom` the
      `selectedRoom` entry, and `badge` the cart badge. Rendering is
      `RenderedBadge`, as written. */
  class ReservationPage {
    var reservationRooms: seq<CartItem>
    var stored: seq<CartItem>
    var selectedRoom: Option<CartItem>
    var badge: Badge

    /** The list is what storage holds, and while it is not empty the badge
        counts it (an empty list leaves whatever badge was shown). */
    ghost predicate Valid()
      reads this
    {
      stored == reservationRooms && (reservationRooms != [] ==> badge == CountBadge(reservationRooms))
    }

    /** Page load: the list is read from storage and rendered. */
    constructor (saved: seq<CartItem>, shown: Badge)
      ensures Valid()
      ensures reservationRooms == saved && selectedRoom == None
      ensures badge == RenderedBadge(saved, shown)
    {
      reservationRooms := saved;
      stored := saved;
      selectedRoom := None;
      badge := RenderedBadge(saved, shown);
    }

    /** updateCartCountFromReservation. */
    method UpdateCartCountFromReservation()
      modifies this
      ensures badge == CountBadge(reservationRooms)
      ensures reservationRooms == old(reservationRooms) && stored == old(stored) && selectedRoom == old(selectedRoom)
    {
      badge := CountBadge(reservationRooms);
    }

    /** bookNow: an index outside the list does nothing; otherwise that room is
        saved as the selected room and the page moves on to booking. */
    method BookNow(index: int) returns (navigate: bool)
      requires Valid()
      modifies this
      ensures Valid()
      ensures navigate <==> 0 <= index < |old(reservationRooms)|
      ensures navigate ==> selectedRoom == Some(old(reservationRooms)[index])
      ensures !navigate ==> selectedRoom == old(selectedRoom)
      ensures reservationRooms == old(reservationRooms) && stored == old(stored) && badge == old(badge)
    {
      if index < 0 || index >= |reservationRooms| {
        return false;
      }
      var room := reservationRooms[index];
      selectedRoom := Some(room);
      navigate := true;
    }

    /** removeReservation: an index outside the list does nothing; otherwise
        exactly that room is removed, the list saved and the page re-rendered. */
    method RemoveReservation(index: int)
      requires Valid()
      modifies this
      ensures Valid()
      ensures 0 <= index < |old(reservationRooms)| ==>
        && reservationRooms == RemoveAt(old(reservationRooms), index)
        && badge == RenderedBadge(reservationRooms, old(badge))
      ensures !(0 <= index < |old(reservationRooms)|) ==>
        reservationRooms == old(reservationRooms) && stored == old(stored) && badge == old(badge)
      ensures selectedRoom == old(selectedRoom)
      ensures DistinctRoomIds(old(reservationRooms)) ==> DistinctRoomIds(reservationRooms)
    {
      if index < 0 || index >= |reservationRooms| {
        return;
      }
      if DistinctRoomIds(reservationRooms) {
        RemoveKeepsDistinct(reservationRooms, index);
      }
      reservationRooms := RemoveAt(reservationRooms, index);
      stored := reservationRooms;
      badge := RenderedBadge(reservationRooms, badge);
    }
  }
}
