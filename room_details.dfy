/** The room details page script: it reads the cart from storage, changes it
    and writes it back on every action, and keeps the cart badge in step. */
module RoomDetails {
  import opened Wrappers
  import opened Cart

  /** updateCartDisplay: with rooms in the cart the badge shows their number and
      the cart icon is shown; with none the icon is hidden and the number is
      left as it was. */
  function CartDisplay(cart: seq<CartItem>, shown: Badge): (b: Badge)
    ensures b.visible <==> cart != []
    ensures cart != [] ==> b.count == |cart|
    ensures cart == [] ==> b.count == shown.count
  {
    if |cart| > 0 then Badge(|cart|, true) else shown.(visible := false)
  }

  /** Whenever the badge is visible, this page and the listing page show the
      same badge for the same cart. */
  lemma CartDisplayAgreesWithCountBadge(cart: seq<CartItem>, shown: Badge)
    ensures CartDisplay(cart, shown).visible == CountBadge(cart).visible
    ensures cart != [] ==> CartDisplay(cart, shown) == CountBadge(cart)
  {
  }

  datatype AddOutcome = NoRoomData | AlreadyInCart | Added

  /** The details page. `stored` is the `reservationRooms` entry of local
      storage, `badge` the cart badge. */
  class RoomDetailsPage {
    var stored: seq<CartItem>
    var badge: Badge

    /** Page load: a non-empty saved cart sets the badge to its number of rooms
        and shows the cart icon; an empty one leaves the badge as the markup has it. */
    constructor (saved: seq<CartItem>, shown: Badge)
      ensures stored == saved
      ensures badge == (if saved != [] then CartDisplay(saved, shown) else shown)
      ensures saved != [] ==> badge == CountBadge(saved)
    {
      stored := saved;
      if |saved| > 0 {
        badge := Badge(|saved|, true);
      } else {
        badge := shown;
      }
    }

    /** addToCart: without room data nothing happens; a room already in the
        cart is refused; otherwise the room is appended and saved. */
    method AddToCart(current: Option<RoomData>) returns (outcome: AddOutcome)
      modifies this
      ensures current.None? ==> outcome == NoRoomData
      ensures current.Some? && HasRoom(old(stored), current.value.roomId) ==> outcome == AlreadyInCart
      ensures outcome == Added <==> current.Some? && !HasRoom(old(stored), current.value.roomId)
      ensures outcome == Added ==>
        stored == old(stored) + [CartItem(current.value, None)] && badge == CartDisplay(stored, old(badge))
      ensures outcome != Added ==> stored == old(stored) && badge == old(badge)
      ensures DistinctRoomIds(old(stored)) ==> DistinctRoomIds(stored)
      ensures outcome == Added ==> badge.visible && badge.count == |old(stored)| + 1
    {
      if current.None? {
        return NoRoomData;
      }
      var roomData := current.value;
      var cart := stored;
      var existingIndex := FindIndex(cart, roomData.roomId);
      if existingIndex == -1 {
        var item := CartItem(roomData, None);
        if DistinctRoomIds(cart) {
          AppendKeepsDistinct(cart, item);
        }
        cart := cart + [item];
        stored := cart;
        badge := CartDisplay(stored, badge);
        outcome := Added;
      } else {
        outcome := AlreadyInCart;
      }
    }

    /** removeFromCart: an index outside the cart is ignored; otherwise exactly
        that entry is removed and the cart saved. */
    method RemoveFromCart(index: int)
      modifies this
      ensures 0 <= index < |old(stored)| ==>
        stored == RemoveAt(old(stored), index) && badge == CartDisplay(stored, old(badge))
      ensures !(0 <= index < |old(stored)|) ==> stored == old(stored) && badge == old(badge)
      ensures DistinctRoomIds(old(stored)) ==> DistinctRoomIds(stored)
      ensures 0 <= index < |old(stored)| ==> Total(stored) == Total(old(stored)) - old(stored)[index].room.basePrice
    {
      var cart := stored;
      if index >= 0 && index < |cart| {
        if DistinctRoomIds(cart) {
          RemoveKeepsDistinct(cart, index);
        }
        TotalRemoveAt(cart, index);
        cart := RemoveAt(cart, index);
        stored := cart;
        badge := CartDisplay(stored, badge);
      }
    }

    /** goToReservation: navigates only when the stored cart is not empty. */
    method GoToReservation() returns (navigate: bool)
      ensures navigate <==> stored != []
    {
      var cart := stored;
      navigate := |cart| > 0;
    }
  }
}
