/** The reservation cart the three client scripts share through the
    `reservationRooms` storage key: a sequence of room records. */
module Cart {
  import opened Wrappers

  /** The room fields the pages copy into the cart. Prices and areas, floats
      in the scripts, are integers (cents and square metres). */
  datatype RoomData = RoomData(
    roomId: int,
    roomTypeName: string,
    roomDescription: string,
    imageUrl: string,
    basePrice: int,
    guests: int,
    area: int,
    floor: int)

  /** A cart entry; the listing page stamps `addedAt`, the details page does not. */
  datatype CartItem = CartItem(room: RoomData, addedAt: Option<int>)

  predicate HasRoom(cart: seq<CartItem>, roomId: int) {
    exists i :: 0 <= i < |cart| && cart[i].room.roomId == roomId
  }

  /** `findIndex(item => item.roomId === roomId)`: the first position holding the
      room, or -1. */
  function FindIndex(cart: seq<CartItem>, roomId: int): (r: int)
    ensures r == -1 <==> !HasRoom(cart, roomId)
    ensures r != -1 ==> 0 <= r < |cart| && cart[r].room.roomId == roomId
    ensures r != -1 ==> forall j :: 0 <= j < r ==> cart[j].room.roomId != roomId
  {
    if cart == [] then -1
    else if cart[0].room.roomId == roomId then 0
    else
      var k := FindIndex(cart[1..], roomId);
      assert forall i :: 1 <= i < |cart| ==> cart[i] == cart[1..][i - 1];
      if k == -1 then -1 else k + 1
  }

  /** No room appears twice. */
  predicate DistinctRoomIds(cart: seq<CartItem>) {
    forall i, j :: 0 <= i < j < |cart| ==> cart[i].room.roomId != cart[j].room.roomId
  }

  /** `splice(index, 1)`: the element at `index` is gone, the others keep their order. */
  function RemoveAt<T>(s: seq<T>, index: int): (r: seq<T>)
    requires 0 <= index < |s|
    ensures |r| == |s| - 1
    ensures forall k :: 0 <= k < index ==> r[k] == s[k]
    ensures forall k :: index <= k < |r| ==> r[k] == s[k + 1]
    ensures multiset(r) + multiset{s[index]} == multiset(s)
  {
    assert s == s[..index] + [s[index]] + s[index + 1..];
    s[..index] + s[index + 1..]
  }

  /** Appending a room the cart does not hold keeps the ids distinct. */
  lemma {:induction false} AppendKeepsDistinct(cart: seq<CartItem>, item: CartItem)
    requires DistinctRoomIds(cart) && !HasRoom(cart, item.room.roomId)
    ensures DistinctRoomIds(cart + [item])
  {
    var c := cart + [item];
    forall i, j | 0 <= i < j < |c| ensures c[i].room.roomId != c[j].room.roomId
    {
      if j == |cart| {
        assert c[i] == cart[i];
      } else {
        assert c[i] == cart[i] && c[j] == cart[j];
      }
    }
  }

  /** Removing an entry keeps the ids distinct. */
  lemma RemoveKeepsDistinct(cart: seq<CartItem>, index: int)
    requires DistinctRoomIds(cart) && 0 <= index < |cart|
    ensures DistinctRoomIds(RemoveAt(cart, index))
  {
    var r := RemoveAt(cart, index);
    forall i, j | 0 <= i < j < |r| ensures r[i].room.roomId != r[j].room.roomId
    {
      var i' := if i < index then i else i + 1;
      var j' := if j < index then j else j + 1;
      assert r[i] == cart[i'] && r[j] == cart[j'];
    }
  }

  /** `reduce((sum, room) => sum + room.basePrice, 0)`, summed left to right. */
  function Total(cart: seq<CartItem>): int
  {
    if cart == [] then 0 else Total(cart[..|cart| - 1]) + cart[|cart| - 1].room.basePrice
  }

  /** The total of two carts laid end to end is the sum of their totals. */
  lemma {:induction false} TotalConcat(a: seq<CartItem>, b: seq<CartItem>)
    ensures Total(a + b) == Total(a) + Total(b)
    decreases |b|
  {
    if b == [] {
      assert a + b == a;
    } else {
      assert (a + b)[..|a + b| - 1] == a + b[..|b| - 1];
      TotalConcat(a, b[..|b| - 1]);
    }
  }

  /** Adding a room adds its price to the total. */
  lemma TotalAppend(cart: seq<CartItem>, item: CartItem)
    ensures Total(cart + [item]) == Total(cart) + item.room.basePrice
  {
    assert (cart + [item])[..|cart|] == cart;
  }

  /** Removing an entry takes exactly its price off the total. */
  lemma {:induction false} TotalRemoveAt(cart: seq<CartItem>, index: int)
    requires 0 <= index < |cart|
    ensures Total(RemoveAt(cart, index)) == Total(cart) - cart[index].room.basePrice
  {
    var front := cart[..index];
    var back := cart[index + 1..];
    assert cart == (front + [cart[index]]) + back;
    assert RemoveAt(cart, index) == front + back;
    TotalConcat(front + [cart[index]], back);
    TotalConcat(front, back);
    TotalAppend(front, cart[index]);
  }

  /** The cart total is the sum of the base prices, whatever order the rooms
      were added in: it is a function of the multiset of entries. */
  lemma {:induction false} TotalIsOrderFree(a: seq<CartItem>, b: seq<CartItem>)
    requires multiset(a) == multiset(b)
    ensures Total(a) == Total(b)
    decreases |a|
  {
    if a != [] {
      var x := a[|a| - 1];
      assert x in multiset(b);
      var k :| 0 <= k < |b| && b[k] == x;
      var a' := a[..|a| - 1];
      assert a == a' + [x];
      assert multiset(a') + multiset{x} == multiset(a);
      assert multiset(RemoveAt(b, k)) + multiset{x} == multiset(b);
      assert multiset(a') == multiset(a) - multiset{x};
      assert multiset(RemoveAt(b, k)) == multiset(b) - multiset{x};
      TotalIsOrderFree(a', RemoveAt(b, k));
      TotalRemoveAt(b, k);
      TotalAppend(a', x);
    } else {
      assert b == [];
    }
  }

  /** The cart badge: its number and whether the cart icon is shown. */
  datatype Badge = Badge(count: int, visible: bool)

  /** updateCartCount (listing page) and updateCartCountFromReservation: the
      badge shows the length and is visible exactly when the cart is not empty. */
  function CountBadge(cart: seq<CartItem>): (b: Badge)
    ensures b.visible <==> cart != []
    ensures b.count == |cart|
  {
    Badge(|cart|, |cart| > 0)
  }
}
