/** The rooms listing page script: the in-memory cart mirrored to storage,
    the client-side room filter and the query string it writes. */
module RoomsClientFilter {
  import opened Wrappers
  import opened Text
  import opened Cart

  /** `a` can be obtained from `b` by deleting elements: `a` keeps `b`'s order. */
  predicate Subseq<T(==)>(a: seq<T>, b: seq<T>)
    decreases |b|
  {
    a == [] || (b != [] && ((a[0] == b[0] && Subseq(a[1..], b[1..])) || Subseq(a, b[1..])))
  }

  lemma {:induction false} SubseqRefl<T>(s: seq<T>)
    ensures Subseq(s, s)
    decreases |s|
  {
    if s != [] {
      SubseqRefl(s[1..]);
    }
  }

  lemma {:induction false} SubseqTrans<T>(a: seq<T>, b: seq<T>, c: seq<T>)
    requires Subseq(a, b) && Subseq(b, c)
    ensures Subseq(a, c)
    decreases |c|
  {
    if a != [] {
      if Subseq(b, c[1..]) {
        SubseqTrans(a, b, c[1..]);
      } else if a[0] == b[0] && Subseq(a[1..], b[1..]) {
        SubseqTrans(a[1..], b[1..], c[1..]);
      } else {
        SubseqTrans(a, b[1..], c[1..]);
      }
    }
  }

  /** `Array.prototype.filter`: the elements that pass, in their order. */
  function Filter<T(==,!new)>(s: seq<T>, p: T -> bool): (r: seq<T>)
    ensures forall x :: x in r <==> x in s && p(x)
    ensures |r| <= |s|
    ensures Subseq(r, s)
    ensures forall x :: multiset(r)[x] == if p(x) then multiset(s)[x] else 0
  {
    if s == [] then []
    else
      var rest := Filter(s[1..], p);
      assert s == [s[0]] + s[1..];
      assert forall x :: x in s <==> x == s[0] || x in s[1..];
      if p(s[0]) then [s[0]] + rest else rest
  }

  /** `if (active) rooms = rooms.filter(p)`. */
  function FilterIf<T(==,!new)>(s: seq<T>, active: bool, p: T -> bool): (r: seq<T>)
    ensures forall x :: x in r <==> x in s && (active ==> p(x))
    ensures Subseq(r, s)
    ensures forall x :: multiset(r)[x] == if !active || p(x) then multiset(s)[x] else 0
  {
    if active then Filter(s, p) else SubseqRefl(s); s
  }

  /** The price slider: absent, or present with its value (`maxPrice` is then
      that value, and 0 switches the price criterion off). */
  datatype PriceInput = NoSlider | Slider(value: int)

  /** The raw values of the four filter inputs. */
  datatype FilterInputs = FilterInputs(searchInput: string, roomType: string, guests: string, price: PriceInput)

  /** The search text: the input lower-cased, then trimmed. */
  function SearchText(inputs: FilterInputs): string {
    Trim(Lower(inputs.searchInput))
  }

  predicate MatchesSearch(room: RoomData, q: string) {
    Includes(Lower(room.roomTypeName), q) || Includes(Lower(room.roomDescription), q)
  }

  predicate MatchesType(room: RoomData, roomType: string) {
    Lower(room.roomTypeName) == Lower(roomType)
  }

  /** `room.guests >= parseInt(guests)`; an unparsable value is NaN and every
      comparison with it is false. */
  predicate MatchesGuests(room: RoomData, guests: string) {
    ParseInt(guests).Some? && room.guests >= ParseInt(guests).value
  }

  predicate PriceActive(price: PriceInput) {
    price.Slider? && price.value != 0
  }

  /** `room.basePrice <= maxPrice`, for a slider that is present. */
  predicate MatchesPrice(room: RoomData, price: PriceInput) {
    price.Slider? ==> room.basePrice <= price.value
  }

  /** A room passes when it meets every active criterion. */
  predicate Matches(room: RoomData, inputs: FilterInputs) {
    && (SearchText(inputs) != [] ==> MatchesSearch(room, SearchText(inputs)))
    && (inputs.roomType != [] ==> MatchesType(room, inputs.roomType))
    && (inputs.guests != [] ==> MatchesGuests(room, inputs.guests))
    && (PriceActive(inputs.price) ==> MatchesPrice(room, inputs.price))
  }

  /** applyClientSideFilters: the rooms that meet every active criterion, in
      their original order. */
  function ApplyClientSideFilters(all: seq<RoomData>, inputs: FilterInputs): (r: seq<RoomData>)
    ensures forall room :: room in r <==> room in all && Matches(room, inputs)
    ensures Subseq(r, all)
  {
    var q := SearchText(inputs);
    var byText := FilterByText(all, q, inputs.roomType, inputs.guests);
    var byPrice := FilterByPrice(byText, inputs.price);
    SubseqTrans(byPrice, byText, all);
    byPrice
  }

  /** The search, room-type and guest steps, each applied only when its value
      is non-empty. */
  function FilterByText(all: seq<RoomData>, q: string, roomType: string, guests: string): (r: seq<RoomData>)
    ensures forall room :: room in r <==>
      && room in all
      && (q != [] ==> MatchesSearch(room, q))
      && (roomType != [] ==> MatchesType(room, roomType))
      && (guests != [] ==> MatchesGuests(room, guests))
    ensures Subseq(r, all)
  {
    var bySearch := FilterIf(all, q != [], room => MatchesSearch(room, q));
    var byType := FilterIf(bySearch, roomType != [], room => MatchesType(room, roomType));
    var byGuests := FilterIf(byType, guests != [], room => MatchesGuests(room, guests));
    SubseqTrans(byGuests, byType, bySearch);
    SubseqTrans(byGuests, bySearch, all);
    byGuests
  }

  /** The price step, applied only when the slider exists and is not at 0. */
  function FilterByPrice(rooms: seq<RoomData>, price: PriceInput): (r: seq<RoomData>)
    ensures forall room :: room in r <==> room in rooms && (PriceActive(price) ==> MatchesPrice(room, price))
    ensures Subseq(r, rooms)
    ensures !PriceActive(price) ==> r == rooms
  {
    FilterIf(rooms, PriceActive(price), room => MatchesPrice(room, price))
  }

  /** With every input empty and no slider, nothing is filtered out. */
  lemma NoCriteriaKeepsEveryRoom(all: seq<RoomData>)
    ensures ApplyClientSideFilters(all, FilterInputs("", "", "", NoSlider)) == all
  {
    var inputs := FilterInputs("", "", "", NoSlider);
    assert SearchText(inputs) == [];
  }

  /** The four query-string names: `searchText`, `roomType`, `guests`, `maxPrice`. */
  datatype ParamKey = SearchTextKey | RoomTypeKey | GuestsKey | MaxPriceKey

  /** A query-string value: a string, or the number `maxPrice` was set from
      (`Infinity` when there is no slider). */
  datatype ParamValue = Text(text: string) | Number(n: int) | Infinity

  function MaxPriceParam(price: PriceInput): ParamValue {
    if price.Slider? then Number(price.value) else Infinity
  }

  /** The position of each name in the order the parameters are set. */
  function Rank(key: ParamKey): int {
    match key
    case SearchTextKey => 0
    case RoomTypeKey => 1
    case GuestsKey => 2
    case MaxPriceKey => 3
  }

  /** Each name at most once, in the order searchText, roomType, guests, maxPrice. */
  predicate InCanonicalOrder(params: seq<(ParamKey, ParamValue)>) {
    forall i, j :: 0 <= i < j < |params| ==> Rank(params[i].0) < Rank(params[j].0)
  }

  /** updateUrlWithFilters, given the values applyClientSideFilters read: a
      parameter per truthy value, in the order searchText, roomType, guests,
      maxPrice (a slider at 0 is falsy, a missing slider is Infinity). */
  function UrlParams(searchText: string, roomType: string, guests: string, price: PriceInput)
    : (r: seq<(ParamKey, ParamValue)>)
    ensures InCanonicalOrder(r)
    ensures Lookup(r, SearchTextKey) == (if searchText != [] then Some(Text(searchText)) else None)
    ensures Lookup(r, RoomTypeKey) == (if roomType != [] then Some(Text(roomType)) else None)
    ensures Lookup(r, GuestsKey) == (if guests != [] then Some(Text(guests)) else None)
    ensures Lookup(r, MaxPriceKey) == (if price != Slider(0) then Some(MaxPriceParam(price)) else None)
  {
    var maxPrice := SetParam(price != Slider(0), MaxPriceKey, MaxPriceParam(price), []);
    var byGuests := SetParam(guests != [], GuestsKey, Text(guests), maxPrice);
    var byType := SetParam(roomType != [], RoomTypeKey, Text(roomType), byGuests);
    SetParam(searchText != [], SearchTextKey, Text(searchText), byType)
  }

  /** The parameters written for a given state of the filter inputs. */
  function FilterUrlParams(inputs: FilterInputs): seq<(ParamKey, ParamValue)> {
    UrlParams(SearchText(inputs), inputs.roomType, inputs.guests, inputs.price)
  }

  /** `if (value) params.set(key, value)`, ahead of the parameters set after it. */
  function SetParam(active: bool, key: ParamKey, v: ParamValue, later: seq<(ParamKey, ParamValue)>)
    : (r: seq<(ParamKey, ParamValue)>)
    requires InCanonicalOrder(later)
    requires forall i :: 0 <= i < |later| ==> Rank(key) < Rank(later[i].0)
    ensures InCanonicalOrder(r)
    ensures forall i :: 0 <= i < |r| ==> Rank(key) <= Rank(r[i].0)
    ensures forall k :: Lookup(r, k) == if active && k == key then Some(v) else Lookup(later, k)
  {
    if active then [(key, v)] + later else later
  }

  /** `URLSearchParams.get`: the first value stored under a key. */
  function Lookup(params: seq<(ParamKey, ParamValue)>, key: ParamKey): Option<ParamValue> {
    if params == [] then None
    else if params[0].0 == key then Some(params[0].1)
    else Lookup(params[1..], key)
  }

  /** Reading the filter back from the query string: absent text is empty, and a
      missing or infinite `maxPrice` means no price limit. */
  function InputsFromParams(params: seq<(ParamKey, ParamValue)>): FilterInputs {
    FilterInputs(
      TextParam(Lookup(params, SearchTextKey)),
      TextParam(Lookup(params, RoomTypeKey)),
      TextParam(Lookup(params, GuestsKey)),
      match Lookup(params, MaxPriceKey)
      case Some(Number(n)) => Slider(n)
      case _ => NoSlider)
  }

  function TextParam(v: Option<ParamValue>): string {
    if v.Some? && v.value.Text? then v.value.text else ""
  }

  /** Reading the query string back gives the same search text, type and
      guest values, and a price input that filters the same way. */
  lemma ReadBackInputs(inputs: FilterInputs)
    ensures var back := InputsFromParams(FilterUrlParams(inputs));
      && SearchText(back) == SearchText(inputs)
      && back.roomType == inputs.roomType && back.guests == inputs.guests
      && PriceActive(back.price) == PriceActive(inputs.price)
      && (PriceActive(inputs.price) ==> back.price == inputs.price)
  {
    var q := SearchText(inputs);
    var back := InputsFromParams(FilterUrlParams(inputs));
    assert back.searchInput == q;
    LowerTrimIdempotent(inputs.searchInput);
  }

  /** The query string captures the filter: the filter read back from it keeps
      exactly the rooms the page showed when it was written. */
  lemma UrlReproducesFilter(all: seq<RoomData>, inputs: FilterInputs)
    ensures ApplyClientSideFilters(all, InputsFromParams(FilterUrlParams(inputs))) == ApplyClientSideFilters(all, inputs)
  {
    var back := InputsFromParams(FilterUrlParams(inputs));
    ReadBackInputs(inputs);
    var byText := FilterByText(all, SearchText(inputs), inputs.roomType, inputs.guests);
    assert FilterByPrice(byText, back.price) == FilterByPrice(byText, inputs.price);
  }

  /** The listing page. `cart` is the page's `let cart`; `stored` is the
      `reservationRooms` entry of local storage. */
  class RoomsPage {
    var cart: seq<CartItem>
    var stored: seq<CartItem>

    /** Every change to the cart is saved before the handler returns. */
    ghost predicate Valid()
      reads this
    {
      stored == cart
    }

    /** Page load: the cart is read from storage. */
    constructor (saved: seq<CartItem>)
      ensures Valid() && cart == saved
    {
      cart := saved;
      stored := saved;
    }

    /** addToCart: a room already in the cart is refused; otherwise it is
        appended with the time it was added. */
    method AddToCart(room: RoomData, now: int) returns (added: bool)
      requires Valid()
      modifies this
      ensures Valid()
      ensures added <==> !HasRoom(old(cart), room.roomId)
      ensures added ==> cart == old(cart) + [CartItem(room, Some(now))]
      ensures !added ==> cart == old(cart)
      ensures DistinctRoomIds(old(cart)) ==> DistinctRoomIds(cart)
      ensures Total(cart) == old(Total(cart)) + (if added then room.basePrice else 0)
    {
      if FindIndex(cart, room.roomId) != -1 {
        return false;
      }
      var item := CartItem(room, Some(now));
      if DistinctRoomIds(cart) {
        AppendKeepsDistinct(cart, item);
      }
      TotalAppend(cart, item);
      cart := cart + [item];
      stored := cart;
      added := true;
    }

    /** removeFromCart: an index outside the cart is ignored. */
    method RemoveFromCart(index: int)
      requires Valid()
      modifies this
      ensures Valid()
      ensures 0 <= index < |old(cart)| ==> cart == RemoveAt(old(cart), index)
      ensures !(0 <= index < |old(cart)|) ==> cart == old(cart)
      ensures DistinctRoomIds(old(cart)) ==> DistinctRoomIds(cart)
      ensures 0 <= index < |old(cart)| ==> Total(cart) == old(Total(cart)) - old(cart[index].room.basePrice)
    {
      if index >= 0 && index < |cart| {
        if DistinctRoomIds(cart) {
          RemoveKeepsDistinct(cart, index);
        }
        TotalRemoveAt(cart, index);
        cart := RemoveAt(cart, index);
        stored := cart;
      }
    }

    /** clearCart: an empty cart is reported; otherwise the cart is emptied
        only when the user confirms, and the number of rooms removed is reported. */
    method ClearCart(confirmed: bool) returns (outcome: ClearOutcome)
      requires Valid()
      modifies this
      ensures Valid()
      ensures old(cart) == [] ==> outcome == AlreadyEmpty && cart == []
      ensures old(cart) != [] && !confirmed ==> outcome == Kept && cart == old(cart)
      ensures old(cart) != [] && confirmed ==> outcome == Cleared(|old(cart)|) && cart == []
    {
      if |cart| == 0 {
        return AlreadyEmpty;
      }
      if confirmed {
        var roomCount := |cart|;
        cart := [];
        stored := cart;
        return Cleared(roomCount);
      }
      outcome := Kept;
    }

    /** The "go to reservation" button: navigates only with a non-empty cart. */
    method GoReservation() returns (navigate: bool)
      ensures navigate <==> cart != []
    {
      navigate := |cart| != 0;
    }
  }

  datatype ClearOutcome = AlreadyEmpty | Kept | Cleared(removed: nat)
}
