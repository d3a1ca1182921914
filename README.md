# Bookify booking core in Dafny

Bookify is a hotel reservation web application with an ASP.NET MVC back end and
plain JavaScript pages. This project models its core in Dafny and proves
properties of that model. The core has four parts:

- **The booking lifecycle.** It lives in `BookController`, `PaymentController`
  and `AdminController`.
  - A guest creates a `Pending` booking after a date check, a room lookup and an
    overlap test.
  - Paying the exact price records one payment and makes the booking `Confirmed`.
  - The owner may cancel a `Pending` or `Confirmed` booking.
  - An administrator may cancel any booking.
  - The dashboard counts the bookings and sums their prices.
- **The room listing.** `RoomController` maps rooms to cards and computes the
  price range and the largest guest count the filters use.
- **The client-side cart and filter.** These live in `rooms-client-filter.js`,
  `room-details.js` and `reservation.js`.
  - The cart is a list of rooms kept in local storage.
  - Rooms are added with de-duplication, removed by index, and cleared.
  - The cart total and the count badge are derived from the list.
  - The listing page filters rooms on four criteria and writes the criteria
    into the URL's query string.
- **The review form.** `contact.js` requires a rating and a trimmed description
  of 10 to 500 characters, and colours a character counter.

Modelling choices:

- Dates are integer day numbers, timestamps are integers, and money is integer
  cents. The C# `decimal` prices are never rounded.
- The Bookings table is a sequence: the booking with id `k` sits at position
  `k - 1`. The Payments table is a sequence of payments keyed by booking id.
- Both tables live in one `BookifyDb` object. Its `Valid()` invariant covers:
  - ids match positions;
  - every stay has at least one night;
  - every payment points at a booking and carries its price;
  - no booking has two payments.
- Controller actions are methods on that object. Each method is proved against
  a decision function, and the properties are proved about those functions.
- The clock (`DateTime.Today`, `DateTime.Now`) and the signed-in user are
  parameters. So is the user-table fallback in `CreateBooking`, as the id of the
  first user, if any.
- Each script page is a class:
  - its `stored` field stands for the `reservationRooms` local-storage entry;
  - navigation and the confirmation dialog become return values or parameters;
  - the cart badge is a `Badge(count, visible)` value.

Where the code is looser than the intended lifecycle (`Confirmed` reached only
from `Pending`; `Cancelled` and `Completed` final), the model follows the code:

- The user-facing cancel lets the owner cancel a `Confirmed` booking.
  BookController.cs:180-183 refuses only `Completed` and `Cancelled`.
- `ProcessPayment` accepts a payment whatever the booking's status. So "no
  room is held twice for the same night" is not part of the database
  invariant. The actions that keep it say so, and payment keeps it only for a
  booking that was not Cancelled.
- `RoomController.Index` over an empty room table throws in `Min`/`Max`. The
  model returns `None` there instead of requiring rooms.

The two defects listed under Findings are modelled both ways. The actions
behave as written. Beside them are a concrete input that shows the defect and
the corrected definition with its property proved.

## Model

All source paths are under `Bookify-Hotel-Reservation-System-PL/` except the
repository files.

| member | source | states |
|---|---|---|
| Domain.GetBooking | Bookify-Hotel-Reservation-System-BLL/Repositories/BookingRepository.cs:29-31 | Looking a booking up by id (`FirstOrDefault(b => b.Id == id)`, also used at PaymentController.cs:27-28) finds the booking whose id it is, and finds nothing exactly when no booking has that id (ids are positions). |
| Domain.FindRoom | Bookify-Hotel-Reservation-System-PL/Controllers/BookController.cs:74-78 | The room lookup is empty exactly when no room has the id; otherwise it returns a stored room with that id. |
| Domain.SetStatus | Bookify-Hotel-Reservation-System-PL/Controllers/BookController.cs:185-187 | Overwriting one booking's status keeps the table's length and every other booking, and changes no other field of that booking. |
| Availability.ThreeClauseIsHalfOpen | Bookify-Hotel-Reservation-System-PL/Controllers/BookController.cs:86-92 | For stays of at least one night, the query's three date clauses hold exactly when the two stays share a night (`bIn < mOut && mIn < bOut`). |
| Availability.ThreeClauseBlocksZeroNightStay | Bookify-Hotel-Reservation-System-PL/Controllers/BookController.cs:86-92 | The non-empty hypothesis is necessary: a zero-night stored stay on the requested check-in day matches the clauses without sharing a night. |
| Availability.ArrivalOnCheckOutDayIsFree | Bookify-Hotel-Reservation-System-PL/Controllers/BookController.cs:86-92 | A request that starts on an existing stay's check-out day is not blocked. |
| Availability.DepartureOnCheckInDayIsFree | Bookify-Hotel-Reservation-System-PL/Controllers/BookController.cs:86-92 | A request that ends on an existing stay's check-in day is not blocked. |
| Availability.SameCheckInIsBlocked | Bookify-Hotel-Reservation-System-PL/Controllers/BookController.cs:86-92 | Two stays with the same check-in day always collide. |
| Availability.BlockingBookings | Bookify-Hotel-Reservation-System-PL/Controllers/BookController.cs:86-92 | The clash query returns exactly the stored bookings of the same room that are not Cancelled and meet the date clauses. Each appears as often as in the table. |
| Availability.NothingBlocksIffNoActiveOverlap | Bookify-Hotel-Reservation-System-PL/Controllers/BookController.cs:86-97 | Over well-formed stays, the query finds nothing exactly when no non-cancelled booking of that room shares a night with the request. So other rooms and cancelled bookings never block. |
| Availability.StayPriceIsAdditive | Bookify-Hotel-Reservation-System-PL/Controllers/BookController.cs:100-101 | Price = nights × base price is additive over consecutive stays, so twice the nights cost twice as much. |
| Database.SetStatusKeepsConsistency | Bookify-Hotel-Reservation-System-PL/Controllers/BookController.cs:185-187 | A status change keeps ids, stays and payment amounts consistent. |
| Database.CancellingKeepsNoDoubleBooking | Bookify-Hotel-Reservation-System-PL/Controllers/AdminController.cs:127-131 | Cancelling a booking can never make two active bookings of a room share a night. |
| Database.ActiveToActiveKeepsNoDoubleBooking | Bookify-Hotel-Reservation-System-PL/Controllers/PaymentController.cs:95-98 | Moving a non-cancelled booking to another non-cancelled status keeps the no-double-booking property. |
| Database.SetStatusKeepsSumPrices | Bookify-Hotel-Reservation-System-PL/Controllers/AdminController.cs:26 | Status changes leave the sum of booking prices unchanged. |
| Database.BookifyDb.constructor | Bookify-Hotel-Reservation-System-BLL/Repositories/GenericRepository.cs:10-17 | Each repository wraps one table of the context (`context.Set<T>()`); in the model the Bookings and Payments tables start empty. The empty database satisfies the invariant and holds no double booking: it is the base case for every action. |
| BookController.DecideBooking | Bookify-Hotel-Reservation-System-PL/Controllers/BookController.cs:45-116 | It ties each refusal to its condition in both directions, in the source's guard order. A past check-in is refused first, then a check-out not after check-in. Once those pass, no user at all gives NoUsers. Then a missing room gives RoomNotFound, a room without a type gives RoomTypeMissing, and a clash gives RoomUnavailable. Otherwise a Pending booking is built for the requested room and dates, with the next id, the caller (or first user), and price nights × base price. Every request that passes all checks is accepted. |
| BookController.AcceptedBookingIsFree | Bookify-Hotel-Reservation-System-PL/Controllers/BookController.cs:50-97 | An accepted booking has at least one night and shares no night with any active booking of its room. |
| BookController.AcceptedBookingKeepsInvariants | Bookify-Hotel-Reservation-System-PL/Controllers/BookController.cs:104-116 | Appending an accepted booking keeps the tables consistent and never creates a double booking. Revenue grows by exactly its price. |
| BookController.CreateBooking | Bookify-Hotel-Reservation-System-PL/Controllers/BookController.cs:34-143 | On acceptance exactly one booking is appended and the reply carries its id, price and nights. On refusal the table is unchanged and the reason returned. Payments never change. The invariant is kept, and so is the absence of double bookings. |
| BookController.UserCancel | Bookify-Hotel-Reservation-System-PL/Controllers/BookController.cs:165-190 | An unknown id gives NotFound and a non-owner gives Unauthorized. A Completed or Cancelled booking gives CannotCancel. It succeeds exactly for the owner's Pending or Confirmed booking, and then only that booking's status becomes Cancelled. |
| BookController.CancelTwiceIsRefused | Bookify-Hotel-Reservation-System-PL/Controllers/BookController.cs:180-183 | Repeating a successful user cancel is refused with CannotCancel. |
| BookController.CancelBooking | Bookify-Hotel-Reservation-System-PL/Controllers/BookController.cs:165-190 | The action leaves the table `UserCancel` describes and returns its verdict. Payments, the invariant, the absence of double bookings and revenue are kept. |
| BookController.OwnedBy | Bookify-Hotel-Reservation-System-PL/Controllers/BookController.cs:155-157 | It keeps exactly the user's bookings, each as often as in the table. |
| BookController.InsertNewestFirst | Bookify-Hotel-Reservation-System-PL/Controllers/BookController.cs:158 | Inserting into a newest-first list keeps it newest-first and adds exactly that booking. |
| BookController.SortNewestFirst | Bookify-Hotel-Reservation-System-PL/Controllers/BookController.cs:158 | The result is ordered by descending creation time and is a permutation of the input. |
| BookController.MyBookings | Bookify-Hotel-Reservation-System-PL/Controllers/BookController.cs:147-161 | Without a signed-in user the action redirects. Otherwise it lists exactly that user's bookings, each once, newest first. |
| PaymentController.PaymentDecision | Bookify-Hotel-Reservation-System-PL/Controllers/PaymentController.cs:64-93 | The checks as written. An unknown booking is refused, then an existing payment, then any amount other than the exact price. Each refusal holds exactly when its guard fails and the earlier ones pass. It succeeds exactly when the booking exists, is unpaid and the amount is exact, whatever its status. The payment then carries the booking's price, the method, the time and status "Completed". |
| PaymentController.PaymentKeepsConsistency | Bookify-Hotel-Reservation-System-PL/Controllers/PaymentController.cs:83-98 | Recording an accepted payment and confirming its booking keeps the tables consistent, and the new payment is the booking's only one. |
| PaymentController.ProcessPayment | Bookify-Hotel-Reservation-System-PL/Controllers/PaymentController.cs:54-125 | The reply is the decision as written, whatever the booking's status. On success exactly one payment is appended and the booking becomes Confirmed. On refusal neither table changes. The invariant is kept. The absence of double bookings is kept when the paid booking was not Cancelled. |
| PaymentController.PayingCancelledBookingDoubleBooks | Bookify-Hotel-Reservation-System-PL/Controllers/PaymentController.cs:64-98 | Paying for a Cancelled booking whose nights were re-let is accepted and leaves the room held twice. |
| PaymentController.PendingOnlyPaymentDecision | Bookify-Hotel-Reservation-System-PL/Controllers/PaymentController.cs:64-98 | The corrected rule, beside the code. It refuses with NotPayable exactly an existing booking that is not Pending. It succeeds exactly for a Pending booking the written checks accept, with the same payment. Otherwise it passes on their refusal. |
| PaymentController.PendingOnlyPaymentKeepsNoDoubleBooking | Bookify-Hotel-Reservation-System-PL/Controllers/PaymentController.cs:95-98 | Under the corrected rule, confirming a paid booking never creates a double booking. |
| PaymentController.Index | Bookify-Hotel-Reservation-System-PL/Controllers/PaymentController.cs:19-51 | A non-positive id is refused before any lookup and an unknown one is NotFound. Every existing booking with a positive id yields its page. The page shows the booking's stored price, its dates and checkOut − checkIn nights. It also shows the booker's full name and email, and its room type's name; each is absent when the user, room or type is missing. |
| PaymentController.PageAmountIsAccepted | Bookify-Hotel-Reservation-System-PL/Controllers/PaymentController.cs:36-79 | The page shows at least one night. Under the written checks, paying exactly the amount it shows succeeds precisely when the booking has no payment yet. Under the Pending-only rule, the booking must also be Pending. |
| PaymentController.GetPaymentDetails | Bookify-Hotel-Reservation-System-PL/Controllers/PaymentController.cs:128-165 | It finds nothing exactly for an unknown id. Otherwise it reports the booking's id, dates, total price, night count and status. It also reports the booker's user name and email, and its room type's name, description and per-night price; each is absent when the user, room or type is missing. |
| AdminController.WithStatus | Bookify-Hotel-Reservation-System-PL/Controllers/AdminController.cs:25-26 | It keeps exactly the bookings with the given status. |
| AdminController.WithStatusKeepsMultiplicity | Bookify-Hotel-Reservation-System-PL/Controllers/AdminController.cs:25-26 | Each booking with the status appears in the result exactly as often as in the table: the filter drops no duplicate. |
| AdminController.Dashboard | Bookify-Hotel-Reservation-System-PL/Controllers/AdminController.cs:22-36 | The booking count and revenue are the totals over all four statuses, Cancelled included. The room and type counts are the table sizes. |
| AdminController.RevenueCountsEveryStatus | Bookify-Hotel-Reservation-System-PL/Controllers/AdminController.cs:25-26 | The count and the sum of prices split over Pending, Confirmed, Cancelled and Completed. |
| AdminController.SumPricesAppend | Bookify-Hotel-Reservation-System-PL/Controllers/AdminController.cs:26 | The revenue of two lists laid end to end is the sum of their revenues. |
| AdminController.AdminCancel | Bookify-Hotel-Reservation-System-PL/Controllers/AdminController.cs:117-137 | It fails exactly for an unknown id. Otherwise any booking, Completed included, becomes Cancelled and nothing else changes. |
| AdminController.AdminCancelIsIdempotent | Bookify-Hotel-Reservation-System-PL/Controllers/AdminController.cs:127-131 | Repeating an administrator's cancel succeeds and changes nothing more. |
| AdminController.AdminCancelKeepsDashboard | Bookify-Hotel-Reservation-System-PL/Controllers/AdminController.cs:22-36 | An administrator's cancel changes neither the booking count nor the revenue. |
| AdminController.AdminCancelBooking | Bookify-Hotel-Reservation-System-PL/Controllers/AdminController.cs:117-137 | The action leaves the table `AdminCancel` describes and fails exactly when it does. Payments, the invariant and the absence of double bookings are kept. |
| AdminController.RoomRows | Bookify-Hotel-Reservation-System-PL/Controllers/AdminController.cs:63-77 | There is one row per room, in order, carrying the room's id, number, floor, availability and image. A room with a type shows its name and base price. A room without one shows "N/A" and base price 0. |
| AdminController.BookingRows | Bookify-Hotel-Reservation-System-PL/Controllers/AdminController.cs:98-113 | There is one row per booking, in order, with its id, dates, price and status. The customer is the user's full name, or "N/A" when the user or the name is missing. The room number is the room's, or "N/A" when the room is missing. |
| RoomController.Card | Bookify-Hotel-Reservation-System-PL/Controllers/RoomController.cs:35-48 | The card carries the room's id, floor, image and amenities. A room with a type shows that type's fields. A room without one shows empty texts and zero area, guests and price. |
| RoomController.Cards | Bookify-Hotel-Reservation-System-PL/Controllers/RoomController.cs:35-48 | There is one card per room, in the same order. |
| RoomController.MinOf | Bookify-Hotel-Reservation-System-PL/Controllers/RoomController.cs:55 | `Min` returns a member of the list that is no larger than any member. |
| RoomController.MaxOf | Bookify-Hotel-Reservation-System-PL/Controllers/RoomController.cs:56-57 | `Max` returns a member of the list that is no smaller than any member. |
| RoomController.DistinctNames | Bookify-Hotel-Reservation-System-BLL/Repositories/RoomTypeRepository.cs:13-19 | It lists every type name once, and no other names. |
| RoomController.Index | Bookify-Hotel-Reservation-System-PL/Controllers/RoomController.cs:29-61 | It fails exactly for an empty room table. Otherwise it gives the cards and names. MinPrice and MaxPrice bound every room's defaulted price and are both attained. MaxGuests bounds and is attained by the guest counts, where a typeless room counts 1. |
| RoomController.IndexRangeCoversCards | Bookify-Hotel-Reservation-System-PL/Controllers/RoomController.cs:35-57 | Every card's price lies in [MinPrice, MaxPrice]. A typeless room's card shows 0 guests while MaxGuests is at least 1. |
| RoomController.Details | Bookify-Hotel-Reservation-System-PL/Controllers/RoomController.cs:68-94 | It is NotFound exactly when no room has the id. Otherwise it shows that room's card. |
| RoomController.DetailsCardIsListed | Bookify-Hotel-Reservation-System-PL/Controllers/RoomController.cs:68-94 | The details page shows the same card the listing shows for that room. |
| Text.Lower | Bookify-Hotel-Reservation-System-PL/wwwroot/js/rooms-client-filter.js:318 | Lower-casing keeps the length and folds each character. |
| Text.Trim | Bookify-Hotel-Reservation-System-PL/wwwroot/js/contact.js:147 | The trimmed text is a slice `s[a..b]` of the input with only white space cut before `a` and after `b`. It neither starts nor ends with white space, and is empty exactly for an all-blank string. |
| Text.LowerTrimIdempotent | Bookify-Hotel-Reservation-System-PL/wwwroot/js/rooms-client-filter.js:318 | Lower-casing and trimming text that is already lower-cased and trimmed changes nothing. |
| Text.IncludesIffOccurs | Bookify-Hotel-Reservation-System-PL/wwwroot/js/rooms-client-filter.js:328-333 | `includes` holds exactly when the needle occurs as a contiguous slice. |
| Text.ParseInt | Bookify-Hotel-Reservation-System-PL/wwwroot/js/rooms-client-filter.js:343-346 | `parseInt` is NaN exactly when no digit follows the leading blanks and sign. |
| Text.ParseIntOfDigits | Bookify-Hotel-Reservation-System-PL/wwwroot/js/rooms-client-filter.js:343-346 | A string of decimal digits parses to the number it denotes. |
| Cart.FindIndex | Bookify-Hotel-Reservation-System-PL/wwwroot/js/room-details.js:57 | It gives -1 exactly when the room is absent. Otherwise it gives the first position holding it. |
| Cart.RemoveAt | Bookify-Hotel-Reservation-System-PL/wwwroot/js/rooms-client-filter.js:119 | `splice(index, 1)` removes exactly that element: the others keep their order, and the multiset loses just it. |
| Cart.AppendKeepsDistinct | Bookify-Hotel-Reservation-System-PL/wwwroot/js/rooms-client-filter.js:85-103 | Appending a room the cart does not hold keeps room ids distinct. |
| Cart.RemoveKeepsDistinct | Bookify-Hotel-Reservation-System-PL/wwwroot/js/rooms-client-filter.js:117-119 | Removing an entry keeps room ids distinct. |
| Cart.TotalConcat | Bookify-Hotel-Reservation-System-PL/wwwroot/js/rooms-client-filter.js:186 | The total of two carts laid end to end is the sum of their totals. |
| Cart.TotalAppend | Bookify-Hotel-Reservation-System-PL/wwwroot/js/room-details.js:121 | Adding a room adds its base price to the total. |
| Cart.TotalRemoveAt | Bookify-Hotel-Reservation-System-PL/wwwroot/js/room-details.js:121 | Removing an entry takes exactly its base price off the total. |
| Cart.TotalIsOrderFree | Bookify-Hotel-Reservation-System-PL/wwwroot/js/rooms-client-filter.js:186 | Carts holding the same entries in any order have the same total. |
| Cart.CountBadge | Bookify-Hotel-Reservation-System-PL/wwwroot/js/rooms-client-filter.js:36-46 | The badge shows the cart's length and is visible exactly when the cart is non-empty. |
| RoomsClientFilter.SubseqTrans | Bookify-Hotel-Reservation-System-PL/wwwroot/js/rooms-client-filter.js:325-351 | Filtering a filtered list still yields an order-preserving sublist of the original. |
| RoomsClientFilter.Filter | Bookify-Hotel-Reservation-System-PL/wwwroot/js/rooms-client-filter.js:329-332 | `filter` keeps exactly the elements that pass, as an order-preserving sublist, each as often as in the input. |
| RoomsClientFilter.FilterIf | Bookify-Hotel-Reservation-System-PL/wwwroot/js/rooms-client-filter.js:328-351 | A filter step applied only when its criterion is set keeps every element, with its multiplicity, when the criterion is off. |
| RoomsClientFilter.FilterByText | Bookify-Hotel-Reservation-System-PL/wwwroot/js/rooms-client-filter.js:328-347 | The search, type and guest steps keep exactly the rooms meeting every non-empty criterion, in order. |
| RoomsClientFilter.FilterByPrice | Bookify-Hotel-Reservation-System-PL/wwwroot/js/rooms-client-filter.js:349-351 | A present non-zero slider keeps the rooms priced at most its value. Otherwise nothing is removed. |
| RoomsClientFilter.ApplyClientSideFilters | Bookify-Hotel-Reservation-System-PL/wwwroot/js/rooms-client-filter.js:316-358 | It keeps an order-preserving sublist, and a room is kept exactly when it passes every active criterion: the case-insensitive substring search, type equality ignoring case, guests at least the parsed minimum (never for NaN), and price at most the slider. |
| RoomsClientFilter.NoCriteriaKeepsEveryRoom | Bookify-Hotel-Reservation-System-PL/wwwroot/js/rooms-client-filter.js:316-358 | With every input empty and no slider, all rooms are kept in order. |
| RoomsClientFilter.SetParam | Bookify-Hotel-Reservation-System-PL/wwwroot/js/rooms-client-filter.js:373-376 | A truthy value is stored under its key ahead of the later keys. Lookups of other keys are unaffected. |
| RoomsClientFilter.UrlParams | Bookify-Hotel-Reservation-System-PL/wwwroot/js/rooms-client-filter.js:369-376 | It holds exactly the truthy values (a 0 slider is falsy, a missing one is Infinity), each key once, in the order searchText, roomType, guests, maxPrice. |
| RoomsClientFilter.ReadBackInputs | Bookify-Hotel-Reservation-System-PL/wwwroot/js/rooms-client-filter.js:316-376 | The written parameters determine the filter inputs: decoding them gives the same search text, type and guests, and a price input that is active exactly when the original is, with the same value. The decoder is the model's own; the page never reads these parameters back. |
| RoomsClientFilter.UrlReproducesFilter | Bookify-Hotel-Reservation-System-PL/wwwroot/js/rooms-client-filter.js:316-376 | The written parameters capture the filter: decoded, they keep exactly the rooms the page showed. The program itself never reads them back (the listing action ignores its query arguments). |
| RoomsClientFilter.RoomsPage.constructor | Bookify-Hotel-Reservation-System-PL/wwwroot/js/rooms-client-filter.js:16-30 | On page load the cart is the stored one. |
| RoomsClientFilter.RoomsPage.AddToCart | Bookify-Hotel-Reservation-System-PL/wwwroot/js/rooms-client-filter.js:83-111 | A duplicate room returns false and leaves the cart. Otherwise the room is appended with its time and it returns true. The cart is saved, ids stay distinct, and the total grows by the room's price. |
| RoomsClientFilter.RoomsPage.RemoveFromCart | Bookify-Hotel-Reservation-System-PL/wwwroot/js/rooms-client-filter.js:117-129 | An out-of-range index changes nothing. Otherwise exactly that entry is removed and saved, ids stay distinct, and the total drops by its price. |
| RoomsClientFilter.RoomsPage.ClearCart | Bookify-Hotel-Reservation-System-PL/wwwroot/js/rooms-client-filter.js:135-162 | An empty cart is reported and stays empty. An unconfirmed clear keeps the cart. A confirmed clear empties and saves it and reports the count removed. |
| RoomsClientFilter.RoomsPage.GoReservation | Bookify-Hotel-Reservation-System-PL/wwwroot/js/rooms-client-filter.js:250-262 | It navigates exactly when the cart is non-empty. |
| RoomDetails.CartDisplay | Bookify-Hotel-Reservation-System-PL/wwwroot/js/room-details.js:87-106 | The cart icon is shown exactly for a non-empty cart, with its length. An empty cart hides the icon and leaves the number. |
| RoomDetails.CartDisplayAgreesWithCountBadge | Bookify-Hotel-Reservation-System-PL/wwwroot/js/room-details.js:94-99 | Whenever a badge is visible, the details page and the listing page show the same one. |
| RoomDetails.RoomDetailsPage.constructor | Bookify-Hotel-Reservation-System-PL/wwwroot/js/room-details.js:192-201 | The page starts from the stored cart. On load, a non-empty cart sets the badge to its number of rooms and shows it, the same badge the listing page shows. An empty cart leaves the badge as it was. |
| RoomDetails.RoomDetailsPage.AddToCart | Bookify-Hotel-Reservation-System-PL/wwwroot/js/room-details.js:47-67 | Without room data nothing changes, and a room already present is refused unchanged. Otherwise it is appended and saved, ids stay distinct, and the badge shows the new length. |
| RoomDetails.RoomDetailsPage.RemoveFromCart | Bookify-Hotel-Reservation-System-PL/wwwroot/js/room-details.js:72-82 | An out-of-range index changes nothing. Otherwise exactly that entry is removed and saved, the badge is refreshed, and the total drops by its price. |
| RoomDetails.RoomDetailsPage.GoToReservation | Bookify-Hotel-Reservation-System-PL/wwwroot/js/room-details.js:178-186 | It navigates exactly when the stored cart is non-empty. |
| Reservation.RenderedBadge | Bookify-Hotel-Reservation-System-PL/wwwroot/js/reservation.js:39-95 | A non-empty list refreshes the badge. An empty list returns before the refresh and leaves the badge as it was. |
| Reservation.RemovingLastRoomLeavesStaleBadge | Bookify-Hotel-Reservation-System-PL/wwwroot/js/reservation.js:198-209 | Removing the only room leaves a visible badge showing 1 over an empty list. |
| Reservation.IntendedRenderedBadge | Bookify-Hotel-Reservation-System-PL/wwwroot/js/reservation.js:104-113 | The corrected render, beside the code: the badge shows the list's length and is visible exactly when it is non-empty. |
| Reservation.ReservationPage.constructor | Bookify-Hotel-Reservation-System-PL/wwwroot/js/reservation.js:25 | The list is the stored one and nothing is selected. The badge is what the render leaves as written: the count for a non-empty list, the shown badge for an empty one. |
| Reservation.ReservationPage.UpdateCartCountFromReservation | Bookify-Hotel-Reservation-System-PL/wwwroot/js/reservation.js:104-113 | The badge shows the list's length and is visible exactly when it is non-empty. Nothing else changes. |
| Reservation.ReservationPage.BookNow | Bookify-Hotel-Reservation-System-PL/wwwroot/js/reservation.js:170-187 | An out-of-range index does nothing. Otherwise exactly `reservationRooms[index]` is selected and the page navigates. The list, the storage and the badge are unchanged. |
| Reservation.ReservationPage.RemoveReservation | Bookify-Hotel-Reservation-System-PL/wwwroot/js/reservation.js:198-213 | An out-of-range index changes nothing. Otherwise exactly that entry is removed, and the list is saved and re-rendered as written. A non-empty list gets its count on the badge; emptying the list leaves the old badge. Ids stay distinct and the selection is kept. |
| ReviewForm.Validate | Bookify-Hotel-Reservation-System-PL/wwwroot/js/contact.js:133-164 | A missing rating is refused first. A trimmed description under 10 is too short and over 500 is too long. The form is accepted exactly with a rating and 10 to 500 trimmed characters. |
| ReviewForm.BlankDescriptionIsTooShort | Bookify-Hotel-Reservation-System-PL/wwwroot/js/contact.js:147-152 | A description of white space alone is too short, however long. |
| ReviewForm.Counter | Bookify-Hotel-Reservation-System-PL/wwwroot/js/contact.js:107-117 | Red at 500 or more, orange from 400 to 499, grey below 400, on the untrimmed length. |
| ReviewForm.CounterBelowRedIsNeverTooLong | Bookify-Hotel-Reservation-System-PL/wwwroot/js/contact.js:107-158 | While the counter is not red the description cannot be refused as too long. |
| ReviewForm.RedCounterCanStillBeAccepted | Bookify-Hotel-Reservation-System-PL/wwwroot/js/contact.js:107-161 | Red does not mean refused: 500 characters with no blank ends are accepted. |

## Left out

- Model-state validation, and the view models' data annotations, are not modelled. The framework runs them before `CreateBooking` and `ProcessPayment`.
- Exceptions are not modelled: the `try`/`catch` blocks, failing `Save` calls and their error replies. Each action is modelled as one atomic step.
- Concurrency is not modelled. Two `CreateBooking` requests can race between the clash query and the insert, since there is no transaction.
- The transaction id's text format `TXN-{yyyyMMddHHmmss}-{id}` is not modelled. It is kept as its two ingredients, the time and the booking id.
- Entity Framework loading is idealised. The payment queries read the booking's user and room type as if navigations were always loaded; the source may show null where the model shows a value.
- The JavaScript number semantics are not modelled. Prices and areas are integers. `parseFloat` of the price slider and NaN slider values are not represented.
- Text.Lower: folds ASCII letters only, not the full Unicode case mapping of `toLowerCase`.
- Text.IsWhitespace: covers the common blank characters, not every Unicode space separator `trim` removes.
- Text.ParseInt: models base-10 `parseInt` only, without the `0x` radix prefix.
- ReviewForm.Validate, ReviewForm.Counter: lengths are counted in characters, not in the UTF-16 code units that JavaScript's `.length` counts. A character outside the Basic Multilingual Plane counts once here and twice in the browser. So 300 emoji are accepted here, but the form rejects them as too long (600 units).
- These browser effects are left out: the DOM, toasts, timers, the confirmation dialog, the popup and the history API. Navigation is a returned flag and the dialog's answer is a parameter.
- The URL's percent-encoding and path are not modelled. The query string is a sequence of key and value pairs.
- The "in cart" state of the rendered room buttons, and card rendering in general, are not modelled.
- The admin views for rooms and room types, and `GetRoomTypes`, are not modelled. They are plain projections with no branches.
- Date formatting of the JSON replies (`yyyy-MM-dd`, `createdAt` strings) is not modelled.
- RoomController.DistinctNames: keeps each name once, but not necessarily at the position of its first occurrence as LINQ `Distinct` does.
- BookController.SortNewestFirst: orders by creation time and proves a permutation. It does not state that equal creation times keep table order, although the insertion does keep it.
- Amenities are kept as a list of names.
- `RoomController.Index` accepts query arguments and ignores them. The model omits those arguments.
- The `ReviewRepository` and `AmenityRepository` repositories are not part of this model. Their `Delete` methods invert the null test. `RoomRepository.cs` holds unresolved merge-conflict markers, and it is not part of this model either.
- The account, contact, amenity, review, booking-page and reservation-page controllers are not part of this model. They are single repository calls or views.

## Findings

| source | as written | input that shows it | evidently intended | confidence | as-written member | corrected member |
|---|---|---|---|---|---|---|
| Bookify-Hotel-Reservation-System-PL/Controllers/PaymentController.cs:64-98 | The booking's status is never checked, so a Cancelled booking can be paid and becomes Confirmed again. | Booking 1 (room 101, days 10-13) is Cancelled. Booking 2 holds the same room and nights and is Pending. Paying 30000 for booking 1 is accepted, and both bookings then hold the room. | Only a Pending booking can be paid; terminal states stay terminal. | medium, not executed | PaymentController.PayingCancelledBookingDoubleBooks | PaymentController.PendingOnlyPaymentDecision |
| Bookify-Hotel-Reservation-System-PL/wwwroot/js/reservation.js:47-59 | `renderReservation` returns early on an empty list, before `updateCartCountFromReservation` at line 94. Removing the last room therefore leaves the badge unchanged. | A list with one room, badge showing 1. `removeReservation(0)` empties the list, and the badge still shows 1 and stays visible. | The badge is refreshed on every render: count 0, hidden. | medium, not executed | Reservation.RemovingLastRoomLeavesStaleBadge | Reservation.IntendedRenderedBadge |
