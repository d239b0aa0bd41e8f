/**
 * The booking handlers: booking creation on a store of bookings, the owner
 * dashboard, the guest's booking list and the checkout request sent to the
 * payment processor.
 */
module BookingController {
  import opened Wrappers
  import opened Dates
  import opened BookingModel
  import opened Availability

  // ---------------------------------------------------------------------
  // The store and its invariant

  /** Every stored id is below the next id to be issued. */
  predicate IdsBelow(bookings: seq<Booking>, nextId: BookingId)
  {
    forall i :: 0 <= i < |bookings| ==> bookings[i].id < nextId
  }

  /** Store order is creation order: ids strictly increase along the store. */
  predicate IdsAscending(bookings: seq<Booking>)
  {
    forall i, j :: 0 <= i < j < |bookings| ==> bookings[i].id < bookings[j].id
  }

  predicate AllNormalised(bookings: seq<Booking>)
  {
    forall i :: 0 <= i < |bookings| ==> Normalised(bookings[i])
  }

  /**
   * What every handler keeps true of the stored bookings: unique ids issued
   * in order, whole-day dates, and no overlapping bookings of one room.
   */
  predicate StoreInvariant(bookings: seq<Booking>, nextId: BookingId)
  {
    IdsBelow(bookings, nextId) && IdsAscending(bookings) && AllNormalised(bookings) && NoDoubleBooking(bookings)
  }

  // ---------------------------------------------------------------------
  // Booking creation

  /** JavaScript truthiness of the optional client price: present and not 0. */
  predicate Truthy(totalPrice: Option<int>)
  {
    totalPrice.Some? && totalPrice.value != 0
  }

  /**
   * The price stored with a new booking: `totalPrice || pricePerNight * guests`.
   * A non-zero client figure is stored as sent, even when it differs from
   * the computed price; a missing or zero one falls back to the computed
   * price. Whenever the later price check passes the two coincide.
   */
  function FinalPrice(totalPrice: Option<int>, pricePerNight: int, guests: int): (r: int)
    ensures Truthy(totalPrice) ==> r == totalPrice.value
    ensures !Truthy(totalPrice) ==> r == pricePerNight * guests
    ensures totalPrice == Some(pricePerNight * guests) ==> r == pricePerNight * guests
  {
    if Truthy(totalPrice) then totalPrice.value else pricePerNight * guests
  }

  /** How a booking request ends; the replies are `{ success, message }`. */
  datatype CreateOutcome =
    | NotAvailable          // early return, nothing stored
    | RoomOrHotelNotFound   // early return, nothing stored
    | InvalidTotalPrice     // price check failed after the booking was stored
    | MailFailed            // the confirmation mail threw after the booking was stored
    | Created(id: BookingId)
  {
    predicate Success()
    {
      Created?
    }

    /** The reply text; the success text is given exactly when a booking was created and reported. */
    function Message(): (r: string)
      ensures r == "Booking created successfully" <==> Success()
      ensures r == "Room is not available" <==> NotAvailable?
    {
      match this
      case NotAvailable => "Room is not available"
      case RoomOrHotelNotFound => "Room or Hotel not found"
      case InvalidTotalPrice => "Invalid total price"
      case MailFailed => "Failed to create Booking"
      case Created(_) => "Booking created successfully"
    }
  }

  /** The persistence collaborator's Booking collection, with the Room and Hotel collections it reads. */
  class BookingStore {
    var bookings: seq<Booking>
    var nextId: BookingId
    const rooms: map<RoomId, Room>
    const hotels: seq<Hotel>

    predicate Valid()
      reads this
    {
      StoreInvariant(bookings, nextId)
    }

    constructor (rooms: map<RoomId, Room>, hotels: seq<Hotel>)
      ensures Valid()
      ensures this.rooms == rooms && this.hotels == hotels
      ensures bookings == [] && nextId == 0
    {
      this.rooms := rooms;
      this.hotels := hotels;
      bookings := [];
      nextId := 0;
    }

    /**
     * `createBooking`: check availability, resolve the room and its hotel,
     * store a pending unpaid booking, and only then compare the client's
     * price with `pricePerNight * guests`. `queryOk` is whether the
     * availability query succeeds; `mailOk` is whether the confirmation
     * mail is sent.
     */
    method CreateBooking(user: UserId, room: RoomId, checkIn: Option<int>, checkOut: Option<int>,
                         guests: int, totalPrice: Option<int>, queryOk: bool, mailOk: bool)
        returns (outcome: CreateOutcome)
      requires Valid()
      modifies this
      ensures Valid()
      ensures !IsAvailable(old(bookings), room, checkIn, checkOut, queryOk) ==>
                outcome == NotAvailable && bookings == old(bookings) && nextId == old(nextId)
      ensures IsAvailable(old(bookings), room, checkIn, checkOut, queryOk) && RoomWithHotel(rooms, hotels, room).None? ==>
                outcome == RoomOrHotelNotFound && bookings == old(bookings) && nextId == old(nextId)
      ensures IsAvailable(old(bookings), room, checkIn, checkOut, queryOk) && RoomWithHotel(rooms, hotels, room).Some? ==>
                var (roomData, hotel) := RoomWithHotel(rooms, hotels, room).value;
                var expected := roomData.pricePerNight * guests;
                && nextId == old(nextId) + 1
                && bookings == old(bookings) + [Booking(old(nextId), user, room, hotel.id, guests,
                                                        StartOfDay(checkIn.value), EndOfDay(checkOut.value),
                                                        FinalPrice(totalPrice, roomData.pricePerNight, guests),
                                                        Pending, PayAtHotel, false)]
                && outcome == if totalPrice != Some(expected) then InvalidTotalPrice
                              else if mailOk then Created(old(nextId)) else MailFailed
    {
      var isAvailable := IsAvailable(bookings, room, checkIn, checkOut, queryOk);
      if !isAvailable {
        return NotAvailable;
      }
      var found := RoomWithHotel(rooms, hotels, room);
      if found.None? {
        return RoomOrHotelNotFound;
      }
      var (roomData, hotel) := found.value;
      var checkInDay := StartOfDay(checkIn.value);
      var checkOutDay := EndOfDay(checkOut.value);
      var nights := Nights(checkInDay, checkOutDay);  // computed by the handler, used nowhere
      var finalPrice := FinalPrice(totalPrice, roomData.pricePerNight, guests);
      var booking := Booking(nextId, user, room, hotel.id, guests, checkInDay, checkOutDay,
                             finalPrice, Pending, PayAtHotel, false);
      AppendUnblockedKeepsNoDoubleBooking(bookings, booking);
      bookings := bookings + [booking];
      nextId := nextId + 1;
      var expectedPrice := roomData.pricePerNight * guests;
      if totalPrice != Some(expectedPrice) {
        return InvalidTotalPrice;
      }
      if !mailOk {
        return MailFailed;
      }
      return Created(booking.id);
    }
  }

  // ---------------------------------------------------------------------
  // Listings and the owner dashboard

  /** `Booking.find({ hotel })` in store order. */
  function ForHotel(bookings: seq<Booking>, hotel: HotelId): (r: seq<Booking>)
    ensures |r| <= |bookings|
    ensures forall b :: b in r <==> b in bookings && b.hotel == hotel
  {
    if bookings == [] then []
    else
      var rest := ForHotel(bookings[1..], hotel);
      assert forall b :: b in bookings <==> b == bookings[0] || b in bookings[1..];
      if bookings[0].hotel == hotel then [bookings[0]] + rest else rest
  }

  /** `Booking.find({ user })` in store order. */
  function ForUser(bookings: seq<Booking>, user: UserId): (r: seq<Booking>)
    ensures |r| <= |bookings|
    ensures forall b :: b in r <==> b in bookings && b.user == user
    ensures forall b :: multiset(r)[b] == if b.user == user then multiset(bookings)[b] else 0
  {
    if bookings == [] then []
    else
      var rest := ForUser(bookings[1..], user);
      assert bookings == [bookings[0]] + bookings[1..];
      assert multiset(bookings) == multiset{bookings[0]} + multiset(bookings[1..]);
      if bookings[0].user == user then [bookings[0]] + rest else rest
  }

  /** `sort({ createdAt: -1 })`: store order is creation order, so newest first is the reverse. */
  function NewestFirst(bookings: seq<Booking>): (r: seq<Booking>)
    ensures |r| == |bookings|
    ensures forall i :: 0 <= i < |r| ==> r[i] == bookings[|bookings| - 1 - i]
    ensures IdsAscending(bookings) ==> forall i, j :: 0 <= i < j < |r| ==> r[i].id > r[j].id
  {
    if bookings == [] then [] else [bookings[|bookings| - 1]] + NewestFirst(bookings[..|bookings| - 1])
  }

  /** `getUserBookings`: the guest's own bookings, newest first. */
  function UserBookings(bookings: seq<Booking>, user: UserId): (r: seq<Booking>)
    ensures forall b :: b in r <==> b in bookings && b.user == user
    ensures forall b :: multiset(r)[b] == if b.user == user then multiset(bookings)[b] else 0
  {
    var mine := ForUser(bookings, user);
    NewestFirstSameMembers(mine);
    NewestFirst(mine)
  }

  /** `bookings.reduce((acc, booking) => acc + booking.totalPrice, 0)`, a left fold. */
  function SumPrices(bookings: seq<Booking>): (r: int)
    ensures (forall i :: 0 <= i < |bookings| ==> bookings[i].totalPrice >= 0) ==>
              r >= 0 && forall i :: 0 <= i < |bookings| ==> bookings[i].totalPrice <= r
  {
    if bookings == [] then 0
    else SumPrices(bookings[..|bookings| - 1]) + bookings[|bookings| - 1].totalPrice
  }

  /** Reference definition of a hotel's revenue: one pass over the store. */
  function RevenueOf(bookings: seq<Booking>, hotel: HotelId): int
  {
    if bookings == [] then 0
    else (if bookings[0].hotel == hotel then bookings[0].totalPrice else 0) + RevenueOf(bookings[1..], hotel)
  }

  /** Reference definition of a hotel's booking count: one pass over the store. */
  function CountOf(bookings: seq<Booking>, hotel: HotelId): nat
  {
    if bookings == [] then 0
    else (if bookings[0].hotel == hotel then 1 else 0) + CountOf(bookings[1..], hotel)
  }

  lemma {:induction false} SumPricesAppend(s: seq<Booking>, t: seq<Booking>)
    ensures SumPrices(s + t) == SumPrices(s) + SumPrices(t)
  {
    if t == [] {
      assert s + t == s;
    } else {
      assert (s + t)[..|s + t| - 1] == s + t[..|t| - 1];
      SumPricesAppend(s, t[..|t| - 1]);
    }
  }

  /** The order the listing comes in does not change the revenue. */
  lemma {:induction false} SumPricesNewestFirst(s: seq<Booking>)
    ensures SumPrices(NewestFirst(s)) == SumPrices(s)
  {
    if s != [] {
      var last, init := s[|s| - 1], s[..|s| - 1];
      SumPricesNewestFirst(init);
      assert NewestFirst(s) == [last] + NewestFirst(init);
      SumPricesAppend([last], NewestFirst(init));
      assert SumPrices([last]) == last.totalPrice by {
        assert [last][..0] == [];
      }
    }
  }

  lemma {:induction false} ForHotelMatchesReference(s: seq<Booking>, hotel: HotelId)
    ensures SumPrices(ForHotel(s, hotel)) == RevenueOf(s, hotel)
    ensures |ForHotel(s, hotel)| == CountOf(s, hotel)
  {
    if s != [] {
      ForHotelMatchesReference(s[1..], hotel);
      if s[0].hotel == hotel {
        SumPricesAppend([s[0]], ForHotel(s[1..], hotel));
        assert [s[0]][..0] == [];
      }
    }
  }

  /** What `getHotelBookings` replies. */
  datatype DashboardReply =
    | NoHotel
    | Dashboard(totalBookings: nat, totalRevenue: int, bookings: seq<Booking>)

  /**
   * `getHotelBookings`: find the owner's hotel, list its bookings newest
   * first, and report their number and the sum of their prices.
   */
  function HotelDashboard(hotels: seq<Hotel>, bookings: seq<Booking>, owner: UserId): (r: DashboardReply)
    ensures r.NoHotel? <==> forall h :: h in hotels ==> h.owner != owner
    ensures r.Dashboard? ==>
              var hotel := FindHotelByOwner(hotels, owner).value;
              && hotel.owner == owner
              && r.totalBookings == |r.bookings| == CountOf(bookings, hotel.id)
              && r.totalRevenue == RevenueOf(bookings, hotel.id)
              && (forall b :: b in r.bookings <==> b in bookings && b.hotel == hotel.id)
  {
    match FindHotelByOwner(hotels, owner)
    case None => NoHotel
    case Some(hotel) =>
      var listed := NewestFirst(ForHotel(bookings, hotel.id));
      ForHotelMatchesReference(bookings, hotel.id);
      SumPricesNewestFirst(ForHotel(bookings, hotel.id));
      NewestFirstSameMembers(ForHotel(bookings, hotel.id));
      Dashboard(|listed|, SumPrices(listed), listed)
  }

  /** Reordering newest first neither drops nor adds a booking. */
  lemma {:induction false} NewestFirstSameMembers(s: seq<Booking>)
    ensures multiset(NewestFirst(s)) == multiset(s)
    ensures forall b :: b in NewestFirst(s) <==> b in s
  {
    if s != [] {
      var init := s[..|s| - 1];
      NewestFirstSameMembers(init);
      assert s == init + [s[|s| - 1]];
      assert NewestFirst(s) == [s[|s| - 1]] + NewestFirst(init);
    }
  }

  /** A new booking adds one to its own hotel's count and its price to that hotel's revenue, and nothing to any other hotel. */
  lemma {:induction false} DashboardAfterAppend(s: seq<Booking>, b: Booking, hotel: HotelId)
    ensures CountOf(s + [b], hotel) == CountOf(s, hotel) + (if b.hotel == hotel then 1 else 0)
    ensures RevenueOf(s + [b], hotel) == RevenueOf(s, hotel) + (if b.hotel == hotel then b.totalPrice else 0)
  {
    if s == [] {
      assert s + [b] == [b];
    } else {
      assert (s + [b])[1..] == s[1..] + [b];
      DashboardAfterAppend(s[1..], b, hotel);
    }
  }

  // ---------------------------------------------------------------------
  // The checkout request of `stripePayment`

  /** Session metadata; the handler writes `bookingId` under the `metadata` key twice with one value, and an object literal keeps one. */
  datatype Metadata = Metadata(bookingId: Option<BookingId>)

  /** One entry of `line_items`, with `price_data` flattened; `unitAmount` is in cents. */
  datatype LineItem = LineItem(currency: string, productName: string, unitAmount: int, quantity: int)

  datatype CheckoutRequest = CheckoutRequest(
    lineItems: seq<LineItem>,
    mode: string,
    successUrl: string,
    cancelUrl: string,
    metadata: Metadata)

  /**
   * The session request `stripePayment` sends for a booking, or nothing
   * when the booking or its room is missing (the handler then fails with
   * "Payment Failed").
   */
  function CheckoutRequestFor(bookings: seq<Booking>, rooms: map<RoomId, Room>, bookingId: BookingId, origin: string)
      : (r: Option<CheckoutRequest>)
    ensures r.Some? <==> FindBooking(bookings, bookingId).Some? && FindBooking(bookings, bookingId).value.room in rooms
    ensures r.Some? ==>
              var booking := FindBooking(bookings, bookingId).value;
              && |r.value.lineItems| == 1
              && r.value.lineItems[0].quantity == 1
              && r.value.lineItems[0].unitAmount == booking.totalPrice * 100
              && r.value.lineItems[0].productName == rooms[booking.room].packageName
              && r.value.metadata.bookingId == Some(bookingId)
  {
    match FindBooking(bookings, bookingId)
    case None => None
    case Some(booking) =>
      if booking.room !in rooms then None
      else
        var roomData := rooms[booking.room];
        var item := LineItem("usd", roomData.packageName, booking.totalPrice * 100, 1);
        Some(CheckoutRequest([item], "payment", origin + "/loader/my-bookings", origin + "/my-bookings",
                             Metadata(Some(bookingId))))
  }
}
