/**
 * The records the booking handlers read and write: rooms, hotels and
 * bookings, with the point lookups the handlers make on them.
 */
module BookingModel {
  import opened Wrappers

  /** Booking ids are issued in creation order, so a larger id is a later booking. */
  type BookingId = nat
  type RoomId = string
  type HotelId = string
  type UserId = string

  datatype Status = Pending | Confirmed | Cancelled

  /** The two values the handlers write: "Pay At Hotel" and "Stripe". */
  datatype PaymentMethod = PayAtHotel | Stripe

  datatype Hotel = Hotel(id: HotelId, owner: UserId, name: string, address: string)

  datatype Room = Room(id: RoomId, hotel: HotelId, packageName: string, pricePerNight: int)

  /** A stored booking; `checkInDate` and `checkOutDate` are millisecond times. */
  datatype Booking = Booking(
    id: BookingId,
    user: UserId,
    room: RoomId,
    hotel: HotelId,
    guests: int,
    checkInDate: int,
    checkOutDate: int,
    totalPrice: int,
    status: Status,
    paymentMethod: PaymentMethod,
    isPaid: bool)

  /** The hotel a room's `hotel` reference resolves to under `populate("hotel")`: the first hotel with that id. */
  function FindHotel(hotels: seq<Hotel>, id: HotelId): (r: Option<Hotel>)
    ensures r.Some? ==> r.value in hotels && r.value.id == id
    ensures r.None? <==> forall h :: h in hotels ==> h.id != id
  {
    if hotels == [] then None
    else if hotels[0].id == id then Some(hotels[0])
    else FindHotel(hotels[1..], id)
  }

  /** `Hotel.findOne({ owner })`: the first hotel that the owner owns. */
  function FindHotelByOwner(hotels: seq<Hotel>, owner: UserId): (r: Option<Hotel>)
    ensures r.Some? ==> r.value in hotels && r.value.owner == owner
    ensures r.None? <==> forall h :: h in hotels ==> h.owner != owner
  {
    if hotels == [] then None
    else if hotels[0].owner == owner then Some(hotels[0])
    else FindHotelByOwner(hotels[1..], owner)
  }

  /** `Booking.findById`: the booking with that id, if one is stored. */
  function FindBooking(bookings: seq<Booking>, id: BookingId): (r: Option<Booking>)
    ensures r.Some? ==> r.value in bookings && r.value.id == id
    ensures r.None? <==> forall b :: b in bookings ==> b.id != id
  {
    if bookings == [] then None
    else if bookings[0].id == id then Some(bookings[0])
    else FindBooking(bookings[1..], id)
  }

  /**
   * `Room.findById(room).populate("hotel")`: the room and its hotel, or
   * nothing when the room is missing or its hotel reference resolves to no
   * hotel.
   */
  function RoomWithHotel(rooms: map<RoomId, Room>, hotels: seq<Hotel>, room: RoomId): (r: Option<(Room, Hotel)>)
    ensures r.Some? <==> room in rooms && FindHotel(hotels, rooms[room].hotel).Some?
    ensures r.Some? ==> r.value.0 == rooms[room] && r.value.1 in hotels && r.value.1.id == rooms[room].hotel
  {
    if room !in rooms then None
    else
      match FindHotel(hotels, rooms[room].hotel)
      case None => None
      case Some(h) => Some((rooms[room], h))
  }
}
