/**
 * The availability check: which stored bookings conflict with a requested
 * stay, and whether the room is free. Also the store-wide invariant that the
 * check protects: no two bookings of one room overlap.
 */
module Availability {
  import opened Wrappers
  import opened Dates
  import opened BookingModel

  /**
   * The range test of the availability query: the booking starts before the
   * requested check-out and ends after the requested check-in.
   */
  predicate Overlaps(b: Booking, checkIn: int, checkOut: int)
  {
    b.checkInDate < checkOut && b.checkOutDate > checkIn
  }

  /** The whole query filter: same room, overlapping range. */
  predicate Blocks(b: Booking, room: RoomId, checkIn: int, checkOut: int)
  {
    b.room == room && Overlaps(b, checkIn, checkOut)
  }

  /** The bookings the availability query returns, in store order. */
  function Conflicting(bookings: seq<Booking>, room: RoomId, checkIn: int, checkOut: int): (r: seq<Booking>)
    ensures |r| <= |bookings|
    ensures forall b :: b in r ==> b in bookings && Blocks(b, room, checkIn, checkOut)
    ensures forall b :: b in bookings && Blocks(b, room, checkIn, checkOut) ==> b in r
  {
    if bookings == [] then []
    else
      var rest := Conflicting(bookings[1..], room, checkIn, checkOut);
      assert forall b :: b in bookings ==> b == bookings[0] || b in bookings[1..];
      if Blocks(bookings[0], room, checkIn, checkOut) then [bookings[0]] + rest else rest
  }

  /** No stored booking blocks the (already normalised) range. */
  predicate NoConflict(bookings: seq<Booking>, room: RoomId, checkIn: int, checkOut: int)
  {
    forall i :: 0 <= i < |bookings| ==> !Blocks(bookings[i], room, checkIn, checkOut)
  }

  /**
   * `checkAvailability`. A date that does not parse (`None`) or a failing
   * query (`!queryOk`) makes the query throw, and the handler then answers
   * "not available". Otherwise the dates are normalised to whole days and
   * the room is available when the query finds nothing.
   */
  function IsAvailable(bookings: seq<Booking>, room: RoomId, checkIn: Option<int>, checkOut: Option<int>, queryOk: bool): (r: bool)
    ensures r <==> queryOk && checkIn.Some? && checkOut.Some?
                   && NoConflict(bookings, room, StartOfDay(checkIn.value), EndOfDay(checkOut.value))
  {
    if !queryOk || checkIn.None? || checkOut.None? then false
    else
      var conflicts := Conflicting(bookings, room, StartOfDay(checkIn.value), EndOfDay(checkOut.value));
      assert conflicts == [] <==> NoConflict(bookings, room, StartOfDay(checkIn.value), EndOfDay(checkOut.value)) by {
        if conflicts != [] {
          assert conflicts[0] in conflicts;
        }
        if !NoConflict(bookings, room, StartOfDay(checkIn.value), EndOfDay(checkOut.value)) {
          var i :| 0 <= i < |bookings| && Blocks(bookings[i], room, StartOfDay(checkIn.value), EndOfDay(checkOut.value));
          assert bookings[i] in bookings;
        }
      }
      |conflicts| == 0
  }

  /** Bookings of other rooms never change the answer. */
  lemma {:induction false} OtherRoomsNeverBlock(bookings: seq<Booking>, others: seq<Booking>, room: RoomId,
                                                checkIn: Option<int>, checkOut: Option<int>, queryOk: bool)
    requires forall i :: 0 <= i < |others| ==> others[i].room != room
    ensures IsAvailable(bookings + others, room, checkIn, checkOut, queryOk) == IsAvailable(bookings, room, checkIn, checkOut, queryOk)
  {
    var all := bookings + others;
    assert forall i :: 0 <= i < |all| ==> all[i] == if i < |bookings| then bookings[i] else others[i - |bookings|];
  }

  /** The bookings' room and dates agree position by position. */
  predicate SameSlots(s: seq<Booking>, t: seq<Booking>)
  {
    |s| == |t| &&
    forall i :: 0 <= i < |s| ==>
      s[i].room == t[i].room && s[i].checkInDate == t[i].checkInDate && s[i].checkOutDate == t[i].checkOutDate
  }

  /**
   * Only the room and the dates of stored bookings matter: their status,
   * payment state, price, guests and owner are not consulted.
   */
  lemma {:induction false} AvailabilityReadsOnlySlots(s: seq<Booking>, t: seq<Booking>, room: RoomId,
                                                      checkIn: Option<int>, checkOut: Option<int>, queryOk: bool)
    requires SameSlots(s, t)
    ensures IsAvailable(s, room, checkIn, checkOut, queryOk) == IsAvailable(t, room, checkIn, checkOut, queryOk)
  {
    if queryOk && checkIn.Some? && checkOut.Some? {
      var ci, co := StartOfDay(checkIn.value), EndOfDay(checkOut.value);
      assert forall i :: 0 <= i < |s| ==> (Blocks(s[i], room, ci, co) <==> Blocks(t[i], room, ci, co));
    }
  }

  /** A booking whose dates are whole days, as booking creation stores them. */
  predicate Normalised(b: Booking)
  {
    b.checkInDate == StartOfDay(b.checkInDate) && b.checkOutDate == EndOfDay(b.checkOutDate)
  }

  /**
   * A stored stay blocks exactly the requests whose inclusive day range
   * meets its own: after booking room R from day `DayOf(bookIn)` to day
   * `DayOf(bookOut)`, a request for R is refused when its days intersect
   * those, and is answered as before when they do not.
   */
  lemma {:induction false} NewBookingBlocksIntersectingDays(bookings: seq<Booking>, b: Booking, bookIn: int, bookOut: int,
                                                            reqIn: int, reqOut: int, queryOk: bool)
    requires b.checkInDate == StartOfDay(bookIn) && b.checkOutDate == EndOfDay(bookOut)
    ensures DayOf(bookIn) <= DayOf(reqOut) && DayOf(reqIn) <= DayOf(bookOut)
            ==> !IsAvailable(bookings + [b], b.room, Some(reqIn), Some(reqOut), queryOk)
    ensures !(DayOf(bookIn) <= DayOf(reqOut) && DayOf(reqIn) <= DayOf(bookOut))
            ==> IsAvailable(bookings + [b], b.room, Some(reqIn), Some(reqOut), queryOk)
                == IsAvailable(bookings, b.room, Some(reqIn), Some(reqOut), queryOk)
  {
    NormalisedOverlapIsDayIntersection(bookIn, bookOut, reqIn, reqOut);
    var all := bookings + [b];
    assert all[|bookings|] == b;
    assert forall i :: 0 <= i < |bookings| ==> all[i] == bookings[i];
  }

  /** No two bookings of the same room overlap. */
  predicate NoDoubleBooking(bookings: seq<Booking>)
  {
    forall i, j :: 0 <= i < j < |bookings| && bookings[i].room == bookings[j].room ==>
      !Overlaps(bookings[i], bookings[j].checkInDate, bookings[j].checkOutDate)
  }

  /** Appending a booking the availability query would not have found keeps rooms free of double bookings. */
  lemma {:induction false} AppendUnblockedKeepsNoDoubleBooking(bookings: seq<Booking>, b: Booking)
    requires NoDoubleBooking(bookings)
    requires NoConflict(bookings, b.room, b.checkInDate, b.checkOutDate)
    ensures NoDoubleBooking(bookings + [b])
  {
    var all := bookings + [b];
    forall i, j | 0 <= i < j < |all| && all[i].room == all[j].room
      ensures !Overlaps(all[i], all[j].checkInDate, all[j].checkOutDate)
    {
      if j == |bookings| {
        assert all[j] == b && all[i] == bookings[i];
        assert !Blocks(bookings[i], b.room, b.checkInDate, b.checkOutDate);
      } else {
        assert all[i] == bookings[i] && all[j] == bookings[j];
      }
    }
  }

  /**
   * With whole-day dates, bookings of one room that pass the overlap test
   * occupy disjoint inclusive ranges of calendar days.
   */
  lemma {:induction false} NoDoubleBookingMeansDisjointDays(bookings: seq<Booking>, i: int, j: int)
    requires NoDoubleBooking(bookings)
    requires 0 <= i < j < |bookings| && bookings[i].room == bookings[j].room
    requires Normalised(bookings[i]) && Normalised(bookings[j])
    ensures DayOf(bookings[i].checkOutDate) < DayOf(bookings[j].checkInDate)
         || DayOf(bookings[j].checkOutDate) < DayOf(bookings[i].checkInDate)
  {
    var a, b := bookings[i], bookings[j];
    NormalisedOverlapIsDayIntersection(a.checkInDate, a.checkOutDate, b.checkInDate, b.checkOutDate);
  }
}
