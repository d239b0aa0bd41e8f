/**
 * Calendar-day arithmetic behind the booking dates. A time is an integer
 * count of milliseconds in local time since the epoch, so that a calendar
 * day is a block of DAY consecutive milliseconds starting at a multiple of
 * DAY.
 */
module Dates {

  /** Milliseconds in one day: 1000 * 3600 * 24. */
  const DAY: int := 86_400_000

  /** The index of the calendar day that contains `t`. */
  function DayOf(t: int): int
  {
    t / DAY
  }

  /** `setHours(0, 0, 0, 0)`: the first millisecond of the day of `t`. */
  function StartOfDay(t: int): (r: int)
    ensures r <= t < r + DAY
    ensures r % DAY == 0
    ensures DayOf(r) == DayOf(t)
  {
    t - t % DAY
  }

  /** `setHours(23, 59, 59, 999)`: the last millisecond of the day of `t`. */
  function EndOfDay(t: int): (r: int)
    ensures r - DAY < t <= r
    ensures (r + 1) % DAY == 0
    ensures DayOf(r) == DayOf(t)
  {
    StartOfDay(t) + DAY - 1
  }

  /** `Math.ceil(x / d)` for a positive divisor. */
  function CeilDiv(x: int, d: int): (r: int)
    requires d > 0
    ensures (r - 1) * d < x <= r * d
  {
    -((-x) / d)
  }

  /**
   * The `nights` figure of booking creation: the ceiling of the normalised
   * stay in days. It counts the calendar days of the stay inclusively,
   * so a same-day stay has one night and a two-day stay has two.
   */
  function Nights(checkIn: int, checkOut: int): (r: int)
    ensures r == DayOf(checkOut) - DayOf(checkIn) + 1
  {
    var diff := EndOfDay(checkOut) - StartOfDay(checkIn);
    StartIsDayTimesDAY(checkIn);
    StartIsDayTimesDAY(checkOut);
    assert diff == (DayOf(checkOut) - DayOf(checkIn) + 1) * DAY - 1;
    CeilDivOfMultipleMinusOne(DayOf(checkOut) - DayOf(checkIn) + 1, diff);
    CeilDiv(diff, DAY)
  }

  lemma StartIsDayTimesDAY(t: int)
    ensures StartOfDay(t) == DayOf(t) * DAY
    ensures EndOfDay(t) == DayOf(t) * DAY + DAY - 1
  {
  }

  lemma CeilDivOfMultipleMinusOne(k: int, x: int)
    requires x == k * DAY - 1
    ensures CeilDiv(x, DAY) == k
  {
    var r := CeilDiv(x, DAY);
    assert (r - 1) * DAY < k * DAY && (k - 1) * DAY < r * DAY;
    assert r - 1 < k && k - 1 < r;
  }

  /**
   * Normalising check-in down and check-out up turns the store's overlap
   * test into an intersection of inclusive ranges of calendar days: the
   * range from the day of `existingIn` to the day of `existingOut` meets the
   * range from the day of `requestIn` to the day of `requestOut`.
   */
  lemma {:induction false} NormalisedOverlapIsDayIntersection(existingIn: int, existingOut: int, requestIn: int, requestOut: int)
    ensures (StartOfDay(existingIn) < EndOfDay(requestOut) && EndOfDay(existingOut) > StartOfDay(requestIn))
        <==> (DayOf(existingIn) <= DayOf(requestOut) && DayOf(requestIn) <= DayOf(existingOut))
  {
    StartIsDayTimesDAY(existingIn);
    StartIsDayTimesDAY(existingOut);
    StartIsDayTimesDAY(requestIn);
    StartIsDayTimesDAY(requestOut);
    MultipleBelowEnd(DayOf(existingIn), DayOf(requestOut));
    MultipleBelowEnd(DayOf(requestIn), DayOf(existingOut));
  }

  lemma MultipleBelowEnd(a: int, b: int)
    ensures a * DAY < b * DAY + DAY - 1 <==> a <= b
  {
    if a <= b {
      assert a * DAY <= b * DAY;
    } else {
      assert a * DAY >= (b + 1) * DAY;
    }
  }

  /**
   * A stay that checks out on day `d` blocks a request that checks in on
   * day `d`, but not one that checks in on day `d + 1`.
   */
  lemma {:induction false} CheckOutDayStillTaken(existingIn: int, existingOut: int, reqIn: int, requestOut: int)
    requires DayOf(existingIn) <= DayOf(existingOut) <= DayOf(requestOut)
    requires DayOf(reqIn) == DayOf(existingOut)
    ensures StartOfDay(existingIn) < EndOfDay(requestOut) && EndOfDay(existingOut) > StartOfDay(reqIn)
    ensures forall nextIn :: DayOf(nextIn) == DayOf(existingOut) + 1 ==> !(EndOfDay(existingOut) > StartOfDay(nextIn))
  {
    NormalisedOverlapIsDayIntersection(existingIn, existingOut, reqIn, requestOut);
    forall nextIn | DayOf(nextIn) == DayOf(existingOut) + 1
      ensures !(EndOfDay(existingOut) > StartOfDay(nextIn))
    {
      StartIsDayTimesDAY(existingOut);
      StartIsDayTimesDAY(nextIn);
    }
  }
}
