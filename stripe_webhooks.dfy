/**
 * The payment processor's webhook: a verified `payment_intent.succeeded`
 * event marks the booking named in its checkout session's metadata as paid.
 */
module StripeWebhooks {
  import opened Wrappers
  import opened BookingModel
  import opened Availability
  import opened BookingController

  const PaymentSucceeded: string := "payment_intent.succeeded"

  /** A verified event: its type and the id of the object it carries (for a payment event, the payment intent). */
  datatype StripeEvent = StripeEvent(eventType: string, objectId: string)

  /** A checkout session as the session listing returns it. */
  datatype CheckoutSession = CheckoutSession(metadata: Metadata)

  datatype WebhookReply =
    | SignatureRejected  // 400 is sent; the handler then throws reading the type of the missing event
    | SessionMissing     // the first listed session is undefined; the handler throws and sends no reply
    | Received           // { received: true }

  /** The fields `findByIdAndUpdate(bookingId, { isPaid: true, paymentMethod: "Stripe" })` sets. */
  function PaidByStripe(b: Booking): (r: Booking)
    ensures r.isPaid && r.paymentMethod == Stripe
    ensures r.(isPaid := b.isPaid, paymentMethod := b.paymentMethod) == b
  {
    b.(isPaid := true, paymentMethod := Stripe)
  }

  /** The store after the update by id: the booking with that id is paid by the processor. */
  function MarkPaid(bookings: seq<Booking>, id: BookingId): (r: seq<Booking>)
    ensures |r| == |bookings|
    ensures forall i :: 0 <= i < |r| ==>
              r[i].id == bookings[i].id && r[i].isPaid == (bookings[i].isPaid || bookings[i].id == id)
  {
    if bookings == [] then []
    else [if bookings[0].id == id then PaidByStripe(bookings[0]) else bookings[0]] + MarkPaid(bookings[1..], id)
  }

  /** Position by position: the booking with the id is updated, every other booking is left as it was. */
  lemma {:induction false} MarkPaidAt(bookings: seq<Booking>, id: BookingId)
    ensures |MarkPaid(bookings, id)| == |bookings|
    ensures forall i :: 0 <= i < |bookings| ==>
              MarkPaid(bookings, id)[i] == if bookings[i].id == id then PaidByStripe(bookings[i]) else bookings[i]
  {
    if bookings != [] {
      MarkPaidAt(bookings[1..], id);
    }
  }

  /**
   * Only `isPaid` and `paymentMethod` of the booking with the id change;
   * its status, dates, price and everything else, and every other booking,
   * stay as they were.
   */
  lemma MarkPaidChangesOnlyPayment(bookings: seq<Booking>, id: BookingId)
    ensures var r := MarkPaid(bookings, id);
            && |r| == |bookings|
            && forall i :: 0 <= i < |r| ==>
                 && r[i].(isPaid := bookings[i].isPaid, paymentMethod := bookings[i].paymentMethod) == bookings[i]
                 && r[i].isPaid == (bookings[i].isPaid || bookings[i].id == id)
                 && r[i].paymentMethod == (if bookings[i].id == id then Stripe else bookings[i].paymentMethod)
  {
    MarkPaidAt(bookings, id);
  }

  /** An id that names no booking changes nothing. */
  lemma {:induction false} MarkPaidUnknownId(bookings: seq<Booking>, id: BookingId)
    requires forall i :: 0 <= i < |bookings| ==> bookings[i].id != id
    ensures MarkPaid(bookings, id) == bookings
  {
    if bookings != [] {
      MarkPaidUnknownId(bookings[1..], id);
    }
  }

  /** Marking a booking paid a second time changes nothing. */
  lemma {:induction false} MarkPaidIdempotent(bookings: seq<Booking>, id: BookingId)
    ensures MarkPaid(MarkPaid(bookings, id), id) == MarkPaid(bookings, id)
  {
    if bookings != [] {
      MarkPaidIdempotent(bookings[1..], id);
    }
  }

  /** Payment keeps the store invariant, and with it no room becomes double-booked or frees up. */
  lemma MarkPaidKeepsInvariant(bookings: seq<Booking>, nextId: BookingId, id: BookingId)
    ensures SameSlots(bookings, MarkPaid(bookings, id))
    ensures StoreInvariant(bookings, nextId) ==> StoreInvariant(MarkPaid(bookings, id), nextId)
  {
    MarkPaidAt(bookings, id);
    SameSlotsAndIdsKeepInvariant(bookings, MarkPaid(bookings, id), nextId);
  }

  /** The store invariant reads only ids, rooms and dates. */
  lemma SameSlotsAndIdsKeepInvariant(s: seq<Booking>, t: seq<Booking>, nextId: BookingId)
    requires SameSlots(s, t)
    requires forall i :: 0 <= i < |s| ==> t[i].id == s[i].id
    ensures StoreInvariant(s, nextId) ==> StoreInvariant(t, nextId)
  {
  }

  datatype WebhookResult = WebhookResult(bookings: seq<Booking>, reply: WebhookReply)

  /**
   * `stripeWebhooks` as a transition of the store. `event` is the result of
   * signature verification (`None` when it throws); `sessionsFor` is the
   * processor's session listing by payment intent.
   */
  function HandlePaymentEvent(bookings: seq<Booking>, event: Option<StripeEvent>,
                              sessionsFor: string -> seq<CheckoutSession>): (r: WebhookResult)
    ensures r.reply == SignatureRejected <==> event.None?
    ensures r.reply != Received ==> r.bookings == bookings
    ensures r.bookings != bookings ==>
              && event.Some? && event.value.eventType == PaymentSucceeded
              && var sessions := sessionsFor(event.value.objectId);
                 && sessions != [] && sessions[0].metadata.bookingId.Some?
                 && r.bookings == MarkPaid(bookings, sessions[0].metadata.bookingId.value)
    ensures event.Some? && event.value.eventType == PaymentSucceeded && sessionsFor(event.value.objectId) != [] ==>
              && r.reply == Received
              && r.bookings == match sessionsFor(event.value.objectId)[0].metadata.bookingId
                               case None => bookings
                               case Some(id) => MarkPaid(bookings, id)
  {
    match event
    case None => WebhookResult(bookings, SignatureRejected)
    case Some(e) =>
      if e.eventType != PaymentSucceeded then WebhookResult(bookings, Received)
      else
        var sessions := sessionsFor(e.objectId);
        if sessions == [] then WebhookResult(bookings, SessionMissing)
        else
          match sessions[0].metadata.bookingId
          case None => WebhookResult(bookings, Received)
          case Some(id) => WebhookResult(MarkPaid(bookings, id), Received)
  }

  /**
   * Every path that does not reach the update leaves the store as it was: a
   * failed verification, another event type, an empty session listing.
   */
  lemma NoUpdateWithoutSession(bookings: seq<Booking>, event: Option<StripeEvent>,
                               sessionsFor: string -> seq<CheckoutSession>)
    ensures var r := HandlePaymentEvent(bookings, event, sessionsFor);
            && (event.None? ==> r == WebhookResult(bookings, SignatureRejected))
            && (event.Some? && event.value.eventType != PaymentSucceeded ==> r == WebhookResult(bookings, Received))
            && (event.Some? && event.value.eventType == PaymentSucceeded && sessionsFor(event.value.objectId) == []
                ==> r == WebhookResult(bookings, SessionMissing))
  {
  }

  /** Delivering the same event twice leaves the store as delivering it once. */
  lemma PaymentEventIdempotent(bookings: seq<Booking>, event: Option<StripeEvent>,
                               sessionsFor: string -> seq<CheckoutSession>)
    ensures var once := HandlePaymentEvent(bookings, event, sessionsFor);
            HandlePaymentEvent(once.bookings, event, sessionsFor) == once
  {
    if event.Some? && event.value.eventType == PaymentSucceeded {
      var sessions := sessionsFor(event.value.objectId);
      if sessions != [] && sessions[0].metadata.bookingId.Some? {
        MarkPaidIdempotent(bookings, sessions[0].metadata.bookingId.value);
      }
    }
  }

  /**
   * The checkout request carries the booking id in its metadata, so the
   * payment event of a session created from it marks that very booking paid
   * and leaves the rest of the store alone.
   */
  lemma CheckoutThenPaymentMarksBookingPaid(bookings: seq<Booking>, rooms: map<RoomId, Room>, bookingId: BookingId,
                                            origin: string, paymentIntent: string,
                                            sessionsFor: string -> seq<CheckoutSession>)
    requires CheckoutRequestFor(bookings, rooms, bookingId, origin).Some?
    requires sessionsFor(paymentIntent) != []
    requires sessionsFor(paymentIntent)[0].metadata == CheckoutRequestFor(bookings, rooms, bookingId, origin).value.metadata
    ensures var r := HandlePaymentEvent(bookings, Some(StripeEvent(PaymentSucceeded, paymentIntent)), sessionsFor);
            && r.reply == Received
            && |r.bookings| == |bookings|
            && forall i :: 0 <= i < |bookings| ==>
                 r.bookings[i] == if bookings[i].id == bookingId then PaidByStripe(bookings[i]) else bookings[i]
    ensures exists i :: 0 <= i < |bookings| && bookings[i].id == bookingId
  {
    MarkPaidAt(bookings, bookingId);
    var b := FindBooking(bookings, bookingId).value;
    var i :| 0 <= i < |bookings| && bookings[i] == b;
  }

  /**
   * `stripeWebhooks`: verify, dispatch on the event type, recover the
   * booking id through the first session of the payment intent, and mark
   * that booking paid.
   */
  method StripeWebhook(store: BookingStore, event: Option<StripeEvent>,
                       sessionsFor: string -> seq<CheckoutSession>) returns (reply: WebhookReply)
    requires store.Valid()
    modifies store
    ensures store.Valid()
    ensures store.nextId == old(store.nextId)
    ensures WebhookResult(store.bookings, reply) == HandlePaymentEvent(old(store.bookings), event, sessionsFor)
  {
    if event.None? {
      return SignatureRejected;
    }
    var e := event.value;
    if e.eventType == PaymentSucceeded {
      var sessions := sessionsFor(e.objectId);
      if |sessions| == 0 {
        return SessionMissing;
      }
      var bookingId := sessions[0].metadata.bookingId;
      if bookingId.Some? {
        MarkPaidKeepsInvariant(store.bookings, store.nextId, bookingId.value);
        store.bookings := MarkPaid(store.bookings, bookingId.value);
      }
    }
    return Received;
  }
}
