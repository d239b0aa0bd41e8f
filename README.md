# Booking store of the tours and travels backend, in Dafny

This project models the state machine behind the booking backend of a hotel
and tour booking platform. Every request handler reads or writes one store.

- **Availability and booking creation** (`controllers/bookingController.js`).
  Requested dates are normalised to whole days: check-in goes to the first
  millisecond of its day, check-out to the last. A stored booking of the same
  room blocks the request when it starts before the requested check-out and
  ends after the requested check-in. Any failure during the check answers
  "not available". `createBooking` checks availability, resolves the room
  and its hotel, stores a pending unpaid "Pay At Hotel" booking, and only
  then compares the client's price with `pricePerNight * guests`. The same
  file holds the guest's booking list, the owner dashboard (count and revenue
  of the hotel's bookings) and the checkout request sent to the payment
  processor.
- **Payment confirmation** (`controllers/stripeWebhooks.js`). A verified
  `payment_intent.succeeded` event finds the booking id in the metadata of
  the first checkout session of the payment intent. It then sets
  `isPaid = true` and `paymentMethod = "Stripe"` on that booking.
- **User sync** (`controllers/clerkWebhooks.js`). A user event of the
  identity provider is mapped to a User record. `user.created`,
  `user.updated` and `user.deleted` then create, update or delete that user.

Times are integer milliseconds in local time, with `DAY = 86_400_000`, so
normalisation and overlap are exact integer facts. Prices are integers.
Calls into code outside the model are parameters of the model:
- `queryOk`: whether the availability query succeeds.
- `mailOk`: whether the confirmation mail is sent.
- `Option<StripeEvent>` / `Option<ClerkEvent>`: the result of signature verification, `None` when it throws.
- `sessionsFor`: the processor's session listing by payment intent.

The booking store is a class (`BookingController.BookingStore`). It holds
the bookings as a sequence in creation order and a counter that issues ids.
Its invariant (`StoreInvariant`) says four things:
- every id is below the next id to be issued;
- ids are unique and increase in creation order;
- stored dates are whole days;
- no two bookings of one room overlap.
Booking creation keeps the invariant because a booking is appended only
after the availability check has passed. Payment keeps it because payment
changes neither rooms nor dates. The user store is a class
(`ClerkWebhooks.UserStore`) over a map keyed by user id.

Behaviour of the code worth noting:
- Only `payment_intent.succeeded` is handled. The `checkout.session.completed` branch exists only in commented-out code.
- The update never sets `status` to confirmed.
- After a failed signature check the handler sends 400 but does not return, and then throws on the missing event. No booking changes.
- An empty session listing makes the handler throw. No reply is sent and no booking changes; the event is not acknowledged.
- The availability query ignores booking status, so cancelled bookings still block.
- `nights` counts the calendar days of the stay inclusively (`Dates.Nights`). It is computed and never used, so price and result do not depend on it.

## Model

| member | source | states |
|---|---|---|
| `Dates.StartOfDay` | controllers/bookingController.js:14-15 | the normalised check-in is the unique multiple of DAY at or below the time, on the same day |
| `Dates.EndOfDay` | controllers/bookingController.js:17-18 | the normalised check-out is the last millisecond of the same day (one below a multiple of DAY, at or above the time) |
| `Dates.Nights` | controllers/bookingController.js:77-78 | the ceiling of the normalised stay in days equals the inclusive count of calendar days, day(checkOut) - day(checkIn) + 1 |
| `Dates.CeilDiv` | controllers/bookingController.js:78 | `Math.ceil(x / d)` is the least integer r with x <= r * d |
| `Dates.NormalisedOverlapIsDayIntersection` | controllers/bookingController.js:14-24 | after normalisation the store's overlap test holds exactly when the two inclusive day ranges intersect |
| `Dates.CheckOutDayStillTaken` | controllers/bookingController.js:14-24 | a stay checking out on day d blocks a request checking in on day d, and not a request checking in on day d + 1 |
| `BookingModel.FindHotel` | controllers/bookingController.js:67-68 | the populated hotel is a stored hotel with the room's hotel id; missing exactly when no hotel has that id |
| `BookingModel.FindHotelByOwner` | controllers/bookingController.js:238-241 | the found hotel is owned by the owner; missing exactly when the owner owns no hotel |
| `BookingModel.FindBooking` | controllers/bookingController.js:265 | the found booking is stored and has the id; missing exactly when no booking has it |
| `BookingModel.RoomWithHotel` | controllers/bookingController.js:67-70 | room and hotel are found exactly when the room exists and its hotel reference resolves |
| `Availability.Conflicting` | controllers/bookingController.js:21-25 | the query returns exactly the stored bookings of the room that start before the check-out and end after the check-in |
| `Availability.IsAvailable` | controllers/bookingController.js:11-34 | available iff the query succeeds, both dates parse and no booking of the room overlaps the normalised range; any failure gives false, never true |
| `Availability.OtherRoomsNeverBlock` | controllers/bookingController.js:21-29 | adding bookings of other rooms never changes the answer |
| `Availability.AvailabilityReadsOnlySlots` | controllers/bookingController.js:21-29 | only room and dates of stored bookings matter; status, payment, price and guests are not consulted |
| `Availability.NewBookingBlocksIntersectingDays` | controllers/bookingController.js:21-29 | once a booking for room R is stored, a request for R whose days meet its days is refused; one whose days do not meet is answered as before |
| `Availability.AppendUnblockedKeepsNoDoubleBooking` | controllers/bookingController.js:58-93 | appending a booking that the availability query would not find keeps every room free of overlapping bookings |
| `Availability.NoDoubleBookingMeansDisjointDays` | controllers/bookingController.js:21-25 | two whole-day bookings of one room in a valid store occupy disjoint ranges of days |
| `BookingController.FinalPrice` | controllers/bookingController.js:80 | a non-zero client price is stored as sent, even when it differs from pricePerNight * guests; a missing or zero client price falls back to pricePerNight * guests; when the price check passes the stored price is pricePerNight * guests |
| `BookingController.CreateOutcome.Message` | controllers/bookingController.js:63-162 | the reply texts of createBooking: "Booking created successfully" exactly on success, "Room is not available" exactly when the room is taken |
| `BookingController.BookingStore.CreateBooking` | controllers/bookingController.js:52-164 | unavailable, or room or hotel missing: that failure and the store unchanged; otherwise exactly one booking appended with the next id, normalised dates, the guests, the final price, pending, "Pay At Hotel", unpaid; the reply is "Invalid total price" when the client price is not pricePerNight * guests (the booking stays), a mail failure otherwise fails, else success with the new id; the store invariant is kept |
| `BookingController.ForHotel` | controllers/bookingController.js:243 | the listing holds exactly the stored bookings of the hotel |
| `BookingController.ForUser` | controllers/bookingController.js:224 | the listing holds exactly the stored bookings of the user, each as often as it is stored |
| `BookingController.NewestFirst` | controllers/bookingController.js:227 | the listing sorted by creation time, newest first, is the store order reversed; with ids rising in creation order, its ids strictly decrease |
| `BookingController.NewestFirstSameMembers` | controllers/bookingController.js:227 | sorting newest first keeps exactly the same bookings, each as often as before |
| `BookingController.UserBookings` | controllers/bookingController.js:221-233 | the guest's list holds exactly the guest's stored bookings, each as often as it is stored |
| `BookingController.SumPrices` | controllers/bookingController.js:248-251 | the revenue fold; when every price is non-negative the total is non-negative and at least each single price |
| `BookingController.SumPricesNewestFirst` | controllers/bookingController.js:245-251 | folding the newest-first listing gives the same sum as folding in store order |
| `BookingController.ForHotelMatchesReference` | controllers/bookingController.js:243-251 | count and sum of the hotel's listing equal a one-pass count and sum over the store of the bookings with that hotel |
| `BookingController.HotelDashboard` | controllers/bookingController.js:236-260 | no hotel for the owner: failure; otherwise totalBookings is the number of the hotel's bookings, totalRevenue the sum of their prices, and the listing is exactly those bookings |
| `BookingController.DashboardAfterAppend` | controllers/bookingController.js:247-251 | a new booking adds one to its hotel's count and its price to that hotel's revenue, and nothing to other hotels |
| `BookingController.CheckoutRequestFor` | controllers/bookingController.js:262-297 | a request exists exactly when the booking and its room exist; it has one line item, quantity 1, unit amount totalPrice * 100, the room's package name, and metadata bookingId equal to the requested id |
| `StripeWebhooks.PaidByStripe` | controllers/stripeWebhooks.js:74-77 | the update sets isPaid and paymentMethod "Stripe" and no other field |
| `StripeWebhooks.MarkPaid` | controllers/stripeWebhooks.js:74-77 | update by id over the store: the length and every id are kept, and a booking is paid afterwards exactly when it was paid before or has the id |
| `StripeWebhooks.MarkPaidAt` | controllers/stripeWebhooks.js:74-77 | update by id: the booking with the id is updated, every other booking is unchanged, the length is kept |
| `StripeWebhooks.MarkPaidChangesOnlyPayment` | controllers/stripeWebhooks.js:74-77 | after the update only isPaid and paymentMethod of the matching booking differ; status and every other field stay |
| `StripeWebhooks.MarkPaidUnknownId` | controllers/stripeWebhooks.js:74-77 | an id that names no booking leaves the store unchanged |
| `StripeWebhooks.MarkPaidIdempotent` | controllers/stripeWebhooks.js:74-77 | marking a booking paid twice gives the same store as once |
| `StripeWebhooks.MarkPaidKeepsInvariant` | controllers/stripeWebhooks.js:74-77 | payment leaves rooms and dates as they were, so availability and the store invariant are kept |
| `StripeWebhooks.HandlePaymentEvent` | controllers/stripeWebhooks.js:47-83 | the handler as a transition: 400 exactly when verification fails; any reply other than the acknowledgement leaves the store unchanged; a payment_intent.succeeded event with a session listing is acknowledged and marks paid the booking named in the first session's metadata (nothing when it names none), and no other event changes the store |
| `StripeWebhooks.NoUpdateWithoutSession` | controllers/stripeWebhooks.js:53-80 | failed verification: 400 and no change; other event type: acknowledged, no change; empty session listing: no reply, no change |
| `StripeWebhooks.PaymentEventIdempotent` | controllers/stripeWebhooks.js:64-77 | delivering the same event twice leaves the store and reply as delivering it once |
| `StripeWebhooks.CheckoutThenPaymentMarksBookingPaid` | controllers/stripeWebhooks.js:64-77 | a payment event whose first session carries the checkout request's metadata marks exactly the requested booking paid and is acknowledged |
| `StripeWebhooks.StripeWebhook` | controllers/stripeWebhooks.js:47-83 | the handler's new store and reply are those of the transition; the store invariant and the id counter are kept |
| `Strings.Trim` | controllers/clerkWebhooks.js:26 | trimming yields a slice of the input with only white space cut from both ends, and no white space at either end |
| `ClerkWebhooks.OrEmpty` | controllers/clerkWebhooks.js:26-27 | a missing field gives "", a present one its own value |
| `ClerkWebhooks.FirstEmail` | controllers/clerkWebhooks.js:25 | the email is the first address's value when there is one, and "" otherwise |
| `ClerkWebhooks.Username` | controllers/clerkWebhooks.js:26 | the username is first name + " " + last name (missing parts as "") with only white space cut from both ends, and has no white space at either end |
| `ClerkWebhooks.UserData` | controllers/clerkWebhooks.js:23-28 | _id is the payload id; email is the first address's value when there is one, and otherwise ""; image is image_url when present, and otherwise ""; the username is the trimmed join of the names |
| `ClerkWebhooks.UsernameWithoutNames` | controllers/clerkWebhooks.js:26 | with both names missing the username is "" |
| `ClerkWebhooks.UsernameJoinsNames` | controllers/clerkWebhooks.js:26 | two non-empty names without outer white space give first + " " + last |
| `ClerkWebhooks.UsernameOfFirstNameOnly` | controllers/clerkWebhooks.js:26 | with the last name missing, a first name without outer white space is the username |
| `ClerkWebhooks.UsernameOfLastNameOnly` | controllers/clerkWebhooks.js:26 | with the first name missing, a last name without outer white space is the username |
| `ClerkWebhooks.HandleUserEvent` | controllers/clerkWebhooks.js:4-56 | the reply is 200 or 400; a 400 leaves the store unchanged; the new store is the old one, the old one with the mapped user stored under the payload id, or the old one without that id |
| `ClerkWebhooks.HandleUserEventKeepsKeys` | controllers/clerkWebhooks.js:30-49 | every event keeps each user stored under its own id |
| `ClerkWebhooks.OtherUsersUntouched` | controllers/clerkWebhooks.js:30-49 | no event adds, removes or changes a user other than the payload's |
| `ClerkWebhooks.CreatedAddsOneUser` | controllers/clerkWebhooks.js:31-34 | user.created for a new id stores the mapped user under that id, changes nothing else, and replies 200 |
| `ClerkWebhooks.UpdatedReplacesUser` | controllers/clerkWebhooks.js:36-39 | user.updated replaces the stored user with the mapped one; for an unknown id nothing changes; reply 200 |
| `ClerkWebhooks.DeletedRemovesUser` | controllers/clerkWebhooks.js:41-44 | user.deleted removes the payload id, changes nothing else, and replies 200 |
| `ClerkWebhooks.UnhandledEventChangesNothing` | controllers/clerkWebhooks.js:46-55 | an unknown event type with a payload leaves the store unchanged with 200; a failed verification leaves it unchanged with 400 |
| `ClerkWebhooks.CreateThenDeleteRestores` | controllers/clerkWebhooks.js:31-44 | deleting a user just created restores the store |
| `ClerkWebhooks.UserStore.ClerkWebhook` | controllers/clerkWebhooks.js:4-56 | the handler's new store and status are those of the transition, and users stay keyed by id |

## Left out

- Confirmation mail: the HTML body and the send are outbound I/O. Only whether sending fails (`mailOk`) is modelled, because it changes the reply and not the store.
- `downloadReceipt`: PDF rendering and file-system checks, with no store logic.
- The payment processor's SDK: event construction and signature check, session listing and session creation are inputs. The reply with the created session's URL is not modelled.
- The identity provider's signature verification is an input (`Option<ClerkEvent>`).
- Persistence failures other than the availability query are not modelled. They include an invalid id cast, a failing insert, and failing finds in the listings, dashboard and checkout. In the booking handlers each would turn the reply into the handler's generic failure.
- A failing `findByIdAndUpdate` in the payment webhook, or a metadata id that does not cast to a record id, throws outside any try/catch, so no reply is sent. The model treats the update as always succeeding and answers with the acknowledgement.
- `populate` of related records: listings return the stored booking records themselves.
- The record schemas (`models/*.js`) are not part of this model. Schema validation, defaults such as `createdAt`, and any User fields beyond id, email, username and image are not modelled. A duplicate user id on create is modelled as the unique-id error it raises.
- A session whose metadata has no `bookingId` is modelled as naming no booking. What the persistence layer does with an undefined id is not part of this model.
- Time: `Date`'s local time zone is folded into the integer millisecond clock. Daylight-saving days, whose length is not `DAY`, are not modelled. Unparsable dates are `None`.
- Numbers: prices and guests are unbounded integers. Floating-point rounding of `totalPrice * 100` and of the `nights` division is not modelled, nor are coercions such as `+guests` or a string `totalPrice`. A client price of `NaN` (also falsy) is not modelled.
- The reply of `checkAvailabilityAPI` (`{ success: true, isAvailable }`) is a plain wrapper around `Availability.IsAvailable`.
- Concurrency: the race between the availability check and the insert cannot arise in this sequential model.
- The commented-out earlier webhook handler and console logging.
- Express routing and the authentication middleware.
