# Flight management backend: seat ledger, pricing and booking lifecycle

A Dafny model of the core of an airline booking backend (a Spring
service layer over JPA repositories):

- **Seat classes** (`seat_category.dfy`): the three classes ECONOMY,
  BUSINESS and EXECUTIVE, their text values, and the case-insensitive
  parse `fromValue`.
- **Seat ledger** (`flight_schedule.dfy`): a `FlightSchedule` class. It
  holds a booked count and a total capacity per seat class for one flight
  on one travel date. It checks availability, reserves seats, and releases
  seats (the count is clamped at zero). It is proved against value-level
  `Reserve` and `Release`, and against the capacity invariant
  `0 <= booked <= total`.
- **Pricing** (`pricing.dfy`):
  - the booking discount: an advance-purchase tier, a customer-category
    rate and a bulk rate, applied per seat, capped at the gross fare, and
    rounded half up to cents;
  - the discount reason text;
  - the refund on cancellation.
- **Booking lifecycle** (`booking_service.dfy`): a `BookingService` class
  over flight, user, ledger and booking stores. Ledgers are `FlightSchedule`
  objects keyed by (flight, travel date). `bookFlight` and `cancelBooking`
  are proved equal to the pure functions `BookSpec` and `CancelSpec` over a
  value snapshot of the stores. The lemmas about those functions state:
  - the error order;
  - the effects of success;
  - that booking and cancelling both preserve a store invariant, so no
    ledger is ever overbooked;
  - that a booking cannot be cancelled twice;
  - that booking and then cancelling gives the seats back.
- **Carriers** (`carrier_service.dfy`): percentage validation, unique
  names, registration, update and soft delete.
- **Users** (`user_service.dfy`):
  - registration of customers (with defaults) and of administrators;
  - duplicate name and e-mail checks;
  - login, profile update and deletion.

Conventions:

- Money is held in cents.
- A percentage times a fare in cents gives hundredths of a cent. The
  discount is computed exactly at that scale and rounded once.
- Stored percentages (a carrier's refund and discount) are in basis
  points, the two decimals the database column keeps.
- Dates are epoch days. The current date is a parameter, `today`, used
  for both the discount and its reason text.
- Exceptions become `Err` values carrying the exact message the service
  throws.

Where the service code and the entity annotations disagree, the model
follows the service code:

- `registerAdmin` stores an administrator with no customer category
  (`UserService.java:87-88`), although `User.java:30-33` declares the
  category required.
- Booking as such a user fails in the discount's `switch` with a
  `NullPointerException`. The model reports it as `NullPointer`.

`BookingStatus.java` is not part of this model. The two statuses the
service uses, BOOKED and CANCELLED, are the ones modelled.

## Model

| member | source | states |
|---|---|---|
| `SeatCategories.GetValue` | backend/src/main/java/com/airline/flightmanagement/entity/SeatCategory.java:7-20 | each category's value is a non-empty upper-case name |
| `SeatCategories.FindCategory` | backend/src/main/java/com/airline/flightmanagement/entity/SeatCategory.java:24-28 | the search returns a candidate whose value equals the text ignoring case, and returns nothing exactly when no candidate matches |
| `SeatCategories.ValuesListsAll` | backend/src/main/java/com/airline/flightmanagement/entity/SeatCategory.java:6-9 | `values()` lists every category |
| `SeatCategories.FromValue` | backend/src/main/java/com/airline/flightmanagement/entity/SeatCategory.java:22-30 | the result is a category whose value matches the text ignoring case; otherwise it fails with IllegalArgument "Unknown SeatCategory: <text>", and that happens exactly when no category matches |
| `SeatCategories.ValuesDistinctIgnoringCase` | backend/src/main/java/com/airline/flightmanagement/entity/SeatCategory.java:7-9 | no text matches two different categories ignoring case, so the search order does not decide the answer |
| `SeatCategories.FromValueMatches` | backend/src/main/java/com/airline/flightmanagement/entity/SeatCategory.java:23-28 | any text equal to a category's value ignoring case parses to that category |
| `SeatCategories.FromValueRoundTrip` | backend/src/main/java/com/airline/flightmanagement/entity/SeatCategory.java:17-30 | `fromValue(c.getValue()) == c` for every category |
| `SeatCategories.FromValueLowerCase` | backend/src/main/java/com/airline/flightmanagement/entity/SeatCategory.java:24-26 | the all-lower-case spelling of a value parses to its category |
| `SeatCategories.FromValueExamples` | backend/src/main/java/com/airline/flightmanagement/entity/SeatCategory.java:24-26 | "economy" parses to ECONOMY and "Business" to BUSINESS |
| `SeatCategories.FromValueUnknownExample` | backend/src/main/java/com/airline/flightmanagement/entity/SeatCategory.java:29 | "FIRST" is rejected with "Unknown SeatCategory: FIRST" |
| `Schedules.ReserveWithinIffFits` | backend/src/main/java/com/airline/flightmanagement/entity/FlightSchedule.java:130-155 | from a ledger within capacity, reserving n >= 0 seats keeps it within capacity exactly when the availability check would pass; the increment checks nothing itself |
| `Schedules.ReleaseKeepsWithin` | backend/src/main/java/com/airline/flightmanagement/entity/FlightSchedule.java:157-169 | releasing seats keeps a ledger within capacity and never leaves a negative count |
| `Schedules.ReleaseUndoesReserve` | backend/src/main/java/com/airline/flightmanagement/entity/FlightSchedule.java:143-169 | releasing n seats just reserved restores the counts, when the class's count started non-negative |
| `Schedules.FlightSchedule.constructor` | backend/src/main/java/com/airline/flightmanagement/entity/FlightSchedule.java:46-54 | a new ledger has the given flight and date, nothing booked, and the given capacities |
| `Schedules.FlightSchedule.HasAvailableSeats` | backend/src/main/java/com/airline/flightmanagement/entity/FlightSchedule.java:130-141 | true exactly when booked plus requested is at most the class's capacity |
| `Schedules.FlightSchedule.IncrementBookedCount` | backend/src/main/java/com/airline/flightmanagement/entity/FlightSchedule.java:143-155 | adds the seats to the one class's count; the other counts, the capacities and the key stay the same; the capacity invariant is kept when the availability check held before |
| `Schedules.FlightSchedule.DecrementBookedCount` | backend/src/main/java/com/airline/flightmanagement/entity/FlightSchedule.java:157-169 | sets the class's count to max(0, count - seats), never negative; nothing else changes; the capacity invariant is kept |
| `Schedules.ReserveThenRelease` | backend/src/main/java/com/airline/flightmanagement/entity/FlightSchedule.java:143-169 | incrementing and then decrementing a ledger by the same seats leaves it as it was |
| `Pricing.RoundHalfUp` | backend/src/main/java/com/airline/flightmanagement/service/BookingService.java:180 | the result is the nearest integer to x/d, with halves rounded away from zero |
| `Pricing.RoundHalfUpMonotone` | backend/src/main/java/com/airline/flightmanagement/service/BookingService.java:180 | rounding keeps the order of non-negative amounts |
| `Pricing.AdvancePercentMonotone` | backend/src/main/java/com/airline/flightmanagement/service/BookingService.java:132-142 | the advance tier never decreases as the travel date moves later |
| `Pricing.RateBounds` | backend/src/main/java/com/airline/flightmanagement/service/BookingService.java:131-169 | the summed per-seat rate is between 0% and 50% |
| `Pricing.CalculateDiscount` | backend/src/main/java/com/airline/flightmanagement/service/BookingService.java:128-181 | the discount in cents: the advance, category and bulk rates summed, applied to the fare for every seat, capped at the gross fare, rounded half up once; `DiscountBounds` proves it lies between 0 and the gross and is 0 for a zero rate, and `ZeroDiscountIffNoRule` that it is 0 exactly when no rule applies (fare of at least ten cents, at least one seat) |
| `Pricing.DiscountBounds` | backend/src/main/java/com/airline/flightmanagement/service/BookingService.java:172-180 | the discount is between 0 and the gross fare; the cap never binds; the discount is at most half the gross plus rounding; a zero rate gives a zero discount |
| `Pricing.DiscountWithinGross` | backend/src/main/java/com/airline/flightmanagement/service/BookingService.java:172-180 | the discount is never negative and never more than the fare times the seats; a corollary of `DiscountBounds`, which it calls, in the form `BookStoresBooking` uses |
| `Pricing.DiscountMonotoneInDays` | backend/src/main/java/com/airline/flightmanagement/service/BookingService.java:128-181 | booking further ahead never gives a smaller discount |
| `Pricing.ZeroDiscountIffNoRule` | backend/src/main/java/com/airline/flightmanagement/service/BookingService.java:128-181 | with a fare of at least ten cents and at least one seat, the discount is zero exactly when no rule applies |
| `Pricing.AppendLabelJoins` | backend/src/main/java/com/airline/flightmanagement/service/BookingService.java:202-224 | appending with ", " only when the buffer is non-empty is the same as joining one more part with ", " |
| `Pricing.ReasonBuilderJoins` | backend/src/main/java/com/airline/flightmanagement/service/BookingService.java:191-226 | the builder's text is the labels of the applicable rules, in the order advance, category, bulk, joined with ", " |
| `Pricing.GenerateDiscountReason` | backend/src/main/java/com/airline/flightmanagement/service/BookingService.java:186-227 | the reason text: "No discounts applied" for a zero discount, otherwise the applicable labels appended to a buffer; `ReasonIsJoinedLabels` proves the appended text is the labels joined with ", ", and `ReasonMatchesDiscount` that for the discount a booking gets it reads "No discounts applied" exactly when the discount is zero |
| `Pricing.ReasonIsJoinedLabels` | backend/src/main/java/com/airline/flightmanagement/service/BookingService.java:186-227 | a zero discount gives "No discounts applied"; any other discount gives the applicable labels joined with ", " |
| `Pricing.LabelsNotNoDiscount` | backend/src/main/java/com/airline/flightmanagement/service/BookingService.java:194-224 | every label is non-empty and starts with its rule's name, never with the "N" of "No discounts applied" |
| `Pricing.JoinedLabelsNotNoDiscount` | backend/src/main/java/com/airline/flightmanagement/service/BookingService.java:186-224 | when some rule applies, the joined labels differ from "No discounts applied" |
| `Pricing.LabelsEmptyIffNoRule` | backend/src/main/java/com/airline/flightmanagement/service/BookingService.java:194-224 | the reason has no labels exactly when the summed rate is zero |
| `Pricing.ReasonMatchesDiscount` | backend/src/main/java/com/airline/flightmanagement/service/BookingService.java:186-189 | for the discount a booking actually gets, the reason reads "No discounts applied" exactly when that discount is zero |
| `Pricing.CalculateRefundAmount` | backend/src/main/java/com/airline/flightmanagement/service/BookingService.java:350-353 | the refund: the amount times the percentage over 100, rounded half up to cents; `RefundBounds` proves that with a percentage between 0 and 100 it lies between 0 and the amount and grows with the percentage |
| `Pricing.RefundBounds` | backend/src/main/java/com/airline/flightmanagement/service/BookingService.java:350-353 | with a percentage between 0 and 100, the refund lies between 0 and the amount paid and grows with the percentage |
| `Pricing.AdvanceExample` | backend/src/main/java/com/airline/flightmanagement/service/BookingService.java:133-135 | fare 1000.00, two seats, 35 days ahead, REGULAR: discount 300.00, reason "Advance booking (30+ days): 15%" |
| `Pricing.PlatinumBulkExample` | backend/src/main/java/com/airline/flightmanagement/service/BookingService.java:146-172 | fare 1000.00, six seats, 3 days ahead, PLATINUM: discount 1800.00 |
| `Pricing.PlatinumLabel` | backend/src/main/java/com/airline/flightmanagement/service/BookingService.java:202-208 | the category label of PLATINUM is "Customer category (PLATINUM): 20%" |
| `Pricing.PlatinumBulkReason` | backend/src/main/java/com/airline/flightmanagement/service/BookingService.java:186-227 | the reason for that booking is "Customer category (PLATINUM): 20%, Bulk booking (5+ seats): 10%" |
| `Pricing.RefundExamples` | backend/src/main/java/com/airline/flightmanagement/service/BookingService.java:350-353 | 80% of 200.00 is 160.00; 75.50% of 1500.00 is 1132.50 |
| `Bookings.CheckSeatAvailability` | backend/src/main/java/com/airline/flightmanagement/service/BookingService.java:86-123 | passes exactly when booked plus requested fits the flight's capacity for the class; otherwise fails with "Insufficient seats available. Requested: n, Available: cap-booked" |
| `Bookings.SeedRow` | backend/src/main/java/com/airline/flightmanagement/service/BookingService.java:232-250 | an existing ledger is kept; a missing one is added, empty, with the flight's capacities; no other ledger changes |
| `Bookings.UpdateRows` | backend/src/main/java/com/airline/flightmanagement/service/BookingService.java:358-374 | only the ledger for the key can change, and its capacities stay; with no ledger for the key nothing changes |
| `Bookings.BookSpec` | backend/src/main/java/com/airline/flightmanagement/service/BookingService.java:40-81 | a failed booking changes no store; flights and users are never changed |
| `Bookings.NewBooking` | backend/src/main/java/com/airline/flightmanagement/service/BookingService.java:54-71 | the stored booking is BOOKED under the given id, for the request's flight, date, class and seats, with the given discount and reason; the amount plus the discount is the gross fare |
| `Bookings.PlaceSpec` | backend/src/main/java/com/airline/flightmanagement/service/BookingService.java:53-77 | once the discount and reason are known, the booking path always succeeds and leaves flights and users alone |
| `Bookings.CancelSpec` | backend/src/main/java/com/airline/flightmanagement/service/BookingService.java:304-345 | a failed cancellation changes no store; flights, users and the next booking id are never changed |
| `Bookings.BookSucceedsIff` | backend/src/main/java/com/airline/flightmanagement/service/BookingService.java:40-81 | a booking succeeds exactly when the flight and the user exist, the seats fit the flight's capacity (counting 0 booked without a ledger), and the user has a category |
| `Bookings.BookFlightMissing` | backend/src/main/java/com/airline/flightmanagement/service/BookingService.java:42-43 | an unknown flight fails with "Flight not found with id: X", whatever else is wrong |
| `Bookings.BookUserMissing` | backend/src/main/java/com/airline/flightmanagement/service/BookingService.java:46-47 | with the flight found, an unknown user fails with "User not found with id: X" before seats are checked |
| `Bookings.BookSeatsShort` | backend/src/main/java/com/airline/flightmanagement/service/BookingService.java:119-122 | with flight and user found, a request that does not fit fails with the insufficient-seats message |
| `Bookings.BookStoresBooking` | backend/src/main/java/com/airline/flightmanagement/service/BookingService.java:54-73 | a successful booking is stored as BOOKED under a fresh id, for the request's flight, date, class and seats; its discount is the one `calculateDiscounts` gives for the user's category, the days in advance and the seats, between 0 and the gross fare; the amount is the gross less the discount; the reason is `generateDiscountReason`'s text for that discount, the same days and the same seats |
| `Bookings.BookLedger` | backend/src/main/java/com/airline/flightmanagement/service/BookingService.java:53-77 | a stepping-stone for `BookStoresBooking` and `BookThenCancelRestoresLedger` that unfolds `BookSpec` once: after a successful booking the ledger for the flight and date is the one `getOrCreateFlightSchedule` yields, with the seats added; the booking is the one built from `calculateDiscounts` and `generateDiscountReason`, stored under the next id |
| `Bookings.BookReservesSeats` | backend/src/main/java/com/airline/flightmanagement/service/BookingService.java:59-77 | success adds exactly the booked seats to the class's count in the (flight, date) ledger, creating the ledger from the flight's capacities if missing; other classes and other ledgers are unchanged |
| `Bookings.BookPreservesConsistent` | backend/src/main/java/com/airline/flightmanagement/service/BookingService.java:49-77 | booking at least one seat keeps every ledger within its flight's capacity, with the rest of the store invariant |
| `Bookings.CancelSucceedsIff` | backend/src/main/java/com/airline/flightmanagement/service/BookingService.java:306-316 | a cancellation succeeds exactly when the booking exists, is BOOKED and its flight exists; a booking not BOOKED fails with "Booking cannot be cancelled. Current status: S" |
| `Bookings.CancelSuccessEffects` | backend/src/main/java/com/airline/flightmanagement/service/BookingService.java:318-327 | success marks the booking CANCELLED with no other change to it; the refund is the flight's refund percentage of the amount paid, rounded half up to cents, and lies between 0 and that amount; the ledger, if any, drops by the booked seats in the booking's class, clamped at 0, while its other classes and its capacities stay; other ledgers are unchanged |
| `Bookings.CancelLedger` | backend/src/main/java/com/airline/flightmanagement/service/BookingService.java:304-327 | a stepping-stone for `BookThenCancelRestoresLedger` that unfolds `CancelSpec` once: cancelling a BOOKED booking whose flight exists succeeds and releases its seats from the ledger of its flight and date |
| `Bookings.CancelPreservesConsistent` | backend/src/main/java/com/airline/flightmanagement/service/BookingService.java:325-327 | cancelling keeps the store invariant |
| `Bookings.CancelTwiceFails` | backend/src/main/java/com/airline/flightmanagement/service/BookingService.java:310-312 | cancelling a cancelled booking fails with "... Current status: CANCELLED" and changes nothing |
| `Bookings.BookThenCancelRestoresLedger` | backend/src/main/java/com/airline/flightmanagement/service/BookingService.java:325-327 | booking and then cancelling that booking leaves the ledgers as before, except that a ledger the booking created stays, empty |
| `Bookings.BookingService.GetOrCreateFlightSchedule` | backend/src/main/java/com/airline/flightmanagement/service/BookingService.java:232-250 | returns the ledger stored for the flight and date, or a new one stored there with the flight's capacities; the stores change as `SeedRow` says |
| `Bookings.BookingService.UpdateFlightScheduleBookedCount` | backend/src/main/java/com/airline/flightmanagement/service/BookingService.java:358-374 | a positive change increments and any other change decrements the stored ledger by its magnitude; the stores change as `UpdateRows` says |
| `Bookings.BookingService.BookFlight` | backend/src/main/java/com/airline/flightmanagement/service/BookingService.java:40-81 | the result and the new stores are those of `BookSpec` on the old stores |
| `Bookings.BookingService.Place` | backend/src/main/java/com/airline/flightmanagement/service/BookingService.java:53-77 | stores the booking with the given discount and reason and reserves its seats, as `PlaceSpec` says |
| `Bookings.BookingService.CancelBooking` | backend/src/main/java/com/airline/flightmanagement/service/BookingService.java:304-345 | the result and the new stores are those of `CancelSpec` on the old stores |
| `Carriers.ValidatePercentages` | backend/src/main/java/com/airline/flightmanagement/service/CarrierService.java:153-163 | passes exactly when both percentages are strictly between 0 and 100; a bad discount is reported before a bad refund |
| `Carriers.ValidatePercentagesExamples` | backend/src/main/java/com/airline/flightmanagement/service/CarrierService.java:153-163 | 0 and 100 are both rejected, the discount first; 0.01 and 99.99 pass |
| `Carriers.CarrierService.RegisterCarrier` | backend/src/main/java/com/airline/flightmanagement/service/CarrierService.java:24-48 | a taken name is refused before validation; nothing is stored on failure; a new carrier has the given fields, a fresh id and is active; names stay unique and stored percentages valid |
| `Carriers.CarrierService.UpdateCarrier` | backend/src/main/java/com/airline/flightmanagement/service/CarrierService.java:91-117 | an unknown id fails with "Carrier not found with ID: X"; renaming to another carrier's name fails, and keeping the name never conflicts; the id and the active flag never change |
| `Carriers.CarrierService.DeleteCarrier` | backend/src/main/java/com/airline/flightmanagement/service/CarrierService.java:122-128 | soft delete: the carrier stays, inactive, with every other field unchanged |
| `Users.UserService.DuplicateCheck` | backend/src/main/java/com/airline/flightmanagement/service/UserService.java:28-36 | passes exactly when neither the name nor the e-mail is taken; a taken name is reported before a taken e-mail |
| `Users.UserService.RegisterUser` | backend/src/main/java/com/airline/flightmanagement/service/UserService.java:27-68 | a duplicate is refused with nothing stored; otherwise a new user under a fresh id, with role CUSTOMER and category REGULAR filled in only where missing |
| `Users.UserService.RegisterAdmin` | backend/src/main/java/com/airline/flightmanagement/service/UserService.java:73-110 | the same duplicate checks; the stored user is always ADMIN with no category |
| `Users.UserService.ValidateLogin` | backend/src/main/java/com/airline/flightmanagement/service/UserService.java:176-192 | an unknown name and a wrong password give the same error; success exactly when a stored user has that name and password, answering with its id, name, role and "Login successful" |
| `Users.UserService.UpdateUser` | backend/src/main/java/com/airline/flightmanagement/service/UserService.java:143-161 | an unknown id fails with "User not found with ID: X"; the name, e-mail, profile and category are overwritten and the password and role kept; a name or e-mail another user holds is refused by the unique columns |
| `Users.UserService.DeleteUser` | backend/src/main/java/com/airline/flightmanagement/service/UserService.java:166-171 | an unknown id fails with "User not found with ID: X"; otherwise exactly that user is removed |

## Left out

- Concurrency and transactions. Every operation runs sequentially and as
  a whole. A failure leaves the stores as they were, which is what the
  transaction gives. The race between the availability check and the
  increment is not modelled.
- Persistence.
  - Repositories are maps keyed by id, and ids are handed out by a
    counter.
  - Unique columns appear as store invariants. Where the service checks
    nothing itself (`updateUser`), the violation is a `DataIntegrityViolation`
    error.
  - Bean validation at persist time is not modelled. Annotated bounds are
    used only as the requires of lemmas (at least one seat; positive
    fares and capacities) and in the store invariant `Consistent`.
  - `bookingDate` and `createdAt` time stamps are left out.
- Controllers, HTTP, CORS, sample data seeding and the frontend.
- Response plumbing. `buildBookFlightResponse` and the `convertToDTO`
  methods only copy fields: a booking returns the stored `Booking`, and a
  cancellation returns the cancelled booking, the refund and the
  percentage applied.
- Repeated flight lookup. `checkSeatAvailability` looks the flight up
  again and cannot fail there, because the caller has just found it.
  The model reuses the flight.
- The clock. The days in advance are `dateOfTravel - today` with `today`
  a parameter, and the same value serves both the discount and the
  reason. In the service these are two separate reads of the clock.
- The flight–carrier link. A flight carries a copy of its carrier's
  refund percentage. Carrier updates do not flow into flights in this
  model.
- Carrier discount percentages and the discount and refund types are
  stored but never used in pricing. They are modelled as plain fields.
- Java nulls. These are modelled as `Option` values:
  - the null customer category that the service itself stores for
    administrators;
  - a null role or customer category in the user form. `RegisterUser`
    fills in CUSTOMER and REGULAR for them. `UpdateUser` writes the
    form's category as given.
  - not modelled: `fromValue(null)` and the other null fields of the
    request forms.
- Category names. `CustomerCategory.java` is not part of this model. The
  category label in the discount reason uses the enum constant's own name
  (`Users.CategoryName`). This assumes that the enum does not override
  `toString()`. The expectation "Customer category (PLATINUM): 20%" at
  `BookingServiceTest.java:230` agrees with it.
- Text rules.
  - `SeatCategories.FromValue`: case is ignored for ASCII letters only;
    Java's full Unicode case mapping is not modelled.
  - Strings are compared as sequences of characters.
- Number ranges.
  - Integers are unbounded, so the 32-bit seat counters and 64-bit ids
    do not wrap.
  - Percentages with more than two decimals are not representable in
    basis points. The database column keeps two.
- Booking statuses other than BOOKED and CANCELLED. `BookingStatus.java`
  is not part of this model, and the service never sets any other
  status. The frontend also displays COMPLETED and PENDING
  (`view-bookings.component.ts:57-60`). Cancelling a booking in any
  status other than BOOKED fails the same way, which `CancelSucceedsIff`
  states for every status the model has.
- Carrier look-ups, flight management, user look-ups and listing queries
  are outside this core.
