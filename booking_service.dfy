/** The booking lifecycle: booking seats on a flight for a travel date,
    and cancelling a booking for a refund. Flights, users, seat ledgers and
    bookings live in stores keyed by id; the ledgers are keyed by flight
    and travel date.

    The service is a class over those stores whose methods are proved
    equal to two pure functions, `BookSpec` and `CancelSpec`, over a value
    snapshot of the stores (`Store`); the lemmas at the end are about
    those functions. */
module Bookings {
  import opened Common
  import opened SeatCategories
  import opened Schedules
  import opened Users
  import opened Pricing

  /** A flight as the booking service sees it: its fare in cents, its seat
      capacity per class, and the refund percentage of its carrier in basis
      points. */
  datatype Flight = Flight(flightId: int, fareCents: int, capacity: Counts, refundBasisPoints: int)

  datatype BookingStatus = BOOKED | CANCELLED

  function StatusName(s: BookingStatus): string {
    match s
    case BOOKED => "BOOKED"
    case CANCELLED => "CANCELLED"
  }

  /** A stored booking; amounts in cents, the travel date as an epoch day. */
  datatype Booking = Booking(bookingId: int, flightId: int, userId: int, noOfSeats: int,
                             seatCategory: SeatCategory, dateOfTravel: int,
                             bookingAmountCents: int, discountCents: int, discountReason: string,
                             status: BookingStatus)

  /** The fields of a `BookFlightRequest`. */
  datatype BookRequest = BookRequest(flightId: int, noOfSeats: int, seatCategory: SeatCategory, dateOfTravel: int)

  /** What a cancellation reports: the cancelled booking, the refund in
      cents and the refund percentage applied, in basis points. */
  datatype CancelReceipt = CancelReceipt(booking: Booking, refundCents: int, refundBasisPoints: int)

  /** The key of the seat ledger of one flight on one date. */
  datatype ScheduleKey = ScheduleKey(flightId: int, dateOfTravel: int)

  /** The value of one seat ledger. */
  datatype Row = Row(booked: Counts, totals: Counts)

  /** A snapshot of every store the service reads or writes. */
  datatype Store = Store(flights: map<int, Flight>, users: map<int, User>,
                         schedules: map<ScheduleKey, Row>, bookings: map<int, Booking>,
                         nextBookingId: int)

  // ---- specification -------------------------------------------------------

  /** Seats of class `c` booked for the key; zero when no ledger exists yet. */
  function BookedAt(schedules: map<ScheduleKey, Row>, key: ScheduleKey, c: SeatCategory): int {
    if key in schedules then schedules[key].booked.Get(c) else 0
  }

  /** The refusal of `checkSeatAvailability`, naming the seats requested
      and the seats still available. */
  function InsufficientSeats(requestedSeats: int, availableSeats: int): Error {
    RuntimeError("Insufficient seats available. Requested: " + IntToString(requestedSeats) +
                 ", Available: " + IntToString(availableSeats))
  }

  /** `checkSeatAvailability`: refuses a request that would take the class
      past the flight's capacity. */
  function CheckSeatAvailability(flight: Flight, booked: int, c: SeatCategory, requestedSeats: int): (r: Option<Error>)
    ensures r.None? <==> booked + requestedSeats <= flight.capacity.Get(c)
    ensures r.Some? ==> r.value == InsufficientSeats(requestedSeats, flight.capacity.Get(c) - booked)
  {
    var total := flight.capacity.Get(c);
    if booked + requestedSeats > total then Some(InsufficientSeats(requestedSeats, total - booked))
    else None
  }

  /** `getOrCreateFlightSchedule` on the ledger store: an existing ledger
      is kept, a missing one is created empty with the flight's capacities. */
  function SeedRow(schedules: map<ScheduleKey, Row>, key: ScheduleKey, capacity: Counts): (r: map<ScheduleKey, Row>)
    ensures r.Keys == schedules.Keys + {key}
    ensures forall k | k in schedules :: r[k] == schedules[k]
    ensures key !in schedules ==> r[key] == Row(NoSeats, capacity)
  {
    if key in schedules then schedules else schedules[key := Row(NoSeats, capacity)]
  }

  /** `updateFlightScheduleBookedCount` on the ledger store: a positive
      change reserves, any other releases its magnitude (never below zero);
      with no ledger for the key nothing changes. */
  function UpdateRows(schedules: map<ScheduleKey, Row>, key: ScheduleKey, c: SeatCategory, seatChange: int)
    : (r: map<ScheduleKey, Row>)
    ensures r.Keys == schedules.Keys
    ensures forall k | k in schedules && k != key :: r[k] == schedules[k]
    ensures key in schedules ==> r[key].totals == schedules[key].totals
  {
    if key !in schedules then schedules
    else
      var row := schedules[key];
      if seatChange > 0 then schedules[key := Row(Reserve(row.booked, c, seatChange), row.totals)]
      else schedules[key := Row(Release(row.booked, c, Abs(seatChange)), row.totals)]
  }

  /** `bookFlight`: the flight must exist, then the user, then the seats
      must fit; a user without a customer category fails in the discount
      computation. On success the booking is stored as BOOKED under the next
      id, with the discounted amount and its reason, and the class's count
      in the (flight, date) ledger grows by the seats booked. */
  function BookSpec(st: Store, req: BookRequest, userId: int, today: int): (r: (Result<Booking>, Store))
    ensures r.0.Err? ==> r.1 == st
    ensures r.1.flights == st.flights && r.1.users == st.users
  {
    if req.flightId !in st.flights then
      (Err(RuntimeError("Flight not found with id: " + IntToString(req.flightId))), st)
    else if userId !in st.users then
      (Err(RuntimeError("User not found with id: " + IntToString(userId))), st)
    else
      var flight := st.flights[req.flightId];
      var key := ScheduleKey(req.flightId, req.dateOfTravel);
      var check := CheckSeatAvailability(flight, BookedAt(st.schedules, key, req.seatCategory),
                                         req.seatCategory, req.noOfSeats);
      if check.Some? then (Err(check.value), st)
      else
        var user := st.users[userId];
        if user.customerCategory.None? then (Err(NullPointer), st)
        else
          var category := user.customerCategory.value;
          var days := req.dateOfTravel - today;
          var discount := CalculateDiscount(flight.fareCents, category, days, req.noOfSeats);
          PlaceSpec(st, req, userId, discount, GenerateDiscountReason(discount, category, days, req.noOfSeats))
  }

  /** The booking `bookFlight` stores, given the discount and its reason:
      the fare times the seats less the discount, status BOOKED. */
  function NewBooking(flight: Flight, bookingId: int, req: BookRequest, userId: int,
                      discount: int, reason: string): (b: Booking)
    ensures b.bookingAmountCents + b.discountCents == flight.fareCents * req.noOfSeats
    ensures b.discountCents == discount && b.discountReason == reason
    ensures b.status == BOOKED && b.bookingId == bookingId && b.userId == userId
    ensures b.flightId == req.flightId && b.dateOfTravel == req.dateOfTravel
    ensures b.seatCategory == req.seatCategory && b.noOfSeats == req.noOfSeats
  {
    Booking(bookingId, req.flightId, userId, req.noOfSeats, req.seatCategory, req.dateOfTravel,
            flight.fareCents * req.noOfSeats - discount, discount, reason, BOOKED)
  }

  /** The successful path of `bookFlight`, once the discount and its reason
      are known: store the booking, reserve the seats. */
  function PlaceSpec(st: Store, req: BookRequest, userId: int, discount: int, reason: string)
    : (r: (Result<Booking>, Store))
    requires req.flightId in st.flights
    ensures r.0.Ok? && r.1.flights == st.flights && r.1.users == st.users
  {
    var flight := st.flights[req.flightId];
    var key := ScheduleKey(req.flightId, req.dateOfTravel);
    var booking := NewBooking(flight, st.nextBookingId, req, userId, discount, reason);
    var seeded := SeedRow(st.schedules, key, flight.capacity);
    var row := seeded[key];
    (Ok(booking),
     st.(schedules := seeded[key := Row(Reserve(row.booked, req.seatCategory, req.noOfSeats), row.totals)],
         bookings := st.bookings[booking.bookingId := booking],
         nextBookingId := st.nextBookingId + 1))
  }

  /** `cancelBooking`: the booking must exist and be BOOKED, and its flight
      must exist. On success it becomes CANCELLED, the refund is the
      carrier's percentage of the amount paid, and its seats go back to the
      (flight, date) ledger. */
  function CancelSpec(st: Store, bookingId: int): (r: (Result<CancelReceipt>, Store))
    ensures r.0.Err? ==> r.1 == st
    ensures r.1.flights == st.flights && r.1.users == st.users && r.1.nextBookingId == st.nextBookingId
  {
    if bookingId !in st.bookings then
      (Err(RuntimeError("Booking not found with id: " + IntToString(bookingId))), st)
    else
      var booking := st.bookings[bookingId];
      if booking.status != BOOKED then
        (Err(RuntimeError("Booking cannot be cancelled. Current status: " + StatusName(booking.status))), st)
      else if booking.flightId !in st.flights then
        (Err(RuntimeError("Flight not found")), st)
      else
        var flight := st.flights[booking.flightId];
        var refund := CalculateRefundAmount(booking.bookingAmountCents, flight.refundBasisPoints);
        var cancelled := booking.(status := CANCELLED);
        var key := ScheduleKey(booking.flightId, booking.dateOfTravel);
        (Ok(CancelReceipt(cancelled, refund, flight.refundBasisPoints)),
         st.(bookings := st.bookings[bookingId := cancelled],
             schedules := UpdateRows(st.schedules, key, booking.seatCategory, -booking.noOfSeats)))
  }

  // ---- properties of the specification ---------------------------------------

  /** What the stores keep between operations: each flight is stored under
      its own id, with a positive fare, positive capacities and its
      carrier's refund percentage strictly between 0 and 100; each ledger
      belongs to a stored flight, carries that flight's capacities and is
      within them; each booking is stored under its own id, below the next
      id, for at least one seat, with a non-negative amount. */
  predicate Consistent(st: Store) {
    && (forall id | id in st.flights ::
          && st.flights[id].flightId == id && st.flights[id].fareCents > 0
          && (forall c :: st.flights[id].capacity.Get(c) > 0)
          && 0 < st.flights[id].refundBasisPoints < 10000)
    && (forall k | k in st.schedules ::
          && k.flightId in st.flights
          && st.schedules[k].totals == st.flights[k.flightId].capacity
          && Within(st.schedules[k].booked, st.schedules[k].totals))
    && (forall id | id in st.bookings ::
          && st.bookings[id].bookingId == id && id < st.nextBookingId
          && st.bookings[id].noOfSeats >= 1 && st.bookings[id].bookingAmountCents >= 0)
  }

  /** A booking succeeds exactly when the flight and the user exist, the
      seats fit under the flight's capacity, and the user has a category. */
  lemma BookSucceedsIff(st: Store, req: BookRequest, userId: int, today: int)
    ensures BookSpec(st, req, userId, today).0.Ok? <==>
              && req.flightId in st.flights && userId in st.users
              && BookedAt(st.schedules, ScheduleKey(req.flightId, req.dateOfTravel), req.seatCategory) + req.noOfSeats
                 <= st.flights[req.flightId].capacity.Get(req.seatCategory)
              && st.users[userId].customerCategory.Some?
  {
  }

  /** The order of the checks: a missing flight is reported first, whatever
      else is wrong. */
  lemma BookFlightMissing(st: Store, req: BookRequest, userId: int, today: int)
    requires req.flightId !in st.flights
    ensures BookSpec(st, req, userId, today).0 == Err(RuntimeError("Flight not found with id: " + IntToString(req.flightId)))
  {
  }

  /** A missing user is reported next, before any lack of seats. */
  lemma BookUserMissing(st: Store, req: BookRequest, userId: int, today: int)
    requires req.flightId in st.flights && userId !in st.users
    ensures BookSpec(st, req, userId, today).0 == Err(RuntimeError("User not found with id: " + IntToString(userId)))
  {
  }

  /** A request that does not fit reports the seats requested and the
      seats left, before the user's category is looked at. */
  lemma BookSeatsShort(st: Store, req: BookRequest, userId: int, today: int)
    requires req.flightId in st.flights && userId in st.users
    requires BookedAt(st.schedules, ScheduleKey(req.flightId, req.dateOfTravel), req.seatCategory) + req.noOfSeats
             > st.flights[req.flightId].capacity.Get(req.seatCategory)
    ensures var booked := BookedAt(st.schedules, ScheduleKey(req.flightId, req.dateOfTravel), req.seatCategory);
            var total := st.flights[req.flightId].capacity.Get(req.seatCategory);
            BookSpec(st, req, userId, today).0 ==
              Err(InsufficientSeats(req.noOfSeats, total - booked))
  {
    var flight := st.flights[req.flightId];
    var booked := BookedAt(st.schedules, ScheduleKey(req.flightId, req.dateOfTravel), req.seatCategory);
    var check := CheckSeatAvailability(flight, booked, req.seatCategory, req.noOfSeats);
    assert check.Some?;
    assert BookSpec(st, req, userId, today).0 == Err(check.value);
  }

  /** A successful booking is stored as BOOKED under a fresh id, for the
      requested flight, date, class and seats; it pays the gross fare less a
      discount that is neither negative nor more than the gross. The
      discount and its reason are computed from the user's category and one
      and the same count of days in advance. */
  lemma {:induction false} BookStoresBooking(st: Store, req: BookRequest, userId: int, today: int)
    requires Consistent(st) && req.noOfSeats >= 1
    requires BookSpec(st, req, userId, today).0.Ok?
    ensures var (r, st') := BookSpec(st, req, userId, today);
            var b := r.value;
            var gross := st.flights[req.flightId].fareCents * req.noOfSeats;
            && b.bookingId == st.nextBookingId && b.bookingId !in st.bookings
            && b.status == BOOKED && b.userId == userId && b.flightId == req.flightId
            && b.noOfSeats == req.noOfSeats && b.seatCategory == req.seatCategory
            && b.dateOfTravel == req.dateOfTravel
            && st'.bookings == st.bookings[b.bookingId := b] && st'.nextBookingId == st.nextBookingId + 1
            && 0 <= b.discountCents <= gross && b.bookingAmountCents == gross - b.discountCents
            && var category := st.users[userId].customerCategory.value;
               var days := req.dateOfTravel - today;
               && b.discountCents == CalculateDiscount(st.flights[req.flightId].fareCents, category, days, req.noOfSeats)
               && b.discountReason == GenerateDiscountReason(b.discountCents, category, days, req.noOfSeats)
  {
    BookLedger(st, req, userId, today);
    DiscountWithinGross(st.flights[req.flightId].fareCents, st.users[userId].customerCategory.value,
                        req.dateOfTravel - today, req.noOfSeats);
  }

  /** A successful booking adds exactly its seats, in its class, to the
      ledger of its flight and date (created from the flight's capacities
      if missing), and changes no other ledger. */
  lemma {:induction false} BookReservesSeats(st: Store, req: BookRequest, userId: int, today: int)
    requires BookSpec(st, req, userId, today).0.Ok?
    ensures var st' := BookSpec(st, req, userId, today).1;
            var key := ScheduleKey(req.flightId, req.dateOfTravel);
            && key in st'.schedules
            && st'.schedules[key].booked.Get(req.seatCategory)
               == BookedAt(st.schedules, key, req.seatCategory) + req.noOfSeats
            && (forall d :: d != req.seatCategory ==>
                  st'.schedules[key].booked.Get(d) == BookedAt(st.schedules, key, d))
            && st'.schedules[key].totals
               == (if key in st.schedules then st.schedules[key].totals else st.flights[req.flightId].capacity)
            && st'.schedules.Keys == st.schedules.Keys + {key}
            && (forall k | k in st.schedules && k != key :: st'.schedules[k] == st.schedules[k])
  {
  }

  /** Booking keeps the stores consistent: the availability check sees to
      it that the reservation stays within the flight's capacity. */
  lemma {:induction false} BookPreservesConsistent(st: Store, req: BookRequest, userId: int, today: int)
    requires Consistent(st) && req.noOfSeats >= 1
    ensures Consistent(BookSpec(st, req, userId, today).1)
  {
    var (r, st') := BookSpec(st, req, userId, today);
    if r.Ok? {
      BookStoresBooking(st, req, userId, today);
      BookReservesSeats(st, req, userId, today);
      var key := ScheduleKey(req.flightId, req.dateOfTravel);
      var flight := st.flights[req.flightId];
      var row := SeedRow(st.schedules, key, flight.capacity)[key];
      assert Within(row.booked, row.totals);
      ReserveWithinIffFits(row.booked, row.totals, req.seatCategory, req.noOfSeats);
    }
  }

  /** A cancellation succeeds exactly when the booking exists, is BOOKED,
      and its flight exists. */
  lemma CancelSucceedsIff(st: Store, bookingId: int)
    ensures CancelSpec(st, bookingId).0.Ok? <==>
              bookingId in st.bookings && st.bookings[bookingId].status == BOOKED &&
              st.bookings[bookingId].flightId in st.flights
    ensures bookingId in st.bookings && st.bookings[bookingId].status != BOOKED ==>
              CancelSpec(st, bookingId).0 ==
                Err(RuntimeError("Booking cannot be cancelled. Current status: " + StatusName(st.bookings[bookingId].status)))
  {
  }

  /** A successful cancellation marks the booking CANCELLED and changes
      nothing else about it; the refund lies between nothing and the amount
      paid and is the flight's refund percentage of it; the ledger of its
      flight and date, if there is one, gives back its seats in its class,
      never going below zero, and keeps its other classes and capacities. */
  lemma {:induction false} CancelSuccessEffects(st: Store, bookingId: int)
    requires Consistent(st) && CancelSpec(st, bookingId).0.Ok?
    ensures var (r, st') := CancelSpec(st, bookingId);
            var b := st.bookings[bookingId];
            var key := ScheduleKey(b.flightId, b.dateOfTravel);
            && r.value.booking == b.(status := CANCELLED)
            && st'.bookings == st.bookings[bookingId := b.(status := CANCELLED)]
            && 0 <= r.value.refundCents <= b.bookingAmountCents
            && r.value.refundBasisPoints == st.flights[b.flightId].refundBasisPoints
            && r.value.refundCents == CalculateRefundAmount(b.bookingAmountCents, r.value.refundBasisPoints)
            && st'.schedules.Keys == st.schedules.Keys
            && (key in st.schedules ==>
                  && st'.schedules[key].booked.Get(b.seatCategory)
                     == Max(0, st.schedules[key].booked.Get(b.seatCategory) - b.noOfSeats)
                  && (forall d :: d != b.seatCategory ==>
                        st'.schedules[key].booked.Get(d) == st.schedules[key].booked.Get(d))
                  && st'.schedules[key].totals == st.schedules[key].totals)
            && (forall k | k in st.schedules && k != key :: st'.schedules[k] == st.schedules[k])
  {
    var b := st.bookings[bookingId];
    var bp := st.flights[b.flightId].refundBasisPoints;
    RefundBounds(b.bookingAmountCents, bp, 10000);
  }

  /** Cancelling keeps the stores consistent. */
  lemma {:induction false} CancelPreservesConsistent(st: Store, bookingId: int)
    requires Consistent(st)
    ensures Consistent(CancelSpec(st, bookingId).1)
  {
    var (r, st') := CancelSpec(st, bookingId);
    if r.Ok? {
      var b := st.bookings[bookingId];
      var key := ScheduleKey(b.flightId, b.dateOfTravel);
      if key in st.schedules {
        var row := st.schedules[key];
        ReleaseKeepsWithin(row.booked, row.totals, b.seatCategory, b.noOfSeats);
      }
    }
  }

  /** A booking can be cancelled only once. */
  lemma CancelTwiceFails(st: Store, bookingId: int)
    requires CancelSpec(st, bookingId).0.Ok?
    ensures CancelSpec(CancelSpec(st, bookingId).1, bookingId)
            == (Err(RuntimeError("Booking cannot be cancelled. Current status: CANCELLED")), CancelSpec(st, bookingId).1)
  {
    assert "Booking cannot be cancelled. Current status: " + StatusName(CANCELLED)
           == "Booking cannot be cancelled. Current status: CANCELLED";
  }

  /** The ledgers and the stored booking after a successful booking, in
      terms of the ledger `getOrCreateFlightSchedule` yields. */
  lemma BookLedger(st: Store, req: BookRequest, userId: int, today: int)
    requires BookSpec(st, req, userId, today).0.Ok?
    ensures var (r, st1) := BookSpec(st, req, userId, today);
            var key := ScheduleKey(req.flightId, req.dateOfTravel);
            var seeded := SeedRow(st.schedules, key, st.flights[req.flightId].capacity);
            && st1.schedules == seeded[key := Row(Reserve(seeded[key].booked, req.seatCategory, req.noOfSeats),
                                                  seeded[key].totals)]
            && st1.bookings == st.bookings[r.value.bookingId := r.value]
            && st1.nextBookingId == st.nextBookingId + 1
            && r.value.bookingId in st1.bookings && st1.bookings[r.value.bookingId] == r.value
            && r.value.status == BOOKED && r.value.flightId == req.flightId && req.flightId in st1.flights
            && r.value.dateOfTravel == req.dateOfTravel && r.value.seatCategory == req.seatCategory
            && r.value.noOfSeats == req.noOfSeats
    ensures var category := st.users[userId].customerCategory.value;
            var days := req.dateOfTravel - today;
            var discount := CalculateDiscount(st.flights[req.flightId].fareCents, category, days, req.noOfSeats);
            BookSpec(st, req, userId, today).0.value
              == NewBooking(st.flights[req.flightId], st.nextBookingId, req, userId, discount,
                            GenerateDiscountReason(discount, category, days, req.noOfSeats))
  {
  }

  /** The ledgers after a successful cancellation: its seats are released
      from the ledger of its flight and date. */
  lemma CancelLedger(st: Store, bookingId: int)
    requires bookingId in st.bookings && st.bookings[bookingId].status == BOOKED
    requires st.bookings[bookingId].flightId in st.flights
    ensures var b := st.bookings[bookingId];
            var (r, st2) := CancelSpec(st, bookingId);
            && r.Ok?
            && st2.schedules == UpdateRows(st.schedules, ScheduleKey(b.flightId, b.dateOfTravel),
                                           b.seatCategory, -b.noOfSeats)
  {
  }

  /** Booking and then cancelling that booking gives the seats back: the
      ledgers end as they were, except that a ledger the booking created
      stays, empty. */
  lemma {:induction false} BookThenCancelRestoresLedger(st: Store, req: BookRequest, userId: int, today: int)
    requires Consistent(st) && req.noOfSeats >= 1
    requires BookSpec(st, req, userId, today).0.Ok?
    ensures var (r, st1) := BookSpec(st, req, userId, today);
            var (r2, st2) := CancelSpec(st1, r.value.bookingId);
            var key := ScheduleKey(req.flightId, req.dateOfTravel);
            && r2.Ok?
            && st2.schedules == SeedRow(st.schedules, key, st.flights[req.flightId].capacity)
  {
    var (r, st1) := BookSpec(st, req, userId, today);
    BookLedger(st, req, userId, today);
    CancelLedger(st1, r.value.bookingId);
    var key := ScheduleKey(req.flightId, req.dateOfTravel);
    var seeded := SeedRow(st.schedules, key, st.flights[req.flightId].capacity);
    var row := seeded[key];
    assert row.booked.Get(req.seatCategory) >= 0;
    ReleaseUndoesReserve(row.booked, req.seatCategory, req.noOfSeats);
    var reserved := Row(Reserve(row.booked, req.seatCategory, req.noOfSeats), row.totals);
    assert UpdateRows(seeded[key := reserved], key, req.seatCategory, -req.noOfSeats)
           == seeded[key := Row(row.booked, row.totals)];
  }

  // ---- the service -----------------------------------------------------------

  /** The ledger objects as values. */
  ghost function RowsOf(schedules: map<ScheduleKey, FlightSchedule>): map<ScheduleKey, Row>
    reads schedules.Values
  {
    map k | k in schedules :: Row(schedules[k].Booked(), schedules[k].Totals())
  }

  /** The booking service over its repositories. The ledgers are
      `FlightSchedule` objects updated in place; each is stored under the
      key of its own flight and date, so no object sits under two keys. */
  class BookingService {
    var flights: map<int, Flight>
    var users: map<int, User>
    var schedules: map<ScheduleKey, FlightSchedule>
    var bookings: map<int, Booking>
    var nextBookingId: int

    ghost predicate Valid()
      reads this, schedules.Values
    {
      && (forall id | id in flights :: flights[id].flightId == id)
      && forall k | k in schedules :: schedules[k].flightId == k.flightId && schedules[k].dateOfTravel == k.dateOfTravel
    }

    ghost function Model(): Store
      reads this, schedules.Values
    {
      Store(flights, users, RowsOf(schedules), bookings, nextBookingId)
    }

    constructor (flights: map<int, Flight>, users: map<int, User>)
      requires forall id | id in flights :: flights[id].flightId == id
      ensures Valid() && Model() == Store(flights, users, map[], map[], 1)
    {
      this.flights := flights;
      this.users := users;
      schedules := map[];
      bookings := map[];
      nextBookingId := 1;
    }

    /** The existing ledger for the flight and date, or a new empty one
        with the flight's capacities. */
    method GetOrCreateFlightSchedule(flight: Flight, dateOfTravel: int) returns (s: FlightSchedule)
      requires Valid()
      modifies this
      ensures Valid()
      ensures Model() == old(Model()).(schedules := SeedRow(old(RowsOf(schedules)), ScheduleKey(flight.flightId, dateOfTravel), flight.capacity))
      ensures ScheduleKey(flight.flightId, dateOfTravel) in schedules
      ensures s == schedules[ScheduleKey(flight.flightId, dateOfTravel)]
      ensures schedules.Values == old(schedules.Values) + {s}
      ensures s in old(schedules.Values) || fresh(s)
    {
      var key := ScheduleKey(flight.flightId, dateOfTravel);
      if key in schedules {
        s := schedules[key];
        return;
      }
      s := new FlightSchedule(flight.flightId, dateOfTravel,
                              flight.capacity.economy, flight.capacity.business, flight.capacity.executive);
      schedules := schedules[key := s];
      assert RowsOf(schedules) == old(RowsOf(schedules))[key := Row(NoSeats, flight.capacity)];
    }

    /** Reserves on the ledger stored under `key`; the other ledgers are
        untouched because no other key holds the same object. */
    method ReserveOn(key: ScheduleKey, c: SeatCategory, seats: int)
      requires Valid() && key in schedules
      modifies schedules[key]
      ensures Valid()
      ensures var rows := old(Model()).schedules;
              Model() == old(Model()).(schedules := rows[key := Row(Reserve(rows[key].booked, c, seats), rows[key].totals)])
    {
      var s := schedules[key];
      assert forall k | k in schedules && k != key :: schedules[k] != s;
      s.IncrementBookedCount(c, seats);
    }

    /** Releases on the ledger stored under `key`. */
    method ReleaseOn(key: ScheduleKey, c: SeatCategory, seats: int)
      requires Valid() && key in schedules
      modifies schedules[key]
      ensures Valid()
      ensures var rows := old(Model()).schedules;
              Model() == old(Model()).(schedules := rows[key := Row(Release(rows[key].booked, c, seats), rows[key].totals)])
    {
      var s := schedules[key];
      assert forall k | k in schedules && k != key :: schedules[k] != s;
      s.DecrementBookedCount(c, seats);
    }

    /** Applies a signed seat change to the ledger of the flight and date,
        if there is one. */
    method UpdateFlightScheduleBookedCount(flightId: int, dateOfTravel: int, c: SeatCategory, seatChange: int)
      requires Valid()
      modifies schedules.Values
      ensures Valid()
      ensures Model() == old(Model()).(schedules := UpdateRows(old(RowsOf(schedules)), ScheduleKey(flightId, dateOfTravel), c, seatChange))
    {
      var key := ScheduleKey(flightId, dateOfTravel);
      if key in schedules {
        if seatChange > 0 {
          ReserveOn(key, c, seatChange);
        } else {
          ReleaseOn(key, c, Abs(seatChange));
        }
      }
    }

    method BookFlight(req: BookRequest, userId: int, today: int) returns (r: Result<Booking>)
      requires Valid()
      modifies this, schedules.Values
      ensures Valid()
      ensures (r, Model()) == BookSpec(old(Model()), req, userId, today)
    {
      if req.flightId !in flights {
        return Err(RuntimeError("Flight not found with id: " + IntToString(req.flightId)));
      }
      var flight := flights[req.flightId];
      if userId !in users {
        return Err(RuntimeError("User not found with id: " + IntToString(userId)));
      }
      var user := users[userId];
      var key := ScheduleKey(req.flightId, req.dateOfTravel);
      var booked := if key in schedules then schedules[key].Booked().Get(req.seatCategory) else 0;
      assert booked == BookedAt(RowsOf(schedules), key, req.seatCategory);
      var check := CheckSeatAvailability(flight, booked, req.seatCategory, req.noOfSeats);
      if check.Some? {
        return Err(check.value);
      }
      if user.customerCategory.None? {
        return Err(NullPointer);
      }
      var category := user.customerCategory.value;
      var days := req.dateOfTravel - today;
      var discount := CalculateDiscount(flight.fareCents, category, days, req.noOfSeats);
      var reason := GenerateDiscountReason(discount, category, days, req.noOfSeats);
      r := Place(req, userId, discount, reason);
    }

    /** Stores the priced booking and reserves its seats. */
    method Place(req: BookRequest, userId: int, discount: int, reason: string) returns (r: Result<Booking>)
      requires Valid() && req.flightId in flights
      modifies this, schedules.Values
      ensures Valid()
      ensures req.flightId in old(Model()).flights
      ensures (r, Model()) == PlaceSpec(old(Model()), req, userId, discount, reason)
    {
      var flight := flights[req.flightId];
      var key := ScheduleKey(req.flightId, req.dateOfTravel);
      var booking := NewBooking(flight, nextBookingId, req, userId, discount, reason);
      ghost var st := Model();
      assert st.flights[req.flightId] == flight && st.nextBookingId == nextBookingId;
      var s := GetOrCreateFlightSchedule(flight, req.dateOfTravel);
      ghost var seeded := SeedRow(st.schedules, key, flight.capacity);
      SaveBooking(booking);
      ReserveOn(key, req.seatCategory, req.noOfSeats);
      r := Ok(booking);
      ghost var spec := PlaceSpec(st, req, userId, discount, reason);
      assert spec.0 == r;
      assert spec.1.schedules == seeded[key := Row(Reserve(seeded[key].booked, req.seatCategory, req.noOfSeats), seeded[key].totals)];
      assert spec.1 == Model();
    }

    /** Stores a new booking under the next id. */
    method SaveBooking(booking: Booking)
      requires Valid() && booking.bookingId == nextBookingId
      modifies this
      ensures Valid()
      ensures Model() == old(Model()).(bookings := old(bookings)[booking.bookingId := booking],
                                       nextBookingId := old(nextBookingId) + 1)
      ensures schedules == old(schedules)
    {
      bookings := bookings[booking.bookingId := booking];
      nextBookingId := nextBookingId + 1;
    }

    method CancelBooking(bookingId: int) returns (r: Result<CancelReceipt>)
      requires Valid()
      modifies this, schedules.Values
      ensures Valid()
      ensures (r, Model()) == CancelSpec(old(Model()), bookingId)
    {
      if bookingId !in bookings {
        return Err(RuntimeError("Booking not found with id: " + IntToString(bookingId)));
      }
      var booking := bookings[bookingId];
      if booking.status != BOOKED {
        return Err(RuntimeError("Booking cannot be cancelled. Current status: " + StatusName(booking.status)));
      }
      if booking.flightId !in flights {
        return Err(RuntimeError("Flight not found"));
      }
      var flight := flights[booking.flightId];
      var refund := CalculateRefundAmount(booking.bookingAmountCents, flight.refundBasisPoints);
      var cancelled := booking.(status := CANCELLED);
      ghost var st := Model();
      bookings := bookings[bookingId := cancelled];
      assert RowsOf(schedules) == st.schedules;
      UpdateFlightScheduleBookedCount(booking.flightId, booking.dateOfTravel, booking.seatCategory, -booking.noOfSeats);
      assert RowsOf(schedules) == UpdateRows(st.schedules, ScheduleKey(booking.flightId, booking.dateOfTravel), booking.seatCategory, -booking.noOfSeats);
      r := Ok(CancelReceipt(cancelled, refund, flight.refundBasisPoints));
    }
  }
}
