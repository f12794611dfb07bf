/** The seat ledger of one flight on one travel date: a booked count and a
    total capacity for each seat class. */
module Schedules {
  import opened Common
  import opened SeatCategories

  /** One number per seat class (booked seats, or capacities). */
  datatype Counts = Counts(economy: int, business: int, executive: int) {
    function Get(c: SeatCategory): int {
      match c
      case ECONOMY => economy
      case BUSINESS => business
      case EXECUTIVE => executive
    }

    function Set(c: SeatCategory, v: int): (r: Counts)
      ensures r.Get(c) == v
      ensures forall d :: d != c ==> r.Get(d) == Get(d)
    {
      match c
      case ECONOMY => this.(economy := v)
      case BUSINESS => this.(business := v)
      case EXECUTIVE => this.(executive := v)
    }
  }

  const NoSeats := Counts(0, 0, 0)

  /** `requested` more seats of class `c` fit under the capacity. */
  predicate Fits(booked: Counts, totals: Counts, c: SeatCategory, requested: int) {
    booked.Get(c) + requested <= totals.Get(c)
  }

  /** The capacity invariant of a ledger: no class is negative or overbooked. */
  predicate Within(booked: Counts, totals: Counts) {
    forall c :: 0 <= booked.Get(c) <= totals.Get(c)
  }

  /** The booked counts after reserving `seats` of class `c`. */
  function Reserve(booked: Counts, c: SeatCategory, seats: int): Counts {
    booked.Set(c, booked.Get(c) + seats)
  }

  /** The booked counts after releasing `seats` of class `c`, clamped at zero. */
  function Release(booked: Counts, c: SeatCategory, seats: int): Counts {
    booked.Set(c, Max(0, booked.Get(c) - seats))
  }

  /** Reserving keeps the capacity invariant exactly when the request fits:
      the reservation itself checks nothing. */
  lemma ReserveWithinIffFits(booked: Counts, totals: Counts, c: SeatCategory, seats: int)
    requires Within(booked, totals) && seats >= 0
    ensures Within(Reserve(booked, c, seats), totals) <==> Fits(booked, totals, c, seats)
  {
    var after := Reserve(booked, c, seats);
    if Fits(booked, totals, c, seats) {
      forall d ensures 0 <= after.Get(d) <= totals.Get(d) {
        if d != c { assert after.Get(d) == booked.Get(d); }
      }
    }
  }

  /** Releasing seats never breaks the capacity invariant, and never leaves
      a negative count. */
  lemma ReleaseKeepsWithin(booked: Counts, totals: Counts, c: SeatCategory, seats: int)
    requires Within(booked, totals) && seats >= 0
    ensures Within(Release(booked, c, seats), totals)
    ensures Release(booked, c, seats).Get(c) >= 0
  {
    var after := Release(booked, c, seats);
    forall d ensures 0 <= after.Get(d) <= totals.Get(d) {
      if d != c { assert after.Get(d) == booked.Get(d); }
    }
  }

  /** Releasing what was just reserved restores the ledger. */
  lemma ReleaseUndoesReserve(booked: Counts, c: SeatCategory, seats: int)
    requires seats >= 0 && booked.Get(c) >= 0
    ensures Release(Reserve(booked, c, seats), c, seats) == booked
  {
  }

  /** A `FlightSchedule` row: the per-class booked counts and capacities of
      one flight on one date, updated in place by bookings and cancellations. */
  class FlightSchedule {
    var flightId: int
    var dateOfTravel: int
    var bookedCountEconomy: int
    var bookedCountBusiness: int
    var bookedCountExecutive: int
    var totalCapacityEconomy: int
    var totalCapacityBusiness: int
    var totalCapacityExecutive: int

    function Booked(): Counts
      reads this
    {
      Counts(bookedCountEconomy, bookedCountBusiness, bookedCountExecutive)
    }

    function Totals(): Counts
      reads this
    {
      Counts(totalCapacityEconomy, totalCapacityBusiness, totalCapacityExecutive)
    }

    /** A new row: nothing booked yet, capacities as given. */
    constructor (flightId: int, dateOfTravel: int,
                 totalCapacityEconomy: int, totalCapacityBusiness: int, totalCapacityExecutive: int)
      ensures this.flightId == flightId && this.dateOfTravel == dateOfTravel
      ensures Booked() == NoSeats
      ensures Totals() == Counts(totalCapacityEconomy, totalCapacityBusiness, totalCapacityExecutive)
    {
      this.flightId := flightId;
      this.dateOfTravel := dateOfTravel;
      this.bookedCountEconomy := 0;
      this.bookedCountBusiness := 0;
      this.bookedCountExecutive := 0;
      this.totalCapacityEconomy := totalCapacityEconomy;
      this.totalCapacityBusiness := totalCapacityBusiness;
      this.totalCapacityExecutive := totalCapacityExecutive;
    }

    /** Whether `requestedSeats` more seats of the class fit. */
    function HasAvailableSeats(seatCategory: SeatCategory, requestedSeats: int): (r: bool)
      reads this
      ensures r <==> Fits(Booked(), Totals(), seatCategory, requestedSeats)
    {
      match seatCategory
      case ECONOMY => bookedCountEconomy + requestedSeats <= totalCapacityEconomy
      case BUSINESS => bookedCountBusiness + requestedSeats <= totalCapacityBusiness
      case EXECUTIVE => bookedCountExecutive + requestedSeats <= totalCapacityExecutive
    }

    /** Adds `seats` to the class's booked count, with no capacity check. */
    method IncrementBookedCount(seatCategory: SeatCategory, seats: int)
      modifies this
      ensures Booked() == Reserve(old(Booked()), seatCategory, seats)
      ensures Totals() == old(Totals())
      ensures flightId == old(flightId) && dateOfTravel == old(dateOfTravel)
      ensures old(Within(Booked(), Totals()) && HasAvailableSeats(seatCategory, seats)) && seats >= 0
              ==> Within(Booked(), Totals())
    {
      match seatCategory {
        case ECONOMY => bookedCountEconomy := bookedCountEconomy + seats;
        case BUSINESS => bookedCountBusiness := bookedCountBusiness + seats;
        case EXECUTIVE => bookedCountExecutive := bookedCountExecutive + seats;
      }
      if old(Within(Booked(), Totals())) && seats >= 0 {
        ReserveWithinIffFits(old(Booked()), old(Totals()), seatCategory, seats);
      }
    }

    /** Subtracts `seats` from the class's booked count, never below zero. */
    method DecrementBookedCount(seatCategory: SeatCategory, seats: int)
      modifies this
      ensures Booked() == Release(old(Booked()), seatCategory, seats)
      ensures Booked().Get(seatCategory) >= 0
      ensures Totals() == old(Totals())
      ensures flightId == old(flightId) && dateOfTravel == old(dateOfTravel)
      ensures old(Within(Booked(), Totals())) && seats >= 0 ==> Within(Booked(), Totals())
    {
      match seatCategory {
        case ECONOMY => bookedCountEconomy := Max(0, bookedCountEconomy - seats);
        case BUSINESS => bookedCountBusiness := Max(0, bookedCountBusiness - seats);
        case EXECUTIVE => bookedCountExecutive := Max(0, bookedCountExecutive - seats);
      }
      if old(Within(Booked(), Totals())) && seats >= 0 {
        ReleaseKeepsWithin(old(Booked()), old(Totals()), seatCategory, seats);
      }
    }
  }

  /** A client of the class: reserving then releasing the same seats leaves
      the row as it was. */
  method ReserveThenRelease(s: FlightSchedule, seatCategory: SeatCategory, seats: int)
    requires seats >= 0 && s.Booked().Get(seatCategory) >= 0
    modifies s
    ensures s.Booked() == old(s.Booked()) && s.Totals() == old(s.Totals())
  {
    s.IncrementBookedCount(seatCategory, seats);
    s.DecrementBookedCount(seatCategory, seats);
    ReleaseUndoesReserve(old(s.Booked()), seatCategory, seats);
  }
}
