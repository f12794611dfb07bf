/** Carriers: registration, update and soft deletion over a carrier store
    keyed by id. Percentages are held in basis points (hundredths of a
    percent), the two decimals the store keeps. */
module Carriers {
  import opened Common

  /** Display-only discount labels; pricing does not read them. */
  datatype DiscountType = THIRTY_DAYS | SIXTY_DAYS | NINETY_DAYS | BULK | SILVER | GOLD | PLATINUM

  /** Display-only refund labels. */
  datatype RefundType = TWO_DAYS | TEN_DAYS | TWENTY_DAYS

  datatype Carrier = Carrier(carrierId: int, carrierName: string,
                             discountBasisPoints: int, refundBasisPoints: int,
                             discountType: DiscountType, refundType: RefundType,
                             description: Option<string>, isActive: bool)

  /** The fields of a `CarrierDTO` that the service reads. */
  datatype CarrierForm = CarrierForm(carrierName: string, discountBasisPoints: int, refundBasisPoints: int,
                                     discountType: DiscountType, refundType: RefundType,
                                     description: Option<string>)

  /** Strictly between 0% and 100%. */
  predicate InOpenPercentRange(basisPoints: int) {
    0 < basisPoints < 10000
  }

  /** `validatePercentages`: the discount is checked first, then the refund. */
  function ValidatePercentages(discountBasisPoints: int, refundBasisPoints: int): (r: Option<Error>)
    ensures r.None? <==> InOpenPercentRange(discountBasisPoints) && InOpenPercentRange(refundBasisPoints)
    ensures !InOpenPercentRange(discountBasisPoints) ==>
              r == Some(RuntimeError("Discount percentage must be between 0 and 100"))
    ensures InOpenPercentRange(discountBasisPoints) && !InOpenPercentRange(refundBasisPoints) ==>
              r == Some(RuntimeError("Refund percentage must be between 0 and 100"))
  {
    if discountBasisPoints <= 0 || discountBasisPoints >= 10000 then
      Some(RuntimeError("Discount percentage must be between 0 and 100"))
    else if refundBasisPoints <= 0 || refundBasisPoints >= 10000 then
      Some(RuntimeError("Refund percentage must be between 0 and 100"))
    else None
  }

  /** The bounds are exclusive, and a bad discount hides a bad refund. */
  lemma ValidatePercentagesExamples()
    ensures ValidatePercentages(0, 10000) == Some(RuntimeError("Discount percentage must be between 0 and 100"))
    ensures ValidatePercentages(15000, 5000) == Some(RuntimeError("Discount percentage must be between 0 and 100"))
    ensures ValidatePercentages(2500, 10000) == Some(RuntimeError("Refund percentage must be between 0 and 100"))
    ensures ValidatePercentages(1, 9999) == None
  {
  }

  function NameConflict(carrierName: string): Error {
    RuntimeError("Carrier with name '" + carrierName + "' already exists")
  }

  function CarrierNotFound(carrierId: int): Error {
    RuntimeError("Carrier not found with ID: " + IntToString(carrierId))
  }

  /** The carrier service over its store. Names are unique, and every
      stored carrier's percentages passed validation. */
  class CarrierService {
    var carriers: map<int, Carrier>
    var nextCarrierId: int

    ghost predicate Valid()
      reads this
    {
      && (forall id | id in carriers ::
            && carriers[id].carrierId == id && id < nextCarrierId
            && InOpenPercentRange(carriers[id].discountBasisPoints)
            && InOpenPercentRange(carriers[id].refundBasisPoints))
      && (forall i, j | i in carriers && j in carriers && i != j :: carriers[i].carrierName != carriers[j].carrierName)
    }

    constructor ()
      ensures Valid() && carriers == map[]
    {
      carriers := map[];
      nextCarrierId := 1;
    }

    predicate NameTaken(carrierName: string)
      reads this
    {
      exists id | id in carriers :: carriers[id].carrierName == carrierName
    }

    /** Registers an active carrier: a taken name is refused before the
        percentages are validated; nothing is stored on a failure. */
    method RegisterCarrier(form: CarrierForm) returns (r: Result<Carrier>)
      requires Valid()
      modifies this
      ensures Valid()
      ensures r.Err? ==> carriers == old(carriers)
      ensures old(NameTaken(form.carrierName)) ==> r == Err(NameConflict(form.carrierName))
      ensures !old(NameTaken(form.carrierName)) ==>
                && (r.Err? <==> ValidatePercentages(form.discountBasisPoints, form.refundBasisPoints).Some?)
                && (r.Err? ==> Some(r.error) == ValidatePercentages(form.discountBasisPoints, form.refundBasisPoints))
      ensures r.Ok? ==>
        && r.value.carrierId !in old(carriers)
        && carriers == old(carriers)[r.value.carrierId := r.value]
        && r.value == Carrier(r.value.carrierId, form.carrierName, form.discountBasisPoints, form.refundBasisPoints,
                              form.discountType, form.refundType, form.description, true)
    {
      if NameTaken(form.carrierName) {
        return Err(NameConflict(form.carrierName));
      }
      var invalid := ValidatePercentages(form.discountBasisPoints, form.refundBasisPoints);
      if invalid.Some? {
        return Err(invalid.value);
      }
      var carrier := Carrier(nextCarrierId, form.carrierName, form.discountBasisPoints, form.refundBasisPoints,
                             form.discountType, form.refundType, form.description, true);
      carriers := carriers[nextCarrierId := carrier];
      nextCarrierId := nextCarrierId + 1;
      r := Ok(carrier);
    }

    /** Overwrites a carrier's name, percentages, types and description.
        Keeping the same name never conflicts; renaming to another stored
        carrier's name does. The id and the active flag stay. */
    method UpdateCarrier(carrierId: int, form: CarrierForm) returns (r: Result<Carrier>)
      requires Valid()
      modifies this
      ensures Valid()
      ensures r.Err? ==> carriers == old(carriers)
      ensures carrierId !in old(carriers) ==> r == Err(CarrierNotFound(carrierId))
      ensures carrierId in old(carriers) ==>
                var existing := old(carriers[carrierId]);
                if existing.carrierName != form.carrierName && old(NameTaken(form.carrierName)) then
                  r == Err(NameConflict(form.carrierName))
                else
                  && (r.Err? <==> ValidatePercentages(form.discountBasisPoints, form.refundBasisPoints).Some?)
                  && (r.Err? ==> Some(r.error) == ValidatePercentages(form.discountBasisPoints, form.refundBasisPoints))
      ensures r.Ok? ==>
        && carrierId in old(carriers)
        && r.value == old(carriers[carrierId]).(carrierName := form.carrierName,
                                                discountBasisPoints := form.discountBasisPoints,
                                                refundBasisPoints := form.refundBasisPoints,
                                                discountType := form.discountType,
                                                refundType := form.refundType,
                                                description := form.description)
        && r.value.carrierId == carrierId && r.value.isActive == old(carriers[carrierId].isActive)
        && carriers == old(carriers)[carrierId := r.value]
    {
      if carrierId !in carriers {
        return Err(CarrierNotFound(carrierId));
      }
      var existing := carriers[carrierId];
      if existing.carrierName != form.carrierName && NameTaken(form.carrierName) {
        return Err(NameConflict(form.carrierName));
      }
      var invalid := ValidatePercentages(form.discountBasisPoints, form.refundBasisPoints);
      if invalid.Some? {
        return Err(invalid.value);
      }
      var updated := existing.(carrierName := form.carrierName,
                               discountBasisPoints := form.discountBasisPoints,
                               refundBasisPoints := form.refundBasisPoints,
                               discountType := form.discountType,
                               refundType := form.refundType,
                               description := form.description);
      carriers := carriers[carrierId := updated];
      r := Ok(updated);
    }

    /** Soft delete: the carrier stays, inactive, with every other field as it was. */
    method DeleteCarrier(carrierId: int) returns (r: Option<Error>)
      requires Valid()
      modifies this
      ensures Valid()
      ensures carrierId !in old(carriers) ==> r == Some(CarrierNotFound(carrierId)) && carriers == old(carriers)
      ensures carrierId in old(carriers) ==>
                r == None && carriers == old(carriers)[carrierId := old(carriers[carrierId]).(isActive := false)]
      ensures carriers.Keys == old(carriers.Keys)
    {
      if carrierId !in carriers {
        return Some(CarrierNotFound(carrierId));
      }
      carriers := carriers[carrierId := carriers[carrierId].(isActive := false)];
      r := None;
    }
  }
}
