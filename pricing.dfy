/** Booking price rules: the discount on a booking, its explanation text,
    and the refund on cancellation.

    Money is held in cents. A fare in cents times a percentage gives
    hundredths of a cent, so a discount is first computed exactly in
    hundredths of a cent and then rounded once, half up, to whole cents.
    A refund percentage is held in basis points (hundredths of a percent). */
module Pricing {
  import opened Common
  import opened Users

  /** `x / d` rounded to an integer, halves away from zero (`RoundingMode.HALF_UP`). */
  function RoundHalfUp(x: int, d: int): (r: int)
    requires d > 0 && d % 2 == 0
    ensures x >= 0 ==> r >= 0 && r * d - d / 2 <= x < r * d + d / 2
    ensures x < 0 ==> r <= 0 && r * d - d / 2 < x <= r * d + d / 2
  {
    if x >= 0 then (x + d / 2) / d else -((-x + d / 2) / d)
  }

  /** Rounding keeps the order of non-negative amounts. */
  lemma RoundHalfUpMonotone(x: int, y: int, d: int)
    requires d > 0 && d % 2 == 0 && 0 <= x <= y
    ensures RoundHalfUp(x, d) <= RoundHalfUp(y, d)
  {
    var rx, ry := RoundHalfUp(x, d), RoundHalfUp(y, d);
    if rx > ry {
      MulMono(d, 1, rx - ry);
      assert false;
    }
  }

  /** Rounding a whole number of cents to cents gives it back. */
  lemma RoundHalfUpExact(k: int)
    requires k >= 0
    ensures RoundHalfUp(k * 10000, 10000) == k
  {
  }

  lemma MulMono(a: int, b: int, c: int)
    requires a >= 0 && b <= c
    ensures a * b <= a * c
  {
  }

  lemma MulSwap(a: int, b: int, c: int)
    ensures a * b * c == (a * c) * b
  {
  }

  // ---- discount ---------------------------------------------------------

  /** Advance-purchase tier, in percent: only the highest tier reached applies. */
  function AdvancePercent(daysInAdvance: int): int {
    if daysInAdvance >= 30 then 15
    else if daysInAdvance >= 14 then 10
    else if daysInAdvance >= 7 then 5
    else 0
  }

  /** Customer-category rate, in percent. */
  function CategoryPercent(c: CustomerCategory): int {
    match c
    case PLATINUM => 20
    case GOLD => 15
    case SILVER => 10
    case PREMIUM => 25
    case REGULAR => 0
  }

  /** Bulk rate, in percent: five seats or more. */
  function BulkPercent(noOfSeats: int): int {
    if noOfSeats >= 5 then 10 else 0
  }

  /** The combined per-seat rate, in percent. */
  function DiscountRate(c: CustomerCategory, daysInAdvance: int, noOfSeats: int): int {
    AdvancePercent(daysInAdvance) + CategoryPercent(c) + BulkPercent(noOfSeats)
  }

  /** The advance-purchase tier never drops as the travel date moves out. */
  lemma AdvancePercentMonotone(d1: int, d2: int)
    requires d1 <= d2
    ensures AdvancePercent(d1) <= AdvancePercent(d2)
  {
  }

  /** `calculateDiscounts`, in cents: the summed rate of the fare, times
      the seats, capped at the gross fare, rounded half up once at the end. */
  function CalculateDiscount(fareCents: int, c: CustomerCategory, daysInAdvance: int, noOfSeats: int): int {
    var raw := fareCents * DiscountRate(c, daysInAdvance, noOfSeats) * noOfSeats;
    var cap := fareCents * noOfSeats * 100;
    RoundHalfUp(if raw > cap then cap else raw, 100)
  }

  lemma RateBounds(c: CustomerCategory, daysInAdvance: int, noOfSeats: int)
    ensures 0 <= DiscountRate(c, daysInAdvance, noOfSeats) <= 50
  {
  }

  /** The discount lies between nothing and the gross fare, so the booking
      amount `fare * seats - discount` is never negative; since the rates
      add up to at most 50%, the cap never binds and the discount is at
      most half the gross (plus the rounding). */
  lemma {:induction false} DiscountBounds(fareCents: int, c: CustomerCategory, daysInAdvance: int, noOfSeats: int)
    requires fareCents >= 0 && noOfSeats >= 0
    ensures var d := CalculateDiscount(fareCents, c, daysInAdvance, noOfSeats);
            0 <= d <= fareCents * noOfSeats && 2 * d <= fareCents * noOfSeats + 1
    ensures fareCents * DiscountRate(c, daysInAdvance, noOfSeats) * noOfSeats <= fareCents * noOfSeats * 100
    ensures DiscountRate(c, daysInAdvance, noOfSeats) == 0 ==>
              CalculateDiscount(fareCents, c, daysInAdvance, noOfSeats) == 0
  {
    var rate := DiscountRate(c, daysInAdvance, noOfSeats);
    RateBounds(c, daysInAdvance, noOfSeats);
    var g := fareCents * noOfSeats;
    MulMono(fareCents, 0, noOfSeats);
    MulSwap(fareCents, rate, noOfSeats);
    MulMono(g, 0, rate);
    MulMono(g, rate, 50);
    MulMono(g, rate, 100);
    var raw := fareCents * rate * noOfSeats;
    assert 0 <= raw <= g * 50;
    var d := RoundHalfUp(raw, 100);
    assert d * 100 - 50 <= raw;
    if rate == 0 {
      assert raw == 0;
    }
  }

  /** The discount never exceeds the gross fare. */
  lemma DiscountWithinGross(fareCents: int, c: CustomerCategory, daysInAdvance: int, noOfSeats: int)
    requires fareCents >= 0 && noOfSeats >= 0
    ensures 0 <= CalculateDiscount(fareCents, c, daysInAdvance, noOfSeats) <= fareCents * noOfSeats
  {
    DiscountBounds(fareCents, c, daysInAdvance, noOfSeats);
  }

  /** Travelling later never earns a smaller discount. */
  lemma {:induction false} DiscountMonotoneInDays(fareCents: int, c: CustomerCategory, d1: int, d2: int, noOfSeats: int)
    requires fareCents >= 0 && noOfSeats >= 0 && d1 <= d2
    ensures CalculateDiscount(fareCents, c, d1, noOfSeats) <= CalculateDiscount(fareCents, c, d2, noOfSeats)
  {
    AdvancePercentMonotone(d1, d2);
    DiscountBounds(fareCents, c, d1, noOfSeats);
    DiscountBounds(fareCents, c, d2, noOfSeats);
    var g := fareCents * noOfSeats;
    var r1, r2 := DiscountRate(c, d1, noOfSeats), DiscountRate(c, d2, noOfSeats);
    RateBounds(c, d1, noOfSeats);
    MulMono(fareCents, 0, noOfSeats);
    MulSwap(fareCents, r1, noOfSeats);
    MulSwap(fareCents, r2, noOfSeats);
    MulMono(g, 0, r1);
    MulMono(g, r1, r2);
    RoundHalfUpMonotone(g * r1, g * r2, 100);
  }

  /** With a fare of at least ten cents and at least one seat, the rounded
      discount is zero exactly when no rule applies. */
  lemma {:induction false} ZeroDiscountIffNoRule(fareCents: int, c: CustomerCategory, daysInAdvance: int, noOfSeats: int)
    requires fareCents >= 10 && noOfSeats >= 1
    ensures CalculateDiscount(fareCents, c, daysInAdvance, noOfSeats) == 0 <==>
            DiscountRate(c, daysInAdvance, noOfSeats) == 0
  {
    var rate := DiscountRate(c, daysInAdvance, noOfSeats);
    DiscountBounds(fareCents, c, daysInAdvance, noOfSeats);
    if rate > 0 {
      var g := fareCents * noOfSeats;
      assert rate >= 5;
      MulMono(fareCents, 1, noOfSeats);
      MulMono(g, 5, rate);
      MulSwap(fareCents, rate, noOfSeats);
      RoundHalfUpMonotone(50, fareCents * rate * noOfSeats, 100);
    }
  }

  // ---- discount reason -----------------------------------------------------

  const NoDiscountText := "No discounts applied"

  function AdvanceLabel(daysInAdvance: int): Option<string> {
    if daysInAdvance >= 30 then Some("Advance booking (30+ days): 15%")
    else if daysInAdvance >= 14 then Some("Advance booking (14+ days): 10%")
    else if daysInAdvance >= 7 then Some("Advance booking (7+ days): 5%")
    else None
  }

  function CategoryLabel(c: CustomerCategory): Option<string> {
    if c == REGULAR then None
    else
      var pct := match c
        case PLATINUM => "20%"
        case GOLD => "15%"
        case SILVER => "10%"
        case PREMIUM => "25%"
        case REGULAR => "";
      Some("Customer category (" + CategoryName(c) + "): " + pct)
  }

  function BulkLabel(noOfSeats: int): Option<string> {
    if noOfSeats >= 5 then Some("Bulk booking (5+ seats): 10%") else None
  }

  /** Appending to the reason buffer: a ", " separator only when it already
      holds something. */
  function AppendLabel(buffer: string, part: Option<string>): string {
    match part
    case None => buffer
    case Some(text) => (if |buffer| > 0 then buffer + ", " else buffer) + text
  }

  function OptionToSeq(o: Option<string>): seq<string> {
    if o.Some? then [o.value] else []
  }

  /** The labels of the rules that apply, in the order advance, category, bulk. */
  function Labels(c: CustomerCategory, daysInAdvance: int, noOfSeats: int): seq<string> {
    OptionToSeq(AdvanceLabel(daysInAdvance)) + OptionToSeq(CategoryLabel(c)) + OptionToSeq(BulkLabel(noOfSeats))
  }

  /** The parts joined with ", ". */
  function Join(parts: seq<string>): string {
    if |parts| == 0 then ""
    else if |parts| == 1 then parts[0]
    else parts[0] + ", " + Join(parts[1..])
  }

  lemma {:induction false} JoinEmptyIff(parts: seq<string>)
    requires forall i :: 0 <= i < |parts| ==> parts[i] != ""
    ensures (Join(parts) == "") <==> (parts == [])
    ensures parts != [] ==> |Join(parts)| >= |parts[0]| && Join(parts)[..|parts[0]|] == parts[0]
  {
    if |parts| > 1 {
      JoinEmptyIff(parts[1..]);
      assert (parts[0] + ", " + Join(parts[1..]))[..|parts[0]|] == parts[0];
    }
  }

  /** Appending a part to a joined buffer joins one more part. */
  lemma {:induction false} AppendLabelJoins(parts: seq<string>, part: Option<string>)
    requires forall i :: 0 <= i < |parts| ==> parts[i] != ""
    ensures AppendLabel(Join(parts), part) == Join(parts + OptionToSeq(part))
  {
    if part.Some? {
      JoinEmptyIff(parts);
      if |parts| == 0 {
        assert parts + [part.value] == [part.value];
      } else if |parts| == 1 {
        assert parts + [part.value] == [parts[0], part.value];
        assert ([parts[0], part.value])[1..] == [part.value];
      } else {
        assert parts[1..] + [part.value] == (parts + [part.value])[1..];
        AppendLabelJoins(parts[1..], part);
      }
    } else {
      assert parts + [] == parts;
    }
  }

  /** `generateDiscountReason`: the fixed text for a zero discount, and
      otherwise the labels of the applicable rules appended to a buffer. */
  function GenerateDiscountReason(discountCents: int, c: CustomerCategory, daysInAdvance: int, noOfSeats: int): string {
    if discountCents == 0 then NoDiscountText
    else AppendLabel(AppendLabel(AppendLabel("", AdvanceLabel(daysInAdvance)), CategoryLabel(c)), BulkLabel(noOfSeats))
  }

  /** The reason for a zero discount is "No discounts applied"; for any
      other discount it is the applicable labels in order, separated by ", ". */
  lemma ReasonIsJoinedLabels(discountCents: int, c: CustomerCategory, daysInAdvance: int, noOfSeats: int)
    ensures discountCents == 0 ==> GenerateDiscountReason(discountCents, c, daysInAdvance, noOfSeats) == NoDiscountText
    ensures discountCents != 0 ==>
              GenerateDiscountReason(discountCents, c, daysInAdvance, noOfSeats) == Join(Labels(c, daysInAdvance, noOfSeats))
  {
    ReasonBuilderJoins(c, daysInAdvance, noOfSeats);
  }

  lemma ReasonBuilderJoins(c: CustomerCategory, daysInAdvance: int, noOfSeats: int)
    ensures AppendLabel(AppendLabel(AppendLabel("", AdvanceLabel(daysInAdvance)), CategoryLabel(c)), BulkLabel(noOfSeats))
            == Join(Labels(c, daysInAdvance, noOfSeats))
  {
    var a, b, k := AdvanceLabel(daysInAdvance), CategoryLabel(c), BulkLabel(noOfSeats);
    AppendLabelJoins([], a);
    assert [] + OptionToSeq(a) == OptionToSeq(a);
    AppendLabelJoins(OptionToSeq(a), b);
    AppendLabelJoins(OptionToSeq(a) + OptionToSeq(b), k);
  }

  /** The labels name exactly the rules with a non-zero rate. */
  lemma LabelsEmptyIffNoRule(c: CustomerCategory, daysInAdvance: int, noOfSeats: int)
    ensures Labels(c, daysInAdvance, noOfSeats) == [] <==> DiscountRate(c, daysInAdvance, noOfSeats) == 0
  {
  }

  /** Every label is non-empty and starts with the name of its rule, never
      with the 'N' of "No discounts applied". */
  lemma LabelsNotNoDiscount(c: CustomerCategory, daysInAdvance: int, noOfSeats: int)
    ensures forall l | l in Labels(c, daysInAdvance, noOfSeats) :: l != "" && l[0] != 'N'
  {
    var a, b, k := AdvanceLabel(daysInAdvance), CategoryLabel(c), BulkLabel(noOfSeats);
    assert a.Some? ==> a.value[0] == 'A';
    assert b.Some? ==> b.value[0] == 'C';
    assert k.Some? ==> k.value[0] == 'B';
  }

  /** When some rule applies, the joined labels are not "No discounts applied". */
  lemma {:induction false} JoinedLabelsNotNoDiscount(c: CustomerCategory, daysInAdvance: int, noOfSeats: int)
    requires DiscountRate(c, daysInAdvance, noOfSeats) != 0
    ensures Join(Labels(c, daysInAdvance, noOfSeats)) != NoDiscountText
  {
    var ls := Labels(c, daysInAdvance, noOfSeats);
    LabelsEmptyIffNoRule(c, daysInAdvance, noOfSeats);
    LabelsNotNoDiscount(c, daysInAdvance, noOfSeats);
    JoinEmptyIff(ls);
    assert Join(ls)[0] == ls[0][0];
  }

  /** For the discount a booking actually gets, the reason reads "No
      discounts applied" exactly when that discount is zero. */
  lemma {:induction false} ReasonMatchesDiscount(fareCents: int, c: CustomerCategory, daysInAdvance: int, noOfSeats: int)
    requires fareCents >= 0 && noOfSeats >= 0
    ensures var d := CalculateDiscount(fareCents, c, daysInAdvance, noOfSeats);
            (GenerateDiscountReason(d, c, daysInAdvance, noOfSeats) == NoDiscountText) <==> d == 0
  {
    var d := CalculateDiscount(fareCents, c, daysInAdvance, noOfSeats);
    ReasonIsJoinedLabels(d, c, daysInAdvance, noOfSeats);
    if d != 0 {
      DiscountBounds(fareCents, c, daysInAdvance, noOfSeats);
      JoinedLabelsNotNoDiscount(c, daysInAdvance, noOfSeats);
    }
  }

  // ---- refund ------------------------------------------------------------

  /** `calculateRefundAmount`: the booking amount times the refund
      percentage over 100, rounded half up to cents. */
  function CalculateRefundAmount(amountCents: int, refundBasisPoints: int): int {
    RoundHalfUp(amountCents * refundBasisPoints, 10000)
  }

  /** With a percentage between 0 and 100 the refund lies between nothing
      and the amount paid, and it grows with the percentage. */
  lemma {:induction false} RefundBounds(amountCents: int, p: int, q: int)
    requires amountCents >= 0 && 0 <= p <= q <= 10000
    ensures 0 <= CalculateRefundAmount(amountCents, p) <= CalculateRefundAmount(amountCents, q) <= amountCents
  {
    assert 0 <= amountCents * p <= amountCents * q <= amountCents * 10000;
    RoundHalfUpMonotone(amountCents * p, amountCents * q, 10000);
    RoundHalfUpMonotone(amountCents * q, amountCents * 10000, 10000);
    RoundHalfUpExact(amountCents);
  }

  // ---- worked examples -------------------------------------------------------

  /** Fare 1000.00, two seats, 35 days out, REGULAR: 15% of 2000.00. */
  lemma AdvanceExample()
    ensures CalculateDiscount(100000, REGULAR, 35, 2) == 30000
    ensures GenerateDiscountReason(30000, REGULAR, 35, 2) == "Advance booking (30+ days): 15%"
  {
  }

  /** Fare 1000.00, six seats, 3 days out, PLATINUM: 20% + 10% bulk of 6000.00. */
  lemma PlatinumBulkExample()
    ensures CalculateDiscount(100000, PLATINUM, 3, 6) == 180000
  {
  }

  lemma PlatinumLabel()
    ensures CategoryLabel(PLATINUM) == Some("Customer category (PLATINUM): 20%")
  {
    assert "Customer category (" + "PLATINUM" + "): " + "20%" == "Customer category (PLATINUM): 20%";
  }

  /** Two parts are joined with one separator. */
  lemma JoinPair(a: string, b: string)
    ensures Join([a, b]) == a + ", " + b
  {
    assert [a, b][1..] == [b];
  }

  /** The applicable labels for six PLATINUM seats three days out: the
      category rate and the bulk rate, in that order. */
  lemma PlatinumBulkLabels()
    ensures Labels(PLATINUM, 3, 6) == ["Customer category (PLATINUM): 20%", "Bulk booking (5+ seats): 10%"]
  {
    var a, b := "Customer category (PLATINUM): 20%", "Bulk booking (5+ seats): 10%";
    PlatinumLabel();
    assert OptionToSeq(AdvanceLabel(3)) == [];
    assert OptionToSeq(CategoryLabel(PLATINUM)) == [a];
    assert OptionToSeq(BulkLabel(6)) == [b];
    assert [] + [a] + [b] == [a, b];
  }

  lemma PlatinumBulkReason()
    ensures GenerateDiscountReason(180000, PLATINUM, 3, 6)
            == "Customer category (PLATINUM): 20%, Bulk booking (5+ seats): 10%"
  {
    var a, b := "Customer category (PLATINUM): 20%", "Bulk booking (5+ seats): 10%";
    ReasonIsJoinedLabels(180000, PLATINUM, 3, 6);
    PlatinumBulkLabels();
    JoinPair(a, b);
    PlatinumBulkText();
  }

  lemma PlatinumBulkText()
    ensures "Customer category (PLATINUM): 20%" + ", " + "Bulk booking (5+ seats): 10%"
            == "Customer category (PLATINUM): 20%, Bulk booking (5+ seats): 10%"
  {
  }

  /** 80% of 200.00 is 160.00; 75.50% of 1500.00 is 1132.50. */
  lemma RefundExamples()
    ensures CalculateRefundAmount(20000, 8000) == 16000
    ensures CalculateRefundAmount(150000, 7550) == 113250
  {
  }
}
