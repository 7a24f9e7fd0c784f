/**
 * The early-payment rule of the tax calculator: a 10% reduction for taxes
 * paid by 31 March 2026, and the eligibility test against the local clock.
 */
module EarlyPayment {
  import opened CivilTime

  /** The amounts shown to the user: the computed tax, the reduction and
      what remains to be paid. */
  datatype DiscountSplit = DiscountSplit(originalTax: real, discount: real, finalTax: real)

  /** `applyEarlyPaymentDiscount`: without the discount the tax is passed
      through unchanged; with it a tenth of the tax is taken off. */
  function ApplyEarlyPaymentDiscount(tax: real, applyDiscount: bool): (r: DiscountSplit)
    ensures r.originalTax == tax
    ensures r.finalTax + r.discount == r.originalTax
    ensures !applyDiscount ==> r.discount == 0.0 && r.finalTax == tax
    ensures applyDiscount ==> r.discount * 10.0 == tax
  {
    if !applyDiscount then
      DiscountSplit(tax, 0.0, tax)
    else
      var discount := tax * 0.1;
      DiscountSplit(tax, discount, tax - discount)
  }

  /** The last moment of eligibility: 31 March 2026, 23:59:59 on the local
      clock (`new Date(2026, 2, 31, 23, 59, 59)`), for a local clock
      `utcOffsetMs` ahead of UTC. */
  function EligibilityDeadline(utcOffsetMs: int): int
  {
    CivilToInstant(2026, 3, 31, 23, 59, 59, utcOffsetMs)
  }

  /** `isEarlyPaymentEligible`: the instant `now` is at or before the
      deadline. The wall clock and the local time zone are parameters. */
  predicate IsEarlyPaymentEligible(now: int, utcOffsetMs: int)
  {
    now <= EligibilityDeadline(utcOffsetMs)
  }

  // ---------------------------------------------------------------------
  // Lemmas

  /** The worked example: 1000 lei paid early becomes 900 lei. */
  lemma DiscountExample()
    ensures ApplyEarlyPaymentDiscount(1000.0, true) == DiscountSplit(1000.0, 100.0, 900.0)
    ensures ApplyEarlyPaymentDiscount(1000.0, false) == DiscountSplit(1000.0, 0.0, 1000.0)
  {
  }

  /** With the discount the amount due is 90% of the tax; for a
      non-negative tax the reduction never exceeds what remains, and neither
      is negative. */
  lemma DiscountBounds(tax: real, applyDiscount: bool)
    requires 0.0 <= tax
    ensures applyDiscount ==> ApplyEarlyPaymentDiscount(tax, applyDiscount).finalTax == 0.9 * tax
    ensures 0.0 <= ApplyEarlyPaymentDiscount(tax, applyDiscount).discount
              <= ApplyEarlyPaymentDiscount(tax, applyDiscount).finalTax
              <= tax
  {
  }

  /** Eligibility holds exactly while the local clock shows a time no later
      than 31 March 2026, 23:59:59.000. */
  lemma EligibleByLocalClock(now: int, utcOffsetMs: int)
    ensures IsEarlyPaymentEligible(now, utcOffsetMs)
      <==> now + utcOffsetMs <= (DaysFromCivil(2026, 3, 31) + 1) * DayMs - SecondMs
  {
  }

  /** The test compares down to the millisecond against 23:59:59.000, so the
      last 999 ms of 31 March are already ineligible although the local
      date is still 31 March. */
  lemma LastSecondIneligible(utcOffsetMs: int, ms: int)
    requires 0 < ms < SecondMs
    ensures var t := EligibilityDeadline(utcOffsetMs) + ms;
      !IsEarlyPaymentEligible(t, utcOffsetMs) &&
      LocalDay(t, utcOffsetMs) == DaysFromCivil(2026, 3, 31)
  {
    var t := EligibilityDeadline(utcOffsetMs) + ms;
    CalendarAnchors();
    LocalDayBefore(t, utcOffsetMs, DaysFromCivil(2026, 3, 31));
    LocalDayBefore(t, utcOffsetMs, DaysFromCivil(2026, 3, 31) - 1);
  }

  /** Eligibility only ends: an instant before an eligible one is eligible
      too, and the deadline itself is eligible. */
  lemma EligibilityMonotone(t1: int, t2: int, utcOffsetMs: int)
    requires t1 <= t2
    ensures IsEarlyPaymentEligible(t2, utcOffsetMs) ==> IsEarlyPaymentEligible(t1, utcOffsetMs)
    ensures IsEarlyPaymentEligible(EligibilityDeadline(utcOffsetMs), utcOffsetMs)
    ensures !IsEarlyPaymentEligible(EligibilityDeadline(utcOffsetMs) + 1, utcOffsetMs)
  {
  }
}
