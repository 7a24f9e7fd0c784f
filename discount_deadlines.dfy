/**
 * How the two discount rules relate: the availability test used for the
 * rate, the eligibility test against the local clock, and the split of a
 * tax into reduction and amount due.
 */
module DiscountDeadlines {
  import opened CivilTime
  import opened EarlyPayment
  import opened DateUtils

  /** On a clock set to Romanian summer time the two tests agree except in
      the final second of 31 March: from 23:59:59.001 until midnight the
      discount is still available but the payment is no longer eligible. */
  lemma DeadlinesDisagree(now: int)
    ensures IsEarlyPaymentEligible(now, BucharestSummerOffsetMs) != IsDiscountAvailable(now)
      <==> DiscountDeadline - SecondMs < now < DiscountDeadline
  {
    CalendarAnchors();
  }

  /** Splitting a tax with the availability test as the switch takes off
      exactly the advertised rate. */
  lemma SplitUsesAdvertisedRate(tax: real, now: int)
    ensures ApplyEarlyPaymentDiscount(tax, IsDiscountAvailable(now)).discount == tax * GetDiscountRate(now)
    ensures ApplyEarlyPaymentDiscount(tax, IsDiscountAvailable(now)).finalTax == tax * (1.0 - GetDiscountRate(now))
  {
  }
}
