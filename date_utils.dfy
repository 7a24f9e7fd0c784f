/**
 * The discount-availability helpers: the 10% early-payment discount is
 * offered until the end of 31 March 2026 in Romania, which is then on
 * summer time (UTC+3).
 */
module DateUtils {
  import opened CivilTime

  /** Romania's offset from UTC on 1 April 2026 (summer time). */
  const BucharestSummerOffsetMs: int := 3 * HourMs

  /** `new Date('2026-04-01T00:00:00+03:00')`: the first instant without
      the discount. */
  const DiscountDeadline: int := CivilToInstant(2026, 4, 1, 0, 0, 0, BucharestSummerOffsetMs)

  /** `isDiscountAvailable`: the current instant, a parameter here, is
      strictly before the deadline. */
  predicate IsDiscountAvailable(now: int)
  {
    now < DiscountDeadline
  }

  /** `getDiscountRate`: 10% while the discount is available, else 0. */
  function GetDiscountRate(now: int): (r: real)
    ensures r == 0.1 || r == 0.0
    ensures r == 0.1 <==> IsDiscountAvailable(now)
  {
    if IsDiscountAvailable(now) then 0.1 else 0.0
  }

  // ---------------------------------------------------------------------
  // Lemmas

  /** The deadline is 31 March 2026, 21:00:00 UTC, i.e. 1774990800000 ms
      after the epoch. */
  lemma DeadlineInstant()
    ensures DiscountDeadline == CivilToInstant(2026, 3, 31, 21, 0, 0, 0)
    ensures DiscountDeadline == 1774990800000
  {
    CalendarAnchors();
  }

  /** The discount is available exactly on the instants whose Romanian date
      is 31 March 2026 or earlier. */
  lemma AvailableThroughMarch31(now: int)
    ensures IsDiscountAvailable(now)
      <==> LocalDay(now, BucharestSummerOffsetMs) <= DaysFromCivil(2026, 3, 31)
  {
    CalendarAnchors();
    LocalDayBefore(now, BucharestSummerOffsetMs, DaysFromCivil(2026, 3, 31));
  }

  /** At the deadline the discount is gone, one millisecond earlier it is
      still there, and once gone it never comes back. */
  lemma AvailabilityEnds(t1: int, t2: int)
    requires t1 <= t2
    ensures !IsDiscountAvailable(DiscountDeadline)
    ensures IsDiscountAvailable(DiscountDeadline - 1)
    ensures IsDiscountAvailable(t2) ==> IsDiscountAvailable(t1)
    ensures GetDiscountRate(t2) <= GetDiscountRate(t1)
  {
  }
}
