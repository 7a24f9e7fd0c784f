/**
 * Proleptic Gregorian calendar arithmetic on instants. An instant is a
 * whole number of milliseconds since 1970-01-01T00:00:00Z, the time value
 * that JavaScript's `Date` carries. The deadline constants of the discount
 * rules are derived here from their calendar form rather than written as
 * raw numbers.
 */
module CivilTime {

  const SecondMs: int := 1000
  const MinuteMs: int := 60 * SecondMs
  const HourMs: int := 60 * MinuteMs
  const DayMs: int := 24 * HourMs

  /** Number of days from 1970-01-01 to the civil date y-m-d (days before
      the epoch are negative). Eras of 400 years, with March as the first
      month so that leap days fall at the end of each year. */
  function DaysFromCivil(y: int, m: int, d: int): int
    requires 1 <= m <= 12 && 1 <= d <= 31
  {
    var yy := if m <= 2 then y - 1 else y;
    var era := yy / 400;
    var yoe := yy - era * 400;
    var mp := if m > 2 then m - 3 else m + 9;
    var doy := (153 * mp + 2) / 5 + d - 1;
    var doe := yoe * 365 + yoe / 4 - yoe / 100 + doy;
    era * 146097 + doe - 719468
  }

  /** The instant at which a clock showing y-m-d h:mi:s reads, for a clock
      `utcOffsetMs` milliseconds ahead of UTC. */
  function CivilToInstant(y: int, m: int, d: int, h: int, mi: int, s: int, utcOffsetMs: int): int
    requires 1 <= m <= 12 && 1 <= d <= 31
  {
    DaysFromCivil(y, m, d) * DayMs + h * HourMs + mi * MinuteMs + s * SecondMs - utcOffsetMs
  }

  /** The day number (as `DaysFromCivil` counts) on which a clock
      `utcOffsetMs` ahead of UTC shows the instant `t`. */
  function LocalDay(t: int, utcOffsetMs: int): int
  {
    (t + utcOffsetMs) / DayMs
  }

  // ---------------------------------------------------------------------
  // Lemmas

  /** The calendar lines up with the epoch, and the days counted around the
      end of March 2026 are consecutive. */
  lemma CalendarAnchors()
    ensures DaysFromCivil(1970, 1, 1) == 0
    ensures DaysFromCivil(2026, 3, 31) == 20543
    ensures DaysFromCivil(2026, 4, 1) == DaysFromCivil(2026, 3, 31) + 1
    ensures DaysFromCivil(2026, 3, 1) == DaysFromCivil(2026, 2, 28) + 1
  {
  }

  /** The instant `t` falls on local day `n` or earlier exactly when it is
      before midnight starting day `n + 1`. */
  lemma LocalDayBefore(t: int, utcOffsetMs: int, n: int)
    ensures LocalDay(t, utcOffsetMs) <= n <==> t < (n + 1) * DayMs - utcOffsetMs
  {
    var x := t + utcOffsetMs;
    var q, r := x / DayMs, x % DayMs;
    assert x == q * DayMs + r && 0 <= r < DayMs;
    if q <= n {
      MulLeq(q + 1, n + 1, DayMs);
    } else {
      MulLeq(n + 1, q, DayMs);
    }
  }

  lemma MulLeq(a: int, b: int, k: int)
    requires a <= b && 0 <= k
    ensures a * k <= b * k
  {
  }
}
