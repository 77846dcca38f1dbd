/**
 * Instants are microseconds since the first day of year 1, UTC; dates are day numbers from the same
 * origin. A business's zone is a fixed offset in microseconds east of UTC.
 */
module LocalTime {

  const DAY := 86400000000

  function LocalDate(t: int, offset: int): int {
    (t + offset) / DAY
  }

  function UtcDate(t: int): int {
    LocalDate(t, 0)
  }

  function LocalMidnight(date: int, offset: int): int {
    date * DAY - offset
  }

  function EndOfLocalDay(date: int, offset: int): int {
    LocalMidnight(date + 1, offset) - 1
  }

  /** A local day is exactly the instants from its midnight to its last microsecond. */
  lemma LocalDayIff(t: int, date: int, offset: int)
    ensures LocalDate(t, offset) == date <==> LocalMidnight(date, offset) <= t <= EndOfLocalDay(date, offset)
  {
  }

  predicate PastDue(due: int, t: int, offset: int) {
    due < LocalDate(t, offset)
  }

  /** A date past on the UTC calendar is past on the local one, at every instant, exactly for zones not west of UTC. */
  lemma UtcBehindLocalIff(offset: int)
    ensures (forall t: nat, due: int :: PastDue(due, t, 0) ==> PastDue(due, t, offset)) <==> offset >= 0
  {
    if offset < 0 {
      assert PastDue(-1, 0, 0) && !PastDue(-1, 0, offset);
    }
  }

  // ---- the Gregorian year of a date ----

  function DaysBeforeYear(year: nat): int
    requires year >= 1
  {
    var y := year - 1;
    365 * y + y / 4 - y / 100 + y / 400
  }

  lemma YearsAdvance(year: nat)
    requires year >= 1
    ensures DaysBeforeYear(year) < DaysBeforeYear(year + 1)
  {
  }

  function YearFrom(date: int, year: nat): (y: nat)
    requires year >= 1 && DaysBeforeYear(year) <= date
    ensures y >= 1 && DaysBeforeYear(y) <= date < DaysBeforeYear(y + 1)
    decreases date - DaysBeforeYear(year)
  {
    YearsAdvance(year);
    if date < DaysBeforeYear(year + 1) then year else YearFrom(date, year + 1)
  }

  /** The calendar year a date falls in. */
  function Year(date: nat): nat {
    YearFrom(date, 1)
  }

  /** It is the one year whose first day is not after the date and whose successor's first day is. */
  lemma YearIs(date: nat, year: nat)
    requires year >= 1
    ensures year == Year(date) <==> DaysBeforeYear(year) <= date < DaysBeforeYear(year + 1)
  {
  }

}
