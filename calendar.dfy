/** The calendar-day abstraction behind `isSameDay` and `setHours(0, 0, 0, 0)`:
    a day number per timestamp, with "midnight" the first millisecond of a day. */
module Calendar {
  import opened Records

  /** The day a timestamp falls on (floor division, so negative times work too). */
  function DayOf(t: Time): int
  {
    t / MsPerDay
  }

  /** `t` is the start of its day, as `today.setHours(0, 0, 0, 0)` produces. */
  predicate IsMidnight(t: Time)
  {
    t % MsPerDay == 0
  }

  /** `isSameDay`: year, month and day of month agree, i.e. the same day number. */
  predicate IsSameDay(a: Time, b: Time)
  {
    DayOf(a) == DayOf(b)
  }

  /** The midnight that starts the day of `t`. */
  function StartOfDay(t: Time): (m: Time)
    ensures IsMidnight(m) && m <= t < m + MsPerDay
    ensures IsSameDay(m, t)
  {
    DayOfBounds(t);
    DayOf(t) * MsPerDay
  }

  lemma DayOfBounds(t: Time)
    ensures DayOf(t) * MsPerDay <= t < DayOf(t) * MsPerDay + MsPerDay
    ensures (DayOf(t) * MsPerDay) % MsPerDay == 0
    ensures DayOf(DayOf(t) * MsPerDay) == DayOf(t)
  {
    var d := DayOf(t);
    assert t == d * MsPerDay + t % MsPerDay;
    MultipleDiv(d);
  }

  lemma MultipleDiv(d: int)
    ensures (d * MsPerDay) % MsPerDay == 0 && (d * MsPerDay) / MsPerDay == d
  {
  }

  /** `isSameDay` is reflexive and symmetric, and transitive as well. */
  lemma SameDayIsEquivalence(a: Time, b: Time, c: Time)
    ensures IsSameDay(a, a)
    ensures IsSameDay(a, b) <==> IsSameDay(b, a)
    ensures IsSameDay(a, b) && IsSameDay(b, c) ==> IsSameDay(a, c)
  {
  }

  /** For a midnight `today`, falling on the same day as `today` is exactly
      falling in `[today, today + 24h)`: the expired-today query window. */
  lemma SameDayAsMidnight(t: Time, today: Time)
    requires IsMidnight(today)
    ensures IsSameDay(t, today) <==> today <= t < today + MsPerDay
  {
    var d := today / MsPerDay;
    assert today == d * MsPerDay;
    DayOfBounds(t);
    MultipleDiv(d);
    if today <= t < today + MsPerDay {
      DivBetween(t, d);
    }
  }

  lemma DivBetween(t: Time, d: int)
    requires d * MsPerDay <= t < d * MsPerDay + MsPerDay
    ensures DayOf(t) == d
  {
    DayOfBounds(t);
  }
}
