/** `Date.addingTimeInterval(days:hours:minutes:)`. A `Date` is counted in
    whole seconds; the offset is computed in 64-bit `Int`, whose `*` and `+`
    trap on overflow, before it is converted to a `TimeInterval`. */
module DateExt {

  /** Seconds since the reference date. */
  type Date = int

  const SecondsPerDay: int := 86_400
  const SecondsPerHour: int := 3_600
  const SecondsPerMinute: int := 60

  const MinInt64: int := -0x8000_0000_0000_0000
  const MaxInt64: int := 0x7FFF_FFFF_FFFF_FFFF

  predicate InInt64(x: int) {
    MinInt64 <= x <= MaxInt64
  }

  /** Every intermediate result of `days * 86_400 + hours * 3_600 + minutes * 60`,
      evaluated left to right, fits in an `Int`: the expression does not trap. */
  predicate OffsetFits(days: int, hours: int, minutes: int) {
    InInt64(days) && InInt64(hours) && InInt64(minutes)
    && InInt64(days * SecondsPerDay) && InInt64(hours * SecondsPerHour) && InInt64(minutes * SecondsPerMinute)
    && InInt64(days * SecondsPerDay + hours * SecondsPerHour)
    && InInt64(days * SecondsPerDay + hours * SecondsPerHour + minutes * SecondsPerMinute)
  }

  /** `totalSeconds`. */
  function OffsetSeconds(days: int, hours: int, minutes: int): (r: int)
    requires OffsetFits(days, hours, minutes)
    ensures r == ((days * 24 + hours) * 60 + minutes) * 60
    ensures InInt64(r)
  {
    days * SecondsPerDay + hours * SecondsPerHour + minutes * SecondsPerMinute
  }

  function AddingTimeInterval(date: Date, days: int := 0, hours: int := 0, minutes: int := 0): (r: Date)
    requires OffsetFits(days, hours, minutes)
    ensures r - date == ((days * 24 + hours) * 60 + minutes) * 60
    ensures days >= 0 && hours >= 0 && minutes >= 0 ==> r >= date
    ensures days <= 0 && hours <= 0 && minutes <= 0 ==> r <= date
  {
    date + OffsetSeconds(days, hours, minutes)
  }

  /** With the default arguments the date does not move. */
  lemma DefaultsLeaveDateUnchanged(date: Date)
    ensures AddingTimeInterval(date) == date
  {
  }

  /** A day is 24 hours, and an hour is 60 minutes, wherever the larger unit
      does not overflow. */
  lemma UnitsAgree(date: Date, n: int)
    ensures OffsetFits(n, 0, 0) ==> OffsetFits(0, 24 * n, 0)
    ensures OffsetFits(n, 0, 0) ==> AddingTimeInterval(date, days := n) == AddingTimeInterval(date, hours := 24 * n)
    ensures OffsetFits(0, n, 0) ==> OffsetFits(0, 0, 60 * n)
    ensures OffsetFits(0, n, 0) ==> AddingTimeInterval(date, hours := n) == AddingTimeInterval(date, minutes := 60 * n)
  {
  }

  /** Adding days, hours and minutes at once equals adding them one after
      another. */
  lemma ComponentsCompose(date: Date, days: int, hours: int, minutes: int)
    requires OffsetFits(days, hours, minutes)
    ensures OffsetFits(days, 0, 0) && OffsetFits(0, hours, 0) && OffsetFits(0, 0, minutes)
    ensures AddingTimeInterval(date, days, hours, minutes)
         == AddingTimeInterval(AddingTimeInterval(AddingTimeInterval(date, days := days), hours := hours), minutes := minutes)
  {
  }

  /** Going back by the negated components returns to the starting date. */
  lemma NegatedOffsetIsInverse(date: Date, days: int, hours: int, minutes: int)
    requires OffsetFits(days, hours, minutes)
    requires OffsetFits(-days, -hours, -minutes)
    ensures AddingTimeInterval(AddingTimeInterval(date, days, hours, minutes), -days, -hours, -minutes) == date
  {
  }

  /** The largest number of days whose offset does not trap. */
  lemma DayOverflowBoundary()
    ensures OffsetFits(106_751_991_167_300, 0, 0)
    ensures !OffsetFits(106_751_991_167_301, 0, 0)
  {
  }
}
