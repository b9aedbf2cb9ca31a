/** Instants of the timetable. The planner compares instants and adds
    durations to them; calendar arithmetic is not modelled, so an instant is a
    whole number of minutes. The "not reached" sentinel is an explicit value
    that is later than every real instant. */
module Times {

  datatype Time = At(minutes: int) | Infinity

  /** `a` is strictly earlier than `b` (the planner's `isBefore`). */
  predicate Before(a: Time, b: Time) {
    a.At? && (b.Infinity? || a.minutes < b.minutes)
  }

  /** `a` is not later than `b`. */
  predicate NoLater(a: Time, b: Time) {
    !Before(b, a)
  }

  /** `t` delayed by `d` minutes (`plus` of a real instant). */
  function Plus(t: Time, d: int): (r: Time)
    requires t.At?
    ensures r.At? && r.minutes - t.minutes == d
  {
    At(t.minutes + d)
  }
}
