/**
  An abstract view of the host library's cron trigger: six independent match
  sets, one per calendar field. The trigger's own storage, its clock binding
  and its evaluation loop are not part of this model; only what the component
  does to the sets is.
 */
module Cron {

  datatype MatchSets = MatchSets(
    seconds: set<int>,
    minutes: set<int>,
    hours: set<int>,
    daysOfMonth: set<int>,
    months: set<int>,
    daysOfWeek: set<int>)

  /** The match sets of a freshly constructed trigger: nothing matches. */
  const Empty: MatchSets := MatchSets({}, {}, {}, {}, {}, {})

  /** A point in time, broken into the fields the trigger matches on (weekday 1 = Sunday). */
  datatype Moment = Moment(second: int, minute: int, hour: int, dayOfMonth: int, month: int, dayOfWeek: int)

  /** A moment fires the trigger when every one of its fields is in the corresponding set. */
  predicate Matches(m: MatchSets, t: Moment) {
    && t.second in m.seconds
    && t.minute in m.minutes
    && t.hour in m.hours
    && t.dayOfMonth in m.daysOfMonth
    && t.month in m.months
    && t.dayOfWeek in m.daysOfWeek
  }

  /** Every day of a month, 1..31. */
  const AllDaysOfMonth: set<int> := set d: int | 1 <= d <= 31

  /** Every month, 1..12. */
  const AllMonths: set<int> := set m: int | 1 <= m <= 12

  /** Field-wise union: what adding every entry of `b` to a trigger holding `a` leaves. */
  function Union(a: MatchSets, b: MatchSets): MatchSets {
    MatchSets(
      a.seconds + b.seconds, a.minutes + b.minutes, a.hours + b.hours,
      a.daysOfMonth + b.daysOfMonth, a.months + b.months, a.daysOfWeek + b.daysOfWeek)
  }

  /** Adding entries to a freshly constructed trigger leaves exactly those entries. */
  lemma UnionEmpty(m: MatchSets)
    ensures Union(Empty, m) == m
  {
    assert {} + m.daysOfMonth == m.daysOfMonth;
    assert {} + m.months == m.months;
    assert {} + m.daysOfWeek == m.daysOfWeek;
  }

  /**
    A counting loop `for (i = lo; i <= hi; i++) add(i)` over one match set:
    it adds exactly the values lo..hi and removes nothing.
   */
  function AddEach(s: set<int>, lo: int, hi: int): (r: set<int>)
    ensures forall x :: x in r <==> x in s || lo <= x <= hi
    decreases hi - lo
  {
    if lo > hi then s
    else AddEach(s + {lo}, lo + 1, hi)
  }
}
