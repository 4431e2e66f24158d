/** The leave-time arithmetic: the leave instant, and the whole minutes until
    an instant as the dashboard shows them (truncated toward zero, then
    clamped at zero). Instants and deltas are integer seconds. */
module Timing {

  const SecondsPerMinute: int := 60

  /** The instant at which one has to leave: `walkMinutes` minutes before the
      departure. */
  function LeaveInstant(departure: int, walkMinutes: int): (leave: int)
    ensures departure - leave == walkMinutes * SecondsPerMinute
    ensures leave <= departure <==> walkMinutes >= 0
  {
    departure - walkMinutes * SecondsPerMinute
  }

  /** Python's `int(seconds / 60)`: the quotient truncated toward zero, so a
      negative delta of less than a minute reads 0, not -1. */
  function MinutesTruncated(seconds: int): (m: int)
    ensures seconds >= 0 ==> 0 <= m && m * SecondsPerMinute <= seconds < m * SecondsPerMinute + SecondsPerMinute
    ensures seconds < 0 ==> m <= 0 && m * SecondsPerMinute - SecondsPerMinute < seconds <= m * SecondsPerMinute
  {
    if seconds >= 0 then seconds / SecondsPerMinute
    else -((-seconds) / SecondsPerMinute)
  }

  /** `max(0, int(seconds / 60))`: the whole minutes shown for a delta. It is
      zero exactly when less than one full minute remains (or the instant has
      passed), and otherwise the number of whole minutes left. */
  function WholeMinutes(seconds: int): (m: nat)
    ensures m == 0 <==> seconds < SecondsPerMinute
    ensures m > 0 ==> m * SecondsPerMinute <= seconds < m * SecondsPerMinute + SecondsPerMinute
  {
    var t := MinutesTruncated(seconds);
    if t > 0 then t else 0
  }

  /** The two minute counts computed for one departure. */
  datatype Countdown = Countdown(untilDeparture: nat, untilLeave: nat)

  /** Minutes until the departure and until the leave instant, as of `now`. */
  function Measure(departure: int, now: int, walkMinutes: int): (c: Countdown)
    ensures c.untilDeparture == 0 <==> departure - now < SecondsPerMinute
    ensures c.untilLeave == 0 <==> departure - now - walkMinutes * SecondsPerMinute < SecondsPerMinute
    ensures c.untilDeparture > 0 ==>
      c.untilDeparture * SecondsPerMinute <= departure - now < c.untilDeparture * SecondsPerMinute + SecondsPerMinute
    ensures c.untilLeave > 0 ==>
      c.untilLeave * SecondsPerMinute <= departure - now - walkMinutes * SecondsPerMinute
                                       < c.untilLeave * SecondsPerMinute + SecondsPerMinute
    ensures walkMinutes >= 0 ==> c.untilLeave <= c.untilDeparture
  {
    Countdown(WholeMinutes(departure - now), WholeMinutes(LeaveInstant(departure, walkMinutes) - now))
  }

  /** With a whole-minute walk, the leave countdown is the departure countdown
      less the walk, floored at zero, for every delta (past ones included). */
  lemma LeaveMinutesTrailDepartureMinutes(delta: int, walkMinutes: int)
    requires walkMinutes >= 0
    ensures WholeMinutes(delta - walkMinutes * SecondsPerMinute)
         == if WholeMinutes(delta) >= walkMinutes then WholeMinutes(delta) - walkMinutes else 0
  {
    var d, l := WholeMinutes(delta), WholeMinutes(delta - walkMinutes * SecondsPerMinute);
    if l > 0 {
      assert (l + walkMinutes) * SecondsPerMinute <= delta < (l + walkMinutes) * SecondsPerMinute + SecondsPerMinute;
      assert d == l + walkMinutes;
    }
  }
}
