/** The departure-to-action decision: the status bucket of each list row, and
    the headline (countdown and leave line) for the next departure. Both
    compare the already clamped minute counts of Timing.Measure. */
module Decision {
  import opened Departures
  import opened Timing

  /** The status shown in a list row; the three waiting buckets carry the
      minutes until the leave instant. */
  datatype RowStatus = Departed | LeaveNow | Prep(minutes: nat) | Wait(minutes: nat) | Standby(minutes: nat)

  /** One row of the departures list: line, departure instant, status and
      the minutes until departure ("ETA"). */
  datatype Row = Row(line: string, time: int, status: RowStatus, eta: nat)

  /** The first-match-wins bucket chain of a list row: DEPARTED, then
      LEAVE NOW, then PREP (up to 2), WAIT (up to 5), STANDBY. */
  function ClassifyRow(c: Countdown): (s: RowStatus)
    ensures s.Departed? <==> c.untilDeparture == 0
    ensures s.LeaveNow? <==> c.untilDeparture > 0 && c.untilLeave == 0
    ensures s.Prep? <==> c.untilDeparture > 0 && 0 < c.untilLeave <= 2
    ensures s.Wait? <==> c.untilDeparture > 0 && 2 < c.untilLeave <= 5
    ensures s.Standby? <==> c.untilDeparture > 0 && 5 < c.untilLeave
    ensures (s.Prep? || s.Wait? || s.Standby?) ==> s.minutes == c.untilLeave
  {
    if c.untilDeparture <= 0 then Departed
    else if c.untilLeave <= 0 then LeaveNow
    else if c.untilLeave <= 2 then Prep(c.untilLeave)
    else if c.untilLeave <= 5 then Wait(c.untilLeave)
    else Standby(c.untilLeave)
  }

  /** The list row for one departure as of `now`. In terms of the raw
      seconds left until the departure, each bucket starts one minute further
      from the departure than a comparison of raw deltas would put it, since
      the comparisons use clamped whole minutes. */
  function RowFor(d: Departure, now: int, walkMinutes: int): (r: Row)
    ensures r.line == d.line && r.time == d.time
    ensures r.eta == 0 <==> d.time - now < SecondsPerMinute
    ensures r.eta > 0 ==> r.eta * SecondsPerMinute <= d.time - now < r.eta * SecondsPerMinute + SecondsPerMinute
    ensures var s, delta, walk := r.status, d.time - now, walkMinutes * SecondsPerMinute;
      && (s.Departed? <==> delta < SecondsPerMinute)
      && (s.LeaveNow? <==> SecondsPerMinute <= delta && delta < walk + SecondsPerMinute)
      && (s.Prep? <==> SecondsPerMinute <= delta && walk + SecondsPerMinute <= delta < walk + 3 * SecondsPerMinute)
      && (s.Wait? <==> SecondsPerMinute <= delta && walk + 3 * SecondsPerMinute <= delta < walk + 6 * SecondsPerMinute)
      && (s.Standby? <==> SecondsPerMinute <= delta && walk + 6 * SecondsPerMinute <= delta)
    ensures var s, leaveDelta := r.status, d.time - now - walkMinutes * SecondsPerMinute;
      (s.Prep? || s.Wait? || s.Standby?) ==>
        s.minutes * SecondsPerMinute <= leaveDelta < s.minutes * SecondsPerMinute + SecondsPerMinute
  {
    var c := Measure(d.time, now, walkMinutes);
    Row(d.line, d.time, ClassifyRow(c), c.untilDeparture)
  }

  /** A departure less than one full minute away already reads DEPARTED,
      with an ETA of 0, although its instant has not passed yet. */
  lemma UnderAMinuteReadsDeparted(d: Departure, now: int, walkMinutes: int)
    requires d.time - now < SecondsPerMinute
    ensures RowFor(d, now, walkMinutes).status == Departed
    ensures RowFor(d, now, walkMinutes).eta == 0
  {
  }

  /** The countdown line of the headline. */
  datatype CountdownText = DepartedBanner | MinutesRemaining(minutes: nat)

  /** The leave line of the headline; only LeaveNowLine raises the alert. */
  datatype LeaveLine = LeaveNowLine | PrepareLine(minutes: nat) | DepartureInLine(minutes: nat)

  datatype Headline = Headline(countdown: CountdownText, leave: LeaveLine)

  /** The headline for the next departure: the countdown is DEPARTED or the
      minutes left; the leave line is LEAVE NOW only while the bus has not
      (by the minute count) departed, PREPARE for up to 2 leave minutes, and
      DEPARTURE IN otherwise. There is no WAIT branch here. */
  function HeadlineFor(c: Countdown): (h: Headline)
    ensures h.countdown == DepartedBanner <==> c.untilDeparture == 0
    ensures h.countdown.MinutesRemaining? ==> h.countdown.minutes == c.untilDeparture
    ensures h.leave == LeaveNowLine <==> c.untilLeave == 0 && c.untilDeparture > 0
    ensures h.leave.PrepareLine? <==> c.untilLeave <= 2 && !(c.untilLeave == 0 && c.untilDeparture > 0)
    ensures h.leave.DepartureInLine? <==> c.untilLeave > 2
    ensures !h.leave.LeaveNowLine? ==> h.leave.minutes == c.untilLeave
  {
    var countdown := if c.untilDeparture <= 0 then DepartedBanner else MinutesRemaining(c.untilDeparture);
    var leave :=
      if c.untilLeave <= 0 && c.untilDeparture > 0 then LeaveNowLine
      else if c.untilLeave <= 2 then PrepareLine(c.untilLeave)
      else DepartureInLine(c.untilLeave);
    Headline(countdown, leave)
  }

  /** A bus that reads as departed gets "PREPARE TO LEAVE IN 0 MIN" on its
      leave line (and no alert), as the code is written. */
  lemma DepartedHeadlineSaysPrepare(departure: int, now: int, walkMinutes: int)
    requires walkMinutes >= 0
    requires departure - now < SecondsPerMinute
    ensures HeadlineFor(Measure(departure, now, walkMinutes)) == Headline(DepartedBanner, PrepareLine(0))
  {
  }

  /** For the same departure the headline and the list row agree: DEPARTED
      with DEPARTED, LEAVE NOW with LEAVE NOW, PREPARE with DEPARTED or PREP,
      DEPARTURE IN with WAIT or STANDBY. */
  lemma HeadlineAgreesWithRow(d: Departure, now: int, walkMinutes: int)
    requires walkMinutes >= 0
    ensures var h, s := HeadlineFor(Measure(d.time, now, walkMinutes)), RowFor(d, now, walkMinutes).status;
      && (h.countdown == DepartedBanner <==> s == Departed)
      && (h.leave == LeaveNowLine <==> s == LeaveNow)
      && (h.leave.PrepareLine? <==> s == Departed || s.Prep?)
      && (h.leave.DepartureInLine? <==> s.Wait? || s.Standby?)
      && (h.leave.DepartureInLine? ==> h.leave.minutes == s.minutes)
  {
  }

  /** A departure more than walk + 5 minutes away is not always STANDBY:
      one 5 min 1 s past the walk reads WAIT 5, since STANDBY starts six
      whole leave minutes out. */
  lemma StandbyStartsSixMinutesPastTheWalk()
    ensures RowFor(Departure("230", TargetDestination, 5 * 60 + 301), 0, 5).status == Wait(5)
  {
  }

  /** Worked cases with a 5-minute walk, as of instant 0: 12 minutes out is
      STANDBY 7, 6 minutes out is PREP 1, 4 minutes out is LEAVE NOW with an
      ETA of 4, and one minute ago is DEPARTED with an ETA of 0. */
  lemma WorkedCases()
    ensures RowFor(Departure("230", TargetDestination, 12 * 60), 0, 5) == Row("230", 12 * 60, Standby(7), 12)
    ensures RowFor(Departure("230", TargetDestination, 6 * 60), 0, 5).status == Prep(1)
    ensures RowFor(Departure("230", TargetDestination, 4 * 60), 0, 5) == Row("230", 4 * 60, LeaveNow, 4)
    ensures RowFor(Departure("230", TargetDestination, -60), 0, 5) == Row("230", -60, Departed, 0)
  {
  }
}
