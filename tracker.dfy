/** The dashboard object: its configuration, the labels and list that one
    refresh rewrites, and the two-state leave-now alert. */
module Tracker {
  import opened Departures
  import opened Timing
  import opened Decision

  const WalkTimeMinutes: int := 5

  /** The text put on the alert banner when it is raised. */
  datatype AlertText = NoAlertText | LeaveNowText(line: string, minutesUntilDeparture: nat)

  /** The leave-now alert: whether the banner is up, and its text. */
  datatype AlertState = AlertState(active: bool, text: AlertText)

  /** Raising the alert: an inactive alert becomes active with the new text;
      an active one keeps its original text. */
  function Shown(a: AlertState, text: AlertText): (r: AlertState)
    ensures r.active
    ensures !a.active ==> r == AlertState(true, text)
    ensures a.active ==> r == a
  {
    if a.active then a else AlertState(true, text)
  }

  /** Lowering the alert: the flag is cleared and the text stays. */
  function Hidden(a: AlertState): (r: AlertState)
    ensures !r.active
    ensures r.text == a.text
    ensures !a.active ==> r == a
  {
    if a.active then AlertState(false, a.text) else a
  }

  /** Raising twice is raising once, whatever the second text. */
  lemma ShownIdempotent(a: AlertState, first: AlertText, second: AlertText)
    ensures Shown(Shown(a, first), second) == Shown(a, first)
  {
  }

  /** Lowering twice is lowering once. */
  lemma HiddenIdempotent(a: AlertState)
    ensures Hidden(Hidden(a)) == Hidden(a)
  {
  }

  /** What the data source returned for one poll: no client (the station
      lookup failed at start-up), a list of departures, or an exception. */
  datatype FetchOutcome = NoClient | Fetched(departures: seq<Departure>) | FetchFailed

  /** The departures one refresh works on: the fetched list filtered by
      destination, or nothing when there is no client or the fetch failed. */
  function Received(outcome: FetchOutcome, target: string): (deps: seq<Departure>)
    ensures !outcome.Fetched? ==> deps == []
    ensures outcome.Fetched? ==> deps == FilterByDestination(outcome.departures, target)
  {
    match outcome
    case Fetched(all) => FilterByDestination(all, target)
    case _ => []
  }

  datatype ListEntry = NoDataStreams | DepartureRow(row: Row)

  /** The list contents after a refresh: the placeholder line for an empty
      list, otherwise one row per departure in the same order. */
  function ListEntries(deps: seq<Departure>, now: int, walkMinutes: int): (entries: seq<ListEntry>)
    ensures deps == [] ==> entries == [NoDataStreams]
    ensures deps != [] ==> |entries| == |deps|
    ensures deps != [] ==> forall k :: 0 <= k < |deps| ==> entries[k] == DepartureRow(RowFor(deps[k], now, walkMinutes))
  {
    if deps == [] then [NoDataStreams]
    else seq(|deps|, k requires 0 <= k < |deps| => DepartureRow(RowFor(deps[k], now, walkMinutes)))
  }

  datatype NextBusLabel = NextBusBlank | NoUpcomingTransports | Transport(line: string, destination: string)
  datatype CountdownLabel = CountdownBlank | CountdownDashes | CountdownShown(text: CountdownText)
  datatype LeaveLabel = LeaveBlank | LeaveShown(line: LeaveLine)
  datatype StatusLabel = Connecting | DataFetchError | LastSync(at: int)

  class BusTracker {
    const targetDestination: string
    const walkTimeMinutes: int

    var leaveNowActive: bool
    var leaveNowText: AlertText
    var listbox: seq<ListEntry>
    var nextBus: NextBusLabel
    var countdown: CountdownLabel
    var leaveTime: LeaveLabel
    var status: StatusLabel

    function Alert(): AlertState
      reads this
    {
      AlertState(leaveNowActive, leaveNowText)
    }

    constructor ()
      ensures targetDestination == TargetDestination && walkTimeMinutes == WalkTimeMinutes
      ensures !leaveNowActive && leaveNowText == NoAlertText && listbox == []
      ensures nextBus == NextBusBlank && countdown == CountdownBlank && leaveTime == LeaveBlank
      ensures status == Connecting
    {
      targetDestination := TargetDestination;
      walkTimeMinutes := WalkTimeMinutes;
      leaveNowActive := false;
      leaveNowText := NoAlertText;
      listbox := [];
      nextBus := NextBusBlank;
      countdown := CountdownBlank;
      leaveTime := LeaveBlank;
      status := Connecting;
    }

    /** Raise the alert banner; the text is set only on the inactive-to-active
        transition. */
    method ShowLeaveNowAlert(text: AlertText)
      modifies this`leaveNowActive, this`leaveNowText
      ensures Alert() == Shown(old(Alert()), text)
    {
      if !leaveNowActive {
        leaveNowActive := true;
        leaveNowText := text;
      }
    }

    /** Take the alert banner down. */
    method HideLeaveNowAlert()
      modifies this`leaveNowActive
      ensures Alert() == Hidden(old(Alert()))
    {
      if leaveNowActive {
        leaveNowActive := false;
      }
    }

    /** The departures of one poll filtered by the configured destination; a
        failed fetch also puts the fetch error on the status line. */
    method GetDepartures(outcome: FetchOutcome) returns (deps: seq<Departure>)
      modifies this`status
      ensures deps == Received(outcome, targetDestination)
      ensures status == if outcome.FetchFailed? then DataFetchError else old(status)
    {
      match outcome {
        case NoClient =>
          deps := [];
        case Fetched(all) =>
          deps := FilterByDestination(all, targetDestination);
        case FetchFailed =>
          status := DataFetchError;
          deps := [];
      }
    }

    /** The headline part of a refresh, for the next departure: the countdown
        and leave line follow `HeadlineFor`, and the alert is raised exactly
        on LEAVE NOW and lowered on the other two branches. */
    method ShowNextDeparture(next: Departure, now: int)
      modifies this`nextBus, this`countdown, this`leaveTime, this`leaveNowActive, this`leaveNowText
      ensures var c := Measure(next.time, now, walkTimeMinutes);
        var h := HeadlineFor(c);
        && nextBus == Transport(next.line, next.destination)
        && countdown == CountdownShown(h.countdown)
        && leaveTime == LeaveShown(h.leave)
        && Alert() == (if h.leave == LeaveNowLine
                       then Shown(old(Alert()), LeaveNowText(next.line, c.untilDeparture))
                       else Hidden(old(Alert())))
      ensures leaveNowActive <==> leaveTime == LeaveShown(LeaveNowLine)
    {
      var c := Measure(next.time, now, walkTimeMinutes);
      nextBus := Transport(next.line, next.destination);

      if c.untilDeparture <= 0 {
        countdown := CountdownShown(DepartedBanner);
      } else {
        countdown := CountdownShown(MinutesRemaining(c.untilDeparture));
      }

      if c.untilLeave <= 0 && c.untilDeparture > 0 {
        ShowLeaveNowAlert(LeaveNowText(next.line, c.untilDeparture));
        leaveTime := LeaveShown(LeaveNowLine);
      } else if c.untilLeave <= 2 {
        leaveTime := LeaveShown(PrepareLine(c.untilLeave));
        HideLeaveNowAlert();
      } else {
        leaveTime := LeaveShown(DepartureInLine(c.untilLeave));
        HideLeaveNowAlert();
      }
    }

    /** The list part of a refresh: the list is cleared, then one row is
        appended per departure, in order. */
    method ListDepartures(departures: seq<Departure>, now: int)
      requires departures != []
      modifies this`listbox
      ensures listbox == ListEntries(departures, now, walkTimeMinutes)
    {
      listbox := [];
      var i := 0;
      while i < |departures|
        invariant 0 <= i <= |departures|
        invariant |listbox| == i
        invariant forall k :: 0 <= k < i ==> listbox[k] == DepartureRow(RowFor(departures[k], now, walkTimeMinutes))
      {
        var dep := departures[i];
        var m := Measure(dep.time, now, walkTimeMinutes);
        var rowStatus: RowStatus;
        if m.untilDeparture <= 0 {
          rowStatus := Departed;
        } else if m.untilLeave <= 0 {
          rowStatus := LeaveNow;
        } else if m.untilLeave <= 2 {
          rowStatus := Prep(m.untilLeave);
        } else if m.untilLeave <= 5 {
          rowStatus := Wait(m.untilLeave);
        } else {
          rowStatus := Standby(m.untilLeave);
        }
        assert Row(dep.line, dep.time, rowStatus, m.untilDeparture) == RowFor(dep, now, walkTimeMinutes);
        listbox := listbox + [DepartureRow(Row(dep.line, dep.time, rowStatus, m.untilDeparture))];
        i := i + 1;
      }
    }

    /** One refresh of the dashboard at instant `now`. An empty list shows the
        placeholders and leaves the alert as it was, and the status line too
        unless the fetch failed; otherwise the headline is decided for the first departure, the alert
        is raised exactly when its leave line says LEAVE NOW, every departure
        gets a row, and the status line records the sync. */
    method UpdateDepartures(outcome: FetchOutcome, now: int)
      modifies this
      ensures var deps := Received(outcome, targetDestination);
        && listbox == ListEntries(deps, now, walkTimeMinutes)
        && (deps == [] ==>
              && nextBus == NoUpcomingTransports && countdown == CountdownDashes && leaveTime == LeaveBlank
              && Alert() == old(Alert())
              && status == (if outcome.FetchFailed? then DataFetchError else old(status)))
        && (deps != [] ==>
              var c := Measure(deps[0].time, now, walkTimeMinutes);
              var h := HeadlineFor(c);
              && nextBus == Transport(deps[0].line, deps[0].destination)
              && countdown == CountdownShown(h.countdown)
              && leaveTime == LeaveShown(h.leave)
              && Alert() == (if h.leave == LeaveNowLine
                             then Shown(old(Alert()), LeaveNowText(deps[0].line, c.untilDeparture))
                             else Hidden(old(Alert())))
              && status == LastSync(now))
      ensures Received(outcome, targetDestination) != [] ==> (leaveNowActive <==> leaveTime == LeaveShown(LeaveNowLine))
    {
      var departures := GetDepartures(outcome);
      if departures == [] {
        listbox := [NoDataStreams];
        nextBus := NoUpcomingTransports;
        countdown := CountdownDashes;
        leaveTime := LeaveBlank;
        return;
      }
      ShowNextDeparture(departures[0], now);
      ListDepartures(departures, now);
      status := LastSync(now);
    }
  }
}
