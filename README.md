# Munich bus tracker: departure decision engine

A Dafny model of the decision logic of the Munich bus tracker dashboard
(`MunichBusTracker` in `bus_tracker_ui.py`). Every refresh takes the
departures the MVG client returned for the stop, keeps those bound for the
configured destination, and turns each departure instant into minute
countdowns and a status bucket. The first departure also drives a headline
(countdown and leave line) and a two-state "leave now" alert banner.

Modules, one per component:

- `Departures` (`departures.dfy`): the `Departure` record and the exact-match
  destination filter, with its membership, order, concatenation and
  idempotence lemmas.
- `Timing` (`timing.dfy`): the leave instant (departure minus the walk), the
  truncation toward zero of Python's `int(seconds / 60)`, the clamp at zero,
  and the two minute counts of a departure.
- `Decision` (`decision.dfy`): the list-row bucket chain (DEPARTED, LEAVE NOW,
  PREP n, WAIT n, STANDBY n) and the headline decision for the first
  departure. The row function states each bucket as a range of raw seconds,
  and lemmas relate the headline to the row.
- `Tracker` (`tracker.dfy`): the `BusTracker` class. Its fields are the
  configuration, the labels and list that a refresh rewrites, and the
  `leaveNowActive` flag. `ListDepartures` builds the rows in a loop for `UpdateDepartures`, and the
  show/hide alert methods are specified by the pure transitions `Shown` and
  `Hidden`.

Instants are integer seconds since the epoch. The current instant `now` is a
parameter of every decision. The configuration constants are the source's
own: destination `Garching, Forschungszentrum (U)`, walk time 5 minutes.

All comparisons use the clamped minute counts, as the code does. Two
consequences are proved rather than corrected:

- A departure less than one full minute away already reads DEPARTED
  (`Decision.UnderAMinuteReadsDeparted`).
- Each bucket starts one minute further from the departure than a
  comparison of raw deltas would put it (`Decision.RowFor`): DEPARTED shows
  from 59 s before the bus leaves, LEAVE NOW from one minute past the walk,
  and so on. STANDBY starts 6 whole
  minutes past the walk, so a departure 5 min 1 s past the walk reads WAIT 5
  (`Decision.StandbyStartsSixMinutesPastTheWalk`).

A comparison of unclamped deltas would give STANDBY for anything more than
walk + 5 minutes away; the code does not, and this model follows the code.
Likewise the headline has no WAIT branch,
and a departed bus gets "PREPARE TO LEAVE IN 0 MIN" with the alert hidden
(`Decision.DepartedHeadlineSaysPrepare`).

## Model

| member | source | states |
|---|---|---|
| `Departures.FilterByDestination` | bus_tracker_ui.py:401-404 | every kept departure has exactly the target destination and comes from the input; never longer than the input |
| `Departures.FilterCounts` | bus_tracker_ui.py:401-404 | each departure occurs in the result as often as in the input if its destination equals the target, and never otherwise |
| `Departures.FilterMembership` | bus_tracker_ui.py:401-404 | a departure is in the result if and only if it is in the input and its destination equals the target (case-sensitive) |
| `Departures.FilterKeepsOrder` | bus_tracker_ui.py:401-404 | the result is a subsequence of the input: source order is preserved |
| `Departures.FilterAppend` | bus_tracker_ui.py:401-404 | filtering a concatenation is the concatenation of the filtered parts |
| `Departures.FilterKeepsMatchingList` | bus_tracker_ui.py:401-404 | a list whose destinations all match is returned unchanged |
| `Departures.FilterIdempotent` | bus_tracker_ui.py:401-404 | filtering twice with the same target equals filtering once |
| `Timing.LeaveInstant` | bus_tracker_ui.py:417-421 | the leave instant is exactly `walk_time_minutes` minutes before the departure, and not after it exactly when the walk is non-negative |
| `Timing.MinutesTruncated` | bus_tracker_ui.py:448 | `int(seconds / 60)` truncates toward zero: for a non-negative delta the largest whole minute count not above it, for a negative one the smallest not below it |
| `Timing.WholeMinutes` | bus_tracker_ui.py:448-449 | the clamped count is never negative, is 0 exactly when less than one full minute remains, and otherwise counts the whole minutes left |
| `Timing.Measure` | bus_tracker_ui.py:445-449 | minutes until departure are 0 exactly when the departure is under a minute away; minutes until leave are 0 exactly when the leave instant is under a minute away; each positive count is the number of whole minutes left; with a non-negative walk the leave count never exceeds the departure count |
| `Timing.LeaveMinutesTrailDepartureMinutes` | bus_tracker_ui.py:445-449 | with a non-negative whole-minute walk, minutes until leave equal `max(0, minutes until departure - walk)` for every delta, past ones included |
| `Decision.ClassifyRow` | bus_tracker_ui.py:491-505 | the first-match precedence DEPARTED (departure minutes 0), LEAVE NOW (leave minutes 0), PREP (up to 2), WAIT (up to 5), STANDBY, each as an if-and-only-if, with the leave minutes carried by PREP, WAIT and STANDBY |
| `Decision.RowFor` | bus_tracker_ui.py:481-507 | the row keeps the departure's line and instant; its ETA is 0 exactly when the departure is under a minute away and otherwise counts the whole minutes left; its bucket as a range of the raw seconds to departure: DEPARTED below 60, LEAVE NOW below walk + 60, PREP below walk + 180, WAIT below walk + 360, STANDBY from walk + 360 on; PREP, WAIT and STANDBY carry the whole minutes left until the leave instant |
| `Decision.UnderAMinuteReadsDeparted` | bus_tracker_ui.py:487-493 | a departure under one minute away, or in the past, is listed as DEPARTED with ETA 0 |
| `Decision.HeadlineFor` | bus_tracker_ui.py:455-477 | countdown is DEPARTED exactly when departure minutes are 0, else the minutes left; the leave line is LEAVE NOW exactly when leave minutes are 0 and departure minutes are positive, PREPARE otherwise up to 2 leave minutes, DEPARTURE IN above 2 |
| `Decision.DepartedHeadlineSaysPrepare` | bus_tracker_ui.py:455-472 | a bus that reads as departed gets the DEPARTED countdown and "PREPARE TO LEAVE IN 0 MIN", not LEAVE NOW |
| `Decision.HeadlineAgreesWithRow` | bus_tracker_ui.py:455-505 | for the same departure the headline and the row agree: DEPARTED with DEPARTED, LEAVE NOW with LEAVE NOW, PREPARE with DEPARTED or PREP, DEPARTURE IN with WAIT or STANDBY and the same minutes |
| `Decision.StandbyStartsSixMinutesPastTheWalk` | bus_tracker_ui.py:497-505 | a departure 5 min 1 s past a 5-minute walk is WAIT 5, not STANDBY |
| `Decision.WorkedCases` | bus_tracker_ui.py:484-505 | with a 5-minute walk: 12 min out is STANDBY 7 with ETA 12, 6 min out is PREP 1, 4 min out is LEAVE NOW with ETA 4, 1 min ago is DEPARTED with ETA 0 |
| `Tracker.Shown` | bus_tracker_ui.py:516-523 | raising the alert leaves it active; an inactive alert becomes active with the new text, an alert already active is left as it was, text included |
| `Tracker.Hidden` | bus_tracker_ui.py:525-529 | lowering the alert leaves it inactive and keeps its text; an inactive alert is left as it was |
| `Tracker.ShownIdempotent` | bus_tracker_ui.py:516-523 | raising twice is raising once, whatever text the second call carries |
| `Tracker.HiddenIdempotent` | bus_tracker_ui.py:525-529 | lowering twice is lowering once |
| `Tracker.Received` | bus_tracker_ui.py:387-411 | no client or a failed fetch yields no departures; a successful fetch yields the destination-filtered list |
| `Tracker.ListEntries` | bus_tracker_ui.py:480-509 | an empty list shows the single placeholder line; otherwise one row per departure, in order, each the row of that departure |
| `Tracker.BusTracker.constructor` | bus_tracker_ui.py:110-114 | starts with the source's destination and walk time, the alert inactive and the labels blank |
| `Tracker.BusTracker.ShowLeaveNowAlert` | bus_tracker_ui.py:516-523 | the new alert state is `Shown` of the old one; only the flag and the text may change |
| `Tracker.BusTracker.HideLeaveNowAlert` | bus_tracker_ui.py:525-529 | the new alert state is `Hidden` of the old one; only the flag may change |
| `Tracker.BusTracker.GetDepartures` | bus_tracker_ui.py:387-411 | returns the received, filtered departures; a failed fetch sets the fetch-error status and nothing else changes |
| `Tracker.BusTracker.ShowNextDeparture` | bus_tracker_ui.py:441-477 | the next-bus label names the first departure; countdown and leave line are those of `HeadlineFor`; the alert becomes `Shown` of the old one on LEAVE NOW and `Hidden` of it otherwise, so afterwards it is active exactly when the leave line says LEAVE NOW |
| `Tracker.BusTracker.ListDepartures` | bus_tracker_ui.py:480-509 | the list holds one row per departure, in order, each the row of that departure |
| `Tracker.BusTracker.UpdateDepartures` | bus_tracker_ui.py:423-514 | the list is rebuilt from the filtered departures; an empty list shows the placeholders and leaves the alert as it was, and the status line too unless the fetch failed; otherwise countdown and leave line follow `HeadlineFor` for the first departure, the alert is raised exactly on LEAVE NOW and lowered otherwise, and the status records the sync |

## Left out

- The MVG client (`setup_mvg_api` and the `departures(limit=10, ...)` call) is a foreign network call; its result is the input `FetchOutcome` (no client, a list, or an exception). The limit of 10 is the client's business and is not modelled.
- `datetime.now()` and `datetime.fromtimestamp` use the wall clock and the local time zone. `now` is an integer-seconds parameter, so the microseconds of the current time and the hour that naive local datetimes gain or lose across a daylight-saving change are not modelled.
- The float division in `total_seconds() / 60` is modelled as exact division of integer seconds, then truncation toward zero.
- `format_time` (`HH:MM`) is left out: a row keeps the raw departure instant instead.
- Display strings, the `[:30]` destination slice, icons, colours and fonts are left out. Labels are modelled as the bucket or branch plus its minute number.
- `setup_ui`, the `create_*_frame` helpers and `safe_icon` are widget construction with no behaviour of their own.
- `animate_cyberpunk_ui`, `flash_cyberpunk_alert` and the colour feedback of `manual_refresh` are cosmetic timers with float maths. The alert's flashing and the banner's packing follow the `leaveNowActive` flag, which is modelled.
- `start_monitoring` is a background thread with `time.sleep` and a hand-off to the UI thread. It is concurrency and scheduling; each call of `UpdateDepartures` models one tick.
- Setting up the station lookup at start-up has its own status messages. The status label is modelled only as `Connecting`, the fetch error and the last sync.
