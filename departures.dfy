/** Departures as the transit data source delivers them, and the exact-match
    destination filter applied to them before anything is decided. */
module Departures {

  /** One upcoming departure at the tracked stop. `time` is the departure
      instant in integer seconds since the epoch. */
  datatype Departure = Departure(line: string, destination: string, time: int)

  /** The destination the dashboard is configured to follow. */
  const TargetDestination: string := "Garching, Forschungszentrum (U)"

  /** `a` can be obtained from `b` by deleting elements: everything in `a`
      occurs in `b`, in the same relative order. */
  ghost predicate IsSubsequence<T>(a: seq<T>, b: seq<T>)
    decreases |b|
  {
    a == [] ||
    (b != [] &&
     ((a[0] == b[0] && IsSubsequence(a[1..], b[1..])) || IsSubsequence(a, b[1..])))
  }

  /** The departures whose destination equals `target` exactly (case-sensitive,
      no trimming), in the order the source returned them. */
  function FilterByDestination(departures: seq<Departure>, target: string): (kept: seq<Departure>)
    ensures |kept| <= |departures|
    ensures forall k :: 0 <= k < |kept| ==> kept[k].destination == target
    ensures forall k :: 0 <= k < |kept| ==> kept[k] in departures
  {
    if departures == [] then []
    else if departures[0].destination == target then
      [departures[0]] + FilterByDestination(departures[1..], target)
    else
      FilterByDestination(departures[1..], target)
  }

  /** Every occurrence of a matching departure is kept and every occurrence of
      a non-matching one is dropped. */
  lemma {:induction false} FilterCounts(departures: seq<Departure>, target: string, d: Departure)
    ensures multiset(FilterByDestination(departures, target))[d]
         == if d.destination == target then multiset(departures)[d] else 0
  {
    if departures != [] {
      FilterCounts(departures[1..], target, d);
      assert departures == [departures[0]] + departures[1..];
    }
  }

  /** Membership in the filtered list: exactly the departures whose
      destination equals the target. */
  lemma FilterMembership(departures: seq<Departure>, target: string, d: Departure)
    ensures d in FilterByDestination(departures, target)
        <==> d in departures && d.destination == target
  {
    FilterCounts(departures, target, d);
  }

  /** The filter keeps the source order. */
  lemma {:induction false} FilterKeepsOrder(departures: seq<Departure>, target: string)
    ensures IsSubsequence(FilterByDestination(departures, target), departures)
  {
    if departures != [] {
      var rest := FilterByDestination(departures[1..], target);
      FilterKeepsOrder(departures[1..], target);
      if departures[0].destination == target {
        assert ([departures[0]] + rest)[1..] == rest;
      }
    }
  }

  /** Filtering a concatenation filters each part: the filter decides each
      departure on its own. */
  lemma {:induction false} FilterAppend(a: seq<Departure>, b: seq<Departure>, target: string)
    ensures FilterByDestination(a + b, target)
         == FilterByDestination(a, target) + FilterByDestination(b, target)
  {
    if a == [] {
      assert a + b == b;
    } else {
      var ab := a + b;
      assert ab[0] == a[0];
      assert ab[1..] == a[1..] + b;
      FilterAppend(a[1..], b, target);
      if a[0].destination == target {
        assert [a[0]] + (FilterByDestination(a[1..], target) + FilterByDestination(b, target))
            == ([a[0]] + FilterByDestination(a[1..], target)) + FilterByDestination(b, target);
      }
    }
  }

  /** A list in which every destination matches passes the filter unchanged. */
  lemma {:induction false} FilterKeepsMatchingList(departures: seq<Departure>, target: string)
    requires forall k :: 0 <= k < |departures| ==> departures[k].destination == target
    ensures FilterByDestination(departures, target) == departures
  {
    if departures != [] {
      FilterKeepsMatchingList(departures[1..], target);
    }
  }

  /** Filtering twice with the same target is filtering once. */
  lemma FilterIdempotent(departures: seq<Departure>, target: string)
    ensures FilterByDestination(FilterByDestination(departures, target), target)
         == FilterByDestination(departures, target)
  {
    FilterKeepsMatchingList(FilterByDestination(departures, target), target);
  }
}
