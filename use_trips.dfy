/**
 * TravelPlannerApp/src/hooks/useTrips.ts: the three views of the trip list
 * the hook derives, with the current day number `now` as a parameter in place of
 * `new Date()`. Each view keeps the input order.
 */
module UseTrips {
  import opened Seqs
  import opened PlannerTripStore

  function StartsAfter(now: int): Trip -> bool
  {
    (t: Trip) => t.startDate > now
  }

  function EndedBefore(now: int): Trip -> bool
  {
    (t: Trip) => t.endDate < now
  }

  function Spans(now: int): Trip -> bool
  {
    (t: Trip) => t.startDate <= now && t.endDate >= now
  }

  /** `upcomingTrips`: the trips whose start day comes after now. */
  function UpcomingTrips(trips: seq<Trip>, now: int): (r: seq<Trip>)
    ensures forall k :: 0 <= k < |r| ==> r[k] in trips && r[k].startDate > now
    ensures forall k :: 0 <= k < |trips| && trips[k].startDate > now ==> trips[k] in r
  {
    Filter(trips, StartsAfter(now))
  }

  /** `pastTrips`: the trips whose end day comes before now. */
  function PastTrips(trips: seq<Trip>, now: int): (r: seq<Trip>)
    ensures forall k :: 0 <= k < |r| ==> r[k] in trips && r[k].endDate < now
    ensures forall k :: 0 <= k < |trips| && trips[k].endDate < now ==> trips[k] in r
  {
    Filter(trips, EndedBefore(now))
  }

  /** `currentTrips`: the trips whose day span includes now. */
  function CurrentTrips(trips: seq<Trip>, now: int): (r: seq<Trip>)
    ensures forall k :: 0 <= k < |r| ==> r[k] in trips && r[k].startDate <= now <= r[k].endDate
    ensures forall k :: 0 <= k < |trips| && trips[k].startDate <= now <= trips[k].endDate ==> trips[k] in r
  {
    Filter(trips, Spans(now))
  }

  /** A trip that does not end before it starts is upcoming, past or current, and only one of them. */
  lemma ExactlyOneView(t: Trip, now: int)
    requires t.startDate <= t.endDate
    ensures StartsAfter(now)(t) || EndedBefore(now)(t) || Spans(now)(t)
    ensures !(StartsAfter(now)(t) && EndedBefore(now)(t))
    ensures !(StartsAfter(now)(t) && Spans(now)(t))
    ensures !(EndedBefore(now)(t) && Spans(now)(t))
  {
  }

  /** Each view is an in-order subsequence of the trip list. */
  lemma ViewsKeepOrder(trips: seq<Trip>, now: int)
    ensures IsSubseq(UpcomingTrips(trips, now), trips)
    ensures IsSubseq(PastTrips(trips, now), trips)
    ensures IsSubseq(CurrentTrips(trips, now), trips)
  {
    FilterIsSubseq(trips, StartsAfter(now));
    FilterIsSubseq(trips, EndedBefore(now));
    FilterIsSubseq(trips, Spans(now));
  }

  /** When no trip ends before it starts, the three views together hold every trip exactly once. */
  lemma {:induction false} ViewsPartition(trips: seq<Trip>, now: int)
    requires forall k :: 0 <= k < |trips| ==> trips[k].startDate <= trips[k].endDate
    ensures |UpcomingTrips(trips, now)| + |PastTrips(trips, now)| + |CurrentTrips(trips, now)| == |trips|
    decreases |trips|
  {
    if trips != [] {
      ViewsPartition(trips[1..], now);
      ExactlyOneView(trips[0], now);
    }
  }
}
