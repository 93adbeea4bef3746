/**
 * TravelPlannerApp/src/utils/dateUtils.ts with dates as whole day numbers:
 * trip duration, the upcoming/past tests against the current day number (a
 * parameter in place of `new Date()`), and the list of days of a range.
 */
module DateUtils {

  /** `getTripDuration`: the number of calendar days from start to end, both included. */
  function TripDuration(startDate: int, endDate: int): (d: int)
    ensures d >= 1 <==> startDate <= endDate
    ensures d == 1 <==> startDate == endDate
    ensures startDate + d - 1 == endDate
  {
    (endDate - startDate) + 1
  }

  /** `isUpcoming`: the day comes after the current one. */
  function IsUpcoming(date: int, now: int): (r: bool)
    ensures date == now ==> !r
    ensures r <==> IsPast(now, date)
  {
    date > now
  }

  /** `isPast`: the day came before the current one. */
  function IsPast(date: int, now: int): (r: bool)
    ensures date == now ==> !r
    ensures r ==> date + 1 <= now
  {
    date < now
  }

  /** A date is upcoming, past, or equal to now, and never two of these. */
  lemma UpcomingPastExclusive(date: int, now: int)
    ensures !(IsUpcoming(date, now) && IsPast(date, now))
    ensures IsUpcoming(date, now) || IsPast(date, now) || date == now
  {
  }

  /**
   * `getDateRange`: steps one day at a time from `startDate` while the day
   * is not after `endDate`, collecting each day.
   */
  method GetDateRange(startDate: int, endDate: int) returns (dates: seq<int>)
    ensures endDate < startDate ==> dates == []
    ensures startDate <= endDate ==>
      && |dates| == TripDuration(startDate, endDate)
      && dates[0] == startDate && dates[|dates| - 1] == endDate
    ensures forall k :: 0 <= k < |dates| ==> dates[k] == startDate + k
    ensures forall k :: 0 < k < |dates| ==> dates[k - 1] < dates[k]
  {
    dates := [];
    var currentDate := startDate;
    while currentDate <= endDate
      invariant currentDate == startDate + |dates|
      invariant |dates| > 0 ==> currentDate <= endDate + 1
      invariant forall k :: 0 <= k < |dates| ==> dates[k] == startDate + k
      decreases endDate - currentDate
    {
      dates := dates + [currentDate];
      currentDate := currentDate + 1;
    }
  }
}
