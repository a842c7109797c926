/**
 * The date guards shared by the routes: a trip's start may not lie before
 * "now" and its end may not lie before its start; an activity must fall
 * within its trip's dates, both ends included.
 */
module TripDates {
  import opened Records

  /** The guard of create-trip and update-trip: the start date is checked first, then the
      end date; equal start and end are accepted. */
  function CheckTripDates(now: Timestamp, startAt: Timestamp, endAt: Timestamp): (r: Option<Failure>)
    ensures r == None <==> now <= startAt <= endAt
    ensures r == Some(InvalidStartDate) <==> startAt < now
    ensures r == Some(InvalidEndDate) <==> now <= startAt && endAt < startAt
  {
    if startAt < now then Some(InvalidStartDate)
    else if endAt < startAt then Some(InvalidEndDate)
    else None
  }

  /** The guard of create-activity: before the start or after the end is rejected, so both
      boundaries are accepted. */
  function CheckActivityDate(trip: Trip, occursAt: Timestamp): (r: Option<Failure>)
    ensures r == None <==> trip.startAt <= occursAt <= trip.endAt
    ensures r != None ==> r == Some(InvalidActivityDate)
  {
    if occursAt < trip.startAt then Some(InvalidActivityDate)
    else if occursAt > trip.endAt then Some(InvalidActivityDate)
    else None
  }
}
