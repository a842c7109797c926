/** POST /trips/:tripId/activities: look the trip up, check the date window, insert an activity. */
module CreateActivityRoute {
  import opened Records
  import opened TripDates

  function CreateActivity(db: Db, tripId: Id, title: string, occursAt: Timestamp): (s: Step<Id>)
    requires Valid(db) && ValidTitle(title)
    ensures Valid(s.db)
    ensures s.result.Err? ==> s.db == db
    ensures tripId !in db.trips ==> s.result == Err(TripNotFound)
    // inside the window, both ends included, is accepted; anything else is an invalid date
    ensures tripId in db.trips ==>
      (s.result.Ok? <==> db.trips[tripId].startAt <= occursAt <= db.trips[tripId].endAt)
    ensures tripId in db.trips && s.result.Err? ==> s.result.failure == InvalidActivityDate
    // on success exactly one fresh activity with the given fields; the trip is untouched
    ensures s.result.Ok? ==>
      var id := s.result.value;
      && id !in db.activities
      && s.db.activities == db.activities[id := Activity(tripId, title, occursAt)]
      && s.db.trips == db.trips
      && s.db.participants == db.participants
      && s.db.outbox == db.outbox
  {
    if tripId !in db.trips then Step(db, Err(TripNotFound))
    else
      match CheckActivityDate(db.trips[tripId], occursAt)
      case Some(f) => Step(db, Err(f))
      case None =>
        var id := db.nextId;
        Step(db.(activities := db.activities[id := Activity(tripId, title, occursAt)], nextId := id + 1), Ok(id))
  }
}
