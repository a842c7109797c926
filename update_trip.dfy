/** PUT /trips/:tripId: look the trip up, validate the new dates, overwrite three fields. */
module UpdateTripRoute {
  import opened Records
  import opened TripDates

  function UpdateTrip(db: Db, now: Timestamp, tripId: Id, destination: string, startAt: Timestamp, endAt: Timestamp): (s: Step<Id>)
    requires Valid(db) && ValidDestination(destination)
    ensures Valid(s.db)
    ensures s.result.Err? ==> s.db == db
    // the checks run in a fixed order: not found, then the start date, then the end date
    ensures tripId !in db.trips ==> s.result == Err(TripNotFound)
    ensures tripId in db.trips ==>
      s.result == (match CheckTripDates(now, startAt, endAt) case None => Ok(tripId) case Some(f) => Err(f))
    // on success the trip takes the given fields and keeps its confirmation; nothing else changes
    ensures s.result.Ok? ==>
      && tripId in db.trips
      && s.result.value == tripId
      && s.db.trips.Keys == db.trips.Keys
      && s.db.trips[tripId] == Trip(destination, startAt, endAt, db.trips[tripId].isConfirmed)
      && (forall id :: id in db.trips && id != tripId ==> s.db.trips[id] == db.trips[id])
      && s.db.participants == db.participants
      && s.db.activities == db.activities
      && s.db.outbox == db.outbox
      && s.db.nextId == db.nextId
  {
    if tripId !in db.trips then Step(db, Err(TripNotFound))
    else
      match CheckTripDates(now, startAt, endAt)
      case Some(f) => Step(db, Err(f))
      case None =>
        var trip := db.trips[tripId].(destination := destination, startAt := startAt, endAt := endAt);
        Step(db.(trips := db.trips[tripId := trip]), Ok(tripId))
  }

  /** The route does not look at the trip's activities: an update can leave an activity that
      was inside the trip's dates outside them. */
  lemma UpdateCanStrandActivity()
    ensures
      var db := Db(map[0 := Trip("Rome", 10, 20, false)], map[], map[1 := Activity(0, "Dinner", 15)],
                   [], 2, Defaults(false, None, false, false));
      && Valid(db)
      && CheckActivityDate(db.trips[0], db.activities[1].occursAt) == None
      && var s := UpdateTrip(db, 0, 0, "Rome", 30, 40);
      && s.result == Ok(0)
      && s.db.activities == db.activities
      && CheckActivityDate(s.db.trips[0], s.db.activities[1].occursAt) == Some(InvalidActivityDate)
  {
  }
}
