/** POST /trips: validate the dates, then insert a trip and return it with its id. */
module CreateTripRoute {
  import opened Records
  import opened TripDates

  /** What create-trip answers: the new trip's id and the stored row. */
  datatype CreatedTrip = CreatedTrip(tripId: Id, trip: Trip)

  function CreateTrip(db: Db, now: Timestamp, destination: string, startAt: Timestamp, endAt: Timestamp): (s: Step<CreatedTrip>)
    requires Valid(db) && ValidDestination(destination)
    ensures Valid(s.db)
    // validation comes before the insert: a rejected request changes nothing
    ensures s.result.Ok? <==> CheckTripDates(now, startAt, endAt) == None
    ensures s.result.Err? ==> s.db == db && CheckTripDates(now, startAt, endAt) == Some(s.result.failure)
    // exactly one fresh trip, holding the given fields, and nothing else
    ensures s.result.Ok? ==>
      var id := s.result.value.tripId;
      && id !in db.trips
      && s.result.value.trip == Trip(destination, startAt, endAt, db.defaults.tripConfirmed)
      && s.db.trips == db.trips[id := s.result.value.trip]
      && s.db.participants == db.participants
      && s.db.activities == db.activities
      && s.db.outbox == db.outbox
  {
    match CheckTripDates(now, startAt, endAt)
    case Some(f) => Step(db, Err(f))
    case None =>
      var id := db.nextId;
      var trip := Trip(destination, startAt, endAt, db.defaults.tripConfirmed);
      Step(db.(trips := db.trips[id := trip], nextId := id + 1), Ok(CreatedTrip(id, trip)))
  }
}
