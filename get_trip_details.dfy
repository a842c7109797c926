/** GET /trips/:tripId: look a trip up and return five of its fields. */
module GetTripDetailsRoute {
  import opened Records
  import CreateTripRoute
  import UpdateTripRoute
  import ConfirmTripRoute

  /** The fields the lookup selects; no participant or activity data. */
  datatype TripDetails = TripDetails(id: Id, destination: string, startAt: Timestamp, endAt: Timestamp, isConfirmed: bool)

  function GetTripDetails(db: Db, tripId: Id): (r: Result<TripDetails>)
    ensures r.Err? <==> tripId !in db.trips
    ensures r.Err? ==> r.failure == TripNotFound
    ensures r.Ok? ==>
      var t := db.trips[tripId];
      r.value == TripDetails(tripId, t.destination, t.startAt, t.endAt, t.isConfirmed)
  {
    if tripId !in db.trips then Err(TripNotFound)
    else
      var t := db.trips[tripId];
      Ok(TripDetails(tripId, t.destination, t.startAt, t.endAt, t.isConfirmed))
  }

  /** The details depend on the trip row alone. */
  lemma DetailsIgnoreOtherTables(db: Db, db': Db, tripId: Id)
    requires db.trips == db'.trips
    ensures GetTripDetails(db, tripId) == GetTripDetails(db', tripId)
  {
  }

  /** A created trip reads back with the fields it was created with. */
  lemma DetailsAfterCreate(db: Db, now: Timestamp, destination: string, startAt: Timestamp, endAt: Timestamp)
    requires Valid(db) && ValidDestination(destination)
    ensures
      var s := CreateTripRoute.CreateTrip(db, now, destination, startAt, endAt);
      s.result.Ok? ==>
        GetTripDetails(s.db, s.result.value.tripId)
          == Ok(TripDetails(s.result.value.tripId, destination, startAt, endAt, db.defaults.tripConfirmed))
  {
  }

  /** An updated trip reads back with the new fields and its old confirmation. */
  lemma DetailsAfterUpdate(db: Db, now: Timestamp, tripId: Id, destination: string, startAt: Timestamp, endAt: Timestamp)
    requires Valid(db) && ValidDestination(destination)
    ensures
      var s := UpdateTripRoute.UpdateTrip(db, now, tripId, destination, startAt, endAt);
      s.result.Ok? ==>
        GetTripDetails(s.db, tripId)
          == Ok(TripDetails(tripId, destination, startAt, endAt, db.trips[tripId].isConfirmed))
  {
  }

  /** After a confirmation the trip reads back as confirmed, all other fields as before. */
  lemma DetailsAfterConfirm(db: Db, tripId: Id)
    requires Valid(db) && tripId in db.trips
    ensures
      var s := ConfirmTripRoute.ConfirmTrip(db, tripId);
      var t := db.trips[tripId];
      GetTripDetails(s.db, tripId) == Ok(TripDetails(tripId, t.destination, t.startAt, t.endAt, true))
  {
  }
}
