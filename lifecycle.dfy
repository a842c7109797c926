/**
 * The routes that change the database, taken together: whatever sequence of
 * requests arrives, the database stays consistent, no trip disappears, a
 * confirmed trip stays confirmed, rows are only ever added, and mail is only
 * ever appended.
 */
module Lifecycle {
  import opened Records
  import CreateTripRoute
  import UpdateTripRoute
  import CreateActivityRoute
  import CreateInviteRoute
  import ConfirmTripRoute

  datatype Request =
    | CreateTrip(now: Timestamp, destination: string, startAt: Timestamp, endAt: Timestamp)
    | UpdateTrip(now: Timestamp, tripId: Id, destination: string, startAt: Timestamp, endAt: Timestamp)
    | CreateActivity(tripId: Id, title: string, occursAt: Timestamp)
    | CreateInvite(tripId: Id, email: string)
    | ConfirmTrip(tripId: Id)

  /** The request-schema constraints each route's body must meet. */
  predicate PassesSchema(req: Request)
  {
    match req
    case CreateTrip(_, destination, _, _) => ValidDestination(destination)
    case UpdateTrip(_, _, destination, _, _) => ValidDestination(destination)
    case CreateActivity(_, title, _) => ValidTitle(title)
    case CreateInvite(_, email) => ValidEmail(email)
    case ConfirmTrip(_) => true
  }

  /** db' is a later state of db. */
  ghost predicate Extends(db: Db, db': Db)
  {
    && db.nextId <= db'.nextId
    && (forall id :: id in db.trips ==> id in db'.trips && (db.trips[id].isConfirmed ==> db'.trips[id].isConfirmed))
    && (forall id :: id in db.participants ==> id in db'.participants && db'.participants[id] == db.participants[id])
    && (forall id :: id in db.activities ==> id in db'.activities && db'.activities[id] == db.activities[id])
    && |db.outbox| <= |db'.outbox| && db'.outbox[..|db.outbox|] == db.outbox
    && db'.defaults == db.defaults
  }

  lemma ExtendsTransitive(db: Db, db': Db, db'': Db)
    requires Extends(db, db') && Extends(db', db'')
    ensures Extends(db, db'')
  {
  }

  /** The database after one request. */
  function Handle(db: Db, req: Request): (db': Db)
    requires Valid(db) && PassesSchema(req)
    ensures Valid(db') && Extends(db, db')
  {
    match req
    case CreateTrip(now, destination, startAt, endAt) =>
      CreateTripExtends(db, now, destination, startAt, endAt);
      CreateTripRoute.CreateTrip(db, now, destination, startAt, endAt).db
    case UpdateTrip(now, tripId, destination, startAt, endAt) =>
      UpdateTripExtends(db, now, tripId, destination, startAt, endAt);
      UpdateTripRoute.UpdateTrip(db, now, tripId, destination, startAt, endAt).db
    case CreateActivity(tripId, title, occursAt) =>
      CreateActivityExtends(db, tripId, title, occursAt);
      CreateActivityRoute.CreateActivity(db, tripId, title, occursAt).db
    case CreateInvite(tripId, email) =>
      CreateInviteExtends(db, tripId, email);
      CreateInviteRoute.CreateInvite(db, tripId, email).db
    case ConfirmTrip(tripId) =>
      ConfirmTripExtends(db, tripId);
      ConfirmTripRoute.ConfirmTrip(db, tripId).db
  }

  lemma CreateTripExtends(db: Db, now: Timestamp, destination: string, startAt: Timestamp, endAt: Timestamp)
    requires Valid(db) && ValidDestination(destination)
    ensures Extends(db, CreateTripRoute.CreateTrip(db, now, destination, startAt, endAt).db)
  {
  }

  lemma UpdateTripExtends(db: Db, now: Timestamp, tripId: Id, destination: string, startAt: Timestamp, endAt: Timestamp)
    requires Valid(db) && ValidDestination(destination)
    ensures Extends(db, UpdateTripRoute.UpdateTrip(db, now, tripId, destination, startAt, endAt).db)
  {
  }

  lemma CreateActivityExtends(db: Db, tripId: Id, title: string, occursAt: Timestamp)
    requires Valid(db) && ValidTitle(title)
    ensures Extends(db, CreateActivityRoute.CreateActivity(db, tripId, title, occursAt).db)
  {
  }

  lemma CreateInviteExtends(db: Db, tripId: Id, email: string)
    requires Valid(db) && ValidEmail(email)
    ensures Extends(db, CreateInviteRoute.CreateInvite(db, tripId, email).db)
  {
  }

  lemma ConfirmTripExtends(db: Db, tripId: Id)
    requires Valid(db)
    ensures Extends(db, ConfirmTripRoute.ConfirmTrip(db, tripId).db)
  {
  }

  /** The database after a sequence of requests, handled one at a time. */
  function Run(db: Db, reqs: seq<Request>): (db': Db)
    requires Valid(db) && forall i :: 0 <= i < |reqs| ==> PassesSchema(reqs[i])
    ensures Valid(db')
    decreases |reqs|
  {
    if reqs == [] then db else Run(Handle(db, reqs[0]), reqs[1..])
  }

  /** However many requests arrive, the database only grows and confirmations stick. */
  lemma {:induction false} RunExtends(db: Db, reqs: seq<Request>)
    requires Valid(db) && forall i :: 0 <= i < |reqs| ==> PassesSchema(reqs[i])
    ensures Extends(db, Run(db, reqs))
    decreases |reqs|
  {
    if reqs != [] {
      var db' := Handle(db, reqs[0]);
      RunExtends(db', reqs[1..]);
      ExtendsTransitive(db, db', Run(db', reqs[1..]));
    }
  }
}
