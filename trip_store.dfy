/**
 * The database and the mail client as one mutable object: three tables,
 * the outbox the mail client appends to, and the id counter. Each method is
 * one route handler, written step by step as the handler runs, and is proved
 * to leave the store in the state its route function describes.
 */
module Store {
  import opened Records
  import opened TripDates
  import CreateTripRoute
  import UpdateTripRoute
  import CreateActivityRoute
  import CreateInviteRoute
  import ConfirmTripRoute

  class TripStore {
    var trips: map<Id, Trip>
    var participants: map<Id, Participant>
    var activities: map<Id, Activity>
    var outbox: seq<Mail>
    var nextId: Id
    const defaults: Defaults

    /** The store as a value. */
    function Snapshot(): Db
      reads this
    {
      Db(trips, participants, activities, outbox, nextId, defaults)
    }

    ghost predicate Valid()
      reads this
    {
      Records.Valid(Snapshot())
    }

    constructor (initial: Db)
      requires Records.Valid(initial)
      ensures Valid() && Snapshot() == initial
    {
      trips, participants, activities := initial.trips, initial.participants, initial.activities;
      outbox, nextId := initial.outbox, initial.nextId;
      defaults := initial.defaults;
    }

    method CreateTrip(now: Timestamp, destination: string, startAt: Timestamp, endAt: Timestamp)
      returns (r: Result<CreateTripRoute.CreatedTrip>)
      requires Valid() && ValidDestination(destination)
      modifies this
      ensures Valid()
      ensures Step(Snapshot(), r) == CreateTripRoute.CreateTrip(old(Snapshot()), now, destination, startAt, endAt)
    {
      if startAt < now {
        return Err(InvalidStartDate);
      }
      if endAt < startAt {
        return Err(InvalidEndDate);
      }
      var id := nextId;
      var trip := Trip(destination, startAt, endAt, defaults.tripConfirmed);
      trips := trips[id := trip];
      nextId := nextId + 1;
      r := Ok(CreateTripRoute.CreatedTrip(id, trip));
    }

    method UpdateTrip(now: Timestamp, tripId: Id, destination: string, startAt: Timestamp, endAt: Timestamp)
      returns (r: Result<Id>)
      requires Valid() && ValidDestination(destination)
      modifies this
      ensures Valid()
      ensures Step(Snapshot(), r) == UpdateTripRoute.UpdateTrip(old(Snapshot()), now, tripId, destination, startAt, endAt)
    {
      if tripId !in trips {
        return Err(TripNotFound);
      }
      if startAt < now {
        return Err(InvalidStartDate);
      }
      if endAt < startAt {
        return Err(InvalidEndDate);
      }
      trips := trips[tripId := trips[tripId].(destination := destination, startAt := startAt, endAt := endAt)];
      r := Ok(tripId);
    }

    method CreateActivity(tripId: Id, title: string, occursAt: Timestamp) returns (r: Result<Id>)
      requires Valid() && ValidTitle(title)
      modifies this
      ensures Valid()
      ensures Step(Snapshot(), r) == CreateActivityRoute.CreateActivity(old(Snapshot()), tripId, title, occursAt)
    {
      if tripId !in trips {
        return Err(TripNotFound);
      }
      var trip := trips[tripId];
      if occursAt < trip.startAt {
        return Err(InvalidActivityDate);
      }
      if occursAt > trip.endAt {
        return Err(InvalidActivityDate);
      }
      var id := nextId;
      activities := activities[id := Activity(tripId, title, occursAt)];
      nextId := nextId + 1;
      r := Ok(id);
    }

    method CreateInvite(tripId: Id, email: string) returns (r: Result<CreateInviteRoute.Invitation>)
      requires Valid() && ValidEmail(email)
      modifies this
      ensures Valid()
      ensures Step(Snapshot(), r) == CreateInviteRoute.CreateInvite(old(Snapshot()), tripId, email)
    {
      if tripId !in trips {
        return Err(TripNotFound);
      }
      var id := nextId;
      participants := participants[id := Participant(tripId, defaults.inviteeName, email, defaults.inviteeIsOwner, defaults.inviteeConfirmed)];
      nextId := nextId + 1;
      outbox := outbox + [Mail(participants[id].email, ParticipantConfirmation(id))];
      r := Ok(CreateInviteRoute.Invitation(tripId, id));
    }

    method ConfirmTrip(tripId: Id) returns (r: Result<ConfirmTripRoute.Redirect>)
      requires Valid()
      modifies this
      ensures Valid()
      ensures Step(Snapshot(), r) == ConfirmTripRoute.ConfirmTrip(old(Snapshot()), tripId)
    {
      ghost var spec := ConfirmTripRoute.ConfirmTrip(Snapshot(), tripId);
      if tripId !in trips {
        return Err(TripNotFound);
      }
      var trip := trips[tripId];
      // the lookup fetches the non-owner participants together with the trip
      var invitees := ConfirmTripRoute.Invitees(participants, tripId, nextId);
      if trip.isConfirmed {
        return Ok(ConfirmTripRoute.Redirect(tripId));
      }
      trips := trips[tripId := trip.(isConfirmed := true)];
      SendConfirmations(tripId, invitees);
      r := Ok(ConfirmTripRoute.Redirect(tripId));
      assert Step(Snapshot(), r) == spec;
    }

    /** The fan-out of confirm-trip: one mail per listed participant, in list order. It runs
        only once the trip's flag is set. */
    method SendConfirmations(tripId: Id, invitees: seq<Id>)
      requires tripId in trips && trips[tripId].isConfirmed
      requires forall i :: 0 <= i < |invitees| ==> invitees[i] in participants
      modifies this`outbox
      ensures outbox == old(outbox) + ConfirmTripRoute.ConfirmationMails(participants, tripId, invitees)
    {
      for k := 0 to |invitees|
        invariant outbox == old(outbox) + ConfirmTripRoute.ConfirmationMails(participants, tripId, invitees[..k])
      {
        var id := invitees[k];
        outbox := outbox + [Mail(participants[id].email, TripConfirmation(tripId, id))];
        assert invitees[..k + 1][..k] == invitees[..k];
      }
      assert invitees[..|invitees|] == invitees;
    }
  }
}
