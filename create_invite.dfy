/** POST /trips/:tripId/invite: look the trip up, insert a participant, queue one invitation. */
module CreateInviteRoute {
  import opened Records

  /** What create-invite answers. */
  datatype Invitation = Invitation(tripId: Id, participantId: Id)

  /** The participant row create-invite inserts: only the email and the trip are set, the
      other columns take the schema's defaults. */
  function Invitee(db: Db, tripId: Id, email: string): Participant
  {
    Participant(tripId, db.defaults.inviteeName, email, db.defaults.inviteeIsOwner, db.defaults.inviteeConfirmed)
  }

  function CreateInvite(db: Db, tripId: Id, email: string): (s: Step<Invitation>)
    requires Valid(db) && ValidEmail(email)
    ensures Valid(s.db)
    ensures s.result.Err? <==> tripId !in db.trips
    ensures s.result.Err? ==> s.result == Err(TripNotFound) && s.db == db
    // one fresh participant, one mail to it carrying its id, and nothing else
    ensures s.result.Ok? ==>
      var pid := s.result.value.participantId;
      && s.result.value.tripId == tripId
      && pid !in db.participants
      && s.db.participants == db.participants[pid := Invitee(db, tripId, email)]
      && s.db.outbox == db.outbox + [Mail(email, ParticipantConfirmation(pid))]
      && s.db.trips == db.trips
      && s.db.activities == db.activities
  {
    if tripId !in db.trips then Step(db, Err(TripNotFound))
    else
      var pid := db.nextId;
      var db' := db.(participants := db.participants[pid := Invitee(db, tripId, email)], nextId := pid + 1);
      Step(db'.(outbox := db.outbox + [Mail(db'.participants[pid].email, ParticipantConfirmation(pid))]),
           Ok(Invitation(tripId, pid)))
  }

  /** No de-duplication: inviting the same email twice yields two distinct participants,
      each with that email, and two mails. */
  lemma InviteTwiceMakesTwoParticipants(db: Db, tripId: Id, email: string)
    requires Valid(db) && ValidEmail(email) && tripId in db.trips
    ensures
      var s1 := CreateInvite(db, tripId, email);
      var s2 := CreateInvite(s1.db, tripId, email);
      && s1.result.Ok? && s2.result.Ok?
      && s1.result.value.participantId != s2.result.value.participantId
      && s2.db.participants[s1.result.value.participantId].email == email
      && s2.db.participants[s2.result.value.participantId].email == email
      && |s2.db.outbox| == |db.outbox| + 2
  {
  }
}
