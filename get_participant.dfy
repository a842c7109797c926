/** GET /participants/:participantId: look a participant up and return four of its fields. */
module GetParticipantRoute {
  import opened Records
  import CreateInviteRoute

  /** The fields the lookup selects; the trip and the owner flag are not exposed. */
  datatype ParticipantDetails = ParticipantDetails(id: Id, name: Option<string>, email: string, isConfirmed: bool)

  function GetParticipant(db: Db, participantId: Id): (r: Result<ParticipantDetails>)
    ensures r.Err? <==> participantId !in db.participants
    // the route reports a missing participant with the trip's not-found error
    ensures r.Err? ==> r.failure == TripNotFound && Message(r.failure) == "Trip not found"
    ensures r.Ok? ==>
      var p := db.participants[participantId];
      r.value == ParticipantDetails(participantId, p.name, p.email, p.isConfirmed)
  {
    if participantId !in db.participants then Err(TripNotFound)
    else
      var p := db.participants[participantId];
      Ok(ParticipantDetails(participantId, p.name, p.email, p.isConfirmed))
  }

  /** Two participants that differ only in their trip and owner flag read back alike. */
  lemma DetailsHideTripAndOwner(db: Db, id: Id, tripId: Id, isOwner: bool)
    requires id in db.participants
    ensures
      var p := db.participants[id];
      var db' := db.(participants := db.participants[id := p.(tripId := tripId, isOwner := isOwner)]);
      GetParticipant(db', id) == GetParticipant(db, id)
  {
  }

  /** An invited participant reads back with the email it was invited with. */
  lemma DetailsAfterInvite(db: Db, tripId: Id, email: string)
    requires Valid(db) && ValidEmail(email)
    ensures
      var s := CreateInviteRoute.CreateInvite(db, tripId, email);
      s.result.Ok? ==>
        var pid := s.result.value.participantId;
        GetParticipant(s.db, pid)
          == Ok(ParticipantDetails(pid, db.defaults.inviteeName, email, db.defaults.inviteeConfirmed))
  {
  }
}
