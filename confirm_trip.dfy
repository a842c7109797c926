/**
 * GET /trips/:tripId/confirm: look the trip up together with its non-owner
 * participants; if it is already confirmed redirect at once; otherwise set
 * the flag and send every non-owner participant a confirmation mail.
 */
module ConfirmTripRoute {
  import opened Records

  /** Where the caller is sent: the trip's page. */
  datatype Redirect = Redirect(tripId: Id)

  ghost predicate IsInvitee(ps: map<Id, Participant>, tripId: Id, id: Id)
  {
    id in ps && ps[id].tripId == tripId && !ps[id].isOwner
  }

  /** The ids of the trip's non-owner participants among the ids below bound, in id
      (that is, insertion) order: what the lookup with its is_owner = false filter fetches. */
  function Invitees(ps: map<Id, Participant>, tripId: Id, bound: nat): (ids: seq<Id>)
    ensures forall i :: 0 <= i < |ids| ==> ids[i] < bound && IsInvitee(ps, tripId, ids[i])
    ensures forall i, j :: 0 <= i < j < |ids| ==> ids[i] < ids[j]
    ensures forall id: Id :: id < bound && IsInvitee(ps, tripId, id) ==> id in ids
    decreases bound
  {
    if bound == 0 then []
    else
      var ids := Invitees(ps, tripId, bound - 1);
      var id := bound - 1;
      if id in ps && ps[id].tripId == tripId && !ps[id].isOwner then ids + [id] else ids
  }

  /** The mail for one participant: to its email, with a link naming the trip and the participant. */
  function ConfirmationMail(ps: map<Id, Participant>, tripId: Id, id: Id): Mail
    requires id in ps
  {
    Mail(ps[id].email, TripConfirmation(tripId, id))
  }

  /** The mails of the fan-out, one per id, in the order of ids. */
  function ConfirmationMails(ps: map<Id, Participant>, tripId: Id, ids: seq<Id>): seq<Mail>
    requires forall i :: 0 <= i < |ids| ==> ids[i] in ps
  {
    if ids == [] then []
    else ConfirmationMails(ps, tripId, ids[..|ids| - 1]) + [ConfirmationMail(ps, tripId, ids[|ids| - 1])]
  }

  /** How many of the mails carry a link naming participant id. */
  function MailsFor(mails: seq<Mail>, id: Id): nat
  {
    if mails == [] then 0
    else MailsFor(mails[..|mails| - 1], id) + (if mails[|mails| - 1].link.participantId == id then 1 else 0)
  }

  function ConfirmTrip(db: Db, tripId: Id): (s: Step<Redirect>)
    requires Valid(db)
    ensures Valid(s.db)
    ensures s.result.Err? <==> tripId !in db.trips
    ensures s.result.Err? ==> s.result.failure == TripNotFound && s.db == db
    // both success paths redirect to the same page
    ensures s.result.Ok? ==> s.result.value == Redirect(tripId)
    // an already confirmed trip: no update and no mail
    ensures tripId in db.trips && db.trips[tripId].isConfirmed ==> s.db == db
    // afterwards the trip is confirmed and only that flag changed
    ensures tripId in db.trips ==>
      s.db.trips == db.trips[tripId := db.trips[tripId].(isConfirmed := true)]
    ensures s.db.participants == db.participants && s.db.activities == db.activities && s.db.nextId == db.nextId
    // mail is only ever appended
    ensures |db.outbox| <= |s.db.outbox| && s.db.outbox[..|db.outbox|] == db.outbox
  {
    if tripId !in db.trips then Step(db, Err(TripNotFound))
    else if db.trips[tripId].isConfirmed then Step(db, Ok(Redirect(tripId)))
    else
      var invitees := Invitees(db.participants, tripId, db.nextId);
      var confirmed := db.(trips := db.trips[tripId := db.trips[tripId].(isConfirmed := true)]);
      Step(confirmed.(outbox := db.outbox + ConfirmationMails(db.participants, tripId, invitees)), Ok(Redirect(tripId)))
  }

  /** Each mail of the fan-out goes to the participant its link names, for the trip confirmed. */
  lemma {:induction false} ConfirmationMailsAddressed(ps: map<Id, Participant>, tripId: Id, ids: seq<Id>)
    requires forall i :: 0 <= i < |ids| ==> ids[i] in ps
    ensures var mails := ConfirmationMails(ps, tripId, ids);
      && |mails| == |ids|
      && forall i :: 0 <= i < |mails| ==> mails[i] == Mail(ps[ids[i]].email, TripConfirmation(tripId, ids[i]))
  {
    if ids != [] {
      ConfirmationMailsAddressed(ps, tripId, ids[..|ids| - 1]);
    }
  }

  /** Distinct ids, in any order, get one mail each, and no one else gets any. */
  lemma {:induction false} MailsForDistinctIds(ps: map<Id, Participant>, tripId: Id, ids: seq<Id>, id: Id)
    requires forall i :: 0 <= i < |ids| ==> ids[i] in ps
    requires forall i, j :: 0 <= i < j < |ids| ==> ids[i] != ids[j]
    ensures MailsFor(ConfirmationMails(ps, tripId, ids), id) == if id in ids then 1 else 0
  {
    if ids != [] {
      var init := ids[..|ids| - 1];
      MailsForDistinctIds(ps, tripId, init, id);
      var mails := ConfirmationMails(ps, tripId, ids);
      assert mails[..|mails| - 1] == ConfirmationMails(ps, tripId, init);
      assert ids == init + [ids[|ids| - 1]];
      assert ids[|ids| - 1] !in init;
    }
  }

  /** Confirming an unconfirmed trip sends exactly one mail to every non-owner participant of
      the trip, with a link naming the trip and that participant, and none to anyone else. */
  lemma ConfirmTripNotifiesEachInviteeOnce(db: Db, tripId: Id)
    requires Valid(db) && tripId in db.trips && !db.trips[tripId].isConfirmed
    ensures
      var sent := ConfirmTrip(db, tripId).db.outbox[|db.outbox|..];
      && (forall id :: id in db.participants ==>
            MailsFor(sent, id) == if db.participants[id].tripId == tripId && !db.participants[id].isOwner then 1 else 0)
      && (forall i :: 0 <= i < |sent| ==>
            && sent[i].link.TripConfirmation?
            && sent[i].link.tripId == tripId
            && IsInvitee(db.participants, tripId, sent[i].link.participantId)
            && sent[i].to == db.participants[sent[i].link.participantId].email)
  {
    var ids := Invitees(db.participants, tripId, db.nextId);
    var sent := ConfirmTrip(db, tripId).db.outbox[|db.outbox|..];
    assert sent == ConfirmationMails(db.participants, tripId, ids);
    ConfirmationMailsAddressed(db.participants, tripId, ids);
    forall id | id in db.participants
      ensures MailsFor(sent, id) == if db.participants[id].tripId == tripId && !db.participants[id].isOwner then 1 else 0
    {
      MailsForDistinctIds(db.participants, tripId, ids, id);
      assert IsInvitee(db.participants, tripId, id) ==> id in ids;
    }
  }

  /** A second confirmation changes nothing and answers the same; no path clears the flag. */
  lemma ConfirmTripIsIdempotent(db: Db, tripId: Id)
    requires Valid(db)
    ensures
      var s1 := ConfirmTrip(db, tripId);
      var s2 := ConfirmTrip(s1.db, tripId);
      && s2.db == s1.db
      && s2.result == s1.result
      && (forall id :: id in db.trips && db.trips[id].isConfirmed ==> s1.db.trips[id].isConfirmed)
  {
  }
}
