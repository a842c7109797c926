/**
 * The records the trip planner keeps (trips, participants, activities), the
 * mail it queues, the failures its routes raise, and the database as a value.
 *
 * Identifiers are handed out by a counter instead of generated UUIDs, and a
 * row is stored under its identifier, so the records themselves carry no id.
 */
module Records {

  type Id = nat

  /** A point in time in milliseconds; dates are compared strictly, as dayjs's isBefore/isAfter do. */
  type Timestamp = int

  datatype Option<T> = None | Some(value: T)

  datatype Trip = Trip(destination: string, startAt: Timestamp, endAt: Timestamp, isConfirmed: bool)

  datatype Participant = Participant(tripId: Id, name: Option<string>, email: string, isOwner: bool, isConfirmed: bool)

  datatype Activity = Activity(tripId: Id, title: string, occursAt: Timestamp)

  /** The identifiers a confirmation link embeds: confirm-trip links name the trip and the
      participant, invitation links name the participant only. */
  datatype Link =
    | TripConfirmation(tripId: Id, participantId: Id)
    | ParticipantConfirmation(participantId: Id)

  /** A queued mail: its recipient and the confirmation link in its body. */
  datatype Mail = Mail(to: string, link: Link)

  /** The errors the routes throw. */
  datatype Failure = TripNotFound | InvalidStartDate | InvalidEndDate | InvalidActivityDate

  /** The text each thrown error carries. */
  function Message(f: Failure): string
  {
    match f
    case TripNotFound => "Trip not found"
    case InvalidStartDate => "Invalid start trip date"
    case InvalidEndDate => "Invalid trip end date"
    case InvalidActivityDate => "Invalid activity date"
  }

  datatype Result<T> = Ok(value: T) | Err(failure: Failure)

  /** Column defaults of the database schema for the fields the routes do not set. */
  datatype Defaults = Defaults(tripConfirmed: bool, inviteeName: Option<string>, inviteeIsOwner: bool, inviteeConfirmed: bool)

  /** The database and the mail client's outbox, as one value. */
  datatype Db = Db(
    trips: map<Id, Trip>,
    participants: map<Id, Participant>,
    activities: map<Id, Activity>,
    outbox: seq<Mail>,
    nextId: Id,
    defaults: Defaults)

  /** What a route leaves behind: the new database and what it answers. */
  datatype Step<T> = Step(db: Db, result: Result<T>)

  /** The length of a string as JavaScript measures it: in UTF-16 code units, so a
      character outside the Basic Multilingual Plane counts twice. */
  function Utf16Length(s: string): (n: nat)
    ensures |s| <= n <= 2 * |s|
  {
    if s == [] then 0
    else Utf16Length(s[..|s| - 1]) + (if s[|s| - 1] as int > 0xFFFF then 2 else 1)
  }

  /** Request-schema constraints, checked before a route runs; zod's min(4) counts UTF-16 code units. */
  predicate ValidDestination(destination: string) { Utf16Length(destination) >= 4 }

  predicate ValidTitle(title: string) { Utf16Length(title) >= 4 }

  /** Two characters outside the Basic Multilingual Plane make four code units, which the
      schema accepts; three such characters of the plane itself do not. */
  lemma AstralCharactersCountTwice()
    ensures |"\U{1F600}\U{1F600}"| == 2 && ValidDestination("\U{1F600}\U{1F600}")
    ensures !ValidDestination("abc")
  {
    assert "abc"[..2] == "ab" && "ab"[..1] == "a" && "a"[..0] == "";
  }

  /** An approximation of the email format: a non-empty local part, '@', a non-empty domain. */
  predicate ValidEmail(email: string) { |email| >= 3 && '@' in email[1..|email| - 1] }

  /** Integrity of the database: every key was issued by the counter, every participant and
      activity belongs to an existing trip, and stored rows satisfy the request schemas and
      the trip date rule. */
  ghost predicate Valid(db: Db)
  {
    && (forall id :: id in db.trips ==>
          id < db.nextId && ValidDestination(db.trips[id].destination) && db.trips[id].startAt <= db.trips[id].endAt)
    && (forall id :: id in db.participants ==>
          id < db.nextId && db.participants[id].tripId in db.trips && ValidEmail(db.participants[id].email))
    && (forall id :: id in db.activities ==>
          id < db.nextId && db.activities[id].tripId in db.trips && ValidTitle(db.activities[id].title))
  }
}
