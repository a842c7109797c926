# Trip planner routes, modelled in Dafny

The trip planner backend is a set of Fastify route handlers over three tables: trips, participants and activities. Its mail client sends invitation and confirmation mails. This project models the seven handlers that hold its logic:

- **create-trip** rejects a start date before "now" and an end date before the start, then inserts a trip.
- **update-trip** looks the trip up, applies the same two date checks, then overwrites the destination and the dates.
- **create-activity** looks the trip up, rejects a date outside `[start_at, end_at]`, then inserts an activity.
- **create-invite** looks the trip up, inserts a participant and queues one invitation mail whose link carries the new participant's id.
- **confirm-trip** looks the trip up with its non-owner participants. If the trip is already confirmed, it redirects at once. Otherwise it sets `is_confirmed`, sends each non-owner participant one mail whose link carries the trip id and that participant's id, and redirects to the trip's page.
- **get-trip-details** and **get-participant** look a row up and return a fixed selection of its fields.

How the model is built:

- `Records` holds the rows and the database as one value, `Db`. A `Db` has the three tables as maps keyed by id, the mail client's outbox as a sequence of `Mail(to, link)`, and a counter that issues fresh ids.
- `Records.Valid` is the database's integrity. Every key was issued by the counter. Every participant and activity belongs to an existing trip. Stored trips have `start_at <= end_at`. Stored rows also meet the request schemas: destinations and titles are at least 4 UTF-16 code units long (`ValidDestination`, `ValidTitle`), and emails are well formed (`ValidEmail`).
- Each route is a pure function from a `Db` to a `Step(db, result)`. The result is `Ok(payload)` or `Err(failure)`. The failure is one of the errors the handler throws: `TripNotFound`, `InvalidStartDate`, `InvalidEndDate` or `InvalidActivityDate`. `Records.Message` gives each failure's exact text.
- The lookups are functions over a `Db` and change nothing.
- `Store.TripStore` is the same database as a mutable object. Each of its methods performs one handler step by step and is proved to end in the state that the route's function describes.
- `Lifecycle` runs any sequence of requests through the routes. It proves that the database stays valid, that rows are only added, that a confirmed trip stays confirmed, and that mail is only appended.
- Timestamps are integers (milliseconds). dayjs's `isBefore`/`isAfter` become strict `<` and `>`, so equal dates are always accepted.
- "Now" is a parameter of create-trip and update-trip.

Where the code and the broader design disagree, the model follows the code:

- create-trip inserts only the trip. It creates no owner or invitee participants and sends no mail.
- get-participant reports a missing participant with the text "Trip not found".
- update-trip does not re-check a trip's existing activities. `UpdateTripRoute.UpdateCanStrandActivity` exhibits an update that leaves an accepted activity outside its trip's new dates. So "every activity lies within its trip's dates" is not an invariant of the code.
- The columns the handlers do not set (a trip's `is_confirmed`; an invitee's `name`, `is_owner` and `is_confirmed`) take the database schema's defaults. The schema is not part of this model, so these defaults are the store constant `Db.defaults`, and no property depends on their values.

## Model

| member | source | states |
|---|---|---|
| Records.Utf16Length | Backend/src/routes/create-trip.ts:13 | a string's length in UTF-16 code units, the unit zod's `min(4)` counts: at least its number of characters and at most twice that |
| Records.AstralCharactersCountTwice | Backend/src/routes/create-trip.ts:13 | two characters outside the Basic Multilingual Plane meet the 4-unit minimum for a destination; three ordinary characters do not |
| TripDates.CheckTripDates | Backend/src/routes/create-trip.ts:22-28 | accepted iff `now <= start_at <= end_at`; a start before now is `InvalidStartDate`; otherwise an end before the start is `InvalidEndDate` (the start is checked first; equal dates pass) |
| TripDates.CheckActivityDate | Backend/src/routes/create-activity.ts:35-41 | accepted iff `start_at <= occurs_at <= end_at`, both boundaries included; every rejection is `InvalidActivityDate` |
| CreateTripRoute.CreateTrip | Backend/src/routes/create-trip.ts:19-42 | succeeds iff the dates pass; on failure the database is unchanged; on success exactly one fresh trip is added with the given destination and dates, the returned id and row are that trip's, and participants, activities and outbox are unchanged |
| UpdateTripRoute.UpdateTrip | Backend/src/routes/update-trip.ts:22-57 | a missing trip fails with `TripNotFound` before any date check; otherwise the result is the date check's verdict; any failure changes nothing; on success the trip takes the given destination and dates, keeps `is_confirmed`, the result is its id, and no other trip, participant, activity or mail changes |
| UpdateTripRoute.UpdateCanStrandActivity | Backend/src/routes/update-trip.ts:43-52 | a valid database and an accepted update after which an activity that was inside its trip's dates falls outside them |
| CreateActivityRoute.CreateActivity | Backend/src/routes/create-activity.ts:21-54 | a missing trip fails with `TripNotFound`; otherwise success iff `start_at <= occurs_at <= end_at`, any other date failing with `InvalidActivityDate`; failures change nothing; on success exactly one fresh activity with the given title, date and trip is added, its id is returned, and trips, participants and outbox are unchanged |
| CreateInviteRoute.CreateInvite | Backend/src/routes/create-invite.ts:22-77 | fails iff the trip is missing, with `TripNotFound` and no change; on success exactly one fresh participant with the given email and trip is added, exactly one mail to that email whose link carries the new participant's id is appended, the result is `{tripId, participantId}`, and trips and activities are unchanged |
| CreateInviteRoute.InviteTwiceMakesTwoParticipants | Backend/src/routes/create-invite.ts:36-41 | inviting the same email twice creates two distinct participants with that email and two mails (no de-duplication) |
| ConfirmTripRoute.Invitees | Backend/src/routes/confirm-trip.ts:22-33 | the lookup's participant list: exactly the trip's participants with `is_owner = false`, each once, in increasing id order |
| ConfirmTripRoute.ConfirmTrip | Backend/src/routes/confirm-trip.ts:19-87 | fails iff the trip is missing, with `TripNotFound` and no change; an already confirmed trip yields the redirect with no change and no mail; otherwise the trip's `is_confirmed` becomes true with its other fields unchanged; participants and activities never change; mail is only appended; both success paths redirect to `Redirect(tripId)` |
| ConfirmTripRoute.ConfirmationMailsAddressed | Backend/src/routes/confirm-trip.ts:57-65 | the fan-out has one mail per listed participant, addressed to that participant's email, with a link carrying the trip id and that participant's id |
| ConfirmTripRoute.MailsForDistinctIds | Backend/src/routes/confirm-trip.ts:57-84 | over a list of distinct ids in any order, each listed participant is named by exactly one mail and every other participant by none, so the count does not depend on the order the lookup returns |
| ConfirmTripRoute.ConfirmTripNotifiesEachInviteeOnce | Backend/src/routes/confirm-trip.ts:26-31 | confirming an unconfirmed trip sends exactly one mail to each non-owner participant of the trip and none to owners or other trips' participants; each mail goes to the email of the participant its link names, and the link names the confirmed trip |
| ConfirmTripRoute.ConfirmTripIsIdempotent | Backend/src/routes/confirm-trip.ts:39-50 | a second confirmation leaves the database as the first left it (no update, no mail) and answers the same; no confirmed trip is unconfirmed |
| GetTripDetailsRoute.GetTripDetails | Backend/src/routes/get-trip-details.ts:19-37 | fails with `TripNotFound` iff no trip has the id; otherwise returns exactly the trip's id, destination, start_at, end_at and is_confirmed |
| GetTripDetailsRoute.DetailsIgnoreOtherTables | Backend/src/routes/get-trip-details.ts:20-26 | the result depends on the trips table alone: no participant, activity or mail data enters it |
| GetTripDetailsRoute.DetailsAfterCreate | Backend/src/routes/create-trip.ts:30-40 | a created trip reads back under the returned id with the destination and dates it was created with |
| GetTripDetailsRoute.DetailsAfterUpdate | Backend/src/routes/update-trip.ts:43-52 | after a successful update the trip reads back with the new destination and dates and its previous confirmation |
| GetTripDetailsRoute.DetailsAfterConfirm | Backend/src/routes/confirm-trip.ts:43-50 | after confirm-trip on an existing trip it reads back as confirmed with destination and dates unchanged |
| GetParticipantRoute.GetParticipant | Backend/src/routes/get-participant.ts:19-36 | fails iff no participant has the id, with the error text "Trip not found"; otherwise returns exactly the participant's id, name, email and is_confirmed |
| GetParticipantRoute.DetailsHideTripAndOwner | Backend/src/routes/get-participant.ts:20-25 | changing a participant's trip or owner flag does not change what the lookup returns (`trip_id` and `is_owner` are not exposed) |
| GetParticipantRoute.DetailsAfterInvite | Backend/src/routes/create-invite.ts:36-41 | an invited participant reads back under the returned id with the invited email |
| Lifecycle.Handle | Backend/src/routes/confirm-trip.ts:43-50 | dispatches each of the five mutating routes (create-trip, update-trip, create-activity, create-invite, confirm-trip); each keeps the database valid and extends it: trips remain and a confirmed trip stays confirmed, existing participants and activities are untouched, mail is only appended |
| Lifecycle.RunExtends | Backend/src/routes/confirm-trip.ts:39-50 | the same over any sequence of requests: no path sets `is_confirmed` back to false and nothing is removed |
| Store.TripStore.CreateTrip | Backend/src/routes/create-trip.ts:19-42 | the store's new state and answer are those of `CreateTripRoute.CreateTrip` on its old state; the store stays valid |
| Store.TripStore.UpdateTrip | Backend/src/routes/update-trip.ts:22-57 | the store's new state and answer are those of `UpdateTripRoute.UpdateTrip` on its old state; the store stays valid |
| Store.TripStore.CreateActivity | Backend/src/routes/create-activity.ts:21-54 | the store's new state and answer are those of `CreateActivityRoute.CreateActivity` on its old state; the store stays valid |
| Store.TripStore.CreateInvite | Backend/src/routes/create-invite.ts:22-77 | the store's new state and answer are those of `CreateInviteRoute.CreateInvite` on its old state; the store stays valid |
| Store.TripStore.ConfirmTrip | Backend/src/routes/confirm-trip.ts:19-87 | the store's new state and answer are those of `ConfirmTripRoute.ConfirmTrip` on its old state; the store stays valid |
| Store.TripStore.SendConfirmations | Backend/src/routes/confirm-trip.ts:57-84 | runs only once the trip is confirmed (the flag is set before any mail); appends exactly the fan-out's mails, one per listed participant in list order, and changes nothing else |

## Left out

- HTTP routing, Fastify reply objects and the literal URLs: a redirect is the value `Redirect(tripId)`, and a link is the pair of ids it embeds.
- create-trip's `statusCode: 200` field: only the trip and its id are returned.
- Request-schema validation: a destination or title of at least 4 UTF-16 code units and a well-formed email are preconditions. UUID parsing is left out. The email format is approximated by `ValidEmail` (a non-empty local part, `@`, a non-empty domain).
- Generated UUIDs: ids come from a counter, so a fresh id is one never issued before.
- The database engine: tables are maps, and the participant lookup with its `is_owner = false` filter returns rows in increasing id order. The engine's real order is unspecified.
- Mail subjects, HTML bodies, sender address, the locale date formatting, `getTestMessageUrl` and `console.log`: a mail is its recipient and its link.
- CreateInviteRoute.CreateInvite: a failing mail send is not modelled. The handler inserts the participant before it obtains the mail client and sends the mail. If the send throws, the request fails, the new participant row stays and no mail is queued. The model always queues the mail and answers `Ok`. The same holds for Store.TripStore.CreateInvite.
- Store.TripStore.SendConfirmations: the concurrent `Promise.all` fan-out is a sequential loop, and send failures and their interleavings are not modelled.
- Concurrent requests, for example two confirmations racing on one trip: handlers run one at a time.
- Schema defaults for columns the handlers do not set: they are the constant `Db.defaults`, with no value assumed.
- Operations the broader design describes but no modelled handler implements: owner and invitee creation inside create-trip, per-participant confirmation, listing participants, cascading deletes.
- Backend/src/server.ts: process start-up and a hello-world route.
