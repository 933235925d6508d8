# Seminar membership engine — a Dafny model

This project models the server side of a seminar booking service (Next.js API routes over a
document store). Three roles use it:

- **agents** create seminars and invite attendees by email;
- **attendees** accept or decline invitations, or register directly, and list their
  invitations and confirmed seminars;
- **admins** create further admins.

The model keeps two collections:

- **seminars**: a map from id to a document with `capacity`, `agentId` and three id lists,
  `attendees`, `invitees` and `confirmedAttendees`. Each list may be absent from a stored
  document.
- **users**: a sequence in natural order, so that `findOne` finds the first match.

Each route handler is a pure `Handle` function over that state, returning the response
together with the new state. Each route that writes also gets a `method` over a `Database`
object. The method applies the same driver calls step by step (`findOne`, `updateOne`,
`insertOne`) and is proved to yield exactly the outcome `Handle` describes. The `withAuth`
role gate is the `Auth.Authorize` decision, and each route's `Route` function puts it in front
of the handler.

Modules and files:

- `common.dfy`, `http.dfy`: optional values, roles, statuses, requests and responses, and
  session tokens.
- `array_ops.dfy`: the update operators `$addToSet`, `$addToSet`+`$each`, `$pull` and `$push`.
- `seminar_model.dfy`, `user_model.dfy`: the documents and the two model-class constructors.
- `auth.dfy`: the role gate.
- `store.dfy`: the update operators applied to seminar fields, the queries, and the
  `Database` class.
- One file per route, plus `invitation_form.dfy` for the client-side parsing of the invitee
  email list.
- `scenarios.dfy`: properties that span several routes.

Some behaviour of the routes that is easy to miss:

- Seminar creation validates nothing; the fields are stored as received
  (app/api/seminars/route.ts:33-43).
- Direct registration never consults `invitees`, so it has no "not invited" refusal
  (app/api/seminars/register/route.ts:36-53).
- Signup ignores any `role` in the body and answers 200 (app/api/signup/route.ts:10,30,35).

Some further facts the proofs establish about the code as written:

- In `app/api/seminars/rsvp/route.ts`, the "RSVP failed" answer cannot occur within one
  request. The caller was just found in `invitees`, and every update pulls it from there.
- A seminar created through `POST /api/seminars` has no `invitees` field. An RSVP to it
  therefore fails with 500 until someone sends invitations.
- In `app/api/invitations/rsvp/route.ts`, the capacity check lets a seminar without an
  `attendees` array accept an invitee even at capacity 0
  (`InvitationsRsvp.AbsentAttendeesExceedCapacity`).

## Model

| member | source | states |
|---|---|---|
| ArrayOps.AddToSet | app/api/seminars/rsvp/route.ts:50 | `$addToSet`: the result holds the old values and the new one; the value occurs once if it was absent; other counts and the old prefix are kept |
| ArrayOps.Pull | app/api/seminars/rsvp/route.ts:51 | `$pull`: every occurrence of the value is removed and all other values keep their multiplicity; the array is unchanged when the value is absent and strictly shorter when present |
| ArrayOps.AddEachToSet | app/api/invitations/send/route.ts:30 | `$addToSet` with `$each`: the result is the set union, extending the old array, with old counts kept and each new value once |
| ArrayOps.AddToSetField | app/api/invitations/rsvp/route.ts:43 | `$addToSet` on a possibly absent field (treated as empty): the old array followed by the value once if it was new; no other count changes |
| ArrayOps.AddEachToSetField | app/api/invitations/send/route.ts:30 | `$addToSet $each` on a possibly absent field (treated as empty): the old array extended, old values keep their counts, each new value occurs once, nothing else is added |
| ArrayOps.PullField | app/api/invitations/rsvp/route.ts:44 | `$pull` on a possibly absent field: an absent field stays absent; a present one loses exactly the value |
| ArrayOps.PushField | app/api/seminars/register/route.ts:52 | `$push`: one element longer, ending with the value, multiset grows by the value |
| ArrayOps.AddEachToSetAbsorbed | app/api/invitations/send/route.ts:30 | adding values that are all present leaves the array unchanged |
| ArrayOps.AddEachToSetIdempotent | app/api/invitations/send/route.ts:30 | `$addToSet $each` with the same list twice equals once |
| SeminarModel.NewSeminar | app/models/Seminar.ts:31-41 | a supplied truthy id is used, else the generated one; absent lists default to empty, supplied lists are kept; the descriptive fields and agentId are copied |
| UserModel.Hash | app/api/signup/route.ts:27 | the hash is made with 10 rounds and the password checks against it |
| UserModel.NewUser | app/models/User.js:5-11 | a supplied id is used, else the generated one; the role defaults to attendee when absent or empty, a non-empty role is kept; name, email, password copied |
| Auth.Verify | middleware/authMiddleware.ts:18 | the payload is returned exactly when the token decodes (base64url), is signed with the secret and has not expired (a token dated in the future is accepted); it may verify while the handlers' `atob` decoding fails |
| Http.Decode | app/api/seminars/rsvp/route.ts:19-25 | the handlers' `JSON.parse(atob(...))` yields the payload exactly when it parses and the segment is plain base64 (no '-' or '_'); the signature and expiry are not checked |
| Auth.Authorize | middleware/authMiddleware.ts:11-27 | no cookie gives 401 "Not authenticated"; a failed verification 401 "Invalid token"; 403 only after verification, for a role outside a non-empty list; admission iff verified and role allowed, with the verified claims |
| Auth.WithAuthDelegates | middleware/authMiddleware.ts:20-24 | an admitted request gets exactly the handler's answer on the unchanged request; a refused one gets 401/403 whatever the handler |
| Auth.EmptyRoleListAdmitsVerified | middleware/authMiddleware.ts:8-20 | with the default empty role list every verified token is admitted |
| Store.FindByEmail | app/api/login/route.ts:17 | `findOne({ email })`: a found user is stored and has the email, and no earlier user has it; none found means no user has it |
| Store.Matching | app/api/invitations/send/route.ts:24 | `find({ email: { $in }, role })`: exactly the users with a listed email and the role |
| Store.Ids | app/api/invitations/send/route.ts:25 | the ids of the users, position by position; an id is present iff some user has it |
| Store.FindMember | app/api/attendee/invitations/route.ts:15-18 | a listing keyed by stored ids, each entry the title/date/time projection |
| Store.AddRegistered | app/api/seminars/rsvp/route.ts:59-62 | the users update keeps length, ids and emails |
| Store.AddRegisteredEffect | app/api/seminars/rsvp/route.ts:59-62 | only the user with the id changes, only in `registeredSeminars`, which then holds the seminar (once, if new) |
| Store.InsertKeepsUnique | app/api/signup/route.ts:21-33 | appending a user with an unused email and id keeps emails and ids unique |
| Store.FindAppended | app/api/signup/route.ts:21-33 | after appending a user with a new email, `findOne` by that email finds that user |
| Store.Database.FindSeminar | app/api/seminars/rsvp/route.ts:32 | found iff stored, and then the stored document |
| Store.Database.AllSeminars | app/api/seminars/route.ts:55 | all stored seminars |
| Store.Database.InsertSeminar | app/api/seminars/route.ts:45 | adds exactly the document under the new id, users untouched |
| Store.Database.UpdateSeminar | app/api/seminars/rsvp/route.ts:47-57 | applies the operators to the one document if present, nothing else changes; `modifiedCount` is 1 iff the document changed |
| Store.Database.FindUserByEmail | app/api/signup/route.ts:21 | a user with the email that no earlier user shares, none iff no user has it |
| Store.Database.FindUsers | app/api/invitations/send/route.ts:24 | exactly the users with a listed email and the role |
| Store.Database.InsertUser | app/api/signup/route.ts:33 | appends exactly the document, seminars untouched |
| Store.Database.AddRegisteredSeminar | app/api/seminars/rsvp/route.ts:59-62 | the users become `AddRegistered` of the old ones, seminars untouched |
| Seminars.NewDocument | app/api/seminars/route.ts:33-43 | the created document has empty `attendees`, no `invitees` or `confirmedAttendees`, the caller as agent and the body's fields unchanged |
| Seminars.Handle | app/api/seminars/route.ts:6-64 | the handler; its behaviour is stated by PostUnauthenticated, CreateEffect, GetListsAll, OtherMethodsRefused and AdmittedButUndecodable |
| Seminars.Handler | app/api/seminars/route.ts:6-64 | the driver calls yield exactly the handler outcome |
| Seminars.Serve | app/api/seminars/route.ts:66-67 | the exported GET/POST with their role gates yield exactly the route outcome |
| Seminars.PostUnauthenticated | app/api/seminars/route.ts:13-31 | POST without a token, with an undecodable one or without a user id: 401 and nothing inserted |
| Seminars.CreateEffect | app/api/seminars/route.ts:33-46 | a 201 inserts exactly one document under the new id and returns it; the stored document is `NewDocument` of the body and caller: agent is the caller, attendees empty, no invitees/confirmed, all six body fields unvalidated and unchanged; users untouched |
| Seminars.GetListsAll | app/api/seminars/route.ts:53-56 | GET returns every stored seminar and changes nothing |
| Seminars.OtherMethodsRefused | app/api/seminars/route.ts:63 | other methods get 405 from the handler and are not exported |
| Seminars.RouteRoles | app/api/seminars/route.ts:66-67 | only a verified agent's POST whose token `atob` can decode changes the store; a verified agent, attendee or admin GET gets the full list |
| Seminars.AdmittedButUndecodable | app/api/seminars/route.ts:19-25 | a POST the gate admits whose token segment holds '-' or '_' gets 401 "Invalid authentication token" and nothing is inserted |
| SeminarsRsvp.Handle | app/api/seminars/rsvp/route.ts:6-83 | the handler; its behaviour is stated by Guards, RsvpFailedUnreachable, FailureChangesNothing, AcceptEffect, DeclineEffect and KeepsCapacity |
| SeminarsRsvp.Handler | app/api/seminars/rsvp/route.ts:6-83 | the driver calls yield exactly the handler outcome |
| SeminarsRsvp.Post | app/api/seminars/rsvp/route.ts:85 | the gated route yields exactly the route outcome |
| SeminarsRsvp.AcceptUpdateEffect | app/api/seminars/rsvp/route.ts:47-53 | the accept update adds to `attendees` and `confirmedAttendees` and pulls from `invitees`, nothing else |
| SeminarsRsvp.DeclineUpdateEffect | app/api/seminars/rsvp/route.ts:66-69 | the decline update only pulls from `invitees` |
| SeminarsRsvp.Guards | app/api/seminars/rsvp/route.ts:32-78 | 404 unknown seminar; 403 not invited whatever the response; 400 full on accept; 400 invalid response; each with no change |
| SeminarsRsvp.RsvpFailedUnreachable | app/api/seminars/rsvp/route.ts:55-57 | the "RSVP failed" answer never occurs |
| SeminarsRsvp.FailureChangesNothing | app/api/seminars/rsvp/route.ts:34-81 | every non-200 answer leaves both collections unchanged |
| SeminarsRsvp.AcceptEffect | app/api/seminars/rsvp/route.ts:42-64 | a successful accept needed an invitation and room; the caller is then in attendees and in confirmedAttendees, in each once if new, and not in invitees; other members of both lists keep their counts; other fields and seminars unchanged; within capacity; seminar set-added to the caller's registrations |
| SeminarsRsvp.DeclineEffect | app/api/seminars/rsvp/route.ts:65-75 | a successful decline only pulls the caller from invitees; users untouched |
| SeminarsRsvp.KeepsCapacity | app/api/seminars/rsvp/route.ts:43-53 | `|attendees| <= capacity` for every seminar is preserved |
| SeminarsRsvp.RouteAttendeeOnly | app/api/seminars/rsvp/route.ts:85 | only a verified attendee token that `atob` can decode can change the store; a refused request changes nothing |
| SeminarsRsvp.AdmittedButUndecodable | app/api/seminars/rsvp/route.ts:19-25 | a POST the gate admits whose token segment holds '-' or '_' gets 401 "Invalid authentication token" and nothing changes |
| InvitationsRsvp.Handle | app/api/invitations/rsvp/route.ts:6-73 | the handler for a given `req.user`; its behaviour is stated by AsWrittenAlwaysFails, Guards, AcceptEffect, DeclineEffect and KeepsCapacity |
| InvitationsRsvp.Handler | app/api/invitations/rsvp/route.ts:6-73 | the driver calls yield exactly the handler outcome for the given `req.user` |
| InvitationsRsvp.Post | app/api/invitations/rsvp/route.ts:75 | the gated route, payload supplied, yields exactly the route outcome |
| InvitationsRsvp.AsWrittenAlwaysFails | app/api/invitations/rsvp/route.ts:18 | as written, every admitted request gets 500 and nothing changes |
| InvitationsRsvp.AcceptUpdateEffect | app/api/invitations/rsvp/route.ts:40-46 | the accept update adds to attendees and pulls from invitees, nothing else |
| InvitationsRsvp.DeclineUpdateEffect | app/api/invitations/rsvp/route.ts:57-60 | the decline update only pulls from invitees |
| InvitationsRsvp.Guards | app/api/invitations/rsvp/route.ts:22-68 | 404 unknown; 403 not invited; accept refused as full iff attendees exists and reaches capacity; 400 invalid response |
| InvitationsRsvp.AcceptEffect | app/api/invitations/rsvp/route.ts:34-55 | a successful accept: attendees is the old array with the caller once if new and every other count kept; caller out of invitees; confirmedAttendees and other fields untouched; seminar set-added to the caller's registrations |
| InvitationsRsvp.DeclineEffect | app/api/invitations/rsvp/route.ts:56-64 | decline by an invitee always succeeds and only pulls it from invitees |
| InvitationsRsvp.KeepsCapacity | app/api/invitations/rsvp/route.ts:35-46 | the capacity bound is kept for seminars with an attendees array or capacity at least 1 |
| InvitationsRsvp.AbsentAttendeesExceedCapacity | app/api/invitations/rsvp/route.ts:35 | a seminar without attendees and capacity 0 accepts an invitee and ends over capacity |
| InvitationsRsvp.RouteAttendeeOnly | app/api/invitations/rsvp/route.ts:75 | only a verified attendee token can change the store |
| InvitationsRsvp.InvitedAttendeeCanAccept | app/api/invitations/rsvp/route.ts:29-55 | with the payload supplied, an invited attendee of a seminar with room gets 200 and moves from invitees to attendees |
| SeminarsRegister.Handle | app/api/seminars/register/route.ts:6-60 | the handler; its behaviour is stated by UnauthenticatedIgnoresStore, Guards, RegisterEffect, KeepsCapacity and InviteesNotConsulted |
| SeminarsRegister.Handler | app/api/seminars/register/route.ts:6-60 | the driver calls yield exactly the handler outcome |
| SeminarsRegister.Post | app/api/seminars/register/route.ts:62 | the gated route yields exactly the route outcome |
| SeminarsRegister.PushEffect | app/api/seminars/register/route.ts:50-53 | the update appends the caller to attendees and changes nothing else |
| SeminarsRegister.UnauthenticatedIgnoresStore | app/api/seminars/register/route.ts:7-31 | wrong method or missing/undecodable token or user id: 405/401 independent of the store, store unchanged |
| SeminarsRegister.Guards | app/api/seminars/register/route.ts:36-48 | 404 unknown; 400 full checked before 400 already registered; no change |
| SeminarsRegister.RegisterEffect | app/api/seminars/register/route.ts:42-55 | success appends the new caller: attendees grow by one, caller exactly once, within capacity, invitees/confirmed/other seminars/users unchanged |
| SeminarsRegister.KeepsCapacity | app/api/seminars/register/route.ts:42-53 | `|attendees| <= capacity` is preserved |
| SeminarsRegister.InviteesNotConsulted | app/api/seminars/register/route.ts:36-55 | the answer does not depend on invitees |
| SeminarsRegister.RouteAttendeeOnly | app/api/seminars/register/route.ts:62 | only a verified attendee token that `atob` can decode can change the store |
| SeminarsRegister.AdmittedButUndecodable | app/api/seminars/register/route.ts:19-25 | a POST the gate admits whose token segment holds '-' or '_' gets 401 "Invalid authentication token" and nothing changes |
| InvitationsSend.ResolveAttendees | app/api/invitations/send/route.ts:24-25 | exactly the ids of attendee-role users whose email is listed |
| InvitationsSend.Handle | app/api/invitations/send/route.ts:6-38 | the handler; its behaviour is stated by UnknownSeminar, SendEffect and SendIdempotent |
| InvitationsSend.Handler | app/api/invitations/send/route.ts:6-38 | the driver calls yield exactly the handler outcome |
| InvitationsSend.Post | app/api/invitations/send/route.ts:40 | the gated route yields exactly the route outcome |
| InvitationsSend.SendUpdateEffect | app/api/invitations/send/route.ts:28-31 | the update only set-adds the ids to invitees |
| InvitationsSend.UnknownSeminar | app/api/invitations/send/route.ts:18-21 | unknown seminar: 404 and no change |
| InvitationsSend.SendEffect | app/api/invitations/send/route.ts:28-33 | always 200 for a known seminar; new invitees extends the old list, old invitees keep their counts, each newly resolved id occurs once and nothing else is added; everything else unchanged |
| InvitationsSend.SendIdempotent | app/api/invitations/send/route.ts:30 | sending the same request twice equals sending it once |
| InvitationsSend.RouteAgentOnly | app/api/invitations/send/route.ts:40 | only a verified agent token can change the store |
| AttendeeInvitations.Handle | app/api/attendee/invitations/route.ts:5-25 | the handler for a given `req.user`; its behaviour is stated by NonGetRefused, AsWrittenAlwaysFails and ListsExactlyInvitations |
| AttendeeInvitations.NonGetRefused | app/api/attendee/invitations/route.ts:6-8 | non-GET gets 405 |
| AttendeeInvitations.AsWrittenAlwaysFails | app/api/attendee/invitations/route.ts:13 | as written, every admitted request gets 500 |
| AttendeeInvitations.ListsExactlyInvitations | app/api/attendee/invitations/route.ts:15-18 | a verified attendee gets exactly the seminars whose invitees hold their id, projected to title, date, time |
| AttendeeInvitations.RouteAttendeeOnly | app/api/attendee/invitations/route.ts:27 | 200 only for a verified attendee; otherwise 401/403/405 |
| ConfirmedSeminars.Handle | app/api/attendee/confirmed-seminars/route.ts:5-25 | the handler for a given `req.user`; its behaviour is stated by NonGetRefused, AsWrittenAlwaysFails, ListsExactlyAttended and ConfirmedAttendeesNotConsulted |
| ConfirmedSeminars.NonGetRefused | app/api/attendee/confirmed-seminars/route.ts:6-8 | non-GET gets 405 |
| ConfirmedSeminars.AsWrittenAlwaysFails | app/api/attendee/confirmed-seminars/route.ts:13 | as written, every admitted request gets 500 |
| ConfirmedSeminars.ListsExactlyAttended | app/api/attendee/confirmed-seminars/route.ts:15-18 | a verified attendee gets exactly the seminars whose attendees hold their id, projected to title, date, time |
| ConfirmedSeminars.ConfirmedAttendeesNotConsulted | app/api/attendee/confirmed-seminars/route.ts:15-18 | the listing does not depend on confirmedAttendees |
| ConfirmedSeminars.RouteAttendeeOnly | app/api/attendee/confirmed-seminars/route.ts:27 | 200 only for a verified attendee; otherwise 401/403/405 |
| Signup.Handle | app/api/signup/route.ts:8-40 | the handler; its behaviour is stated by IncompleteRejected, DuplicateRejected, SignupEffect and KeepsUnique |
| Signup.Post | app/api/signup/route.ts:8-40 | the driver calls yield exactly the route outcome |
| Signup.IncompleteRejected | app/api/signup/route.ts:12-14 | a missing name, email or password: 400 and no change |
| Signup.DuplicateRejected | app/api/signup/route.ts:21-24 | an email on file: 400 and nothing inserted |
| Signup.SignupEffect | app/api/signup/route.ts:26-35 | success appends exactly one attendee with the new id, the name and email, and a hash the password checks against; 200 with the id; seminars untouched |
| Signup.KeepsUnique | app/api/signup/route.ts:21-33 | email (and id) uniqueness is preserved |
| AdminCreate.AdminCode | app/api/admin/create/route.ts:6 | the configured code if set and non-empty, else the default; never empty |
| AdminCreate.Handle | app/api/admin/create/route.ts:8-48 | the handler; its behaviour is stated by EarlyGuards, DuplicateRejected, CreateEffect and KeepsUnique |
| AdminCreate.Handler | app/api/admin/create/route.ts:8-48 | the driver calls yield exactly the handler outcome |
| AdminCreate.Post | app/api/admin/create/route.ts:50 | the gated route yields exactly the route outcome |
| AdminCreate.EarlyGuards | app/api/admin/create/route.ts:9-22 | 405, then 400 for a missing field, then 403 for a wrong code, all independent of the store and changing nothing |
| AdminCreate.DuplicateRejected | app/api/admin/create/route.ts:28-31 | an email on file: 400 and nothing inserted |
| AdminCreate.CreateEffect | app/api/admin/create/route.ts:33-43 | 201 means the right code, a new email, and exactly one appended admin with a hashed password |
| AdminCreate.KeepsUnique | app/api/admin/create/route.ts:28-43 | email (and id) uniqueness is preserved |
| AdminCreate.RouteAdminOnly | app/api/admin/create/route.ts:50 | only a verified admin token can add a user |
| Login.Handle | app/api/login/route.ts:8-58 | the handler; its behaviour is stated by IncompleteRejected, SameAnswerForUnknownAndWrong, SuccessIssuesSession, TokenLifetime and ReadsUsersOnly |
| Login.IssueToken | app/api/login/route.ts:31-36 | the token verifies to the user's id, email, name and role and lives 3600 s; the handlers can decode it exactly when its segment is plain base64 |
| Login.IncompleteRejected | app/api/login/route.ts:12-14 | a missing email or password: 400, no cookie |
| Login.SameAnswerForUnknownAndWrong | app/api/login/route.ts:17-28 | unknown email and wrong password get the identical 401 "Invalid credentials" |
| Login.SuccessIssuesSession | app/api/login/route.ts:31-51 | success iff fields given, user found and password checks; then role/name/email returned and an http-only strict `token` cookie with maxAge 3600 holding a verifying token the gate admits for that role, which the handlers' `atob` decodes exactly when its segment is plain base64 |
| Login.TokenLifetime | app/api/login/route.ts:36 | the token verifies iff it is less than 3600 s old; afterwards the gate answers 401 "Invalid token" |
| Login.ReadsUsersOnly | app/api/login/route.ts:17 | the answer does not depend on the seminars |
| InvitationFormModel.Split | app/components/InvitationForm.tsx:13 | at least one piece, none containing a comma |
| InvitationFormModel.TrimStart | app/components/InvitationForm.tsx:13 | a suffix after removed white space, not starting with white space |
| InvitationFormModel.TrimEnd | app/components/InvitationForm.tsx:13 | a prefix before removed white space, not ending with white space |
| InvitationFormModel.Trim | app/components/InvitationForm.tsx:13 | a contiguous piece with only white space cut on both sides, starting and ending with non-white space |
| InvitationFormModel.ParseEmailList | app/components/InvitationForm.tsx:13 | entries = commas + 1, in order, each the trimmed piece, comma-free and neither starting nor ending with white space |
| InvitationFormModel.JoinSplit | app/components/InvitationForm.tsx:13 | joining the pieces with commas gives the input back: pieces are the segments in order |
| InvitationFormModel.SplitJoin | app/components/InvitationForm.tsx:13 | splitting comma-joined comma-free pieces gives them back |
| InvitationFormModel.SplitCount | app/components/InvitationForm.tsx:13 | the number of pieces is the number of commas plus one, empty pieces included |
| InvitationFormModel.TrimIdempotent | app/components/InvitationForm.tsx:13 | trimming twice is trimming once |
| InvitationFormModel.ParseJoined | app/components/InvitationForm.tsx:13 | a list of trimmed comma-free addresses typed comma-joined parses back to itself |
| InvitationFormModel.InvitationForm.Edit | app/components/InvitationForm.tsx:22 | the text field holds the typed value |
| InvitationFormModel.InvitationForm.HandleSubmit | app/components/InvitationForm.tsx:11-16 | hands on the seminar id unchanged and the parsed list, then clears the text field |
| Scenarios.CreatedSeminarRefusesRsvp | app/api/seminars/route.ts:33-43 | an RSVP to a just-created seminar gets 500 on both RSVP routes; through the model class it would get 403 |
| Scenarios.InviteThenAccept | app/api/invitations/send/route.ts:24-31 | after an invitation listing their email, the seminar is in the invitations query for the attendee; their accept on a seminar with room succeeds and moves it to the confirmed-seminars query; the corrected listing routes answer with these queries, the routes as written answer the same session 500 |
| Scenarios.SignupLoginList | app/api/signup/route.ts:30-35 | a fresh signup can log in with its credentials as an attendee; with that session the corrected confirmed-seminars route lists exactly the seminars it attends, the route as written answers 500 |
| Scenarios.UndecodableSessionRefusedByRsvp | app/api/seminars/rsvp/route.ts:19-25 | an attendee session whose token segment holds '-' or '_' passes the RSVP gate and still gets 401 "Invalid authentication token", with no change |

## Left out

- Request bodies are modelled already parsed, with fixed property types. A body that is not JSON is not modelled; the route's catch would answer it with 500. So is a property of an unexpected type, such as a non-numeric `capacity` or a non-string email.
- ObjectId construction is not modelled; ids are opaque strings. Malformed ids therefore do not throw:
  - `new ObjectId(seminarId)` and `new ObjectId(agentId)` would throw and answer 500.
  - At app/api/seminars/rsvp/route.ts:60, `new ObjectId(attendeeId)` would throw only after the seminar update. That would leave the seminar updated and the answer 500.
  - The difference between an ObjectId and its string form is not modelled (`agentId`, `registeredSeminars`).
- Store connection and driver failures are not modelled; each route's catch answers them with 500. The TypeErrors on absent arrays and on the missing `req.user` are modelled.
- The three database handles are modelled as one store. Signup names its database with a default, admin create without one, and the other routes use the shared handle.
- `createdAt` timestamps are left out. Token age is a parameter of the token, not a clock.
- JWT signing and base64/JSON payload encoding are abstract (`Token`, `Decode`, `Verify`). Whether a token's payload segment holds '-' or '_', so that the handlers' `atob` rejects it, is the token's `plainBase64` flag; at login it is an input of `Login.Handle`, since it depends on the encoded name, email and issue time.
- bcrypt is abstract (`Credential`, `Hash`, `Compare`), including its salt.
- UserModel.Compare: exact equality of passwords; bcrypt's truncation of a password at 72 bytes, under which two passwords sharing their first 72 bytes both match, is not modelled.
- Auth.Verify: checks only the signature and the expiry window; the library's other claims (`nbf`, audience, issuer, algorithm) are not modelled, as the tokens issued here carry none of them.
- SeminarsRsvp.KeepsCapacity, SeminarsRegister.KeepsCapacity, InvitationsRsvp.KeepsCapacity: these hold for integer capacities only, because `capacity` is modelled as an integer. The routes store whatever JSON number the body carries (app/api/seminars/route.ts:12,38). With a fractional capacity the guard `attendees.length >= capacity` lets the count pass it: at capacity 2.5 with two attendees, a third is admitted. The agent's form sends integers (`parseInt`).
- An empty `token` cookie value is folded into "no cookie", which every check treats alike.
- Each request runs atomically. The read-then-write gap between the capacity check and the update is not modelled, so nothing is claimed about concurrent requests.
- Listings are maps keyed by id, so the order of `find()` results is not modelled.
- Not modelled: the `details` field of the 500 body at app/api/invitations/rsvp/route.ts:71, console logging, and the response headers other than the login cookie.
- `registeredSeminars`, absent from a new user document, is written `[]`.
- An undefined `userId` in a listing query is taken to match documents that lack the field, as the driver sends `undefined` as `null`.
- InvitationFormModel.InvitationForm: rendering and the `onSendInvitations` callback are not modelled, beyond the arguments `HandleSubmit` hands to it.
- InvitationsRsvp.KeepsCapacity: stated only for seminars that have an `attendees` array or a capacity of at least 1, because the route lets the remaining case exceed capacity (`InvitationsRsvp.AbsentAttendeesExceedCapacity`).

## Findings

| source | as written | input that shows it | evidently intended | confidence | as-written member | corrected member |
|---|---|---|---|---|---|---|
| app/api/invitations/rsvp/route.ts:18 | reads `req.user.userId`, but `withAuth` (middleware/authMiddleware.ts:24) passes the request on without setting `user`, so the read throws | any POST with a verified attendee token and a valid body | the caller is the verified token's user id | not executed | InvitationsRsvp.AsWrittenAlwaysFails | InvitationsRsvp.InvitedAttendeeCanAccept |
| app/api/attendee/invitations/route.ts:13 | reads `req.user.userId`, which `withAuth` never sets, so every admitted GET gets 500 | any GET with a verified attendee token | lists the seminars inviting the verified caller | not executed | AttendeeInvitations.AsWrittenAlwaysFails | AttendeeInvitations.ListsExactlyInvitations |
| app/api/attendee/confirmed-seminars/route.ts:13 | reads `req.user.userId`, which `withAuth` never sets, so every admitted GET gets 500 | any GET with a verified attendee token | lists the seminars the verified caller attends | not executed | ConfirmedSeminars.AsWrittenAlwaysFails | ConfirmedSeminars.ListsExactlyAttended |
