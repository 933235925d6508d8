/**
 * Properties that span several routes: what happens to a seminar created through the API
 * when it is RSVPed to, the invite-then-accept path, and a session opened by signup and
 * login used on a gated route.
 */
module Scenarios {
  import opened Common
  import opened SeminarModel
  import opened UserModel
  import opened Http
  import opened Auth
  import opened Store
  import Seminars
  import SeminarsRsvp
  import InvitationsRsvp
  import InvitationsSend
  import ConfirmedSeminars
  import AttendeeInvitations
  import Signup
  import Login

  /**
   * A seminar created through POST /api/seminars has no `invitees` field, so an RSVP to it
   * through either RSVP route fails with 500 and changes nothing, whoever sends it. Had the
   * document been built by the model class, whose lists default to empty, the same RSVP
   * would have been refused with 403.
   */
  lemma CreatedSeminarRefusesRsvp(db: Db, create: Request<Seminars.CreateBody>, newId: Id,
                                  rsvp: Request<SeminarsRsvp.RsvpBody>, claims: Claims)
    requires newId !in db.seminars
    requires Seminars.Handle(db, create, newId).response.status == Created
    requires SeminarsRsvp.Authenticated(rsvp) && rsvp.body.seminarId == newId
    ensures var db1 := Seminars.Handle(db, create, newId).db;
      SeminarsRsvp.Handle(db1, rsvp) == Outcome(Fail(ServerError, SeminarsRsvp.PROCESSING_FAILED), db1)
    ensures var db1 := Seminars.Handle(db, create, newId).db;
      var req := Request(POST, rsvp.cookie, InvitationsRsvp.RsvpBody(newId, rsvp.body.response));
      InvitationsRsvp.Handle(db1, req, Some(claims)) == Outcome(Fail(ServerError, InvitationsRsvp.PROCESSING_FAILED), db1)
    ensures var db1 := Seminars.Handle(db, create, newId).db;
      var s := db1.seminars[newId];
      var data := SeminarData(None, s.title, s.date, s.time, s.description, s.capacity, s.price, s.agentId,
                              None, None, None);
      var db2 := db1.(seminars := db1.seminars[newId := NewSeminar(data, newId).1]);
      SeminarsRsvp.Handle(db2, rsvp) == Outcome(Fail(Forbidden, SeminarsRsvp.NOT_INVITED), db2)
  {
    Seminars.CreateEffect(db, create, newId);
  }

  /**
   * Invite, then accept: once an agent has sent an invitation listing an attendee's email, the
   * seminar is among those the invitations query (`invitees` holds the caller) selects, and the
   * attendee's accept succeeds if the seminar has room. The seminar then lists them among its
   * attendees and no longer among its invitees, so it moves from the invitations query to the
   * confirmed-seminars query (`attendees` holds the caller).
   *
   * Through the listing routes this holds only for the corrected `Route`s, which hand the
   * verified payload to the handler: with the same session, both listing routes as written
   * answer 500 before and after the accept.
   */
  lemma InviteThenAccept(db: Db, send: Request<InvitationsSend.SendBody>, rsvp: Request<SeminarsRsvp.RsvpBody>, u: User)
    requires send.verb == POST && send.body.seminarId in db.seminars
    requires u in db.users && u.role == ATTENDEE && u.email in send.body.attendeeEmails
    requires SeminarsRsvp.Authenticated(rsvp) && SeminarsRsvp.Caller(rsvp) == Some(u.id)
    requires rsvp.body.seminarId == send.body.seminarId && rsvp.body.response == "accept"
    requires var s := db.seminars[send.body.seminarId]; s.attendees.Some? && |s.attendees.value| < s.capacity
    ensures var db1 := InvitationsSend.Handle(db, send).db;
      var out := SeminarsRsvp.Handle(db1, rsvp);
      var id := send.body.seminarId;
      && id in FindMember(db1.seminars, Invitees, Some(u.id))
      && out.response == Response(OK, Message(SeminarsRsvp.ACCEPTED))
      && id in FindMember(out.db.seminars, Attendees, Some(u.id))
      && id !in FindMember(out.db.seminars, Invitees, Some(u.id))
    ensures var db1 := InvitationsSend.Handle(db, send).db;
      var out := SeminarsRsvp.Handle(db1, rsvp);
      var list := Request(GET, rsvp.cookie, ());
      Authorize(rsvp.cookie, [ATTENDEE]).Admit? ==>
        && AttendeeInvitations.Route(db1, list)
           == Response(OK, SummaryList(FindMember(db1.seminars, Invitees, Some(u.id))))
        && AttendeeInvitations.Route(out.db, list)
           == Response(OK, SummaryList(FindMember(out.db.seminars, Invitees, Some(u.id))))
        && ConfirmedSeminars.Route(out.db, list)
           == Response(OK, SummaryList(FindMember(out.db.seminars, Attendees, Some(u.id))))
        && AttendeeInvitations.RouteAsWritten(db1, list) == Fail(ServerError, AttendeeInvitations.FETCH_FAILED)
        && AttendeeInvitations.RouteAsWritten(out.db, list) == Fail(ServerError, AttendeeInvitations.FETCH_FAILED)
        && ConfirmedSeminars.RouteAsWritten(out.db, list) == Fail(ServerError, ConfirmedSeminars.FETCH_FAILED)
  {
    var id := send.body.seminarId;
    InvitationsSend.SendEffect(db, send);
    var db1 := InvitationsSend.Handle(db, send).db;
    var ids := InvitationsSend.ResolveAttendees(db.users, send.body.attendeeEmails);
    assert u.id in ids;
    var s1 := db1.seminars[id];
    assert s1.attendees == db.seminars[id].attendees;
    assert Includes(s1.invitees.value, Some(u.id));
    SeminarsRsvp.RsvpFailedUnreachable(db1, rsvp);
    SeminarsRsvp.AcceptEffect(db1, rsvp);
  }

  /**
   * Sign up, log in, and list: a fresh signup can log in with the same email and password, and
   * the session it gets is an attendee's. With it, the corrected confirmed-seminars route (the
   * handler given the verified payload as `req.user`) answers with the seminars whose
   * `attendees` hold the new user's id; the route as written answers the same session 500.
   */
  lemma SignupLoginList(db: Db, body: Signup.SignupBody, newId: Id, salt: nat, development: bool, plainBase64: bool)
    requires !UserIdInUse(db.users, newId)
    requires Signup.Handle(db, body, newId, salt).response.status == OK
    ensures var db1 := Signup.Handle(db, body, newId, salt).db;
      var r := Login.Handle(db1.users, Login.LoginBody(body.email, body.password), development, plainBase64);
      && r.response.status == OK && r.response.body.role == ATTENDEE
      && r.cookie.Some?
      && var listed := ConfirmedSeminars.Route(db1, Request(GET, Some(r.cookie.value.value), ()));
      && listed.status == OK && listed.body.SummaryList?
      && (forall id :: id in listed.body.items <==>
            id in db1.seminars && db1.seminars[id].attendees.Some? && newId in db1.seminars[id].attendees.value)
      && ConfirmedSeminars.RouteAsWritten(db1, Request(GET, Some(r.cookie.value.value), ()))
         == Fail(ServerError, ConfirmedSeminars.FETCH_FAILED)
  {
    Signup.SignupEffect(db, body, newId, salt);
    var db1 := Signup.Handle(db, body, newId, salt).db;
    var user := db1.users[|db.users|];
    assert db1.users == db.users + [user];
    FindAppended(db.users, user);
    var loginBody := Login.LoginBody(body.email, body.password);
    Login.SuccessIssuesSession(db1.users, loginBody, development, plainBase64);
    var r := Login.Handle(db1.users, loginBody, development, plainBase64);
    ConfirmedSeminars.ListsExactlyAttended(db1, Request(GET, Some(r.cookie.value.value), ()), newId);
  }

  /**
   * A session whose payload segment holds '-' or '_' (which depends on the user's name and
   * email and the issue time): the gate of the RSVP route admits it, and the handler still
   * answers 401 "Invalid authentication token" to every RSVP, changing nothing.
   */
  lemma UndecodableSessionRefusedByRsvp(db: Db, email: string, password: string, development: bool,
                                        rsvp: Request<SeminarsRsvp.RsvpBody>)
    requires Login.Handle(db.users, Login.LoginBody(Some(email), Some(password)), development, false).response.status == OK
    requires FindByEmail(db.users, email).value.role == ATTENDEE
    requires rsvp.verb == POST
    requires rsvp.cookie == Some(Login.Handle(db.users, Login.LoginBody(Some(email), Some(password)), development, false).cookie.value.value)
    ensures Authorize(rsvp.cookie, SeminarsRsvp.ROLES).Admit?
    ensures SeminarsRsvp.Route(db, rsvp) == Outcome(Fail(Unauthorized, INVALID_AUTH_TOKEN), db)
  {
    Login.SuccessIssuesSession(db.users, Login.LoginBody(Some(email), Some(password)), development, false);
  }
}
