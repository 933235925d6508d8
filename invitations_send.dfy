/**
 * POST /api/invitations/send (app/api/invitations/send/route.ts): an agent invites users by
 * email. The emails are resolved to the ids of attendee-role users (other emails are dropped
 * without a word) and those ids are set-added to the seminar's `invitees` in one update.
 */
module InvitationsSend {
  import opened Common
  import ArrayOps
  import opened SeminarModel
  import opened UserModel
  import opened Http
  import opened Auth
  import opened Store

  datatype SendBody = SendBody(seminarId: Id, attendeeEmails: seq<string>)

  const ROLES: seq<string> := [AGENT]

  const SENT: string := "Invitations sent successfully"

  /**
   * `find({ email: { $in: emails }, role: 'attendee' })` followed by `map(_id.toString())`:
   * the ids of exactly the attendee-role users whose email is listed, in collection order.
   */
  function ResolveAttendees(users: seq<User>, emails: seq<string>): (ids: seq<Id>)
    ensures forall id :: id in ids <==> exists u :: u in users && u.email in emails && u.role == ATTENDEE && u.id == id
    ensures |ids| <= |users|
  {
    Ids(Matching(users, emails, ATTENDEE))
  }

  function Handle(db: Db, req: Request<SendBody>): Outcome {
    if req.verb != POST then Outcome(Fail(MethodNotAllowed, METHOD_NOT_ALLOWED), db)
    else
      var id := req.body.seminarId;
      if id !in db.seminars then Outcome(Fail(NotFound, SEMINAR_NOT_FOUND), db)
      else
        var ids := ResolveAttendees(db.users, req.body.attendeeEmails);
        var updated := ApplyAll(db.seminars[id], [AddEachToSetOf(Invitees, ids)]);
        Outcome(Response(OK, Message(SENT)), db.(seminars := db.seminars[id := updated]))
  }

  /** The exported POST: `withAuth(handler, ['agent'])`. */
  function Route(db: Db, req: Request<SendBody>): Outcome {
    if req.verb != POST then Outcome(NOT_EXPORTED, db)
    else match Authorize(req.cookie, ROLES)
      case Deny(r) => Outcome(r, db)
      case Admit(_) => Handle(db, req)
  }

  method Handler(db: Database, req: Request<SendBody>) returns (resp: Response)
    modifies db
    ensures Outcome(resp, db.State()) == Handle(old(db.State()), req)
  {
    if req.verb != POST {
      return Fail(MethodNotAllowed, METHOD_NOT_ALLOWED);
    }
    var found := db.FindSeminar(req.body.seminarId);
    if found.None? {
      return Fail(NotFound, SEMINAR_NOT_FOUND);
    }
    var attendees := db.FindUsers(req.body.attendeeEmails, ATTENDEE);
    var attendeeIds := Ids(attendees);
    var _ := db.UpdateSeminar(req.body.seminarId, [AddEachToSetOf(Invitees, attendeeIds)]);
    return Response(OK, Message(SENT));
  }

  method Post(db: Database, req: Request<SendBody>) returns (resp: Response)
    modifies db
    ensures Outcome(resp, db.State()) == Route(old(db.State()), req)
  {
    if req.verb != POST {
      return NOT_EXPORTED;
    }
    var gate := Authorize(req.cookie, ROLES);
    if gate.Deny? {
      return gate.response;
    }
    resp := Handler(db, req);
  }

  // ---------------------------------------------------------------------------------------
  // Properties

  lemma {:induction false} SendUpdateEffect(s: Seminar, ids: seq<Id>)
    ensures ApplyAll(s, [AddEachToSetOf(Invitees, ids)]) == s.(invitees := Some(ArrayOps.AddEachToSetField(s.invitees, ids)))
  {
    var u := [AddEachToSetOf(Invitees, ids)];
    assert u[1..] == [];
    assert ApplyAll(s, u) == ApplyAll(Apply(s, u[0]), u[1..]);
  }

  /** An unknown seminar gives 404 and changes nothing. */
  lemma UnknownSeminar(db: Db, req: Request<SendBody>)
    requires req.verb == POST && req.body.seminarId !in db.seminars
    ensures Handle(db, req) == Outcome(Fail(NotFound, SEMINAR_NOT_FOUND), db)
  {
  }

  /**
   * Sending always reports success for a known seminar, even when no email resolves. The new
   * `invitees` is the old list (an absent one counts as empty) followed by the resolved ids
   * not yet in it, each once: old invitees keep their counts, every newly resolved id occurs
   * exactly once and nothing else is added. `attendees`, `confirmedAttendees`, every other
   * field and seminar, and the users are unchanged.
   */
  lemma SendEffect(db: Db, req: Request<SendBody>)
    requires req.verb == POST && req.body.seminarId in db.seminars
    ensures var id := req.body.seminarId; var s := db.seminars[id];
      var ids := ResolveAttendees(db.users, req.body.attendeeEmails);
      var out := Handle(db, req);
      && out.response == Response(OK, Message(SENT))
      && id in out.db.seminars
      && var s' := out.db.seminars[id];
      && s'.invitees.Some?
      && s.invitees.GetOr([]) <= s'.invitees.value
      && (forall x :: x in s'.invitees.value <==> x in s.invitees.GetOr([]) || x in ids)
      && (forall x :: x in s.invitees.GetOr([]) ==> multiset(s'.invitees.value)[x] == multiset(s.invitees.GetOr([]))[x])
      && (forall x :: x !in s.invitees.GetOr([]) && x in ids ==> multiset(s'.invitees.value)[x] == 1)
      && s' == s.(invitees := s'.invitees)
      && out.db.seminars == db.seminars[id := s']
      && out.db.users == db.users
  {
    SendUpdateEffect(db.seminars[req.body.seminarId], ResolveAttendees(db.users, req.body.attendeeEmails));
  }

  /** Sending the same list twice leaves the store as sending it once. */
  lemma SendIdempotent(db: Db, req: Request<SendBody>)
    ensures Handle(Handle(db, req).db, req) == Handle(db, req)
  {
    if req.verb == POST && req.body.seminarId in db.seminars {
      var id := req.body.seminarId;
      var s := db.seminars[id];
      var ids := ResolveAttendees(db.users, req.body.attendeeEmails);
      var once := Handle(db, req).db;
      SendUpdateEffect(s, ids);
      var s1 := once.seminars[id];
      SendUpdateEffect(s1, ids);
      ArrayOps.AddEachToSetIdempotent(s.invitees.GetOr([]), ids);
      assert once.seminars[id := s1] == once.seminars;
    }
  }

  /** Through the route, only a verified agent token can change the store. */
  lemma RouteAgentOnly(db: Db, req: Request<SendBody>)
    ensures Route(db, req).db != db ==>
              req.cookie.Some? && Verify(req.cookie.value).Some? && Verify(req.cookie.value).value.role == Some(AGENT)
  {
  }
}
