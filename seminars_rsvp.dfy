/**
 * POST /api/seminars/rsvp (app/api/seminars/rsvp/route.ts): an invited attendee accepts or
 * declines. The caller is read from the token payload without verifying it; accept moves the
 * caller from `invitees` into `attendees` and `confirmedAttendees` in one update and records
 * the seminar on the caller's user document; decline only leaves `invitees`.
 */
module SeminarsRsvp {
  import opened Common
  import ArrayOps
  import opened SeminarModel
  import opened UserModel
  import opened Http
  import opened Auth
  import opened Store

  datatype RsvpBody = RsvpBody(seminarId: Id, response: string)

  const ROLES: seq<string> := [ATTENDEE]

  const NOT_INVITED: string := "You are not invited to this seminar"
  const RSVP_FAILED: string := "RSVP failed"
  const ACCEPTED: string := "Successfully accepted invitation"
  const DECLINED: string := "Successfully declined invitation"
  const INVALID_RESPONSE: string := "Invalid RSVP response"
  const PROCESSING_FAILED: string := "Failed to process RSVP"

  /** The single update an accept sends. */
  function AcceptUpdate(attendeeId: Id): seq<ArrayUpdate> {
    [AddToSetOf(Attendees, attendeeId), AddToSetOf(ConfirmedAttendees, attendeeId), PullFrom(Invitees, attendeeId)]
  }

  /** The single update a decline sends. */
  function DeclineUpdate(attendeeId: Id): seq<ArrayUpdate> {
    [PullFrom(Invitees, attendeeId)]
  }

  /** The request passes the handler's own method and token checks; the caller is then `Caller(req)`. */
  predicate Authenticated(req: Request<RsvpBody>) {
    req.verb == POST && req.cookie.Some? && Decode(req.cookie.value).Some?
  }

  function Caller(req: Request<RsvpBody>): Option<Id>
    requires Authenticated(req)
  {
    Decode(req.cookie.value).value.userId
  }

  /**
   * The handler. A TypeError on an absent `invitees` or `attendees` array is caught and
   * answered with 500 before anything is written.
   */
  function Handle(db: Db, req: Request<RsvpBody>): Outcome {
    if req.verb != POST then Outcome(Fail(MethodNotAllowed, METHOD_NOT_ALLOWED), db)
    else if req.cookie.None? then Outcome(Fail(Unauthorized, TOKEN_MISSING), db)
    else if Decode(req.cookie.value).None? then Outcome(Fail(Unauthorized, INVALID_AUTH_TOKEN), db)
    else
      var attendeeId := Decode(req.cookie.value).value.userId;
      var id := req.body.seminarId;
      if id !in db.seminars then Outcome(Fail(NotFound, SEMINAR_NOT_FOUND), db)
      else
        var seminar := db.seminars[id];
        if seminar.invitees.None? then Outcome(Fail(ServerError, PROCESSING_FAILED), db)
        else if !Includes(seminar.invitees.value, attendeeId) then Outcome(Fail(Forbidden, NOT_INVITED), db)
        else if req.body.response == "accept" then
          if seminar.attendees.None? then Outcome(Fail(ServerError, PROCESSING_FAILED), db)
          else if |seminar.attendees.value| >= seminar.capacity then Outcome(Fail(BadRequest, SEMINAR_FULL), db)
          else
            var updated := ApplyAll(seminar, AcceptUpdate(attendeeId.value));
            var db' := db.(seminars := db.seminars[id := updated]);
            if updated == seminar then Outcome(Fail(BadRequest, RSVP_FAILED), db')
            else Outcome(Response(OK, Message(ACCEPTED)),
                         db'.(users := AddRegistered(db.users, attendeeId.value, id)))
        else if req.body.response == "decline" then
          var updated := ApplyAll(seminar, DeclineUpdate(attendeeId.value));
          var db' := db.(seminars := db.seminars[id := updated]);
          if updated == seminar then Outcome(Fail(BadRequest, RSVP_FAILED), db')
          else Outcome(Response(OK, Message(DECLINED)), db')
        else Outcome(Fail(BadRequest, INVALID_RESPONSE), db)
  }

  /** The exported POST: `withAuth(handler, ['attendee'])`; no other method is exported. */
  function Route(db: Db, req: Request<RsvpBody>): Outcome {
    if req.verb != POST then Outcome(NOT_EXPORTED, db)
    else match Authorize(req.cookie, ROLES)
      case Deny(r) => Outcome(r, db)
      case Admit(_) => Handle(db, req)
  }

  method Handler(db: Database, req: Request<RsvpBody>) returns (resp: Response)
    modifies db
    ensures Outcome(resp, db.State()) == Handle(old(db.State()), req)
  {
    if req.verb != POST {
      return Fail(MethodNotAllowed, METHOD_NOT_ALLOWED);
    }
    if req.cookie.None? {
      return Fail(Unauthorized, TOKEN_MISSING);
    }
    var decoded := Decode(req.cookie.value);
    if decoded.None? {
      return Fail(Unauthorized, INVALID_AUTH_TOKEN);
    }
    var attendeeId := decoded.value.userId;
    var found := db.FindSeminar(req.body.seminarId);
    if found.None? {
      return Fail(NotFound, SEMINAR_NOT_FOUND);
    }
    var seminar := found.value;
    if seminar.invitees.None? {
      return Fail(ServerError, PROCESSING_FAILED);
    }
    if !Includes(seminar.invitees.value, attendeeId) {
      return Fail(Forbidden, NOT_INVITED);
    }
    if req.body.response == "accept" {
      if seminar.attendees.None? {
        return Fail(ServerError, PROCESSING_FAILED);
      }
      if |seminar.attendees.value| >= seminar.capacity {
        return Fail(BadRequest, SEMINAR_FULL);
      }
      var modifiedCount := db.UpdateSeminar(req.body.seminarId, AcceptUpdate(attendeeId.value));
      if modifiedCount == 0 {
        return Fail(BadRequest, RSVP_FAILED);
      }
      db.AddRegisteredSeminar(attendeeId.value, req.body.seminarId);
      return Response(OK, Message(ACCEPTED));
    } else if req.body.response == "decline" {
      var modifiedCount := db.UpdateSeminar(req.body.seminarId, DeclineUpdate(attendeeId.value));
      if modifiedCount == 0 {
        return Fail(BadRequest, RSVP_FAILED);
      }
      return Response(OK, Message(DECLINED));
    } else {
      return Fail(BadRequest, INVALID_RESPONSE);
    }
  }

  method Post(db: Database, req: Request<RsvpBody>) returns (resp: Response)
    modifies db
    ensures Outcome(resp, db.State()) == Route(old(db.State()), req)
  {
    if req.verb != POST {
      return NOT_EXPORTED;
    }
    var gate := Authorize(req.cookie, ROLES);
    if gate.Deny? {
      return gate.response;
    }
    resp := Handler(db, req);
  }

  // ---------------------------------------------------------------------------------------
  // Properties of the handler

  /** What the accept update does to a seminar document: the three list operators, nothing else. */
  lemma {:induction false} AcceptUpdateEffect(s: Seminar, attendeeId: Id)
    ensures ApplyAll(s, AcceptUpdate(attendeeId))
            == s.(attendees := Some(ArrayOps.AddToSetField(s.attendees, attendeeId)),
                  confirmedAttendees := Some(ArrayOps.AddToSetField(s.confirmedAttendees, attendeeId)),
                  invitees := ArrayOps.PullField(s.invitees, attendeeId))
  {
    var u := AcceptUpdate(attendeeId);
    var s1 := Apply(s, u[0]);
    var s2 := Apply(s1, u[1]);
    var s3 := Apply(s2, u[2]);
    assert u[1..][1..][1..] == [];
    calc {
      ApplyAll(s, u);
      ApplyAll(s1, u[1..]);
      ApplyAll(s2, u[1..][1..]);
      ApplyAll(s3, u[1..][1..][1..]);
      s3;
    }
  }

  /** What the decline update does: it pulls the caller from `invitees` and touches nothing else. */
  lemma {:induction false} DeclineUpdateEffect(s: Seminar, attendeeId: Id)
    ensures ApplyAll(s, DeclineUpdate(attendeeId)) == s.(invitees := ArrayOps.PullField(s.invitees, attendeeId))
  {
    var u := DeclineUpdate(attendeeId);
    assert u[1..] == [];
    assert ApplyAll(s, u) == ApplyAll(Apply(s, u[0]), u[1..]);
  }

  /**
   * The guards, in order: an unknown seminar gives 404, a caller missing from `invitees` gives
   * 403 whatever the response, a full seminar refuses an accept with 400, and a response other
   * than accept or decline gives 400; each leaves the store as it was.
   */
  lemma Guards(db: Db, req: Request<RsvpBody>)
    requires Authenticated(req)
    ensures req.body.seminarId !in db.seminars ==> Handle(db, req) == Outcome(Fail(NotFound, SEMINAR_NOT_FOUND), db)
    ensures var id := req.body.seminarId;
      id in db.seminars && db.seminars[id].invitees.Some? && !Includes(db.seminars[id].invitees.value, Caller(req))
      ==> Handle(db, req) == Outcome(Fail(Forbidden, NOT_INVITED), db)
    ensures var id := req.body.seminarId;
      id in db.seminars && db.seminars[id].invitees.Some? && Includes(db.seminars[id].invitees.value, Caller(req))
      && req.body.response == "accept" && db.seminars[id].attendees.Some?
      && |db.seminars[id].attendees.value| >= db.seminars[id].capacity
      ==> Handle(db, req) == Outcome(Fail(BadRequest, SEMINAR_FULL), db)
    ensures var id := req.body.seminarId;
      id in db.seminars && db.seminars[id].invitees.Some? && Includes(db.seminars[id].invitees.value, Caller(req))
      && req.body.response != "accept" && req.body.response != "decline"
      ==> Handle(db, req) == Outcome(Fail(BadRequest, INVALID_RESPONSE), db)
  {
  }

  /**
   * The update of an accept or a decline always modifies the document, because the caller was
   * found in `invitees` and is pulled from it: the "RSVP failed" answer cannot occur.
   */
  lemma RsvpFailedUnreachable(db: Db, req: Request<RsvpBody>)
    ensures Handle(db, req).response != Fail(BadRequest, RSVP_FAILED)
  {
    if Authenticated(req) && req.body.seminarId in db.seminars {
      var s := db.seminars[req.body.seminarId];
      if s.invitees.Some? && Includes(s.invitees.value, Caller(req)) {
        var uid := Caller(req).value;
        AcceptUpdateEffect(s, uid);
        DeclineUpdateEffect(s, uid);
        assert |ArrayOps.Pull(s.invitees.value, uid)| < |s.invitees.value|;
      }
    }
  }

  /** Every answer other than 200 leaves both collections as they were. */
  lemma FailureChangesNothing(db: Db, req: Request<RsvpBody>)
    ensures Handle(db, req).response.status != OK ==> Handle(db, req).db == db
  {
    RsvpFailedUnreachable(db, req);
  }

  /**
   * A successful accept, in one update, puts the caller into `attendees` and
   * `confirmedAttendees` (once, unless already there) and takes it out of `invitees`; the
   * other fields and every other seminar are unchanged, the seminar stays within its capacity,
   * and the seminar is set-added to the caller's `registeredSeminars`.
   */
  lemma AcceptEffect(db: Db, req: Request<RsvpBody>)
    requires Handle(db, req).response.status == OK && req.body.response == "accept"
    ensures Authenticated(req) && Caller(req).Some? && req.body.seminarId in db.seminars
    ensures var id := req.body.seminarId; var uid := Caller(req).value;
      var s := db.seminars[id]; var db' := Handle(db, req).db;
      && id in db'.seminars
      && var s' := db'.seminars[id];
      && s.invitees.Some? && uid in s.invitees.value && s.attendees.Some? && |s.attendees.value| < s.capacity
      && s'.attendees.Some? && s'.confirmedAttendees.Some? && s'.invitees.Some?
      && uid in s'.attendees.value && uid in s'.confirmedAttendees.value && uid !in s'.invitees.value
      && multiset(s'.attendees.value)[uid]
         == (if uid in s.attendees.value then multiset(s.attendees.value)[uid] else 1)
      && (forall x :: x != uid ==> multiset(s'.attendees.value)[x] == multiset(s.attendees.value)[x])
      && multiset(s'.confirmedAttendees.value)[uid]
         == (if uid in s.confirmedAttendees.GetOr([]) then multiset(s.confirmedAttendees.GetOr([]))[uid] else 1)
      && (forall x :: x != uid ==> multiset(s'.confirmedAttendees.value)[x] == multiset(s.confirmedAttendees.GetOr([]))[x])
      && (forall x :: x != uid ==> (x in s'.invitees.value <==> x in s.invitees.value))
      && s' == s.(attendees := s'.attendees, confirmedAttendees := s'.confirmedAttendees, invitees := s'.invitees)
      && WithinCapacity(s')
      && db'.seminars == db.seminars[id := s']
      && db'.users == AddRegistered(db.users, uid, id)
  {
    var id := req.body.seminarId;
    var uid := Caller(req).value;
    AcceptUpdateEffect(db.seminars[id], uid);
  }

  /** A successful decline only pulls the caller from `invitees`; users are untouched. */
  lemma DeclineEffect(db: Db, req: Request<RsvpBody>)
    requires Handle(db, req).response.status == OK && req.body.response != "accept"
    ensures req.body.response == "decline"
    ensures Authenticated(req) && Caller(req).Some? && req.body.seminarId in db.seminars
    ensures var id := req.body.seminarId; var uid := Caller(req).value;
      var s := db.seminars[id]; var db' := Handle(db, req).db;
      && s.invitees.Some? && uid in s.invitees.value
      && db'.seminars == db.seminars[id := s.(invitees := Some(ArrayOps.Pull(s.invitees.value, uid)))]
      && uid !in ArrayOps.Pull(s.invitees.value, uid)
      && db'.users == db.users
  {
    DeclineUpdateEffect(db.seminars[req.body.seminarId], Caller(req).value);
  }

  /** No request takes a seminar over its capacity. */
  lemma KeepsCapacity(db: Db, req: Request<RsvpBody>)
    requires AllWithinCapacity(db)
    ensures AllWithinCapacity(Handle(db, req).db)
  {
    FailureChangesNothing(db, req);
    var out := Handle(db, req);
    if out.response.status == OK {
      if req.body.response == "accept" {
        AcceptEffect(db, req);
      } else {
        DeclineEffect(db, req);
      }
    }
  }

  /**
   * Through the exported route, only a verified attendee token whose payload segment `atob`
   * can decode can change the store.
   */
  lemma RouteAttendeeOnly(db: Db, req: Request<RsvpBody>)
    ensures Route(db, req).db != db ==>
              req.cookie.Some? && Verify(req.cookie.value).Some? && Verify(req.cookie.value).value.role == Some(ATTENDEE)
              && req.cookie.value.plainBase64
    ensures Authorize(req.cookie, ROLES).Deny? ==> Route(db, req).db == db
  {
  }

  /**
   * The gate verifies base64url, the handler decodes with `atob`: a token the gate admits
   * whose payload segment holds '-' or '_' still gets 401 "Invalid authentication token",
   * and nothing changes.
   */
  lemma AdmittedButUndecodable(db: Db, req: Request<RsvpBody>)
    requires req.verb == POST && Authorize(req.cookie, ROLES).Admit? && !req.cookie.value.plainBase64
    ensures Route(db, req) == Outcome(Fail(Unauthorized, INVALID_AUTH_TOKEN), db)
  {
  }
}
