/**
 * POST /api/seminars/register (app/api/seminars/register/route.ts): an attendee registers
 * directly. The caller comes from the unverified token payload; the capacity check comes
 * before the duplicate check, the caller is `$push`ed onto `attendees`, and `invitees` is
 * neither consulted nor changed.
 */
module SeminarsRegister {
  import opened Common
  import ArrayOps
  import opened SeminarModel
  import opened UserModel
  import opened Http
  import opened Auth
  import opened Store

  datatype RegisterBody = RegisterBody(seminarId: Id)

  const ROLES: seq<string> := [ATTENDEE]

  const ALREADY_REGISTERED: string := "Already registered for this seminar"
  const REGISTERED: string := "Successfully registered for seminar"
  const REGISTER_FAILED: string := "Failed to register for seminar"

  /** The request passes the method and token checks, with a truthy `userId` in the payload. */
  predicate Authenticated(req: Request<RegisterBody>) {
    && req.verb == POST && req.cookie.Some? && Decode(req.cookie.value).Some?
    && Truthy(Decode(req.cookie.value).value.userId)
  }

  function Caller(req: Request<RegisterBody>): Id
    requires Authenticated(req)
  {
    Decode(req.cookie.value).value.userId.value
  }

  /** The handler; `.length` on an absent `attendees` array throws and is answered with 500. */
  function Handle(db: Db, req: Request<RegisterBody>): Outcome {
    if req.verb != POST then Outcome(Fail(MethodNotAllowed, METHOD_NOT_ALLOWED), db)
    else if req.cookie.None? then Outcome(Fail(Unauthorized, TOKEN_MISSING), db)
    else if Decode(req.cookie.value).None? then Outcome(Fail(Unauthorized, INVALID_AUTH_TOKEN), db)
    else if !Truthy(Decode(req.cookie.value).value.userId) then Outcome(Fail(Unauthorized, USER_ID_MISSING), db)
    else
      var attendeeId := Decode(req.cookie.value).value.userId.value;
      var id := req.body.seminarId;
      if id !in db.seminars then Outcome(Fail(NotFound, SEMINAR_NOT_FOUND), db)
      else
        var seminar := db.seminars[id];
        if seminar.attendees.None? then Outcome(Fail(ServerError, REGISTER_FAILED), db)
        else if |seminar.attendees.value| >= seminar.capacity then Outcome(Fail(BadRequest, SEMINAR_FULL), db)
        else if attendeeId in seminar.attendees.value then Outcome(Fail(BadRequest, ALREADY_REGISTERED), db)
        else
          var updated := ApplyAll(seminar, [PushOnto(Attendees, attendeeId)]);
          Outcome(Response(OK, Message(REGISTERED)), db.(seminars := db.seminars[id := updated]))
  }

  /** The exported POST: `withAuth(handler, ['attendee'])`. */
  function Route(db: Db, req: Request<RegisterBody>): Outcome {
    if req.verb != POST then Outcome(NOT_EXPORTED, db)
    else match Authorize(req.cookie, ROLES)
      case Deny(r) => Outcome(r, db)
      case Admit(_) => Handle(db, req)
  }

  method Handler(db: Database, req: Request<RegisterBody>) returns (resp: Response)
    modifies db
    ensures Outcome(resp, db.State()) == Handle(old(db.State()), req)
  {
    if req.verb != POST {
      return Fail(MethodNotAllowed, METHOD_NOT_ALLOWED);
    }
    if req.cookie.None? {
      return Fail(Unauthorized, TOKEN_MISSING);
    }
    var decoded := Decode(req.cookie.value);
    if decoded.None? {
      return Fail(Unauthorized, INVALID_AUTH_TOKEN);
    }
    var attendeeId := decoded.value.userId;
    if !Truthy(attendeeId) {
      return Fail(Unauthorized, USER_ID_MISSING);
    }
    var found := db.FindSeminar(req.body.seminarId);
    if found.None? {
      return Fail(NotFound, SEMINAR_NOT_FOUND);
    }
    var seminar := found.value;
    if seminar.attendees.None? {
      return Fail(ServerError, REGISTER_FAILED);
    }
    if |seminar.attendees.value| >= seminar.capacity {
      return Fail(BadRequest, SEMINAR_FULL);
    }
    if attendeeId.value in seminar.attendees.value {
      return Fail(BadRequest, ALREADY_REGISTERED);
    }
    var _ := db.UpdateSeminar(req.body.seminarId, [PushOnto(Attendees, attendeeId.value)]);
    return Response(OK, Message(REGISTERED));
  }

  method Post(db: Database, req: Request<RegisterBody>) returns (resp: Response)
    modifies db
    ensures Outcome(resp, db.State()) == Route(old(db.State()), req)
  {
    if req.verb != POST {
      return NOT_EXPORTED;
    }
    var gate := Authorize(req.cookie, ROLES);
    if gate.Deny? {
      return gate.response;
    }
    resp := Handler(db, req);
  }

  // ---------------------------------------------------------------------------------------
  // Properties

  lemma {:induction false} PushEffect(s: Seminar, attendeeId: Id)
    ensures ApplyAll(s, [PushOnto(Attendees, attendeeId)]) == s.(attendees := Some(s.attendees.GetOr([]) + [attendeeId]))
  {
    var u := [PushOnto(Attendees, attendeeId)];
    assert u[1..] == [];
    assert ApplyAll(s, u) == ApplyAll(Apply(s, u[0]), u[1..]);
  }

  /**
   * A wrong method, a missing or undecodable token, or a payload without a user id is
   * answered before the store is read: the answer does not depend on the store, which is left
   * unchanged.
   */
  lemma UnauthenticatedIgnoresStore(db: Db, other: Db, req: Request<RegisterBody>)
    requires !Authenticated(req)
    ensures Handle(db, req).db == db
    ensures Handle(db, req).response == Handle(other, req).response
    ensures Handle(db, req).response.status.Code() in {401, 405}
  {
  }

  /**
   * The guards: 404 for an unknown seminar; 400 "Seminar is full" when full, even for a
   * caller already registered; otherwise 400 "Already registered" for a caller already among
   * the attendees; none of them changes anything.
   */
  lemma Guards(db: Db, req: Request<RegisterBody>)
    requires Authenticated(req)
    ensures req.body.seminarId !in db.seminars ==> Handle(db, req) == Outcome(Fail(NotFound, SEMINAR_NOT_FOUND), db)
    ensures var id := req.body.seminarId;
      id in db.seminars && db.seminars[id].attendees.Some? && |db.seminars[id].attendees.value| >= db.seminars[id].capacity
      ==> Handle(db, req) == Outcome(Fail(BadRequest, SEMINAR_FULL), db)
    ensures var id := req.body.seminarId;
      id in db.seminars && db.seminars[id].attendees.Some? && |db.seminars[id].attendees.value| < db.seminars[id].capacity
      && Caller(req) in db.seminars[id].attendees.value
      ==> Handle(db, req) == Outcome(Fail(BadRequest, ALREADY_REGISTERED), db)
  {
  }

  /**
   * A successful registration appends the caller to `attendees`, which grows by exactly one
   * and then holds the caller exactly once, within capacity. Nothing else changes: not
   * `invitees`, not `confirmedAttendees`, no other seminar and no user.
   */
  lemma RegisterEffect(db: Db, req: Request<RegisterBody>)
    requires Handle(db, req).response.status == OK
    ensures Authenticated(req) && req.body.seminarId in db.seminars
    ensures var id := req.body.seminarId; var uid := Caller(req);
      var s := db.seminars[id]; var db' := Handle(db, req).db;
      && s.attendees.Some? && uid !in s.attendees.value
      && db'.seminars == db.seminars[id := s.(attendees := Some(s.attendees.value + [uid]))]
      && |db'.seminars[id].attendees.value| == |s.attendees.value| + 1
      && multiset(db'.seminars[id].attendees.value)[uid] == 1
      && WithinCapacity(db'.seminars[id])
      && db'.users == db.users
  {
    PushEffect(db.seminars[req.body.seminarId], Caller(req));
  }

  /** No registration takes a seminar over its capacity. */
  lemma KeepsCapacity(db: Db, req: Request<RegisterBody>)
    requires AllWithinCapacity(db)
    ensures AllWithinCapacity(Handle(db, req).db)
  {
    if Handle(db, req).response.status == OK {
      RegisterEffect(db, req);
    }
  }

  /** Registration never looks at `invitees`: whatever the list holds, the answer is the same. */
  lemma InviteesNotConsulted(db: Db, req: Request<RegisterBody>, invitees: Option<seq<Id>>)
    requires req.body.seminarId in db.seminars
    ensures var id := req.body.seminarId;
      var db2 := db.(seminars := db.seminars[id := db.seminars[id].(invitees := invitees)]);
      Handle(db2, req).response == Handle(db, req).response
  {
  }

  /**
   * Through the route, only a verified attendee token whose payload segment `atob` can
   * decode can change the store.
   */
  lemma RouteAttendeeOnly(db: Db, req: Request<RegisterBody>)
    ensures Route(db, req).db != db ==>
              req.cookie.Some? && Verify(req.cookie.value).Some? && Verify(req.cookie.value).value.role == Some(ATTENDEE)
              && req.cookie.value.plainBase64
  {
  }

  /**
   * The gate verifies base64url, the handler decodes with `atob`: a token the gate admits
   * whose payload segment holds '-' or '_' still gets 401 "Invalid authentication token",
   * and nothing changes.
   */
  lemma AdmittedButUndecodable(db: Db, req: Request<RegisterBody>)
    requires req.verb == POST && Authorize(req.cookie, ROLES).Admit? && !req.cookie.value.plainBase64
    ensures Route(db, req) == Outcome(Fail(Unauthorized, INVALID_AUTH_TOKEN), db)
  {
  }
}
