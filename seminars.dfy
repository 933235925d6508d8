/**
 * /api/seminars (app/api/seminars/route.ts): an agent creates a seminar (POST) and any
 * signed-in role lists them all (GET). The new document gets `attendees: []` and the caller
 * as `agentId`, and no `invitees` or `confirmedAttendees` field at all; the descriptive
 * fields are stored as received.
 */
module Seminars {
  import opened Common
  import opened SeminarModel
  import opened Http
  import opened Auth
  import opened Store

  /** The POST body; a GET carries none and ignores it. */
  datatype CreateBody = CreateBody(title: string, date: string, time: string, description: string,
                                   capacity: int, price: real)

  const GET_ROLES: seq<string> := [AGENT, ATTENDEE, ADMIN]
  const POST_ROLES: seq<string> := [AGENT]

  const CREATED: string := "Seminar created successfully"

  /** The document POST inserts. */
  function NewDocument(body: CreateBody, agentId: Id): (s: Seminar)
    ensures s.attendees == Some([]) && s.invitees.None? && s.confirmedAttendees.None?
    ensures s.agentId == agentId
    ensures s.title == body.title && s.date == body.date && s.time == body.time
    ensures s.description == body.description && s.capacity == body.capacity && s.price == body.price
  {
    Seminar(body.title, body.date, body.time, body.description, body.capacity, body.price,
            agentId, Some([]), None, None)
  }

  /** The handler; `newId` is the id the store generates for an inserted document. */
  function Handle(db: Db, req: Request<CreateBody>, newId: Id): Outcome
    requires newId !in db.seminars
  {
    if req.verb == POST then
      if req.cookie.None? then Outcome(Fail(Unauthorized, TOKEN_MISSING), db)
      else if Decode(req.cookie.value).None? then Outcome(Fail(Unauthorized, INVALID_AUTH_TOKEN), db)
      else if !Truthy(Decode(req.cookie.value).value.userId) then Outcome(Fail(Unauthorized, USER_ID_MISSING), db)
      else
        var agentId := Decode(req.cookie.value).value.userId.value;
        Outcome(Response(Created, WithId(CREATED, newId)),
                db.(seminars := db.seminars[newId := NewDocument(req.body, agentId)]))
    else if req.verb == GET then Outcome(Response(OK, SeminarList(db.seminars)), db)
    else Outcome(Fail(MethodNotAllowed, METHOD_NOT_ALLOWED), db)
  }

  /** `GET = withAuth(handler, ['agent', 'attendee', 'admin'])`, `POST = withAuth(handler, ['agent'])`. */
  function Route(db: Db, req: Request<CreateBody>, newId: Id): Outcome
    requires newId !in db.seminars
  {
    if req.verb == GET then
      Outcome(WithAuth((r: Request<CreateBody>) => Handle(db, r, newId).response, GET_ROLES, req), db)
    else if req.verb == POST then
      match Authorize(req.cookie, POST_ROLES)
      case Deny(r) => Outcome(r, db)
      case Admit(_) => Handle(db, req, newId)
    else Outcome(NOT_EXPORTED, db)
  }

  method Handler(db: Database, req: Request<CreateBody>, newId: Id) returns (resp: Response)
    requires newId !in db.seminars
    modifies db
    ensures Outcome(resp, db.State()) == Handle(old(db.State()), req, newId)
  {
    if req.verb == POST {
      if req.cookie.None? {
        return Fail(Unauthorized, TOKEN_MISSING);
      }
      var decoded := Decode(req.cookie.value);
      if decoded.None? {
        return Fail(Unauthorized, INVALID_AUTH_TOKEN);
      }
      var agentId := decoded.value.userId;
      if !Truthy(agentId) {
        return Fail(Unauthorized, USER_ID_MISSING);
      }
      var insertedId := db.InsertSeminar(newId, NewDocument(req.body, agentId.value));
      return Response(Created, WithId(CREATED, insertedId));
    }
    if req.verb == GET {
      var seminars := db.AllSeminars();
      assert seminars == db.seminars;
      return Response(OK, SeminarList(seminars));
    }
    return Fail(MethodNotAllowed, METHOD_NOT_ALLOWED);
  }

  /** The two exported methods, each behind its role gate; any other method is not exported. */
  method Serve(db: Database, req: Request<CreateBody>, newId: Id) returns (resp: Response)
    requires newId !in db.seminars
    modifies db
    ensures Outcome(resp, db.State()) == Route(old(db.State()), req, newId)
  {
    if req.verb != GET && req.verb != POST {
      return NOT_EXPORTED;
    }
    var gate := Authorize(req.cookie, if req.verb == GET then GET_ROLES else POST_ROLES);
    if gate.Deny? {
      return gate.response;
    }
    resp := Handler(db, req, newId);
  }

  // ---------------------------------------------------------------------------------------
  // Properties

  /**
   * A POST without a token, with an undecodable token or with a payload lacking a user id is
   * answered 401 and inserts nothing.
   */
  lemma PostUnauthenticated(db: Db, req: Request<CreateBody>, newId: Id)
    requires newId !in db.seminars
    requires req.verb == POST
    requires req.cookie.None? || Decode(req.cookie.value).None? || !Truthy(Decode(req.cookie.value).value.userId)
    ensures Handle(db, req, newId).response.status == Unauthorized
    ensures Handle(db, req, newId).db == db
  {
  }

  /**
   * A successful POST answers 201 with the new id and inserts exactly one document, whose
   * `agentId` is the caller, whose `attendees` is empty, which has no `invitees` and no
   * `confirmedAttendees`, and whose descriptive fields are the body's unchanged.
   */
  lemma CreateEffect(db: Db, req: Request<CreateBody>, newId: Id)
    requires newId !in db.seminars
    requires Handle(db, req, newId).response.status == Created
    ensures req.verb == POST && req.cookie.Some? && Decode(req.cookie.value).Some?
    ensures var caller := Decode(req.cookie.value).value.userId;
      var out := Handle(db, req, newId);
      && Truthy(caller)
      && out.response.body == WithId(CREATED, newId)
      && out.db.seminars.Keys == db.seminars.Keys + {newId}
      && |out.db.seminars| == |db.seminars| + 1
      && (forall id :: id in db.seminars ==> out.db.seminars[id] == db.seminars[id])
      && out.db.seminars[newId].agentId == caller.value
      && out.db.seminars[newId].attendees == Some([])
      && out.db.seminars[newId].invitees.None? && out.db.seminars[newId].confirmedAttendees.None?
      && out.db.seminars[newId].title == req.body.title
      && out.db.seminars[newId].capacity == req.body.capacity
      && out.db.seminars[newId].price == req.body.price
      && out.db.users == db.users
    ensures Handle(db, req, newId).db.seminars[newId] == NewDocument(req.body, Decode(req.cookie.value).value.userId.value)
  {
  }

  /** GET lists every stored seminar and changes nothing. */
  lemma GetListsAll(db: Db, req: Request<CreateBody>, newId: Id)
    requires newId !in db.seminars
    requires req.verb == GET
    ensures Handle(db, req, newId) == Outcome(Response(OK, SeminarList(db.seminars)), db)
  {
  }

  /** Methods other than GET and POST get 405 from the handler and are not exported by the route. */
  lemma OtherMethodsRefused(db: Db, req: Request<CreateBody>, newId: Id)
    requires newId !in db.seminars
    requires req.verb != GET && req.verb != POST
    ensures Handle(db, req, newId) == Outcome(Fail(MethodNotAllowed, METHOD_NOT_ALLOWED), db)
    ensures Route(db, req, newId) == Outcome(NOT_EXPORTED, db)
  {
  }

  /**
   * POST can change the store only for a verified agent token whose payload segment `atob`
   * can decode; GET admits a verified agent, attendee or admin and never changes the store.
   */
  lemma RouteRoles(db: Db, req: Request<CreateBody>, newId: Id)
    requires newId !in db.seminars
    ensures Route(db, req, newId).db != db ==>
              req.verb == POST && req.cookie.Some? && Verify(req.cookie.value).Some?
              && Verify(req.cookie.value).value.role == Some(AGENT) && req.cookie.value.plainBase64
    ensures req.verb == GET && req.cookie.Some? && Verify(req.cookie.value).Some?
            && Verify(req.cookie.value).value.role.Some?
            && Verify(req.cookie.value).value.role.value in {AGENT, ATTENDEE, ADMIN}
            ==> Route(db, req, newId) == Outcome(Response(OK, SeminarList(db.seminars)), db)
  {
  }

  /**
   * The gate verifies base64url, the handler decodes with `atob`: a token the gate admits
   * whose payload segment holds '-' or '_' still gets 401 "Invalid authentication token",
   * and nothing changes.
   */
  lemma AdmittedButUndecodable(db: Db, req: Request<CreateBody>, newId: Id)
    requires newId !in db.seminars
    requires req.verb == POST && Authorize(req.cookie, POST_ROLES).Admit? && !req.cookie.value.plainBase64
    ensures Route(db, req, newId) == Outcome(Fail(Unauthorized, INVALID_AUTH_TOKEN), db)
  {
  }
}
