/**
 * POST /api/invitations/rsvp (app/api/invitations/rsvp/route.ts): the second accept/decline
 * route. It takes the caller from `req.user`, tolerates a seminar without an `attendees`
 * array in its capacity check, does not touch `confirmedAttendees`, and does not look at the
 * update results.
 *
 * `withAuth` hands the request over unchanged and never sets `req.user`, so as written every
 * admitted request fails reading `req.user.userId` and is answered with 500 (`RouteAsWritten`).
 * `Route` is the route with the verified token payload supplied as `req.user`, which the rest
 * of the model uses.
 */
module InvitationsRsvp {
  import opened Common
  import ArrayOps
  import opened SeminarModel
  import opened UserModel
  import opened Http
  import opened Auth
  import opened Store

  datatype RsvpBody = RsvpBody(invitationId: Id, response: string)

  const ROLES: seq<string> := [ATTENDEE]

  const NOT_INVITED: string := "User not invited to this seminar"
  const ACCEPTED: string := "Successfully accepted invitation"
  const DECLINED: string := "Successfully declined invitation"
  const INVALID_RESPONSE: string := "Invalid response"
  const PROCESSING_FAILED: string := "Failed to process RSVP"

  function AcceptUpdate(userId: Id): seq<ArrayUpdate> {
    [AddToSetOf(Attendees, userId), PullFrom(Invitees, userId)]
  }

  function DeclineUpdate(userId: Id): seq<ArrayUpdate> {
    [PullFrom(Invitees, userId)]
  }

  /** `seminar.attendees && seminar.attendees.length >= seminar.capacity`: an absent array is never full. */
  predicate IsFull(s: Seminar) {
    s.attendees.Some? && |s.attendees.value| >= s.capacity
  }

  /**
   * The handler; `user` is `req.user`. Reading `userId` of an absent `req.user`, or calling
   * `includes` on an absent `invitees`, throws and is answered with 500.
   */
  function Handle(db: Db, req: Request<RsvpBody>, user: Option<Claims>): Outcome {
    if req.verb != POST then Outcome(Fail(MethodNotAllowed, METHOD_NOT_ALLOWED), db)
    else if user.None? then Outcome(Fail(ServerError, PROCESSING_FAILED), db)
    else
      var userId := user.value.userId;
      var id := req.body.invitationId;
      if id !in db.seminars then Outcome(Fail(NotFound, SEMINAR_NOT_FOUND), db)
      else
        var seminar := db.seminars[id];
        if seminar.invitees.None? then Outcome(Fail(ServerError, PROCESSING_FAILED), db)
        else if !Includes(seminar.invitees.value, userId) then Outcome(Fail(Forbidden, NOT_INVITED), db)
        else if req.body.response == "accept" then
          if IsFull(seminar) then Outcome(Fail(BadRequest, SEMINAR_FULL), db)
          else
            var updated := ApplyAll(seminar, AcceptUpdate(userId.value));
            Outcome(Response(OK, Message(ACCEPTED)),
                    Db(db.seminars[id := updated], AddRegistered(db.users, userId.value, id)))
        else if req.body.response == "decline" then
          var updated := ApplyAll(seminar, DeclineUpdate(userId.value));
          Outcome(Response(OK, Message(DECLINED)), db.(seminars := db.seminars[id := updated]))
        else Outcome(Fail(BadRequest, INVALID_RESPONSE), db)
  }

  /** The exported POST as written: the gate passes the request on without a `user`. */
  function RouteAsWritten(db: Db, req: Request<RsvpBody>): Outcome {
    if req.verb != POST then Outcome(NOT_EXPORTED, db)
    else match Authorize(req.cookie, ROLES)
      case Deny(r) => Outcome(r, db)
      case Admit(_) => Handle(db, req, None)
  }

  /** The exported POST with the verified payload supplied as `req.user`. */
  function Route(db: Db, req: Request<RsvpBody>): Outcome {
    if req.verb != POST then Outcome(NOT_EXPORTED, db)
    else match Authorize(req.cookie, ROLES)
      case Deny(r) => Outcome(r, db)
      case Admit(claims) => Handle(db, req, Some(claims))
  }

  method Handler(db: Database, req: Request<RsvpBody>, user: Option<Claims>) returns (resp: Response)
    modifies db
    ensures Outcome(resp, db.State()) == Handle(old(db.State()), req, user)
  {
    if req.verb != POST {
      return Fail(MethodNotAllowed, METHOD_NOT_ALLOWED);
    }
    if user.None? {
      return Fail(ServerError, PROCESSING_FAILED);
    }
    var userId := user.value.userId;
    var found := db.FindSeminar(req.body.invitationId);
    if found.None? {
      return Fail(NotFound, SEMINAR_NOT_FOUND);
    }
    var seminar := found.value;
    if seminar.invitees.None? {
      return Fail(ServerError, PROCESSING_FAILED);
    }
    if !Includes(seminar.invitees.value, userId) {
      return Fail(Forbidden, NOT_INVITED);
    }
    if req.body.response == "accept" {
      if seminar.attendees.Some? && |seminar.attendees.value| >= seminar.capacity {
        return Fail(BadRequest, SEMINAR_FULL);
      }
      var _ := db.UpdateSeminar(req.body.invitationId, AcceptUpdate(userId.value));
      db.AddRegisteredSeminar(userId.value, req.body.invitationId);
      return Response(OK, Message(ACCEPTED));
    } else if req.body.response == "decline" {
      var _ := db.UpdateSeminar(req.body.invitationId, DeclineUpdate(userId.value));
      return Response(OK, Message(DECLINED));
    } else {
      return Fail(BadRequest, INVALID_RESPONSE);
    }
  }

  method Post(db: Database, req: Request<RsvpBody>) returns (resp: Response)
    modifies db
    ensures Outcome(resp, db.State()) == Route(old(db.State()), req)
  {
    if req.verb != POST {
      return NOT_EXPORTED;
    }
    var gate := Authorize(req.cookie, ROLES);
    if gate.Deny? {
      return gate.response;
    }
    resp := Handler(db, req, Some(gate.claims));
  }

  // ---------------------------------------------------------------------------------------
  // Properties

  /** As written, every request the gate admits is answered with 500 and changes nothing. */
  lemma AsWrittenAlwaysFails(db: Db, req: Request<RsvpBody>)
    ensures RouteAsWritten(db, req).db == db
    ensures req.verb == POST && Authorize(req.cookie, ROLES).Admit? ==>
              RouteAsWritten(db, req).response == Fail(ServerError, PROCESSING_FAILED)
  {
  }

  lemma {:induction false} AcceptUpdateEffect(s: Seminar, userId: Id)
    ensures ApplyAll(s, AcceptUpdate(userId))
            == s.(attendees := Some(ArrayOps.AddToSetField(s.attendees, userId)),
                  invitees := ArrayOps.PullField(s.invitees, userId))
  {
    var u := AcceptUpdate(userId);
    assert u[1..][1..] == [];
    calc {
      ApplyAll(s, u);
      ApplyAll(Apply(s, u[0]), u[1..]);
      ApplyAll(Apply(Apply(s, u[0]), u[1]), u[1..][1..]);
    }
  }

  lemma {:induction false} DeclineUpdateEffect(s: Seminar, userId: Id)
    ensures ApplyAll(s, DeclineUpdate(userId)) == s.(invitees := ArrayOps.PullField(s.invitees, userId))
  {
    var u := DeclineUpdate(userId);
    assert u[1..] == [];
    assert ApplyAll(s, u) == ApplyAll(Apply(s, u[0]), u[1..]);
  }

  /**
   * The guards: an unknown seminar gives 404 and a caller missing from `invitees` 403, both
   * with no change; an accept is refused as full exactly when `attendees` exists and its
   * length reaches the capacity; any other response than accept or decline gives 400.
   */
  lemma Guards(db: Db, req: Request<RsvpBody>, caller: Claims)
    requires req.verb == POST
    ensures req.body.invitationId !in db.seminars ==>
              Handle(db, req, Some(caller)) == Outcome(Fail(NotFound, SEMINAR_NOT_FOUND), db)
    ensures var id := req.body.invitationId;
      id in db.seminars && db.seminars[id].invitees.Some? && !Includes(db.seminars[id].invitees.value, caller.userId)
      ==> Handle(db, req, Some(caller)) == Outcome(Fail(Forbidden, NOT_INVITED), db)
    ensures var id := req.body.invitationId;
      id in db.seminars && db.seminars[id].invitees.Some? && Includes(db.seminars[id].invitees.value, caller.userId)
      && req.body.response == "accept"
      ==> (Handle(db, req, Some(caller)).response == Fail(BadRequest, SEMINAR_FULL)
           <==> db.seminars[id].attendees.Some? && |db.seminars[id].attendees.value| >= db.seminars[id].capacity)
    ensures var id := req.body.invitationId;
      id in db.seminars && db.seminars[id].invitees.Some? && Includes(db.seminars[id].invitees.value, caller.userId)
      && req.body.response != "accept" && req.body.response != "decline"
      ==> Handle(db, req, Some(caller)) == Outcome(Fail(BadRequest, INVALID_RESPONSE), db)
  {
  }

  /**
   * A successful accept set-adds the caller to `attendees` (the old array, followed by the
   * caller once if it was not there; no other count changes) and pulls it from `invitees` in
   * one update, leaves `confirmedAttendees` and every other field and seminar alone, and
   * set-adds the seminar to the caller's `registeredSeminars`.
   */
  lemma AcceptEffect(db: Db, req: Request<RsvpBody>, caller: Claims)
    requires req.body.response == "accept" && Handle(db, req, Some(caller)).response.status == OK
    ensures req.body.invitationId in db.seminars && caller.userId.Some?
    ensures var id := req.body.invitationId; var uid := caller.userId.value;
      var s := db.seminars[id]; var db' := Handle(db, req, Some(caller)).db;
      && id in db'.seminars
      && var s' := db'.seminars[id];
      && s.invitees.Some? && uid in s.invitees.value && !IsFull(s)
      && s'.attendees.Some? && uid in s'.attendees.value
      && s'.invitees.Some? && uid !in s'.invitees.value
      && (forall x :: x != uid ==> (x in s'.attendees.value <==> x in s.attendees.GetOr([])))
      && (forall x :: x != uid ==> (x in s'.invitees.value <==> x in s.invitees.value))
      && s.attendees.GetOr([]) <= s'.attendees.value
      && multiset(s'.attendees.value)[uid]
         == (if uid in s.attendees.GetOr([]) then multiset(s.attendees.GetOr([]))[uid] else 1)
      && (forall x :: x != uid ==> multiset(s'.attendees.value)[x] == multiset(s.attendees.GetOr([]))[x])
      && s' == s.(attendees := s'.attendees, invitees := s'.invitees)
      && db'.seminars == db.seminars[id := s']
      && db'.users == AddRegistered(db.users, uid, id)
  {
    AcceptUpdateEffect(db.seminars[req.body.invitationId], caller.userId.value);
  }

  /** A decline by an invited caller always succeeds and only pulls it from `invitees`. */
  lemma DeclineEffect(db: Db, req: Request<RsvpBody>, caller: Claims)
    requires req.verb == POST && req.body.response == "decline"
    requires req.body.invitationId in db.seminars
    requires var s := db.seminars[req.body.invitationId]; s.invitees.Some? && Includes(s.invitees.value, caller.userId)
    ensures var id := req.body.invitationId; var s := db.seminars[id]; var uid := caller.userId.value;
      Handle(db, req, Some(caller))
      == Outcome(Response(OK, Message(DECLINED)),
                 db.(seminars := db.seminars[id := s.(invitees := Some(ArrayOps.Pull(s.invitees.value, uid)))]))
  {
    DeclineUpdateEffect(db.seminars[req.body.invitationId], caller.userId.value);
  }

  /**
   * The capacity bound is kept for seminars that have an `attendees` array or a capacity of
   * at least one; `AbsentAttendeesExceedCapacity` shows the one way past it.
   */
  lemma KeepsCapacity(db: Db, req: Request<RsvpBody>, user: Option<Claims>)
    requires AllWithinCapacity(db)
    requires forall id :: id in db.seminars ==> db.seminars[id].attendees.Some? || db.seminars[id].capacity >= 1
    ensures AllWithinCapacity(Handle(db, req, user).db)
  {
    var out := Handle(db, req, user);
    if out.db != db {
      var id := req.body.invitationId;
      var s := db.seminars[id];
      var uid := user.value.userId.value;
      if req.body.response == "accept" {
        AcceptUpdateEffect(s, uid);
      } else {
        DeclineUpdateEffect(s, uid);
      }
    }
  }

  /** A seminar with no `attendees` array and capacity 0 accepts an invitee anyway. */
  lemma AbsentAttendeesExceedCapacity(caller: Id)
    ensures var s := Seminar("t", "d", "h", "x", 0, 0.0, "agent", None, Some([caller]), None);
      var db := Db(map["s" := s], []);
      var req := Request(POST, None, RsvpBody("s", "accept"));
      var out := Handle(db, req, Some(Claims(Some(caller), None, None, Some(ATTENDEE))));
      && WithinCapacity(s)
      && out.response.status == OK
      && !WithinCapacity(out.db.seminars["s"])
  {
    var s := Seminar("t", "d", "h", "x", 0, 0.0, "agent", None, Some([caller]), None);
    AcceptUpdateEffect(s, caller);
  }

  /** Through the route, only a verified attendee token can change the store. */
  lemma RouteAttendeeOnly(db: Db, req: Request<RsvpBody>)
    ensures Route(db, req).db != db ==>
              req.cookie.Some? && Verify(req.cookie.value).Some? && Verify(req.cookie.value).value.role == Some(ATTENDEE)
  {
  }

  /**
   * With the payload supplied, an attendee whose verified token names an invitee of a
   * seminar with room gets 200 on accept and ends up in `attendees` and out of `invitees`.
   */
  lemma InvitedAttendeeCanAccept(db: Db, req: Request<RsvpBody>)
    requires req.verb == POST && req.body.response == "accept"
    requires req.cookie.Some? && Verify(req.cookie.value).Some?
    requires var c := Verify(req.cookie.value).value; c.role == Some(ATTENDEE) && c.userId.Some?
    requires req.body.invitationId in db.seminars
    requires var s := db.seminars[req.body.invitationId];
      s.invitees.Some? && Verify(req.cookie.value).value.userId.value in s.invitees.value && !IsFull(s)
    ensures var uid := Verify(req.cookie.value).value.userId.value;
      var out := Route(db, req);
      && out.response == Response(OK, Message(ACCEPTED))
      && req.body.invitationId in out.db.seminars
      && out.db.seminars[req.body.invitationId].attendees.Some?
      && out.db.seminars[req.body.invitationId].invitees.Some?
      && uid in out.db.seminars[req.body.invitationId].attendees.value
      && uid !in out.db.seminars[req.body.invitationId].invitees.value
  {
    var c := Verify(req.cookie.value).value;
    AcceptEffect(db, req, c);
  }
}
