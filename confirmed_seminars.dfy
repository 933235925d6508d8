/**
 * GET /api/attendee/confirmed-seminars (app/api/attendee/confirmed-seminars/route.ts): the
 * seminars whose `attendees` (not `confirmedAttendees`) hold the caller, projected to title,
 * date and time.
 *
 * Like the invitations listing, the handler reads the caller from `req.user`, which `withAuth`
 * never sets: as written every admitted request is answered with 500 (`RouteAsWritten`);
 * `Route` supplies the verified token payload as `req.user`.
 */
module ConfirmedSeminars {
  import opened Common
  import opened SeminarModel
  import opened Http
  import opened Auth
  import opened Store

  const ROLES: seq<string> := [ATTENDEE]

  const FETCH_FAILED: string := "Failed to fetch confirmed seminars"

  /** The handler over the seminars collection; `user` is `req.user`. It writes nothing. */
  function Handle(seminars: map<Id, Seminar>, req: Request<()>, user: Option<Claims>): Response {
    if req.verb != GET then Fail(MethodNotAllowed, METHOD_NOT_ALLOWED)
    else if user.None? then Fail(ServerError, FETCH_FAILED)
    else Response(OK, SummaryList(FindMember(seminars, Attendees, user.value.userId)))
  }

  /** The exported GET as written: the gate passes the request on without a `user`. */
  function RouteAsWritten(db: Db, req: Request<()>): Response {
    if req.verb != GET then NOT_EXPORTED
    else match Authorize(req.cookie, ROLES)
      case Deny(r) => r
      case Admit(_) => Handle(db.seminars, req, None)
  }

  /** The exported GET with the verified payload supplied as `req.user`. */
  function Route(db: Db, req: Request<()>): Response {
    if req.verb != GET then NOT_EXPORTED
    else match Authorize(req.cookie, ROLES)
      case Deny(r) => r
      case Admit(claims) => Handle(db.seminars, req, Some(claims))
  }

  // ---------------------------------------------------------------------------------------
  // Properties

  /** Any method but GET is refused with 405 by the handler. */
  lemma NonGetRefused(seminars: map<Id, Seminar>, req: Request<()>, user: Option<Claims>)
    requires req.verb != GET
    ensures Handle(seminars, req, user).status.Code() == 405
  {
  }

  /** As written, no request the gate admits gets anything but 500. */
  lemma AsWrittenAlwaysFails(db: Db, req: Request<()>)
    requires req.verb == GET && Authorize(req.cookie, ROLES).Admit?
    ensures RouteAsWritten(db, req) == Fail(ServerError, FETCH_FAILED)
  {
  }

  /**
   * A verified attendee gets 200 with exactly the seminars whose `attendees` hold their id,
   * each carrying only its title, date and time.
   */
  lemma ListsExactlyAttended(db: Db, req: Request<()>, uid: Id)
    requires req.verb == GET && req.cookie.Some? && Verify(req.cookie.value).Some?
    requires Verify(req.cookie.value).value.role == Some(ATTENDEE)
    requires Verify(req.cookie.value).value.userId == Some(uid)
    ensures Route(db, req).status == OK && Route(db, req).body.SummaryList?
    ensures var listed := Route(db, req).body.items;
      && (forall id :: id in listed <==>
            id in db.seminars && db.seminars[id].attendees.Some? && uid in db.seminars[id].attendees.value)
      && (forall id :: id in listed ==>
            listed[id] == Summary(db.seminars[id].title, db.seminars[id].date, db.seminars[id].time))
  {
  }

  /** `confirmedAttendees` plays no part: whatever it holds, the listing is the same. */
  lemma ConfirmedAttendeesNotConsulted(db: Db, req: Request<()>, id: Id, confirmed: Option<seq<Id>>)
    requires id in db.seminars
    ensures var db2 := db.(seminars := db.seminars[id := db.seminars[id].(confirmedAttendees := confirmed)]);
      Route(db2, req) == Route(db, req)
  {
    var db2 := db.(seminars := db.seminars[id := db.seminars[id].(confirmedAttendees := confirmed)]);
    if req.verb == GET && Authorize(req.cookie, ROLES).Admit? {
      var u := Authorize(req.cookie, ROLES).claims.userId;
      var before, after := FindMember(db.seminars, Attendees, u), FindMember(db2.seminars, Attendees, u);
      assert forall k :: k in db.seminars ==> FieldMatches(db2.seminars[k], Attendees, u) == FieldMatches(db.seminars[k], Attendees, u);
      assert after.Keys == before.Keys;
      assert after == before;
    }
  }

  /** Only a verified attendee token gets a 200; every other request gets 401, 403 or 405. */
  lemma RouteAttendeeOnly(db: Db, req: Request<()>)
    ensures Route(db, req).status == OK ==>
              req.cookie.Some? && Verify(req.cookie.value).Some? && Verify(req.cookie.value).value.role == Some(ATTENDEE)
    ensures Route(db, req).status != OK ==> Route(db, req).status.Code() in {401, 403, 405}
  {
  }
}
