/**
 * GET /api/attendee/invitations (app/api/attendee/invitations/route.ts): the seminars whose
 * `invitees` hold the caller, projected to title, date and time.
 *
 * The handler reads the caller from `req.user`, which `withAuth` never sets, so as written
 * every admitted request fails and is answered with 500 (`RouteAsWritten`); `Route` supplies
 * the verified token payload as `req.user`.
 */
module AttendeeInvitations {
  import opened Common
  import opened SeminarModel
  import opened Http
  import opened Auth
  import opened Store

  const ROLES: seq<string> := [ATTENDEE]

  const FETCH_FAILED: string := "Failed to fetch invitations"

  /** The handler over the seminars collection; `user` is `req.user`. It writes nothing. */
  function Handle(seminars: map<Id, Seminar>, req: Request<()>, user: Option<Claims>): Response {
    if req.verb != GET then Fail(MethodNotAllowed, METHOD_NOT_ALLOWED)
    else if user.None? then Fail(ServerError, FETCH_FAILED)
    else Response(OK, SummaryList(FindMember(seminars, Invitees, user.value.userId)))
  }

  /** The exported GET as written: the gate passes the request on without a `user`. */
  function RouteAsWritten(db: Db, req: Request<()>): Response {
    if req.verb != GET then NOT_EXPORTED
    else match Authorize(req.cookie, ROLES)
      case Deny(r) => r
      case Admit(_) => Handle(db.seminars, req, None)
  }

  /** The exported GET with the verified payload supplied as `req.user`. */
  function Route(db: Db, req: Request<()>): Response {
    if req.verb != GET then NOT_EXPORTED
    else match Authorize(req.cookie, ROLES)
      case Deny(r) => r
      case Admit(claims) => Handle(db.seminars, req, Some(claims))
  }

  // ---------------------------------------------------------------------------------------
  // Properties

  /** Any method but GET is refused with 405 by the handler. */
  lemma NonGetRefused(seminars: map<Id, Seminar>, req: Request<()>, user: Option<Claims>)
    requires req.verb != GET
    ensures Handle(seminars, req, user).status.Code() == 405
  {
  }

  /** As written, no request the gate admits gets anything but 500. */
  lemma AsWrittenAlwaysFails(db: Db, req: Request<()>)
    requires req.verb == GET && Authorize(req.cookie, ROLES).Admit?
    ensures RouteAsWritten(db, req) == Fail(ServerError, FETCH_FAILED)
  {
  }

  /**
   * A verified attendee gets 200 with exactly the seminars whose `invitees` hold their id,
   * each carrying only its title, date and time.
   */
  lemma ListsExactlyInvitations(db: Db, req: Request<()>, uid: Id)
    requires req.verb == GET && req.cookie.Some? && Verify(req.cookie.value).Some?
    requires Verify(req.cookie.value).value.role == Some(ATTENDEE)
    requires Verify(req.cookie.value).value.userId == Some(uid)
    ensures Route(db, req).status == OK && Route(db, req).body.SummaryList?
    ensures var listed := Route(db, req).body.items;
      && (forall id :: id in listed <==>
            id in db.seminars && db.seminars[id].invitees.Some? && uid in db.seminars[id].invitees.value)
      && (forall id :: id in listed ==>
            listed[id] == Summary(db.seminars[id].title, db.seminars[id].date, db.seminars[id].time))
  {
  }

  /** Only a verified attendee token gets a 200; every other request gets 401, 403 or 405. */
  lemma RouteAttendeeOnly(db: Db, req: Request<()>)
    ensures Route(db, req).status == OK ==>
              req.cookie.Some? && Verify(req.cookie.value).Some? && Verify(req.cookie.value).value.role == Some(ATTENDEE)
    ensures Route(db, req).status != OK ==> Route(db, req).status.Code() in {401, 403, 405}
  {
  }
}
