/**
 * POST /api/admin/create (app/api/admin/create/route.ts): an admin creates another admin.
 * All four fields are required, the admin code must equal the configured one (checked before
 * the store is read), an email already on file is refused, and the new document has role
 * admin and a hashed password. The route is gated to the admin role.
 */
module AdminCreate {
  import opened Common
  import opened UserModel
  import opened Http
  import opened Auth
  import opened Store

  /** The JSON body; a property may be missing. */
  datatype AdminBody = AdminBody(name: Option<string>, email: Option<string>, password: Option<string>,
                                 adminCode: Option<string>)

  const ROLES: seq<string> := [ADMIN]

  /** The code used when the deployment configures none. */
  const DEFAULT_ADMIN_CODE: string := "your_secure_admin_code"

  const MISSING_FIELDS: string := "Missing required fields"
  const INVALID_CODE: string := "Invalid admin code"
  const USER_EXISTS: string := "User already exists"
  const CREATED: string := "Admin created successfully"

  /** `process.env.ADMIN_CREATE_CODE || 'your_secure_admin_code'`, for the configured value `env`. */
  function AdminCode(env: Option<string>): (code: string)
    ensures code != ""
    ensures Truthy(env) ==> code == env.value
  {
    if Truthy(env) then env.value else DEFAULT_ADMIN_CODE
  }

  predicate Complete(body: AdminBody) {
    Truthy(body.name) && Truthy(body.email) && Truthy(body.password) && Truthy(body.adminCode)
  }

  /** The inserted document, under the store-generated id. */
  function NewAdmin(body: AdminBody, newId: Id, salt: nat): User
    requires Complete(body)
  {
    User(newId, body.name.value, body.email.value, Hash(body.password.value, salt), ADMIN, [])
  }

  /**
   * The handler; `env` is the configured admin code, `newId` the id the store generates and
   * `salt` the hash's random salt.
   */
  function Handle(db: Db, req: Request<AdminBody>, env: Option<string>, newId: Id, salt: nat): Outcome
    requires !UserIdInUse(db.users, newId)
  {
    if req.verb != POST then Outcome(Fail(MethodNotAllowed, METHOD_NOT_ALLOWED), db)
    else if !Complete(req.body) then Outcome(Fail(BadRequest, MISSING_FIELDS), db)
    else if req.body.adminCode.value != AdminCode(env) then Outcome(Fail(Forbidden, INVALID_CODE), db)
    else if FindByEmail(db.users, req.body.email.value).Some? then Outcome(Fail(BadRequest, USER_EXISTS), db)
    else Outcome(Response(Created, WithId(CREATED, newId)), db.(users := db.users + [NewAdmin(req.body, newId, salt)]))
  }

  /** The exported POST: `withAuth(handler, ['admin'])`. */
  function Route(db: Db, req: Request<AdminBody>, env: Option<string>, newId: Id, salt: nat): Outcome
    requires !UserIdInUse(db.users, newId)
  {
    if req.verb != POST then Outcome(NOT_EXPORTED, db)
    else match Authorize(req.cookie, ROLES)
      case Deny(r) => Outcome(r, db)
      case Admit(_) => Handle(db, req, env, newId, salt)
  }

  method Handler(db: Database, req: Request<AdminBody>, env: Option<string>, newId: Id, salt: nat)
    returns (resp: Response)
    requires !UserIdInUse(db.users, newId)
    modifies db
    ensures Outcome(resp, db.State()) == Handle(old(db.State()), req, env, newId, salt)
  {
    if req.verb != POST {
      return Fail(MethodNotAllowed, METHOD_NOT_ALLOWED);
    }
    var body := req.body;
    if !Truthy(body.name) || !Truthy(body.email) || !Truthy(body.password) || !Truthy(body.adminCode) {
      return Fail(BadRequest, MISSING_FIELDS);
    }
    if body.adminCode.value != AdminCode(env) {
      return Fail(Forbidden, INVALID_CODE);
    }
    var existing := db.FindUserByEmail(body.email.value);
    if existing.Some? {
      return Fail(BadRequest, USER_EXISTS);
    }
    var hashed := Hash(body.password.value, salt);
    var insertedId := db.InsertUser(User(newId, body.name.value, body.email.value, hashed, ADMIN, []));
    return Response(Created, WithId(CREATED, insertedId));
  }

  method Post(db: Database, req: Request<AdminBody>, env: Option<string>, newId: Id, salt: nat)
    returns (resp: Response)
    requires !UserIdInUse(db.users, newId)
    modifies db
    ensures Outcome(resp, db.State()) == Route(old(db.State()), req, env, newId, salt)
  {
    if req.verb != POST {
      return NOT_EXPORTED;
    }
    var gate := Authorize(req.cookie, ROLES);
    if gate.Deny? {
      return gate.response;
    }
    resp := Handler(db, req, env, newId, salt);
  }

  // ---------------------------------------------------------------------------------------
  // Properties

  /**
   * The guards before the store is read: 405 for another method, 400 for a missing field,
   * 403 for a wrong code. Their answer does not depend on the store, which is left unchanged.
   */
  lemma EarlyGuards(db: Db, other: Db, req: Request<AdminBody>, env: Option<string>, newId: Id, salt: nat)
    requires !UserIdInUse(db.users, newId) && !UserIdInUse(other.users, newId)
    requires req.verb != POST || !Complete(req.body) || req.body.adminCode.value != AdminCode(env)
    ensures Handle(db, req, env, newId, salt).db == db
    ensures Handle(db, req, env, newId, salt).response == Handle(other, req, env, newId, salt).response
    ensures req.verb != POST ==> Handle(db, req, env, newId, salt).response.status.Code() == 405
    ensures req.verb == POST && !Complete(req.body) ==>
              Handle(db, req, env, newId, salt).response == Fail(BadRequest, MISSING_FIELDS)
    ensures (req.verb == POST && Complete(req.body) && req.body.adminCode.value != AdminCode(env)) ==>
              Handle(db, req, env, newId, salt).response == Fail(Forbidden, INVALID_CODE)
  {
  }

  /** An email some stored user already has is answered 400 and nothing is inserted. */
  lemma DuplicateRejected(db: Db, req: Request<AdminBody>, env: Option<string>, newId: Id, salt: nat)
    requires !UserIdInUse(db.users, newId)
    requires req.verb == POST && Complete(req.body) && req.body.adminCode.value == AdminCode(env)
    requires exists u :: u in db.users && u.email == req.body.email.value
    ensures Handle(db, req, env, newId, salt) == Outcome(Fail(BadRequest, USER_EXISTS), db)
  {
  }

  /**
   * A successful creation answers 201 with the new id and appends exactly one user, with role
   * admin, the given name and email, and a hash of the password; it needed the right code.
   */
  lemma CreateEffect(db: Db, req: Request<AdminBody>, env: Option<string>, newId: Id, salt: nat)
    requires !UserIdInUse(db.users, newId)
    requires Handle(db, req, env, newId, salt).response.status == Created
    ensures req.verb == POST && Complete(req.body) && req.body.adminCode.value == AdminCode(env)
    ensures forall u :: u in db.users ==> u.email != req.body.email.value
    ensures var out := Handle(db, req, env, newId, salt);
      && out.response.body == WithId(CREATED, newId)
      && |out.db.users| == |db.users| + 1
      && out.db.users[..|db.users|] == db.users
      && var u := out.db.users[|db.users|];
      && u.id == newId && u.role == ADMIN
      && u.name == req.body.name.value && u.email == req.body.email.value
      && Compare(req.body.password.value, u.password) && u.password.rounds == BCRYPT_ROUNDS
      && out.db.seminars == db.seminars
  {
    var out := Handle(db, req, env, newId, salt);
    assert out.db.users[..|db.users|] == db.users;
  }

  /** Admin creation keeps emails, and ids, unique across the users collection. */
  lemma KeepsUnique(db: Db, req: Request<AdminBody>, env: Option<string>, newId: Id, salt: nat)
    requires !UserIdInUse(db.users, newId)
    ensures UniqueEmails(db.users) ==> UniqueEmails(Handle(db, req, env, newId, salt).db.users)
    ensures UniqueIds(db.users) ==> UniqueIds(Handle(db, req, env, newId, salt).db.users)
  {
    if Handle(db, req, env, newId, salt).db != db {
      InsertKeepsUnique(db.users, NewAdmin(req.body, newId, salt));
    }
  }

  /** Through the route, only a verified admin token can add a user. */
  lemma RouteAdminOnly(db: Db, req: Request<AdminBody>, env: Option<string>, newId: Id, salt: nat)
    requires !UserIdInUse(db.users, newId)
    ensures Route(db, req, env, newId, salt).db != db ==>
              req.cookie.Some? && Verify(req.cookie.value).Some? && Verify(req.cookie.value).value.role == Some(ADMIN)
  {
  }
}
