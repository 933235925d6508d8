/**
 * POST /api/signup (app/api/signup/route.ts): self-registration. Name, email and password are
 * required; an email already on file is refused; otherwise one user is inserted through the
 * `User` model class with a hashed password and no role, so the role defaults to attendee.
 * The route is not behind the role gate.
 */
module Signup {
  import opened Common
  import opened UserModel
  import opened Http
  import opened Store

  /** The JSON body; a property may be missing. */
  datatype SignupBody = SignupBody(name: Option<string>, email: Option<string>, password: Option<string>)

  const FIELDS_REQUIRED: string := "Name, email, and password are required"
  const EMAIL_TAKEN: string := "User with this email already exists"
  const CREATED: string := "User created successfully"

  /** The three required properties are present and non-empty. */
  predicate Complete(body: SignupBody) {
    Truthy(body.name) && Truthy(body.email) && Truthy(body.password)
  }

  /** The document the route inserts: `new User({ name, email, password: hashedPassword })`. */
  function NewAccount(body: SignupBody, newId: Id, salt: nat): User
    requires Complete(body)
  {
    NewUser(UserData(None, body.name.value, body.email.value, Hash(body.password.value, salt), None), newId)
  }

  /**
   * The handler. `newId` is the id the model class generates and `salt` the hash's random
   * salt; the id is one no stored user has.
   */
  function Handle(db: Db, body: SignupBody, newId: Id, salt: nat): Outcome
    requires !UserIdInUse(db.users, newId)
  {
    if !Complete(body) then Outcome(Fail(BadRequest, FIELDS_REQUIRED), db)
    else if FindByEmail(db.users, body.email.value).Some? then Outcome(Fail(BadRequest, EMAIL_TAKEN), db)
    else
      var user := NewAccount(body, newId, salt);
      Outcome(Response(OK, WithId(CREATED, user.id)), db.(users := db.users + [user]))
  }

  /** The route file exports POST only. */
  function Route(db: Db, req: Request<SignupBody>, newId: Id, salt: nat): Outcome
    requires !UserIdInUse(db.users, newId)
  {
    if req.verb != POST then Outcome(NOT_EXPORTED, db) else Handle(db, req.body, newId, salt)
  }

  method Post(db: Database, req: Request<SignupBody>, newId: Id, salt: nat) returns (resp: Response)
    requires !UserIdInUse(db.users, newId)
    modifies db
    ensures Outcome(resp, db.State()) == Route(old(db.State()), req, newId, salt)
  {
    if req.verb != POST {
      return NOT_EXPORTED;
    }
    var body := req.body;
    if !Truthy(body.name) || !Truthy(body.email) || !Truthy(body.password) {
      return Fail(BadRequest, FIELDS_REQUIRED);
    }
    var existing := db.FindUserByEmail(body.email.value);
    if existing.Some? {
      return Fail(BadRequest, EMAIL_TAKEN);
    }
    var hashed := Hash(body.password.value, salt);
    var user := NewUser(UserData(None, body.name.value, body.email.value, hashed, None), newId);
    var insertedId := db.InsertUser(user);
    return Response(OK, WithId(CREATED, insertedId));
  }

  // ---------------------------------------------------------------------------------------
  // Properties

  /** A missing or empty name, email or password is answered 400 and nothing is inserted. */
  lemma IncompleteRejected(db: Db, body: SignupBody, newId: Id, salt: nat)
    requires !UserIdInUse(db.users, newId)
    requires !Truthy(body.name) || !Truthy(body.email) || !Truthy(body.password)
    ensures Handle(db, body, newId, salt) == Outcome(Fail(BadRequest, FIELDS_REQUIRED), db)
  {
  }

  /** An email some stored user already has is answered 400 and nothing is inserted. */
  lemma DuplicateRejected(db: Db, body: SignupBody, newId: Id, salt: nat)
    requires !UserIdInUse(db.users, newId) && Complete(body)
    requires exists u :: u in db.users && u.email == body.email.value
    ensures Handle(db, body, newId, salt) == Outcome(Fail(BadRequest, EMAIL_TAKEN), db)
  {
  }

  /**
   * A successful signup answers 200 with the new id and appends exactly one user: an attendee
   * with the given name and email whose stored credential is a hash of the password (the
   * password checks against it), under the generated id. The seminars are untouched.
   */
  lemma SignupEffect(db: Db, body: SignupBody, newId: Id, salt: nat)
    requires !UserIdInUse(db.users, newId)
    requires Handle(db, body, newId, salt).response.status == OK
    ensures Complete(body) && forall u :: u in db.users ==> u.email != body.email.value
    ensures var out := Handle(db, body, newId, salt);
      && |out.db.users| == |db.users| + 1
      && out.db.users[..|db.users|] == db.users
      && var u := out.db.users[|db.users|];
      && u.id == newId && out.response.body == WithId(CREATED, newId)
      && u.role == ATTENDEE
      && u.name == body.name.value && u.email == body.email.value
      && Compare(body.password.value, u.password) && u.password.rounds == BCRYPT_ROUNDS
      && out.db.seminars == db.seminars
  {
    var out := Handle(db, body, newId, salt);
    assert out.db.users[..|db.users|] == db.users;
  }

  /** Signup keeps emails, and ids, unique across the users collection. */
  lemma KeepsUnique(db: Db, body: SignupBody, newId: Id, salt: nat)
    requires !UserIdInUse(db.users, newId)
    ensures UniqueEmails(db.users) ==> UniqueEmails(Handle(db, body, newId, salt).db.users)
    ensures UniqueIds(db.users) ==> UniqueIds(Handle(db, body, newId, salt).db.users)
  {
    if Handle(db, body, newId, salt).db != db {
      InsertKeepsUnique(db.users, NewAccount(body, newId, salt));
    }
  }
}
