/**
 * The document store as the routes see it: a `seminars` collection keyed by id and a `users`
 * collection in its natural order, the update operators applied to a seminar's id lists, and
 * the handful of queries the routes issue.
 */
module Store {
  import opened Common
  import ArrayOps
  import opened SeminarModel
  import opened UserModel
  import opened Http

  /** Both collections, as a value. */
  datatype Db = Db(seminars: map<Id, Seminar>, users: seq<User>)

  /** What a handler answers together with the store it leaves behind. */
  datatype Outcome = Outcome(response: Response, db: Db)

  /** Every seminar keeps `|attendees| <= capacity`. */
  ghost predicate AllWithinCapacity(db: Db) {
    forall id :: id in db.seminars ==> WithinCapacity(db.seminars[id])
  }

  /** No two user documents share an id / an email. */
  ghost predicate UniqueIds(users: seq<User>) {
    forall i, j :: 0 <= i < j < |users| ==> users[i].id != users[j].id
  }

  ghost predicate UniqueEmails(users: seq<User>) {
    forall i, j :: 0 <= i < j < |users| ==> users[i].email != users[j].email
  }

  /** `array.includes(x)` in JavaScript; an undefined `x` is never among the string ids. */
  predicate Includes(xs: seq<Id>, x: Option<Id>) {
    x.Some? && x.value in xs
  }

  // ---------------------------------------------------------------------------------------
  // Update operators on a seminar's id lists

  datatype ListField = Attendees | Invitees | ConfirmedAttendees

  /** One operator of an `updateOne` call, applied to one list field. */
  datatype ArrayUpdate =
    | AddToSetOf(field: ListField, value: Id)
    | AddEachToSetOf(field: ListField, values: seq<Id>)
    | PullFrom(field: ListField, value: Id)
    | PushOnto(field: ListField, value: Id)

  function Field(s: Seminar, f: ListField): Option<seq<Id>> {
    match f
    case Attendees => s.attendees
    case Invitees => s.invitees
    case ConfirmedAttendees => s.confirmedAttendees
  }

  function WithField(s: Seminar, f: ListField, v: Option<seq<Id>>): (r: Seminar)
    ensures Field(r, f) == v
    ensures forall g :: g != f ==> Field(r, g) == Field(s, g)
    ensures r.title == s.title && r.date == s.date && r.time == s.time && r.description == s.description
    ensures r.capacity == s.capacity && r.price == s.price && r.agentId == s.agentId
  {
    match f
    case Attendees => s.(attendees := v)
    case Invitees => s.(invitees := v)
    case ConfirmedAttendees => s.(confirmedAttendees := v)
  }

  function Apply(s: Seminar, u: ArrayUpdate): Seminar {
    match u
    case AddToSetOf(f, x) => WithField(s, f, Some(ArrayOps.AddToSetField(Field(s, f), x)))
    case AddEachToSetOf(f, xs) => WithField(s, f, Some(ArrayOps.AddEachToSetField(Field(s, f), xs)))
    case PullFrom(f, x) => WithField(s, f, ArrayOps.PullField(Field(s, f), x))
    case PushOnto(f, x) => WithField(s, f, Some(ArrayOps.PushField(Field(s, f), x)))
  }

  /** The operators of one `updateOne` call, applied in order. */
  function ApplyAll(s: Seminar, us: seq<ArrayUpdate>): Seminar
    decreases |us|
  {
    if us == [] then s else ApplyAll(Apply(s, us[0]), us[1..])
  }

  // ---------------------------------------------------------------------------------------
  // Queries on the seminars collection

  /**
   * The query filter `{ <field>: userId }` on one document: an array field matches a string
   * it contains. An undefined `userId` is sent as `null`, which matches a document lacking
   * the field.
   */
  predicate FieldMatches(s: Seminar, f: ListField, userId: Option<Id>) {
    match userId
    case Some(x) => Field(s, f).Some? && x in Field(s, f).value
    case None => Field(s, f).None?
  }

  /** `find({ <field>: userId }, { projection: { title: 1, date: 1, time: 1 } })`, keyed by id. */
  function FindMember(seminars: map<Id, Seminar>, f: ListField, userId: Option<Id>): (r: map<Id, Summary>)
    ensures r.Keys <= seminars.Keys
    ensures forall id :: id in r ==> r[id] == Summarize(seminars[id])
  {
    map id | id in seminars && FieldMatches(seminars[id], f, userId) :: Summarize(seminars[id])
  }

  // ---------------------------------------------------------------------------------------
  // Queries on the users collection

  /** The position of the first user with this id, in natural order. */
  function FirstWithId(users: seq<User>, id: Id): (r: Option<nat>)
    ensures r.Some? ==> r.value < |users| && users[r.value].id == id
                        && forall j :: 0 <= j < r.value ==> users[j].id != id
    ensures r.None? ==> forall j :: 0 <= j < |users| ==> users[j].id != id
  {
    if users == [] then None
    else if users[0].id == id then Some(0)
    else match FirstWithId(users[1..], id)
      case None => None
      case Some(k) => Some(k + 1)
  }

  /** `findOne({ email })`: the first user with this email, in natural order. */
  function FindByEmail(users: seq<User>, email: string): (r: Option<User>)
    ensures r.Some? ==> r.value in users && r.value.email == email
    ensures r.None? ==> forall u :: u in users ==> u.email != email
    ensures r.Some? && users != [] && users[0].email == email ==> r.value == users[0]
    ensures r.Some? ==> exists i :: 0 <= i < |users| && users[i] == r.value
                                  && forall j :: 0 <= j < i ==> users[j].email != email
  {
    if users == [] then None
    else if users[0].email == email then Some(users[0])
    else FindByEmail(users[1..], email)
  }

  /** `find({ email: { $in: emails }, role })`: the matching users, in natural order. */
  function Matching(users: seq<User>, emails: seq<string>, role: string): (r: seq<User>)
    ensures forall u :: u in r <==> u in users && u.email in emails && u.role == role
    ensures |r| <= |users|
  {
    if users == [] then []
    else
      var rest := Matching(users[1..], emails, role);
      assert forall u :: u in users <==> u == users[0] || u in users[1..];
      if users[0].email in emails && users[0].role == role then [users[0]] + rest else rest
  }

  /** A user appended after every stored one is what `findOne({ email })` finds when no stored user has the email. */
  lemma {:induction false} FindAppended(users: seq<User>, u: User)
    requires forall v :: v in users ==> v.email != u.email
    ensures FindByEmail(users + [u], u.email) == Some(u)
    decreases |users|
  {
    if users == [] {
      assert users + [u] == [u];
    } else {
      assert (users + [u])[1..] == users[1..] + [u];
      FindAppended(users[1..], u);
    }
  }

  /** The ids of a list of users, in order. */
  function Ids(users: seq<User>): (r: seq<Id>)
    ensures |r| == |users| && forall i :: 0 <= i < |users| ==> r[i] == users[i].id
    ensures forall id :: id in r <==> exists u :: u in users && u.id == id
  {
    if users == [] then [] else [users[0].id] + Ids(users[1..])
  }

  /** `updateOne({ _id: userId }, { $addToSet: { registeredSeminars: seminarId } })`. */
  function AddRegistered(users: seq<User>, userId: Id, seminarId: Id): (r: seq<User>)
    ensures |r| == |users|
    ensures forall j :: 0 <= j < |users| ==> r[j].id == users[j].id && r[j].email == users[j].email
  {
    match FirstWithId(users, userId)
    case None => users
    case Some(i) =>
      users[i := users[i].(registeredSeminars := ArrayOps.AddToSet(users[i].registeredSeminars, seminarId))]
  }

  /**
   * Registering a seminar on a user touches that user's `registeredSeminars` only: afterwards
   * the seminar is there, exactly once if it was not there before; every other user and field
   * is as it was, and nothing happens when no user has the id.
   */
  lemma AddRegisteredEffect(users: seq<User>, userId: Id, seminarId: Id)
    requires UniqueIds(users)
    ensures var r := AddRegistered(users, userId, seminarId);
      forall j :: 0 <= j < |users| ==>
        if users[j].id == userId then
          && r[j] == users[j].(registeredSeminars := r[j].registeredSeminars)
          && seminarId in r[j].registeredSeminars
          && multiset(r[j].registeredSeminars)[seminarId]
             == (if seminarId in users[j].registeredSeminars then multiset(users[j].registeredSeminars)[seminarId] else 1)
        else r[j] == users[j]
  {
  }

  /** Some user document already has this id. */
  predicate UserIdInUse(users: seq<User>, id: Id) {
    exists j :: 0 <= j < |users| && users[j].id == id
  }

  /**
   * Appending a user whose email no stored user has, and whose id no stored user has, keeps
   * emails and ids unique.
   */
  lemma {:induction false} InsertKeepsUnique(users: seq<User>, u: User)
    requires FindByEmail(users, u.email).None? && !UserIdInUse(users, u.id)
    ensures UniqueEmails(users) ==> UniqueEmails(users + [u])
    ensures UniqueIds(users) ==> UniqueIds(users + [u])
  {
    var r := users + [u];
    forall j | 0 <= j < |users|
      ensures r[j].email != u.email && r[j].id != u.id
    {
      assert r[j] == users[j] && users[j] in users;
    }
  }

  // ---------------------------------------------------------------------------------------
  // The collections as a mutable object, with the driver calls the routes make

  class Database {
    var seminars: map<Id, Seminar>
    var users: seq<User>

    function State(): Db
      reads this
    {
      Db(seminars, users)
    }

    constructor ()
      ensures seminars == map[] && users == []
    {
      seminars := map[];
      users := [];
    }

    /** `seminars.findOne({ _id: id })`. */
    method FindSeminar(id: Id) returns (s: Option<Seminar>)
      ensures s.Some? <==> id in seminars
      ensures s.Some? ==> s.value == seminars[id]
    {
      s := if id in seminars then Some(seminars[id]) else None;
    }

    /** `seminars.find({}).toArray()`. */
    method AllSeminars() returns (all: map<Id, Seminar>)
      ensures all.Keys == seminars.Keys && forall id :: id in all ==> all[id] == seminars[id]
    {
      all := seminars;
    }

    /** `seminars.insertOne(doc)` under a freshly generated id. */
    method InsertSeminar(id: Id, doc: Seminar) returns (insertedId: Id)
      requires id !in seminars
      modifies this
      ensures seminars == old(seminars)[id := doc] && users == old(users)
      ensures insertedId == id
    {
      seminars := seminars[id := doc];
      insertedId := id;
    }

    /**
     * `seminars.updateOne({ _id: id }, update)`: applies the operators to the matching
     * document, if any; `modifiedCount` is 1 exactly when the document changed.
     */
    method UpdateSeminar(id: Id, update: seq<ArrayUpdate>) returns (modifiedCount: nat)
      modifies this
      ensures id in old(seminars) ==> seminars == old(seminars)[id := ApplyAll(old(seminars)[id], update)]
      ensures id !in old(seminars) ==> seminars == old(seminars)
      ensures users == old(users)
      ensures modifiedCount == if id in old(seminars) && seminars[id] != old(seminars)[id] then 1 else 0
    {
      modifiedCount := 0;
      if id in seminars {
        var before := seminars[id];
        var after := ApplyAll(before, update);
        seminars := seminars[id := after];
        if after != before {
          modifiedCount := 1;
        }
      }
    }

    /** `users.findOne({ email })`. */
    method FindUserByEmail(email: string) returns (u: Option<User>)
      ensures u.Some? ==> u.value in users && u.value.email == email
      ensures u.None? <==> forall v :: v in users ==> v.email != email
      ensures u.Some? ==> exists i :: 0 <= i < |users| && users[i] == u.value
                                    && forall j :: 0 <= j < i ==> users[j].email != email
      ensures u == FindByEmail(users, email)
    {
      u := FindByEmail(users, email);
    }

    /** `users.find({ email: { $in: emails }, role }).toArray()`. */
    method FindUsers(emails: seq<string>, role: string) returns (found: seq<User>)
      ensures forall v :: v in found <==> v in users && v.email in emails && v.role == role
      ensures found == Matching(users, emails, role)
    {
      found := Matching(users, emails, role);
    }

    /** `users.insertOne(doc)`; the document's id is a freshly generated one. */
    method InsertUser(doc: User) returns (insertedId: Id)
      requires !UserIdInUse(users, doc.id)
      modifies this
      ensures users == old(users) + [doc] && seminars == old(seminars)
      ensures insertedId == doc.id
    {
      users := users + [doc];
      insertedId := doc.id;
    }

    /** `users.updateOne({ _id: userId }, { $addToSet: { registeredSeminars: seminarId } })`. */
    method AddRegisteredSeminar(userId: Id, seminarId: Id)
      modifies this
      ensures users == AddRegistered(old(users), userId, seminarId) && seminars == old(seminars)
    {
      users := AddRegistered(users, userId, seminarId);
    }
  }
}
