/**
 * A user document as the `users` collection stores it, the `User` model class's constructor
 * (app/models/User.js), and the password hashing the routes apply.
 */
module UserModel {
  import opened Common

  /** The work factor every route passes to the password hash. */
  const BCRYPT_ROUNDS: nat := 10

  /**
   * A salted password hash. The hash function itself is not modelled: a credential records
   * the password, the work factor and the salt it was made from, so comparing a password
   * against it succeeds exactly when the password is the hashed one.
   */
  datatype Credential = BcryptHash(password: string, rounds: nat, salt: nat)

  /** `bcrypt.hash(password, 10)`; the random salt is a parameter. */
  function Hash(password: string, salt: nat): (c: Credential)
    ensures Compare(password, c) && c.rounds == BCRYPT_ROUNDS
  {
    BcryptHash(password, BCRYPT_ROUNDS, salt)
  }

  /** `bcrypt.compare(candidate, stored)`. */
  predicate Compare(candidate: string, stored: Credential) {
    candidate == stored.password
  }

  /**
   * A stored user. `registeredSeminars` is absent from a new document; as nothing reads it
   * and `$addToSet` treats an absent array like an empty one, absent is written `[]`.
   */
  datatype User = User(
    id: Id,
    name: string,
    email: string,
    password: Credential,
    role: string,
    registeredSeminars: seq<Id>)

  /** The argument object of the model class's constructor. */
  datatype UserData = UserData(
    id: Option<Id>,
    name: string,
    email: string,
    password: Credential,
    role: Option<string>)

  /**
   * `new User(data)`: a supplied `_id` is used, otherwise the freshly generated one; the role
   * defaults to attendee when it is absent or empty; name, email and password are copied.
   */
  function NewUser(data: UserData, generated: Id): (u: User)
    ensures u.id == (if Truthy(data.id) then data.id.value else generated)
    ensures !Truthy(data.role) ==> u.role == ATTENDEE
    ensures Truthy(data.role) ==> u.role == data.role.value
    ensures u.name == data.name && u.email == data.email && u.password == data.password
    ensures u.registeredSeminars == []
  {
    User(if Truthy(data.id) then data.id.value else generated,
         data.name, data.email, data.password,
         if Truthy(data.role) then data.role.value else ATTENDEE,
         [])
  }
}
