/** Shared vocabulary of the seminar service: optional values, identifiers, roles and HTTP methods. */
module Common {

  /** A value that may be absent (a missing document field, an `undefined` property). */
  datatype Option<+T> = None | Some(value: T) {
    function GetOr(default: T): T {
      match this
      case Some(v) => v
      case None => default
    }
  }

  /** Document identifiers (ObjectIds and their string forms) are opaque strings. */
  type Id = string

  /** The three roles a user record or a token may carry. Roles are plain strings in the store. */
  const ATTENDEE: string := "attendee"
  const AGENT: string := "agent"
  const ADMIN: string := "admin"

  datatype HttpMethod = GET | POST | PUT | PATCH | DELETE

  /** JavaScript truthiness of an optional string: `undefined` and `""` are falsy. */
  predicate Truthy(s: Option<string>) {
    s.Some? && s.value != ""
  }
}
