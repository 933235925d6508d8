/**
 * Requests and responses of the route handlers, and the session token they carry.
 */
module Http {
  import opened Common
  import opened SeminarModel

  /** The payload a session token carries; each member may be missing from the JSON. */
  datatype Claims = Claims(userId: Option<Id>, email: Option<string>, name: Option<string>, role: Option<string>)

  /**
   * A session token as the `token` cookie carries it. Signing and base64/JSON encoding are not
   * modelled: `payload` is what base64url-decoding the middle segment and parsing it yields
   * (`None` when it is not decodable), `plainBase64` whether that segment also lies in the
   * plain base64 alphabet (it holds neither '-' nor '_'), `signedWithSecret` whether the
   * signature checks against the server secret, and `age` / `expiresIn` the seconds since
   * issue and the validity window.
   */
  datatype Token = Token(payload: Option<Claims>, plainBase64: bool, signedWithSecret: bool, expiresIn: int, age: int)

  /**
   * `JSON.parse(atob(token.split('.')[1]))`, as the handlers do it: the payload is read
   * without checking the signature or the expiry. `atob` takes the plain base64 alphabet
   * only, so a segment holding '-' or '_' throws.
   */
  function Decode(t: Token): (c: Option<Claims>)
    ensures c.Some? <==> t.payload.Some? && t.plainBase64
    ensures c.Some? ==> c == t.payload
  {
    if t.plainBase64 then t.payload else None
  }

  datatype Status = OK | Created | BadRequest | Unauthorized | Forbidden | NotFound | MethodNotAllowed | ServerError {
    function Code(): int {
      match this
      case OK => 200
      case Created => 201
      case BadRequest => 400
      case Unauthorized => 401
      case Forbidden => 403
      case NotFound => 404
      case MethodNotAllowed => 405
      case ServerError => 500
    }
  }

  /** Response bodies: an error or a message, possibly with the id of a new document, or a listing. */
  datatype Body =
    | Error(error: string)
    | Message(message: string)
    | WithId(message: string, id: Id)
    | SeminarList(seminars: map<Id, Seminar>)
    | SummaryList(items: map<Id, Summary>)
    | LoginInfo(message: string, role: string, name: string, email: string)
    | NoBody

  datatype Response = Response(status: Status, body: Body)

  function Fail(status: Status, error: string): Response {
    Response(status, Error(error))
  }

  // Messages several handlers share.
  const METHOD_NOT_ALLOWED: string := "Method not allowed"
  const TOKEN_MISSING: string := "Authentication token is missing"
  const INVALID_AUTH_TOKEN: string := "Invalid authentication token"
  const USER_ID_MISSING: string := "User ID is missing from the token"
  const SEMINAR_NOT_FOUND: string := "Seminar not found"
  const SEMINAR_FULL: string := "Seminar is full"

  /** What the framework answers for a method a route file does not export. */
  const NOT_EXPORTED: Response := Response(MethodNotAllowed, NoBody)

  /** A request: its method, its `token` cookie (an empty cookie value counts as none) and its parsed JSON body. */
  datatype Request<B> = Request(verb: HttpMethod, cookie: Option<Token>, body: B)
}
