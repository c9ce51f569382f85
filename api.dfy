/** The values that cross the boundary to the REST backend: users, the
    requests the two core files issue, and what a request can come back with.
    Transport, base URL and deployment stage are not modelled. */
module Api {

  datatype Option<T> = None | Some(value: T)

  /** Integer milliseconds since the epoch. */
  type Millis = int

  /** A user record as the backend returns it. The identifier and the
      username are always present; the other text fields the backend may
      leave out (or send as null) are None. */
  datatype User = User(
    id: string,
    username: string,
    full_name: Option<string>,
    email: Option<string>,
    password: Option<string>,
    role: Option<string>,
    createdAt: Millis)

  /** A JSON value held by a form field: a string, or null. */
  datatype JsValue = Str(s: string) | Null

  /** A JSON object, as a map from keys to values. */
  type JsObject = map<string, JsValue>

  datatype Request =
    | GetUsers
    | PostUser(body: JsObject)
    | PutUser(id: string, body: JsObject)
    | DeleteUser(id: string)

  /** The backend's error object, `err.response.data.error`. */
  datatype ErrorBody = ErrorBody(status: Option<int>, message: Option<string>)

  /** How a request ended: the client resolved with a response, or it threw;
      a thrown error may carry the backend's error object. */
  datatype Outcome =
    | Responded(status: int)
    | Threw(error: Option<ErrorBody>)

  /** How a GET of the user list ended. */
  datatype FetchOutcome =
    | Fetched(status: int, data: seq<User>)
    | FetchThrew
}
