/**
 * Requests as the router hands them to the handlers, and the loose response
 * and error objects the handlers return or throw.
 */
module Http {
  import opened Wrappers
  import opened JsValues
  import opened Records

  /** A header map; `Set-Cookie` carries several values. */
  type Headers = map<string, seq<string>>

  /** The JSON bodies the handlers send. */
  datatype Payload =
    | Empty                                   // {}
    | Message(err: string, message: string)   // {err, message}
    | CartBody(cart: Cart)
    | ItemBody(item: MenuItem)
    | ItemList(items: seq<MenuItem>)
    | UserBody(user: UserView)
    | AuthBody(auth: bool)
    | CardBody(card: StripeCard)
    | StripeErrorBody(err: string, error: StripeError)   // {err, ...res.error}
    | Page(html: string)                      // a rendered template or another body produced outside the model

  /**
   * A response object or a thrown error. Both are plain objects in the
   * source: a response has `status` and `payload`; a thrown store or runtime
   * error has neither, only a `code` (as `ENOENT`) or a `name` (as `TypeError`).
   */
  datatype Reply = Reply(
    status: Option<int>,
    payload: Option<Payload>,
    contentType: Option<string>,
    headers: Option<Headers>,
    code: Option<string>,
    name: Option<string>)

  const JsonType := "application/json"

  /** `{status, payload, contentType: 'application/json'}`. */
  function Json(status: int, payload: Payload): Reply {
    Reply(Some(status), Some(payload), Some(JsonType), None, None, None)
  }

  /** `{status, payload}` without a content type. */
  function Bare(status: int, payload: Payload): Reply {
    Reply(Some(status), Some(payload), None, None, None, None)
  }

  /** A JavaScript runtime error object (`TypeError`, `ReferenceError`): no status, no payload. */
  function RuntimeError(name: string): Reply {
    Reply(None, None, None, None, None, Some(name))
  }

  /** What an async handler settles to. */
  datatype Outcome = Returned(reply: Reply) | ReturnedUndefined | Threw(error: Reply)

  /** The normalised request: lower-case method, path segments (route first), parsed body, query and middleware additions. */
  datatype Request = Request(
    httpMethod: string,
    slugs: seq<string>,
    payload: map<string, Input>,
    query: map<string, string>,
    token: Option<Session>,
    setHeader: Option<Headers>)

  /** `request.payload[name]`. */
  function Field(req: Request, name: string): Input {
    if name in req.payload then req.payload[name] else Undefined
  }

  /** `request.slugs[i]`. */
  function Slug(req: Request, i: nat): Input {
    if i < |req.slugs| then Str(req.slugs[i]) else Undefined
  }

  /** `request.queryStringObject.get(name)`: the value, or `null` when absent. */
  function Query(req: Request, name: string): Input {
    if name in req.query then Str(req.query[name]) else Null
  }
}
