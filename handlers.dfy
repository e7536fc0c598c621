/**
 * The route dispatcher: which methods each route accepts, which routes
 * check the session token first, and how a sub-handler's outcome becomes
 * the response (header renewal merged in, anything thrown normalised).
 *
 * The entity handlers are seen here only through what they settle to on
 * the request they are given (`SubApi`), and the two middlewares only
 * through one run each (`Middleware`).
 */
module Handlers {
  import opened Wrappers
  import opened Http
  import Records
  import opened Helpers

  /** `_methodNotAllowed`. */
  const MethodNotAllowed := Json(405, Empty)
  /** `_crudMethods`: the default accepted methods of `_callSubApi`. */
  const CrudMethods: seq<string> := ["get", "post", "put", "delete"]
  /** `_baseRoutes`: the default accepted first segments of `_callSubGui`. */
  const BaseRoutes: seq<string> := ["all", "create", "edit", "deleted"]

  /**
   * A sub-api object: the handler stored under each method name (or, for a
   * GUI sub-router, under each first path segment), as what it settles to
   * on the request it is called with.
   */
  type SubApi = map<string, Request -> Outcome>

  /**
   * One run of `verifyToken` or `loadToken` on a request: what it threw, if
   * it threw; the error it last passed to its callback, if any; and the
   * session and renewed cookies it leaves on the request.
   */
  datatype Middleware = Middleware(thrown: Option<Reply>, reported: Option<Reply>, token: Option<Records.Session>, setHeader: Option<Headers>)

  /** The request as a middleware run leaves it: only `token` and `setHeader` change. */
  function After(m: Middleware, req: Request): (r: Request)
    ensures r.httpMethod == req.httpMethod && r.slugs == req.slugs && r.payload == req.payload && r.query == req.query
    ensures r.token == m.token && r.setHeader == m.setHeader
  {
    req.(token := m.token, setHeader := m.setHeader)
  }

  /**
   * `_useMiddleware`: nothing when the step neither threw nor reported an
   * error, otherwise the normalised error, the thrown one first.
   */
  function UseMiddleware(m: Middleware): (r: Option<Reply>)
    ensures r.None? <==> m.thrown.None? && m.reported.None?
    ensures m.thrown.Some? ==> r == Some(ErrorHandler(m.thrown.value))
    ensures m.thrown.None? && m.reported.Some? ==> r == Some(ErrorHandler(m.reported.value))
    ensures r.Some? ==> r.value.status.Some? && r.value.payload.Some?
  {
    if m.thrown.Some? then Some(ErrorHandler(m.thrown.value))
    else if m.reported.Some? then Some(ErrorHandler(m.reported.value))
    else None
  }

  /** `Object.assign(res.headers, request.setHeader)` on headers that default to `{}`. */
  function Renewed(res: Reply, setHeader: Headers): (r: Reply)
    ensures r.headers.Some?
    ensures r.headers.value.Keys == res.headers.GetOr(map[]).Keys + setHeader.Keys
    ensures forall k :: k in setHeader ==> r.headers.value[k] == setHeader[k]
    ensures forall k :: k in res.headers.GetOr(map[]) && k !in setHeader ==> r.headers.value[k] == res.headers.value[k]
    ensures r.(headers := res.headers) == res
  {
    res.(headers := Some(res.headers.GetOr(map[]) + setHeader))
  }

  /**
   * `_callSubApi`: answers 405 to a method outside `accepted` without
   * calling the handler; otherwise calls the handler for the method and
   * merges `request.setHeader` into its response. What it throws is
   * normalised, never rethrown; calling a missing handler or renewing the
   * headers of an undefined result throws a `TypeError`. `None` is an
   * undefined response.
   */
  function CallSubApi(req: Request, sub: SubApi, accepted: seq<string>): (r: Option<Reply>)
    ensures req.httpMethod !in accepted ==> r == Some(MethodNotAllowed)
    ensures req.httpMethod in accepted && req.httpMethod !in sub ==> r == Some(Internal)
    ensures req.httpMethod in accepted && req.httpMethod in sub ==>
      match sub[req.httpMethod](req)
      case Threw(e) => r == Some(ErrorHandler(e))
      case ReturnedUndefined => r == (if req.setHeader.Some? then Some(Internal) else None)
      case Returned(res) => r == Some(if req.setHeader.Some? then Renewed(res, req.setHeader.value) else res)
  {
    if req.httpMethod in accepted then
      if req.httpMethod in sub then
        match sub[req.httpMethod](req)
        case Threw(e) => Some(ErrorHandler(e))
        case ReturnedUndefined =>
          if req.setHeader.Some? then Some(ErrorHandler(RuntimeError("TypeError"))) else None
        case Returned(res) =>
          if req.setHeader.Some? then Some(Renewed(res, req.setHeader.value)) else Some(res)
      else Some(ErrorHandler(RuntimeError("TypeError")))
    else Some(Json(405, Empty))
  }

  /**
   * `_callSubGui`: dispatches on the first path segment, answering 405 to
   * a segment outside `accepted` (or to no segment at all); calling a
   * missing handler throws a `TypeError`, which is normalised.
   */
  function CallSubGui(req: Request, sub: SubApi, accepted: seq<string>): (r: Option<Reply>)
    ensures |req.slugs| == 0 || req.slugs[0] !in accepted ==> r == Some(MethodNotAllowed)
    ensures |req.slugs| > 0 && req.slugs[0] in accepted && req.slugs[0] in sub ==>
      match sub[req.slugs[0]](req)
      case Threw(e) => r == Some(ErrorHandler(e))
      case ReturnedUndefined => r == None
      case Returned(res) => r == Some(res)
    ensures |req.slugs| > 0 && req.slugs[0] in accepted && req.slugs[0] !in sub ==> r == Some(Internal)
  {
    if |req.slugs| > 0 && req.slugs[0] in accepted then
      if req.slugs[0] in sub then
        match sub[req.slugs[0]](req)
        case Threw(e) => Some(ErrorHandler(e))
        case ReturnedUndefined => None
        case Returned(res) => Some(res)
      else Some(ErrorHandler(RuntimeError("TypeError")))
    else Some(Json(405, Empty))
  }

  /**
   * The GUI pages `index`, `login` and `signup`: only `get`, answered with
   * the rendered template, whose rendering (`template`) is outside the model.
   */
  function GuiPage(req: Request, template: Result<string, Reply>): (r: Reply)
    ensures req.httpMethod != "get" ==> r == MethodNotAllowed
    ensures req.httpMethod == "get" && template.Ok? ==>
      r.status == Some(200) && r.payload == Some(Page(template.value)) && r.contentType == Some("text/html")
    ensures req.httpMethod == "get" && template.Err? ==> r == ErrorHandler(template.error)
    ensures r.status.Some? && r.payload.Some?
  {
    if req.httpMethod != "get" then MethodNotAllowed
    else match template
      case Ok(html) => Reply(Some(200), Some(Page(html)), Some("text/html"), None, None, None)
      case Err(e) => ErrorHandler(e)
  }

  /** The API routes. */
  datatype Route = Users | Login | Logout | Menu | Cart | Card | Order

  /** The methods a route passes on to its sub-api. */
  predicate Allows(route: Route, m: string) {
    match route
    case Login | Order => m == "post"
    case Logout => m == "get"
    case Users | Menu | Cart | Card => m in CrudMethods
  }

  /**
   * The requests on which a route runs `verifyToken` before anything else:
   * every method but `post` on users (even methods it then refuses), every
   * method but `get` on the menu, the CRUD methods on cart and card, `post`
   * on orders.
   */
  predicate NeedsToken(route: Route, m: string) {
    match route
    case Users => m != "post"
    case Menu => m != "get"
    case Cart | Card => m in CrudMethods
    case Order => m == "post"
    case Login | Logout => false
  }

  /** The request the sub-api sees: as `verifyToken` or `loadToken` left it, where one ran. */
  function Seen(route: Route, req: Request, verify: Middleware, load: Middleware): Request {
    if NeedsToken(route, req.httpMethod) then After(verify, req)
    else if route == Logout && req.httpMethod == "get" then After(load, req)
    else req
  }

  /**
   * The route functions `users` … `order`. `verify` is the run of
   * `verifyToken` and `load` the run of `loadToken` on this request; a
   * route that does not run one ignores it.
   *
   * A request that needs a token and fails verification gets the
   * verification error and reaches no handler; otherwise a method the
   * route does not allow gets 405, and an allowed one reaches the sub-api
   * with the request as the middleware left it. `logout` proceeds whatever
   * `loadToken` reports.
   */
  function Dispatch(route: Route, req: Request, verify: Middleware, load: Middleware, sub: SubApi): (r: Option<Reply>)
    ensures NeedsToken(route, req.httpMethod) && UseMiddleware(verify).Some? ==> r == UseMiddleware(verify)
    ensures !(NeedsToken(route, req.httpMethod) && UseMiddleware(verify).Some?) ==>
      if Allows(route, req.httpMethod) then r == CallSubApi(Seen(route, req, verify, load), sub, CrudMethods)
      else r == Some(MethodNotAllowed)
  {
    var m := req.httpMethod;
    match route
    case Users =>
      if m != "post" then
        var err := UseMiddleware(verify);
        if err.Some? then err else CallSubApi(After(verify, req), sub, CrudMethods)
      else CallSubApi(req, sub, CrudMethods)
    case Login =>
      if m == "post" then CallSubApi(req, sub, CrudMethods) else Some(MethodNotAllowed)
    case Logout =>
      if m == "get" then
        var _ := UseMiddleware(load);
        CallSubApi(After(load, req), sub, CrudMethods)
      else Some(MethodNotAllowed)
    case Menu =>
      if m != "get" then
        var err := UseMiddleware(verify);
        if err.Some? then err else CallSubApi(After(verify, req), sub, CrudMethods)
      else CallSubApi(req, sub, CrudMethods)
    case Cart | Card =>
      if m in CrudMethods then
        var err := UseMiddleware(verify);
        if err.Some? then err else CallSubApi(After(verify, req), sub, CrudMethods)
      else Some(MethodNotAllowed)
    case Order =>
      if m == "post" then
        var err := UseMiddleware(verify);
        if err.Some? then err else CallSubApi(After(verify, req), sub, CrudMethods)
      else Some(MethodNotAllowed)
  }

  /**
   * A handler is reached only with a method its route allows and, where
   * the route needs a token, only after verification succeeded: a refused
   * request's answer does not depend on the handlers at all.
   */
  lemma HandlersGuarded(route: Route, req: Request, verify: Middleware, load: Middleware, sub: SubApi, other: SubApi)
    requires !Allows(route, req.httpMethod) || (NeedsToken(route, req.httpMethod) && UseMiddleware(verify).Some?)
    ensures Dispatch(route, req, verify, load, sub) == Dispatch(route, req, verify, load, other)
    ensures var r := Dispatch(route, req, verify, load, sub);
      r.Some? && r.value.status.Some? && r.value.payload.Some?
  {
  }

  /**
   * On users and menu the token check comes before the method check: a
   * method neither accepts still gets the verification error when the token
   * is bad. Cart and card check the method first.
   */
  lemma VerificationBeforeMethodGate(req: Request, verify: Middleware, load: Middleware, sub: SubApi)
    requires req.httpMethod !in CrudMethods && UseMiddleware(verify).Some?
    ensures Dispatch(Users, req, verify, load, sub) == UseMiddleware(verify)
    ensures Dispatch(Menu, req, verify, load, sub) == UseMiddleware(verify)
    ensures Dispatch(Cart, req, verify, load, sub) == Some(MethodNotAllowed)
    ensures Dispatch(Card, req, verify, load, sub) == Some(MethodNotAllowed)
  {
  }
}
