/**
 * The Worker's `fetch` handler: a chain of guard clauses that either answers
 * the request itself or forwards it to an allowlisted upstream host and
 * relays the upstream's answer with CORS headers added.
 *
 * The two calls into the runtime that can fail are parameters:
 * `parseUrl` is `new URL(u)` (`None` when it throws) and `fetch` is the
 * outbound call (`None` when it rejects).
 */
module Proxy {
  import opened Wrappers
  import opened Http
  import Allowlist

  // ---------------------------------------------------------------------------
  // Configuration, inbound request, outbound plan
  // ---------------------------------------------------------------------------

  /** The Worker's bindings; `None` is an unset variable. */
  datatype Env = Env(allowOrigin: Option<string>, allowedHosts: Option<string>, authToken: Option<string>)

  /**
   * What the handler reads from the inbound request: method, URL pathname,
   * headers, the first `u` query value and the body text.
   */
  datatype Request = Request(verb: string, pathname: string, headers: HeaderMap, u: Option<string>, body: string)

  /** The result of `new URL(u)`: its serialisation and its `host` (hostname[:port]). */
  datatype ParsedUrl = ParsedUrl(href: string, host: string)

  /** `RequestInit.redirect`. */
  datatype Redirect = Follow | Error | Manual

  /** The outbound call: target URL and host, and the `init` record passed to `fetch`. */
  datatype Plan = Plan(url: string, host: string, verb: string, headers: map<HeaderName, string>, body: Option<string>, redirect: Redirect)

  /**
   * What the gates decide: answer now (with the arguments of the `new
   * Response` call the gate makes), forward, or throw (a malformed `u`).
   */
  datatype Outcome = Reject(response: Response) | Forward(plan: Plan) | Fault

  /** The upstream's answer: status, `content-type` header and body text. */
  datatype Upstream = Upstream(status: int, contentType: Option<string>, body: string)

  /** What the handler finally does: answer, or let an exception escape. */
  datatype Completion = Respond(response: Response) | Throw

  const ProxyPath := "/overlay-proxy"
  const DefaultOrigin := "*"
  const DefaultHosts := "app.overlays.uno"
  const JsonType := "application/json"
  const NotFoundBody := "Not found"
  const UnauthorizedBody := "{\"error\":\"Unauthorized\"}"
  const MissingTargetBody := "{\"error\":\"Missing \\\"u\\\" query param\"}"
  const HostNotAllowedBody := "{\"error\":\"Host not allowed\"}"
  const AllowedMethods := "GET,POST,PUT,DELETE,OPTIONS"
  const AllowedHeaders := "Content-Type, Authorization, X-Proxy-Token"


  /** JavaScript truthiness of a string that may be `undefined` or `null`. */
  predicate Truthy(v: Option<string>) {
    v.Some? && v.value != ""
  }

  /** `v || fallback` for a string that may be `undefined` or `null`. */
  function OrElse(v: Option<string>, fallback: string): string {
    if Truthy(v) then v.value else fallback
  }

  /** `env.ALLOW_ORIGIN || "*"`. */
  function Origin(env: Env): string {
    OrElse(env.allowOrigin, DefaultOrigin)
  }

  /** `(env.ALLOWED_HOSTS || "app.overlays.uno").split(",").map(s => s.trim())`. */
  function AllowedHosts(env: Env): seq<string> {
    Allowlist.HostList(OrElse(env.allowedHosts, DefaultHosts))
  }

  // ---------------------------------------------------------------------------
  // Responses the handler builds itself
  // ---------------------------------------------------------------------------

  /** `CORS(origin)`: the three `Access-Control-*` headers. */
  function Cors(origin: string): map<HeaderName, string> {
    map[AllowOrigin := origin, AllowMethods := AllowedMethods, AllowHeaders := AllowedHeaders]
  }

  /** `headers` carries the CORS block for `origin`. */
  predicate HasCors(headers: map<HeaderName, string>, origin: string) {
    && AllowOrigin in headers && headers[AllowOrigin] == origin
    && AllowMethods in headers && headers[AllowMethods] == AllowedMethods
    && AllowHeaders in headers && headers[AllowHeaders] == AllowedHeaders
  }

  function Preflight(env: Env): Response {
    Response(204, None, Cors(Origin(env)))
  }

  function NotFound(): Response {
    Response(404, Some(NotFoundBody), map[])
  }

  /** A JSON error answer: Content-Type plus the CORS block. */
  function JsonError(env: Env, status: int, body: string): Response {
    Response(status, Some(body), Cors(Origin(env))[ContentType := JsonType])
  }

  // ---------------------------------------------------------------------------
  // The gates
  // ---------------------------------------------------------------------------

  /** The token gate lets the request through. */
  predicate TokenAccepted(req: Request, env: Env) {
    !Truthy(env.authToken) || Get(req.headers, ProxyToken) == env.authToken
  }

  /** The outbound headers: Content-Type always, Authorization when present and non-empty. */
  function OutboundHeaders(inbound: HeaderMap): map<HeaderName, string> {
    var headers := map[ContentType := OrElse(Get(inbound, ContentType), JsonType)];
    var auth := Get(inbound, Authorization);
    if Truthy(auth) then headers[Authorization := auth.value] else headers
  }

  /** The outbound `init` record for a request that passed every gate. */
  function OutboundPlan(req: Request, target: ParsedUrl): Plan {
    Plan(target.href, target.host, req.verb, OutboundHeaders(req.headers),
         if req.verb == "GET" || req.verb == "HEAD" then None else Some(req.body),
         Manual)
  }

  /** The guard clauses of the handler, in source order. */
  function Decide(req: Request, env: Env, parseUrl: string -> Option<ParsedUrl>): Outcome {
    if req.verb == "OPTIONS" then Reject(Preflight(env))
    else if req.pathname != ProxyPath then Reject(NotFound())
    else if !TokenAccepted(req, env) then Reject(JsonError(env, 401, UnauthorizedBody))
    else if !Truthy(req.u) then Reject(JsonError(env, 400, MissingTargetBody))
    else match parseUrl(req.u.value)
      case None => Fault
      case Some(target) =>
        if target.host !in AllowedHosts(env) then Reject(JsonError(env, 400, HostNotAllowedBody))
        else Forward(OutboundPlan(req, target))
  }

  // ---------------------------------------------------------------------------
  // The relay
  // ---------------------------------------------------------------------------

  /** The relayed headers: the upstream content type (or JSON) and the CORS block. */
  function RelayHeaders(env: Env, up: Upstream): map<HeaderName, string> {
    Cors(Origin(env))[ContentType := OrElse(up.contentType, JsonType)]
  }

  /**
   * The relay as the source writes it: the upstream body text is always
   * passed to the `Response` constructor.
   */
  function RelayAsWritten(env: Env, up: Upstream): Option<Response> {
    NewResponse(up.status, Some(up.body), RelayHeaders(env, up))
  }

  /** The relay corrected: a null body status is relayed with a null body. */
  function Relay(env: Env, up: Upstream): Option<Response> {
    NewResponse(up.status, if NullBodyStatus(up.status) then None else Some(up.body), RelayHeaders(env, up))
  }

  /** `return` of a constructed response, or the constructor's exception. */
  function Construct(r: Option<Response>): Completion {
    match r
    case None => Throw
    case Some(response) => Respond(response)
  }

  /** The whole handler, with the corrected relay. */
  function Handle(req: Request, env: Env, parseUrl: string -> Option<ParsedUrl>, fetch: Plan -> Option<Upstream>): Completion {
    match Decide(req, env, parseUrl)
    case Reject(init) => Construct(NewResponse(init.status, init.body, init.headers))
    case Fault => Throw
    case Forward(plan) =>
      match fetch(plan)
      case None => Throw
      case Some(up) => Construct(Relay(env, up))
  }

  /** The whole handler as the source writes it, with `RelayAsWritten`. */
  function HandleAsWritten(req: Request, env: Env, parseUrl: string -> Option<ParsedUrl>, fetch: Plan -> Option<Upstream>): Completion {
    match Decide(req, env, parseUrl)
    case Reject(init) => Construct(NewResponse(init.status, init.body, init.headers))
    case Fault => Throw
    case Forward(plan) =>
      match fetch(plan)
      case None => Throw
      case Some(up) => Construct(RelayAsWritten(env, up))
  }

  /** Every gate passes, stated without reference to their order. */
  predicate GatesPass(req: Request, env: Env, parseUrl: string -> Option<ParsedUrl>) {
    && req.verb != "OPTIONS"
    && req.pathname == ProxyPath
    && TokenAccepted(req, env)
    && Truthy(req.u)
    && parseUrl(req.u.value).Some?
    && parseUrl(req.u.value).value.host in AllowedHosts(env)
  }
}
