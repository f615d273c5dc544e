/** What the handler guarantees, stated over every request and configuration. */
module ProxyProperties {
  import opened Wrappers
  import opened Http
  import opened Proxy
  import Allowlist

  // ---------------------------------------------------------------------------
  // The gates, one at a time and in order
  // ---------------------------------------------------------------------------

  /** Every OPTIONS request, whatever its path, is answered 204 with only the CORS block. */
  lemma {:induction false} PreflightOnEveryPath(req: Request, env: Env, parseUrl: string -> Option<ParsedUrl>)
    requires req.verb == "OPTIONS"
    ensures var o := Decide(req, env, parseUrl);
      && o.Reject?
      && o.response.status == 204
      && o.response.body == None
      && o.response.headers.Keys == {AllowOrigin, AllowMethods, AllowHeaders}
      && HasCors(o.response.headers, Origin(env))
      && o.response.headers[AllowOrigin] == (if env.allowOrigin.Some? && env.allowOrigin.value != "" then env.allowOrigin.value else "*")
  {
  }

  /**
   * Any other request off the single published path is a bare 404: the
   * handler sets no header, so the answer carries only the Content-Type the
   * runtime gives a string body, and no CORS block.
   */
  lemma {:induction false} NotFoundOffPath(req: Request, env: Env, parseUrl: string -> Option<ParsedUrl>, fetch: Plan -> Option<Upstream>)
    requires req.verb != "OPTIONS" && req.pathname != "/overlay-proxy"
    ensures var o := Decide(req, env, parseUrl);
      && o.Reject?
      && o.response.status == 404
      && o.response.body == Some("Not found")
      && o.response.headers == map[]
    ensures Handle(req, env, parseUrl, fetch) == Respond(Response(404, Some("Not found"), map[ContentType := "text/plain;charset=UTF-8"]))
  {
  }

  /**
   * On the published path, a non-OPTIONS request is refused with 401 exactly
   * when a token is configured and the X-Proxy-Token header is absent or
   * differs from it.
   */
  lemma {:induction false} TokenGate(req: Request, env: Env, parseUrl: string -> Option<ParsedUrl>)
    requires req.verb != "OPTIONS" && req.pathname == ProxyPath
    ensures var o := Decide(req, env, parseUrl);
      (o.Reject? && o.response.status == 401)
      <==> (env.authToken.Some? && env.authToken.value != ""
            && (Get(req.headers, ProxyToken) == None
                || Get(req.headers, ProxyToken).value != env.authToken.value))
    ensures var o := Decide(req, env, parseUrl);
      o.Reject? && o.response.status == 401 ==> o.response.body == Some("{\"error\":\"Unauthorized\"}")
  {
  }

  /**
   * With no token configured, the X-Proxy-Token header is never consulted:
   * changing it, and nothing else, cannot change the outcome.
   */
  lemma {:induction false} TokenIgnoredWhenUnset(req: Request, env: Env, parseUrl: string -> Option<ParsedUrl>, other: HeaderMap)
    requires !Truthy(env.authToken)
    requires other - {Key(ProxyToken)} == req.headers - {Key(ProxyToken)}
    ensures Decide(req, env, parseUrl) == Decide(req.(headers := other), env, parseUrl)
  {
    var k := Key(ProxyToken);
    assert Key(ContentType) != k && Key(Authorization) != k;
    assert Key(ContentType) in other <==> Key(ContentType) in other - {k};
    assert Key(ContentType) in req.headers <==> Key(ContentType) in req.headers - {k};
    assert Key(Authorization) in other <==> Key(Authorization) in other - {k};
    assert Key(Authorization) in req.headers <==> Key(Authorization) in req.headers - {k};
    assert Get(other, ContentType) == Get(req.headers, ContentType);
    assert Get(other, Authorization) == Get(req.headers, Authorization);
  }

  /**
   * The order of the gates: each outcome happens exactly when every earlier
   * gate passed and its own failed (preflight, path, token, missing `u`,
   * malformed `u`, host).
   */
  lemma {:induction false} GateOrder(req: Request, env: Env, parseUrl: string -> Option<ParsedUrl>)
    ensures var o := Decide(req, env, parseUrl);
      (o.Reject? && o.response.status == 204) <==> req.verb == "OPTIONS"
    ensures var o := Decide(req, env, parseUrl);
      (o.Reject? && o.response.status == 404) <==> req.verb != "OPTIONS" && req.pathname != ProxyPath
    ensures var o := Decide(req, env, parseUrl);
      (o.Reject? && o.response.status == 401)
      <==> req.verb != "OPTIONS" && req.pathname == ProxyPath && !TokenAccepted(req, env)
    ensures var o := Decide(req, env, parseUrl);
      (o.Reject? && o.response.status == 400 && o.response.body == Some(MissingTargetBody))
      <==> req.verb != "OPTIONS" && req.pathname == ProxyPath && TokenAccepted(req, env)
           && (req.u == None || req.u.value == "")
    ensures var o := Decide(req, env, parseUrl);
      o.Fault?
      <==> req.verb != "OPTIONS" && req.pathname == ProxyPath && TokenAccepted(req, env)
           && Truthy(req.u) && parseUrl(req.u.value) == None
    ensures var o := Decide(req, env, parseUrl);
      (o.Reject? && o.response.status == 400 && o.response.body == Some(HostNotAllowedBody))
      <==> req.verb != "OPTIONS" && req.pathname == ProxyPath && TokenAccepted(req, env)
           && Truthy(req.u) && parseUrl(req.u.value).Some?
           && parseUrl(req.u.value).value.host !in AllowedHosts(env)
    ensures Decide(req, env, parseUrl).Forward? <==> GatesPass(req, env, parseUrl)
  {
  }

  /** A bad token is reported before a missing `u`. */
  lemma {:induction false} BadTokenBeforeMissingTarget(req: Request, env: Env, parseUrl: string -> Option<ParsedUrl>)
    requires req.verb == "GET" && req.pathname == ProxyPath && req.u == None
    requires env.authToken == Some("secret") && Get(req.headers, ProxyToken) == Some("wrong")
    ensures Decide(req, env, parseUrl) == Reject(Response(401, Some(UnauthorizedBody), Cors(Origin(env))[ContentType := JsonType]))
  {
  }

  /** The CORS block with a Content-Type added: four headers, Content-Type as given. */
  lemma {:induction false} CorsWithContentType(origin: string, contentType: string)
    ensures var h := Cors(origin)[ContentType := contentType];
      && h.Keys == {ContentType, AllowOrigin, AllowMethods, AllowHeaders}
      && h[ContentType] == contentType
      && HasCors(h, origin)
  {
    var h := Cors(origin)[ContentType := contentType];
    assert AllowOrigin in h && AllowMethods in h && AllowHeaders in h && ContentType in h;
  }

  /** Every 401 and 400 answer carries Content-Type: application/json and the CORS block, and nothing else. */
  lemma {:induction false} ErrorsCarryJsonAndCors(req: Request, env: Env, parseUrl: string -> Option<ParsedUrl>)
    ensures var o := Decide(req, env, parseUrl);
      o.Reject? && (o.response.status == 400 || o.response.status == 401) ==>
        && o.response.headers.Keys == {ContentType, AllowOrigin, AllowMethods, AllowHeaders}
        && o.response.headers[ContentType] == "application/json"
        && HasCors(o.response.headers, Origin(env))
  {
    CorsWithContentType(Origin(env), JsonType);
  }

  /** The fixed header values the source writes are valid. */
  lemma FixedValuesValid()
    ensures ValidHeaderValue(AllowedMethods) && ValidHeaderValue(AllowedHeaders) && ValidHeaderValue(JsonType)
  {
    MethodsValuePlain();
    HeadersValuePlain();
    assert PlainValue(JsonType);
    PlainIsValid(AllowedMethods);
    PlainIsValid(AllowedHeaders);
    PlainIsValid(JsonType);
  }

  lemma MethodsValuePlain()
    ensures PlainValue(AllowedMethods)
  {
    MethodsValueChunks();
    PlainChunks("GET,POST,", "PUT,DELETE,", "OPTIONS");
  }

  lemma HeadersValuePlain()
    ensures PlainValue(AllowedHeaders)
  {
    HeadersValueChunks();
    PlainChunks("Content-Type, ", "Authorization, ", "X-Proxy-Token");
  }

  lemma MethodsValueChunks()
    ensures AllowedMethods == "GET,POST," + "PUT,DELETE," + "OPTIONS"
  {
  }

  lemma HeadersValueChunks()
    ensures AllowedHeaders == "Content-Type, " + "Authorization, " + "X-Proxy-Token"
  {
  }

  /** Three plain pieces make a plain value. */
  lemma {:induction false} PlainChunks(a: string, b: string, c: string)
    requires PlainValue(a) && PlainValue(b) && PlainValue(c)
    ensures PlainValue(a + b + c)
  {
    PlainConcat(a, b);
    PlainConcat(a + b, c);
  }

  /** The CORS block is a valid init exactly when the origin is a valid value; with a Content-Type, when both are. */
  lemma {:induction false} CorsValid(origin: string, contentType: string)
    ensures ValidHeaders(Cors(origin)) <==> ValidHeaderValue(origin)
    ensures ValidHeaders(Cors(origin)[ContentType := contentType]) <==> ValidHeaderValue(origin) && ValidHeaderValue(contentType)
  {
    FixedValuesValid();
    var h := Cors(origin);
    var g := h[ContentType := contentType];
    assert AllowOrigin in h && h[AllowOrigin] == origin;
    assert AllowOrigin in g && g[AllowOrigin] == origin && ContentType in g && g[ContentType] == contentType;
  }

  /** The preflight is built as written exactly when the origin is a valid header value. */
  /** The CORS block with the JSON Content-Type is a valid init exactly when the origin is a valid value. */
  lemma {:induction false} JsonCorsValid(origin: string)
    ensures ValidHeaders(Cors(origin)[ContentType := JsonType]) <==> ValidHeaderValue(origin)
  {
    FixedValuesValid();
    CorsValid(origin, JsonType);
  }

  lemma {:induction false} PreflightBuilt(env: Env)
    ensures NewResponse(204, None, Cors(Origin(env))) == (if ValidHeaderValue(Origin(env)) then Some(Preflight(env)) else None)
  {
    CorsValid(Origin(env), JsonType);
    EmptyResponseBuilt(204, Cors(Origin(env)));
  }

  /** A JSON error is built as written exactly when the origin is a valid header value. */
  lemma {:induction false} JsonErrorBuilt(env: Env, status: int, body: string)
    requires status == 400 || status == 401
    ensures NewResponse(status, Some(body), Cors(Origin(env))[ContentType := JsonType])
         == (if ValidHeaderValue(Origin(env)) then Some(JsonError(env, status, body)) else None)
  {
    JsonCorsValid(Origin(env));
    TypedResponseBuilt(status, Some(body), Cors(Origin(env))[ContentType := JsonType]);
  }

  /**
   * Every gate answer other than the 404 is built exactly as the gate wrote
   * it when ALLOW_ORIGIN (or its default) is a valid header value, and the
   * constructor throws otherwise.
   */
  lemma {:induction false} GateAnswersConstructible(req: Request, env: Env, parseUrl: string -> Option<ParsedUrl>, fetch: Plan -> Option<Upstream>)
    ensures var o := Decide(req, env, parseUrl);
      o.Reject? && o.response.status != 404 ==>
        Handle(req, env, parseUrl, fetch) == (if ValidHeaderValue(Origin(env)) then Respond(o.response) else Throw)
  {
    var o := Decide(req, env, parseUrl);
    if o.Reject? && o.response.status != 404 {
      var r := o.response;
      if req.verb == "OPTIONS" {
        PreflightBuilt(env);
      } else {
        assert r == JsonError(env, r.status, r.body.value);
        JsonErrorBuilt(env, r.status, r.body.value);
      }
    }
  }

  /** An ALLOW_ORIGIN with a line break inside makes even the preflight throw. */
  lemma {:induction false} NewlineInOriginThrows(req: Request, env: Env, parseUrl: string -> Option<ParsedUrl>, fetch: Plan -> Option<Upstream>)
    requires env.allowOrigin == Some("a\nb") && req.verb == "OPTIONS"
    ensures Handle(req, env, parseUrl, fetch) == Throw
  {
    var v := "a\nb";
    assert v[1] == '\n' && !HttpWhitespace(v[0]) && !HttpWhitespace(v[2]);
    assert !ValidHeaderValue(v);
    GateAnswersConstructible(req, env, parseUrl, fetch);
  }

  // ---------------------------------------------------------------------------
  // Forwarding
  // ---------------------------------------------------------------------------

  /**
   * The guarantee that keeps the proxy from being an open relay: a request
   * is forwarded only when the token check passed and the target host is,
   * character for character, one of the comma-separated allowlist items
   * with its surrounding whitespace removed.
   */
  lemma {:induction false} ForwardOnlyToAllowedHosts(req: Request, env: Env, parseUrl: string -> Option<ParsedUrl>)
    ensures Decide(req, env, parseUrl).Forward? ==>
      var p := Decide(req, env, parseUrl).plan;
      && TokenAccepted(req, env)
      && Truthy(req.u) && parseUrl(req.u.value) == Some(ParsedUrl(p.url, p.host))
      && var items := Allowlist.Split(OrElse(env.allowedHosts, DefaultHosts));
         exists k :: 0 <= k < |items| && Allowlist.Trim(items[k]) == p.host
  {
    if Decide(req, env, parseUrl).Forward? {
      ForwardIsPlan(req, env, parseUrl);
      var p := Decide(req, env, parseUrl).plan;
      var config := OrElse(env.allowedHosts, DefaultHosts);
      assert p.host in Allowlist.HostList(config);
      Allowlist.HostListMembership(config, p.host);
    }
  }

  /** A forwarding plan is produced only when every gate passed, and it is built from the parsed target. */
  lemma {:induction false} ForwardIsPlan(req: Request, env: Env, parseUrl: string -> Option<ParsedUrl>)
    ensures Decide(req, env, parseUrl).Forward? ==>
      && GatesPass(req, env, parseUrl)
      && Decide(req, env, parseUrl).plan == OutboundPlan(req, parseUrl(req.u.value).value)
  {
  }

  /**
   * The outbound call keeps the method, sends only Content-Type (inbound or
   * JSON) and a non-empty Authorization, has a body exactly when the method
   * is not GET or HEAD, and does not follow redirects.
   */
  lemma {:induction false} ForwardPlanShape(req: Request, env: Env, parseUrl: string -> Option<ParsedUrl>)
    ensures Decide(req, env, parseUrl).Forward? ==>
      var p := Decide(req, env, parseUrl).plan;
      var ct := Get(req.headers, ContentType);
      var auth := Get(req.headers, Authorization);
      && p.verb == req.verb
      && p.redirect == Manual
      && p.headers.Keys <= {ContentType, Authorization}
      && ContentType in p.headers
      && p.headers[ContentType] == (if ct.Some? && ct.value != "" then ct.value else "application/json")
      && (Authorization in p.headers <==> auth.Some? && auth.value != "")
      && (Authorization in p.headers ==> p.headers[Authorization] == auth.value)
      && (p.body == None <==> req.verb == "GET" || req.verb == "HEAD")
      && (p.body != None ==> p.body.value == req.body)
  {
  }

  // ---------------------------------------------------------------------------
  // The allowlist as configured
  // ---------------------------------------------------------------------------

  lemma {:induction false} SingleHost(host: string)
    requires ',' !in host
    requires host != [] && !Allowlist.IsTrimSpace(host[0]) && !Allowlist.IsTrimSpace(host[|host| - 1])
    ensures Allowlist.HostList(host) == [host]
  {
    Allowlist.HostListOfItems([host], host);
    Allowlist.TrimUnique([], host, []);
    assert [] + host + [] == host;
    assert Allowlist.Trim(host) == host;
  }

  /** With ALLOWED_HOSTS unset or empty, the allowlist is exactly app.overlays.uno. */
  lemma {:induction false} DefaultAllowlist(env: Env)
    requires !Truthy(env.allowedHosts)
    ensures AllowedHosts(env) == ["app.overlays.uno"]
  {
    SingleHost(DefaultHosts);
  }

  /** The allowlist compares serialised hosts: an explicit default port is a different host. */
  lemma {:induction false} ExplicitPortIsAnotherHost(env: Env)
    requires !Truthy(env.allowedHosts)
    ensures "app.overlays.uno:443" !in AllowedHosts(env)
    ensures "APP.OVERLAYS.UNO" !in AllowedHosts(env)
  {
    DefaultAllowlist(env);
  }

  /** With the default allowlist, an evil host is refused and app.overlays.uno is forwarded. */
  lemma {:induction false} AllowlistExamples(req: Request, env: Env, parseUrl: string -> Option<ParsedUrl>, href: string)
    requires req.verb == "GET" && req.pathname == ProxyPath && Truthy(req.u)
    requires !Truthy(env.allowedHosts) && !Truthy(env.authToken)
    ensures parseUrl(req.u.value) == Some(ParsedUrl(href, "evil.example.com")) ==>
      Decide(req, env, parseUrl) == Reject(JsonError(env, 400, HostNotAllowedBody))
    ensures parseUrl(req.u.value) == Some(ParsedUrl(href, "app.overlays.uno")) ==>
      Decide(req, env, parseUrl).Forward? && Decide(req, env, parseUrl).plan.host == "app.overlays.uno"
  {
    DefaultMembership(env);
  }

  /** The default allowlist holds app.overlays.uno and not evil.example.com. */
  lemma {:induction false} DefaultMembership(env: Env)
    requires !Truthy(env.allowedHosts)
    ensures "evil.example.com" !in AllowedHosts(env)
    ensures "app.overlays.uno" in AllowedHosts(env)
  {
    DefaultAllowlist(env);
    assert "evil.example.com"[0] != "app.overlays.uno"[0];
  }

  // ---------------------------------------------------------------------------
  // The relay
  // ---------------------------------------------------------------------------

  /**
   * The relay answers with the upstream status, for every status the
   * runtime accepts, with the upstream content type (or JSON), the upstream
   * body unless the status forbids one, and the CORS block.
   */
  lemma {:induction false} RelayKeepsStatus(env: Env, up: Upstream)
    ensures Relay(env, up).Some? <==>
      && 200 <= up.status <= 599
      && ValidHeaderValue(Origin(env))
      && ValidHeaderValue(if up.contentType.Some? && up.contentType.value != "" then up.contentType.value else "application/json")
    ensures Relay(env, up).Some? ==>
      var r := Relay(env, up).value;
      && r.status == up.status
      && r.headers.Keys == {ContentType, AllowOrigin, AllowMethods, AllowHeaders}
      && r.headers[ContentType] == (if up.contentType.Some? && up.contentType.value != "" then up.contentType.value else "application/json")
      && HasCors(r.headers, Origin(env))
      && r.body == (if NullBodyStatus(up.status) then None else Some(up.body))
  {
    CorsWithContentType(Origin(env), OrElse(up.contentType, JsonType));
    CorsValid(Origin(env), OrElse(up.contentType, JsonType));
  }

  /** As written, the relay throws for an upstream 204, 205 or 304 instead of relaying it. */
  lemma {:induction false} RelayAsWrittenThrowsOnNullBodyStatus(env: Env, up: Upstream)
    requires up.status == 204 || up.status == 205 || up.status == 304
    ensures RelayAsWritten(env, up) == None
    ensures Relay(env, up).Some? <==> ValidHeaders(RelayHeaders(env, up))
    ensures Relay(env, up).Some? ==> Relay(env, up).value.status == up.status && Relay(env, up).value.body == None
  {
  }

  /** For every other status the correction changes nothing. */
  lemma {:induction false} RelayAsWrittenAgreesElsewhere(env: Env, up: Upstream)
    requires !NullBodyStatus(up.status)
    ensures RelayAsWritten(env, up) == Relay(env, up)
  {
  }

  // ---------------------------------------------------------------------------
  // The whole handler
  // ---------------------------------------------------------------------------

  /**
   * The outbound call is made only when every gate passed, and only with the
   * forwarding plan: otherwise the answer does not depend on `fetch` at all.
   */
  lemma {:induction false} FetchOnlyForThePlan(req: Request, env: Env, parseUrl: string -> Option<ParsedUrl>,
                            f1: Plan -> Option<Upstream>, f2: Plan -> Option<Upstream>)
    ensures !GatesPass(req, env, parseUrl) ==> Handle(req, env, parseUrl, f1) == Handle(req, env, parseUrl, f2)
    ensures GatesPass(req, env, parseUrl)
            && f1(OutboundPlan(req, parseUrl(req.u.value).value)) == f2(OutboundPlan(req, parseUrl(req.u.value).value))
            ==> Handle(req, env, parseUrl, f1) == Handle(req, env, parseUrl, f2)
  {
    GateOrder(req, env, parseUrl);
  }

  /** A forwarded request faults when the call fails, and is otherwise answered with what `Relay` builds. */
  lemma {:induction false} HandleRelaysUpstream(req: Request, env: Env, parseUrl: string -> Option<ParsedUrl>, fetch: Plan -> Option<Upstream>)
    ensures GatesPass(req, env, parseUrl) && fetch(OutboundPlan(req, parseUrl(req.u.value).value)) == None ==>
      Handle(req, env, parseUrl, fetch) == Throw
    ensures GatesPass(req, env, parseUrl) ==>
      var plan := OutboundPlan(req, parseUrl(req.u.value).value);
      fetch(plan).Some? ==>
        && (Relay(env, fetch(plan).value).Some? ==> Handle(req, env, parseUrl, fetch) == Respond(Relay(env, fetch(plan).value).value))
        && (Relay(env, fetch(plan).value) == None ==> Handle(req, env, parseUrl, fetch) == Throw)
  {
    GateOrder(req, env, parseUrl);
  }

  /**
   * The handler as written differs from the corrected one only for an
   * upstream null body status, where it throws.
   */
  lemma {:induction false} HandleAsWrittenThrowsOnNullBodyStatus(req: Request, env: Env, parseUrl: string -> Option<ParsedUrl>, fetch: Plan -> Option<Upstream>)
    ensures var o := Decide(req, env, parseUrl);
      o.Forward? && fetch(o.plan).Some? && NullBodyStatus(fetch(o.plan).value.status) ==>
        HandleAsWritten(req, env, parseUrl, fetch) == Throw
    ensures var o := Decide(req, env, parseUrl);
      !(o.Forward? && fetch(o.plan).Some? && NullBodyStatus(fetch(o.plan).value.status)) ==>
        HandleAsWritten(req, env, parseUrl, fetch) == Handle(req, env, parseUrl, fetch)
  {
    match Decide(req, env, parseUrl)
    case Reject(r) =>
    case Fault =>
    case Forward(plan) =>
      if fetch(plan).Some? && !NullBodyStatus(fetch(plan).value.status) {
        RelayAsWrittenAgreesElsewhere(env, fetch(plan).value);
      }
  }

  /** Every answer carries the CORS block, except the bare 404 of the path gate. */
  lemma {:induction false} CorsOnEveryAnswer(req: Request, env: Env, parseUrl: string -> Option<ParsedUrl>, fetch: Plan -> Option<Upstream>)
    requires Handle(req, env, parseUrl, fetch).Respond?
    ensures var r := Handle(req, env, parseUrl, fetch).response;
      HasCors(r.headers, Origin(env))
      || (r == Response(404, Some(NotFoundBody), map[ContentType := TextPlain])
          && req.verb != "OPTIONS" && req.pathname != ProxyPath)
  {
    match Decide(req, env, parseUrl)
    case Reject(r) =>
      CorsWithContentType(Origin(env), JsonType);
    case Fault =>
    case Forward(plan) =>
      RelayKeepsStatus(env, fetch(plan).value);
  }

  /**
   * The corrected handler lets an exception escape exactly for a malformed
   * `u`, an ALLOW_ORIGIN that is not a valid header value (on every answer
   * but the 404), a failed call, an upstream status the runtime refuses, or
   * an upstream content type that is not a valid header value.
   */
  lemma {:induction false} FaultCauses(req: Request, env: Env, parseUrl: string -> Option<ParsedUrl>, fetch: Plan -> Option<Upstream>)
    ensures Handle(req, env, parseUrl, fetch) == Throw
      <==> || Decide(req, env, parseUrl).Fault?
           || (&& Decide(req, env, parseUrl).Reject?
               && Decide(req, env, parseUrl).response.status != 404
               && !ValidHeaderValue(Origin(env)))
           || (&& Decide(req, env, parseUrl).Forward?
               && var call := fetch(Decide(req, env, parseUrl).plan);
                  || call == None
                  || !(200 <= call.value.status <= 599)
                  || !ValidHeaderValue(Origin(env))
                  || !ValidHeaderValue(OrElse(call.value.contentType, JsonType)))
  {
    match Decide(req, env, parseUrl)
    case Reject(r) =>
      GateAnswersConstructible(req, env, parseUrl, fetch);
    case Fault =>
    case Forward(plan) =>
      if fetch(plan).Some? {
        RelayKeepsStatus(env, fetch(plan).value);
      }
  }

  /** The handler as written throws in all those cases and also for an upstream null body status. */
  lemma {:induction false} FaultCausesAsWritten(req: Request, env: Env, parseUrl: string -> Option<ParsedUrl>, fetch: Plan -> Option<Upstream>)
    ensures HandleAsWritten(req, env, parseUrl, fetch) == Throw
      <==> || Handle(req, env, parseUrl, fetch) == Throw
           || (&& Decide(req, env, parseUrl).Forward?
               && var call := fetch(Decide(req, env, parseUrl).plan);
                  call.Some? && NullBodyStatus(call.value.status))
  {
    HandleAsWrittenThrowsOnNullBodyStatus(req, env, parseUrl, fetch);
  }
}
