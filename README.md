# cors-header-proxy: a Dafny model of the forwarding gateway

The system is a Cloudflare Worker that relays browser requests to one
allowlisted upstream API and adds CORS headers to the answer. Its `fetch`
handler (`src/index.ts`) is a chain of guard clauses:

1. an `OPTIONS` request is answered 204 with the CORS block (the CORS
   preflight of section 3.2 of the WHATWG Fetch Standard);
2. any path other than `/overlay-proxy` is answered with a bare 404;
3. when `AUTH_TOKEN` is set, the `X-Proxy-Token` header must equal it (401);
4. the `u` query parameter must be present and non-empty (400);
5. `new URL(u)` is parsed, and its `host` must be one of the
   comma-separated, trimmed items of `ALLOWED_HOSTS` (default
   `app.overlays.uno`) (400);
6. otherwise the request is forwarded with the same method, only
   `Content-Type` and a non-empty `Authorization`, a body unless the method
   is GET or HEAD, and `redirect: "manual"`; the upstream's status, content
   type and body are relayed with the CORS block added.

The model has five modules:

- `Wrappers` (`wrappers.dfy`): `Option`, standing for JavaScript `null` / `undefined`.
- `Allowlist` (`allowlist.dfy`): `split(",")` as `Split`, `trim()` as `Trim`
  (with the full ECMAScript WhiteSpace and LineTerminator set), the
  allowlist `HostList`, and their properties: splitting and joining are
  inverse, the piece count is the comma count plus one, trimming is
  characterised by what it keeps.
- `Http` (`http.dfy`): the runtime pieces the handler uses: case-insensitive
  `Headers.get` over a map keyed by lower-case names, the response record,
  and `NewResponse`, the `Response` constructor of the WHATWG Fetch
  Standard: it throws for a status outside 200..599, for a header value that
  is not a valid value (`ValidHeaderValue`: a character above U+00FF, a NUL,
  or a CR or LF inside the value), and for a body with a null body status
  (101, 103, 204, 205, 304); it gives a string body without a Content-Type
  the Content-Type `text/plain;charset=UTF-8`.
- `Proxy` (`proxy.dfy`): `Env`, the request summary, the outbound `Plan`,
  `Decide` (the gates, in source order, giving `Reject` with the arguments
  of the gate's `new Response` call, `Forward`, or `Fault` for a `u` that
  does not parse), `OutboundPlan`, the relay and the whole handler, which
  answers (`Respond`) or lets an exception escape (`Throw`). `RelayAsWritten`
  and `HandleAsWritten` are the relay and handler as the source writes
  them; `Relay` and `Handle` are the corrected ones (see "Findings").
  `GatesPass` states the conditions for forwarding without reference to
  their order.
- `ProxyProperties` (`proxy_properties.dfy`): the theorems.

The two runtime calls that can throw are parameters of the model:
`parseUrl: string -> Option<ParsedUrl>` is `new URL(u)` (`None` when it
throws) and `fetch: Plan -> Option<Upstream>` is the outbound call (`None`
when it rejects). Both make the handler `Throw`. The theorems hold for
every choice of these functions.

Some consequences of the code that the model keeps:

- a malformed `u` is not answered 400: `new URL` throws at line 48 and the
  handler throws;
- `Authorization` is forwarded only when present and non-empty
  (`if (auth)`, line 69);
- an empty inbound `Content-Type` is replaced by `application/json` too
  (`||`, line 61);
- the 404 of line 24 carries no CORS headers, only the Content-Type the
  runtime gives its string body (`NotFoundOffPath`, `CorsOnEveryAnswer`);
- an `ALLOW_ORIGIN` that is not a valid header value, such as one with a
  line break inside, makes every answer but the 404 throw
  (`GateAnswersConstructible`, `NewlineInOriginThrows`).

## Model

| member | source | states |
|---|---|---|
| Allowlist.Split | src/index.ts:49 | `split(",")` always yields at least one piece |
| Allowlist.SplitCount | src/index.ts:49 | the allowlist string splits into one more piece than it has commas |
| Allowlist.SplitPiecesCommaFree | src/index.ts:49 | no piece of the split contains a comma |
| Allowlist.JoinSplit | src/index.ts:49 | joining the pieces with commas gives back the configured string |
| Allowlist.SplitJoin | src/index.ts:49 | splitting a comma-join of comma-free items gives back exactly those items |
| Allowlist.TrimStartSpec | src/index.ts:49 | trimming the start removes exactly a leading whitespace run and stops at non-whitespace |
| Allowlist.TrimEndSpec | src/index.ts:49 | trimming the end removes exactly a trailing whitespace run and stops at non-whitespace |
| Allowlist.TrimSpec | src/index.ts:49 | `trim()` returns the contiguous middle of the item between whitespace runs, starting and ending with non-whitespace |
| Allowlist.TrimUnique | src/index.ts:49 | any whitespace around a middle part that starts and ends with non-whitespace is removed, and nothing else |
| Allowlist.TrimIdempotent | src/index.ts:49 | trimming a trimmed item changes nothing |
| Allowlist.TrimAllPointwise | src/index.ts:49 | `.map(s => s.trim())` keeps the length and trims each item in place |
| Allowlist.HostListShape | src/index.ts:49 | the allowlist has one entry per comma-separated item, each comma-free and already trimmed |
| Allowlist.HostListMembership | src/index.ts:49-50 | `includes(host)` holds exactly when host equals some split piece after trimming |
| Allowlist.HostListOfItems | src/index.ts:49-50 | for a string made of comma-free items, a host is allowed exactly when it equals one item trimmed, case-sensitively |
| ProxyProperties.CorsWithContentType | src/index.ts:7-11 | the CORS block plus Content-Type is exactly four headers with the given values |
| ProxyProperties.PreflightOnEveryPath | src/index.ts:18-20 | every OPTIONS request, on any path, gets 204, a null body and only the CORS block, with Allow-Origin equal to `ALLOW_ORIGIN` or `*` when that is unset or empty |
| ProxyProperties.NotFoundOffPath | src/index.ts:23-25 | a non-OPTIONS request off `/overlay-proxy` gets 404 with body `Not found`; the handler sets no header, so the answer has no CORS block and only the runtime's `text/plain;charset=UTF-8` Content-Type |
| ProxyProperties.TokenGate | src/index.ts:28-36 | on the published path, the answer is 401 `{"error":"Unauthorized"}` exactly when a token is set and X-Proxy-Token is absent or not equal to it |
| ProxyProperties.TokenIgnoredWhenUnset | src/index.ts:28-36 | with no token set, changing only the X-Proxy-Token header never changes the outcome |
| ProxyProperties.GateOrder | src/index.ts:18-55 | each outcome (204, 404, 401, missing-u 400, fault, host 400, forward) happens exactly when all earlier gates passed and its own failed |
| ProxyProperties.BadTokenBeforeMissingTarget | src/index.ts:28-45 | a bad token with no `u` is answered 401, not 400 |
| ProxyProperties.ErrorsCarryJsonAndCors | src/index.ts:31-54 | every 401 and 400 answer carries exactly Content-Type application/json and the CORS block |
| ProxyProperties.FixedValuesValid | src/index.ts:9-10 | the fixed CORS values and `application/json` are valid header values |
| ProxyProperties.CorsValid | src/index.ts:7-11 | the CORS block, with or without a Content-Type, is a valid init exactly when the origin (and the Content-Type) are valid values |
| ProxyProperties.JsonCorsValid | src/index.ts:33 | the JSON error headers are a valid init exactly when the origin is a valid value |
| ProxyProperties.PreflightBuilt | src/index.ts:19 | the preflight `new Response` succeeds, with exactly the given init, exactly when the origin is a valid value |
| ProxyProperties.JsonErrorBuilt | src/index.ts:31-34 | a 401 or 400 JSON error is built as written exactly when the origin is a valid value |
| ProxyProperties.GateAnswersConstructible | src/index.ts:18-55 | every gate answer except the 404 is returned exactly as the gate wrote it when `ALLOW_ORIGIN` (or `*`) is a valid header value, and the handler throws otherwise |
| ProxyProperties.NewlineInOriginThrows | src/index.ts:18-20 | with `ALLOW_ORIGIN` equal to `a`, LF, `b`, even the preflight throws |
| ProxyProperties.ForwardIsPlan | src/index.ts:47-65 | a forwarding plan exists only when all gates passed, and it is built from the parsed target |
| ProxyProperties.ForwardOnlyToAllowedHosts | src/index.ts:47-55 | a request is forwarded only after the token check passed, to the parsed target, whose host equals a trimmed comma-separated allowlist item |
| ProxyProperties.ForwardPlanShape | src/index.ts:58-69 | the plan keeps the method, carries only Content-Type (inbound or application/json) and a non-empty Authorization, has a body (the inbound text) exactly when the method is not GET or HEAD, and uses manual redirects |
| ProxyProperties.SingleHost | src/index.ts:49 | a comma-free item without surrounding whitespace gives a one-entry allowlist |
| ProxyProperties.DefaultAllowlist | src/index.ts:49 | with ALLOWED_HOSTS unset or empty the allowlist is exactly `app.overlays.uno` |
| ProxyProperties.ExplicitPortIsAnotherHost | src/index.ts:48-50 | `app.overlays.uno:443` and an upper-case spelling are not on the default allowlist |
| ProxyProperties.DefaultMembership | src/index.ts:49-50 | the default allowlist holds `app.overlays.uno` and not `evil.example.com` |
| ProxyProperties.AllowlistExamples | src/index.ts:47-55 | with the default allowlist, host `evil.example.com` is refused 400 and `app.overlays.uno` is forwarded |
| ProxyProperties.RelayKeepsStatus | src/index.ts:75-84 | the corrected relay answers exactly when the status is in 200..599 and the origin and relayed content type are valid header values, with the upstream status, the upstream content type or application/json, the CORS block, and the upstream body unless the status forbids one |
| ProxyProperties.RelayAsWrittenThrowsOnNullBodyStatus | src/index.ts:78-84 | as written, an upstream 204, 205 or 304 makes the relay throw, where the corrected relay answers with that status and a null body whenever the header values are valid |
| ProxyProperties.RelayAsWrittenAgreesElsewhere | src/index.ts:78-84 | for every other status the source's relay and the corrected relay agree |
| ProxyProperties.FetchOnlyForThePlan | src/index.ts:57-72 | when a gate fails the answer does not depend on `fetch`; otherwise it depends only on `fetch` of the forwarding plan |
| ProxyProperties.HandleRelaysUpstream | src/index.ts:72-84 | in the corrected handler, a forwarded request throws when the call fails, and otherwise is answered with exactly what the corrected relay builds, or throws where that fails |
| ProxyProperties.HandleAsWrittenThrowsOnNullBodyStatus | src/index.ts:14-84 | the handler as written throws for a forwarded request whose upstream answers with a null body status, and in every other case behaves as the corrected handler |
| ProxyProperties.CorsOnEveryAnswer | src/index.ts:14-84 | every answer of the corrected handler carries the CORS block except the 404 of the path gate (the handler as written has the same answers or fewer) |
| ProxyProperties.FaultCauses | src/index.ts:14-84 | the corrected handler throws exactly for a malformed `u`, an invalid `ALLOW_ORIGIN` value on an answer other than the 404, a failed outbound call, an upstream status outside 200..599, or an invalid relayed content type |
| ProxyProperties.FaultCausesAsWritten | src/index.ts:14-84 | the handler as written throws exactly where the corrected one does, and also for an upstream null body status |

## Left out

- `new URL(request.url)` (src/index.ts:15): the pathname is an input; the runtime always hands the Worker a valid URL.
- `new URL(target)` and `upstream.host` / `upstream.toString()` (src/index.ts:48, 72): URL parsing and serialisation follow the WHATWG URL Standard and are the `parseUrl` parameter.
- The network call (src/index.ts:72) is the `fetch` parameter; what the upstream does with the request is not modelled.
- Reading bodies with `request.text()` and `resp.text()` (src/index.ts:63, 76), their text decoding, and the `await`s: bodies are strings passed through unchanged.
- `JSON.stringify` of the error objects: the model uses the literal JSON texts it produces.
- `Headers` objects: inbound headers are a map keyed by lower-case names; response and outbound headers are maps keyed by the `HeaderName` datatype, one constructor per header name the source writes.
- Http.NewResponse: a response's headers are the init record as given; the runtime also strips leading and trailing HTTP whitespace from each value, which the model does not do, so for an `ALLOW_ORIGIN` or upstream content type with surrounding whitespace the model's header value keeps that whitespace.
- `Upstream.contentType` is what `resp.headers.get` returns; the runtime only ever returns valid header values there, and the model does not assume this, so its relay checks that value too.
- The outbound `fetch` validates its header values as well; an inbound `Content-Type` or `Authorization` is a valid value by construction, and a rejected call is part of the `fetch` parameter.
- The request method is taken as the runtime reports it (the runtime upper-cases the standard methods before the handler sees them).
- `Allowlist.IsTrimSpace` follows the current Unicode space-separator list; changes across Unicode versions are not modelled.
- The `ExportedHandler` binding (src/index.ts:86) and concurrency between requests: each call of `Handle` is one independent request.
- No caching or deduplication: `Handle` is a function of one request, so "two identical requests make two outbound calls" is not stated.

## Findings

| source | as written | input that shows it | evidently intended | confidence | as-written member | corrected member |
|---|---|---|---|---|---|---|
| src/index.ts:78-84 | `new Response(text, { status: resp.status, ... })` always passes the upstream body text, even an empty one | a forwarded request whose upstream answers 204 (or 205, 304): the `Response` constructor throws a TypeError for a non-null body with a null body status, so the handler throws instead of relaying | relay every upstream status, with a null body for 204, 205 and 304 | medium; not executed | `Proxy.RelayAsWritten` and `Proxy.HandleAsWritten`, shown by `ProxyProperties.RelayAsWrittenThrowsOnNullBodyStatus`, `ProxyProperties.HandleAsWrittenThrowsOnNullBodyStatus` and `ProxyProperties.FaultCausesAsWritten` | `Proxy.Relay` and `Proxy.Handle`, proved by `ProxyProperties.RelayKeepsStatus`, `ProxyProperties.HandleRelaysUpstream` and `ProxyProperties.FaultCauses` |
