/**
 * The parts of the Fetch API runtime the proxy relies on: header lookup,
 * response records, and the checks the `Response` constructor makes
 * (section 6.4 of the WHATWG Fetch Standard, "Response class").
 */
module Http {
  import opened Wrappers

  /**
   * An inbound request's headers. Names are stored lower-cased, as a
   * `Headers` object normalises them.
   */
  type HeaderMap = map<string, string>

  /** The header names the proxy reads or writes. */
  datatype HeaderName = ContentType | Authorization | ProxyToken | AllowOrigin | AllowMethods | AllowHeaders

  /** The lower-cased spelling under which a `Headers` object stores `name`. */
  function Key(name: HeaderName): string {
    match name
    case ContentType => "content-type"
    case Authorization => "authorization"
    case ProxyToken => "x-proxy-token"
    case AllowOrigin => "access-control-allow-origin"
    case AllowMethods => "access-control-allow-methods"
    case AllowHeaders => "access-control-allow-headers"
  }

  /** `headers.get(name)`; `None` is JavaScript `null`. */
  function Get(headers: HeaderMap, name: HeaderName): Option<string> {
    if Key(name) in headers then Some(headers[Key(name)]) else None
  }

  /**
   * A response as the proxy builds it: status, body (`None` is a `null`
   * body) and the headers the proxy writes.
   */
  datatype Response = Response(status: int, body: Option<string>, headers: map<HeaderName, string>)

  /** A "null body status" of the Fetch Standard: 101, 103, 204, 205 or 304. */
  predicate NullBodyStatus(status: int) {
    status == 101 || status == 103 || status == 204 || status == 205 || status == 304
  }

  /** HTTP whitespace: space, tab, LF and CR. */
  predicate HttpWhitespace(c: char) {
    c == ' ' || c == '\t' || c == '\n' || c == '\r'
  }

  /**
   * A value the `Headers` object accepts: every character fits a byte (the
   * value is a WebIDL ByteString), there is no NUL, and a CR or LF occurs only
   * in the leading or trailing whitespace that normalisation strips.
   */
  predicate ValidHeaderValue(v: string) {
    && (forall i :: 0 <= i < |v| ==> v[i] as int <= 0xFF && v[i] != '\0')
    && (forall i :: 0 <= i < |v| && (v[i] == '\n' || v[i] == '\r') ==>
          (forall j :: 0 <= j < i ==> HttpWhitespace(v[j])) || (forall j :: i < j < |v| ==> HttpWhitespace(v[j])))
  }

  /** Every value in a header init record is valid. */
  predicate ValidHeaders(headers: map<HeaderName, string>) {
    forall n :: n in headers ==> ValidHeaderValue(headers[n])
  }

  /** Every character fits a byte and none is NUL, CR or LF. */
  predicate PlainValue(v: string) {
    forall i :: 0 <= i < |v| ==> v[i] as int <= 0xFF && v[i] != '\0' && v[i] != '\n' && v[i] != '\r'
  }

  /** A plain value is a valid header value. */
  lemma PlainIsValid(v: string)
    requires PlainValue(v)
    ensures ValidHeaderValue(v)
  {
  }

  /** Joining plain values gives a plain value. */
  lemma {:induction false} PlainConcat(a: string, b: string)
    requires PlainValue(a) && PlainValue(b)
    ensures PlainValue(a + b)
  {
    forall i | 0 <= i < |a + b|
      ensures (a + b)[i] as int <= 0xFF && (a + b)[i] != '\0' && (a + b)[i] != '\n' && (a + b)[i] != '\r'
    {
      if i < |a| {
        assert (a + b)[i] == a[i];
      } else {
        assert (a + b)[i] == b[i - |a|];
      }
    }
  }

  /** The media type the runtime gives a string body. */
  const TextPlain := "text/plain;charset=UTF-8"

  /**
   * `new Response(body, { status, headers })`: `None` when the constructor
   * throws, which it does for a status outside 200..599 (RangeError), for an
   * invalid header value (TypeError) and for a non-null body with a null
   * body status (TypeError). A string body without a Content-Type in the
   * init gets Content-Type text/plain;charset=UTF-8.
   */
  function NewResponse(status: int, body: Option<string>, headers: map<HeaderName, string>): Option<Response> {
    if !(200 <= status <= 599) then None
    else if !ValidHeaders(headers) then None
    else if body.Some? && NullBodyStatus(status) then None
    else if body.Some? && ContentType !in headers then Some(Response(status, body, headers[ContentType := TextPlain]))
    else Some(Response(status, body, headers))
  }

  /**
   * A response whose init states its Content-Type, with an ordinary status,
   * is built as given exactly when the header values are valid.
   */
  lemma TypedResponseBuilt(status: int, body: Option<string>, headers: map<HeaderName, string>)
    requires 200 <= status <= 599 && !NullBodyStatus(status)
    requires ContentType in headers
    ensures NewResponse(status, body, headers) == (if ValidHeaders(headers) then Some(Response(status, body, headers)) else None)
  {
  }

  /** A response with a null body is built as given exactly when the header values are valid. */
  lemma EmptyResponseBuilt(status: int, headers: map<HeaderName, string>)
    requires 200 <= status <= 599
    ensures NewResponse(status, None, headers) == (if ValidHeaders(headers) then Some(Response(status, None, headers)) else None)
  {
  }
}
