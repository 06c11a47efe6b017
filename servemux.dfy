/** The servemux package: the two routes the server registers, the access-token gate in front
    of /connect, the health check, and the session id every request gets before it is routed.
    The proxy handler behind the gate is named, not modelled; what it does with the request is
    the proxy queue's business. */
module ServeMux {
  import opened Wrappers
  import opened Uuids
  import opened Strings
  import opened Strconv
  import opened Config
  import opened Logger
  import opened Paths
  import PQ = ProxyQueue

  const StatusOK := 200
  const StatusUnauthorized := 401
  const StatusNotFound := 404
  const StatusMovedPermanently := 301
  const ContentTypeHeader := "Content-Type"
  const JsonContentType := "application/json"
  const AccessTokenParam := "accessToken"
  const HealthCheckPattern := "/healthcheck"
  const ConnectPattern := "/connect"

  /** The message the gate reports; it names the environment variable that holds the token. */
  const TokenMismatchMessage := "req.query['accessToken'] does not match required " + ServerAccessTokenKey + " token"

  datatype ServeResponseError = ServeResponseError(code: int, message: string)
  datatype ServeResponse = ServeResponse(id: int, error: ServeResponseError)

  /** The response the gate sends on a token mismatch. */
  const MismatchResponse := ServeResponse(-1, ServeResponseError(-1, TokenMismatchMessage))

  /** encoding/json applied to ServeResponse as declared: none of its fields is exported, so
      the encoder writes an empty object whatever the response holds. */
  function EncodeAsWritten(r: ServeResponse): (body: string)
    ensures |body| == 3
  {
    "{}\n"
  }

  /** As written, the 401 body carries neither the message nor the codes. */
  lemma MismatchBodyAsWritten()
    ensures !Contains(EncodeAsWritten(MismatchResponse), TokenMismatchMessage)
    ensures EncodeAsWritten(MismatchResponse) == EncodeAsWritten(ServeResponse(0, ServeResponseError(0, "")))
  {
    ShortNotContains(EncodeAsWritten(MismatchResponse), TokenMismatchMessage);
  }

  /** A character as a JSON string writes it, with encoding/json's HTML-safe escapes (as of
      Go 1.22, which writes backspace and form feed as \b and \f). U+2028 and U+2029 are
      always escaped, since JavaScript would read them as line ends. */
  function EscapeChar(c: char): (r: string)
    ensures |r| >= 1
  {
    if c == '"' then "\\\""
    else if c == '\\' then "\\\\"
    else if c == '\n' then "\\n"
    else if c == '\r' then "\\r"
    else if c == '\t' then "\\t"
    else if c == '\U{8}' then "\\b"
    else if c == '\U{c}' then "\\f"
    else if c == '<' then "\\u003c"
    else if c == '>' then "\\u003e"
    else if c == '&' then "\\u0026"
    else if c < ' ' then "\\u00" + [HexDigitOf(c as int / 16), HexDigitOf(c as int % 16)]
    else if c == '\U{2028}' then "\\u2028"
    else if c == '\U{2029}' then "\\u2029"
    else [c]
  }

  function HexDigitOf(n: int): char
    requires 0 <= n < 16
  {
    if n < 10 then ('0' as int + n) as char else ('a' as int + n - 10) as char
  }

  predicate Plain(c: char) {
    c != '"' && c != '\\' && c != '<' && c != '>' && c != '&' && c >= ' ' && c != '\U{2028}' && c != '\U{2029}'
  }

  function JsonEscape(s: string): (r: string)
    ensures |r| >= |s|
  {
    if s == [] then [] else EscapeChar(s[0]) + JsonEscape(s[1..])
  }

  /** Text without quotes, backslashes, HTML-special or control characters, or the line and
      paragraph separators, is written as it is. */
  lemma {:induction false} PlainUnescaped(s: string)
    requires forall c :: c in s ==> Plain(c)
    ensures JsonEscape(s) == s
    decreases |s|
  {
    if s != [] {
      assert s[0] in s;
      assert EscapeChar(s[0]) == [s[0]];
      assert forall c :: c in s[1..] ==> c in s;
      PlainUnescaped(s[1..]);
      assert JsonEscape(s) == [s[0]] + s[1..];
    }
  }

  const MessageField := "\"message\":\""

  /** The response encoded with its fields exported under the names id, error, code and
      message. */
  function Encode(r: ServeResponse): (body: string)
    ensures HasSuffix(body, "\"}}\n")
  {
    var head := "{\"id\":" + Itoa(r.id) + ",\"error\":{\"code\":" + Itoa(r.error.code) + "," + MessageField;
    head + JsonEscape(r.error.message) + "\"}}\n"
  }

  /** The encoded body carries the response's message, escaped. */
  lemma EncodeCarriesMessage(r: ServeResponse)
    ensures Contains(Encode(r), JsonEscape(r.error.message))
  {
    var head := "{\"id\":" + Itoa(r.id) + ",\"error\":{\"code\":" + Itoa(r.error.code) + "," + MessageField;
    var m := JsonEscape(r.error.message);
    var body := Encode(r);
    assert body == head + m + "\"}}\n";
    assert body[|head|..|head| + |m|] == m;
    ContainsAt(body, m, |head|);
  }

  datatype Response = Response(status: int, header: map<string, string>, body: string)

  datatype GateResult = Invoke | Reject(response: Response)

  /** accessTokenMiddleware's decision: with validation off every request goes through; with
      it on, only one whose accessToken query parameter equals the configured token (a missing
      parameter reads as ""); any other is answered 401 with a JSON content type and, as the
      encoder treats `ServeResponse`, the body "{}\n", which does not carry the message. */
  function AccessTokenGate(server: ServerConfig, query: map<string, seq<string>>): (g: GateResult)
    ensures g.Invoke? <==>
      !server.accessTokenValidationEnabled || server.accessToken == PQ.QueryGet(query, AccessTokenParam)
    ensures g.Reject? ==>
      g.response.status == StatusUnauthorized && g.response.header == map[ContentTypeHeader := JsonContentType] &&
      g.response.body == "{}\n" && !Contains(g.response.body, TokenMismatchMessage)
  {
    if !server.accessTokenValidationEnabled then Invoke
    else if server.accessToken != PQ.QueryGet(query, AccessTokenParam) then
      MismatchBodyAsWritten();
      Reject(Response(StatusUnauthorized, map[ContentTypeHeader := JsonContentType], EncodeAsWritten(MismatchResponse)))
    else Invoke
  }

  /** The same decision with the response's fields exported, so that the 401 body carries the
      message. */
  function AccessTokenGateCorrected(server: ServerConfig, query: map<string, seq<string>>): (g: GateResult)
    ensures g.Invoke? <==> AccessTokenGate(server, query).Invoke?
    ensures g.Reject? ==>
      g.response.status == StatusUnauthorized && g.response.header == map[ContentTypeHeader := JsonContentType] &&
      Contains(g.response.body, JsonEscape(TokenMismatchMessage))
  {
    if !server.accessTokenValidationEnabled then Invoke
    else if server.accessToken != PQ.QueryGet(query, AccessTokenParam) then
      EncodeCarriesMessage(MismatchResponse);
      Reject(Response(StatusUnauthorized, map[ContentTypeHeader := JsonContentType], Encode(MismatchResponse)))
    else Invoke
  }

  /** A configuration that passes validation never lets a request without a token through when
      validation is on. */
  lemma MissingTokenRejected(c: Config, query: map<string, seq<string>>)
    requires Violations(c) == [] && c.server.accessTokenValidationEnabled
    requires AccessTokenParam !in query
    ensures AccessTokenGate(c.server, query).Reject?
  {
    ViolationsFire(c);
  }

  /** The handlers the mux can route to. */
  datatype Handler = HealthCheck | ProxyHandler | Gated(inner: Handler)

  /** What serving a request comes to: a 404, a 301 redirect to a path with the query kept, a
      response written here, or the proxy handler invoked with the request's context. */
  datatype Served =
    | NotFound
    | Redirected(location: string, query: map<string, seq<string>>)
    | Responded(response: Response)
    | Proxied(ctx: Ctx)

  /** healthCheck: status 200, nothing else. */
  function HealthCheckResponse(): (r: Response)
    ensures r.status == StatusOK && r.body == "" && r.header == map[]
  {
    Response(StatusOK, map[], "")
  }

  function RunHandler(h: Handler, query: map<string, seq<string>>, ctx: Ctx, server: ServerConfig): Served {
    match h
    case HealthCheck => Responded(HealthCheckResponse())
    case ProxyHandler => Proxied(ctx)
    case Gated(inner) =>
      match AccessTokenGate(server, query)
      case Invoke => RunHandler(inner, query, ctx, server)
      case Reject(r) => Responded(r)
  }

  /** net/http's cleanPath: the path made rooted and cleaned, with a trailing slash kept. */
  function CleanPath(p: string): (r: string)
    ensures IsRooted(r)
  {
    if p == "" then "/"
    else
      var q := if p[0] != '/' then "/" + p else p;
      var np := Clean(q);
      if q[|q| - 1] == '/' && np != "/" then np + "/" else np
  }

  /** A single proper element under the root is already clean. */
  lemma CleanSingle(name: string)
    requires Proper(name)
    ensures CleanPath("/" + name) == "/" + name
  {
    var p := "/" + name;
    assert p == "" + "/" + name;
    SplitConcat("", name);
    SplitNoSeparator(name, '/');
    assert Split(p, '/') == ["", name];
    assert Normalize(true, [], ["", name]) == Normalize(true, [], [name]);
    assert Normalize(true, [], [name]) == Normalize(true, [name], []);
    assert Join([name], "/") == name;
    assert p[|p| - 1] == name[|name| - 1];
  }

  /** Both registered patterns are clean paths. */
  lemma PatternsClean()
    ensures CleanPath(HealthCheckPattern) == HealthCheckPattern
    ensures CleanPath(ConnectPattern) == ConnectPattern
  {
    assert HealthCheckPattern == "/" + "healthcheck";
    assert ConnectPattern == "/" + "connect";
    CleanSingle("healthcheck");
    CleanSingle("connect");
  }

  /** http.ServeMux with exact patterns: a path that is not clean is redirected, with status 301,
      to its clean form; a clean one runs the handler registered for it, or gets a 404. */
  function Route(routes: map<string, Handler>, path: string, query: map<string, seq<string>>, ctx: Ctx,
                 server: ServerConfig): Served {
    if CleanPath(path) != path then Redirected(CleanPath(path), query)
    else if path in routes then RunHandler(routes[path], query, ctx, server)
    else NotFound
  }

  /** The routes NewServeMux registers. */
  const Routes: map<string, Handler> := map[HealthCheckPattern := HealthCheck, ConnectPattern := Gated(ProxyHandler)]

  /** With the registered routes: /healthcheck always answers 200; /connect reaches the proxy
      handler, with the same context, exactly when the gate lets the request through, and is
      rejected otherwise; a path that is not clean is redirected to its clean form with the query
      kept; every other path is a 404. */
  lemma RoutesSpec(path: string, query: map<string, seq<string>>, ctx: Ctx, server: ServerConfig)
    ensures path == HealthCheckPattern ==> Route(Routes, path, query, ctx, server) == Responded(HealthCheckResponse())
    ensures path == ConnectPattern ==>
      (Route(Routes, path, query, ctx, server) == Proxied(ctx) <==> AccessTokenGate(server, query).Invoke?)
    ensures path == ConnectPattern && AccessTokenGate(server, query).Reject? ==>
      Route(Routes, path, query, ctx, server) == Responded(AccessTokenGate(server, query).response)
    ensures CleanPath(path) != path ==> Route(Routes, path, query, ctx, server) == Redirected(CleanPath(path), query)
    ensures CleanPath(path) == path && path != HealthCheckPattern && path != ConnectPattern ==>
      Route(Routes, path, query, ctx, server) == NotFound
  {
    PatternsClean();
    assert HealthCheckPattern != ConnectPattern by { assert HealthCheckPattern[1] != ConnectPattern[1]; }
    assert Routes[ConnectPattern] == Gated(ProxyHandler);
    if path == ConnectPattern {
      assert RunHandler(ProxyHandler, query, ctx, server) == Proxied(ctx);
    }
  }

  class ServeMux {
    /** The patterns registered on the underlying mux and their handlers. */
    var routes: map<string, Handler>

    /** NewServeMux */
    constructor ()
      ensures routes == Routes
    {
      routes := map[];
      new;
      HandleFunc(HealthCheckPattern, HealthCheck);
      HandleFunc(ConnectPattern, Gated(ProxyHandler));
    }

    /** HandleFunc on the underlying mux, which refuses a pattern registered twice. */
    method HandleFunc(pattern: string, h: Handler)
      requires pattern !in routes
      modifies this`routes
      ensures routes == old(routes)[pattern := h]
    {
      routes := routes[pattern := h];
    }

    /** ServeHTTP: the request's context gets the fresh session id `sessionId` under the
        sessionId tracking key, then the mux routes it. */
    method ServeHTTP(path: string, query: map<string, seq<string>>, ctx: Ctx, server: ServerConfig, sessionId: UUID)
      returns (out: Served)
      ensures out == Route(routes, path, query, ctx[SessionIdTrackingKey := UuidVal(sessionId)], server)
      ensures out.Proxied? && routes == Routes ==>
        path == ConnectPattern && out.ctx == ctx[SessionIdTrackingKey := UuidVal(sessionId)] &&
        out.ctx[SessionIdTrackingKey] == UuidVal(sessionId) &&
        (sessionId != Nil ==> Traced(out.ctx, SessionIdTrackingKey) == Some(Format(sessionId))) &&
        forall k :: k in ctx && k != SessionIdTrackingKey ==> k in out.ctx && out.ctx[k] == ctx[k]
    {
      var rc := ctx[SessionIdTrackingKey := UuidVal(sessionId)];
      if CleanPath(path) != path {
        out := Redirected(CleanPath(path), query);
      } else if path in routes {
        out := RunHandler(routes[path], query, rc, server);
      } else {
        out := NotFound;
      }
      if out.Proxied? && routes == Routes {
        RoutesSpec(path, query, rc, server);
      }
    }
  }
}
