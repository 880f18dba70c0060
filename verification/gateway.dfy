/** The gateway's proxy hooks: which requests it answers itself
    (`request_filter`), which upstream it forwards to (`upstream_peer`), how it
    rewrites the forwarded request (`upstream_request_filter`), how it decorates
    the upstream response (`response_filter`) and what it sends when proxying
    fails (`fail_to_proxy`). The router, the service registry, URL parsing, DNS,
    the CORS configuration, the authenticator and the request-metadata writer
    are parameters of the `Gateway` value. */
module Gateway {
  import opened Wrappers
  import opened Text
  import opened Headers
  import opened Failures
  import Base64Url
  import WebSocketProtocol

  const HealthzPath := "/__encore/healthz"
  const InternalPrefix := "/__encore/"
  const Options := "OPTIONS"
  const ApplicationJson := "application/json"
  /** The service-to-service authentication used when the registry names none (`svcauth::Noop`). */
  const NoopAuthMethod := "noop"

  /** The upstream chosen for a request, recorded by `upstream_peer`. */
  datatype GatewayCtx = GatewayCtx(serviceName: string, basePath: string, host: Option<string>)

  datatype SocketAddr = SocketAddr(ip: string, port: nat)

  /** A parsed upstream base URL. */
  datatype Url = Url(scheme: string, host: Option<string>, path: string)

  /** pingora's `HttpPeer`: the address, whether to use TLS, and the SNI name. */
  datatype Peer = Peer(address: SocketAddr, tls: bool, sni: string)

  datatype AuthResponse = Authenticated(uid: string, data: string) | Unauthenticated

  /** The call metadata read from the request's headers. */
  datatype CallMeta = CallMeta(traceId: string, parentSpanId: Option<string>, extCorrelationId: Option<string>)

  datatype Caller = GatewayCaller(gateway: string)

  /** The description of the call the metadata writer puts on the upstream request. */
  datatype CallDesc = CallDesc(
    caller: Caller,
    parentSpan: Option<(string, string)>,
    extCorrelationId: Option<string>,
    authUserId: Option<string>,
    authData: Option<string>,
    svcAuthMethod: string)

  /** What a hook wrote to the client. */
  datatype Write = WriteHeader(response: Response) | WriteBody(body: seq<Base64Url.byte>)

  /** The client's request as the hooks see it. */
  datatype DownstreamRequest = DownstreamRequest(verb: string, uri: Uri, headers: seq<Header>, isUpgrade: bool)

  /** The CORS configuration applied to a response's headers, given the request:
      the headers after the attempt, and the error that stopped it, if any. */
  type CorsApply = (DownstreamRequest, seq<Header>) -> (seq<Header>, Option<ProxyError>)

  /** The gateway and everything it consults that is outside this model. */
  datatype Gateway = Gateway(
    name: string,
    ownApiAddress: Option<SocketAddr>,
    /** The serialised health-check response; `None` when serialisation fails. */
    healthz: Option<seq<Base64Url.byte>>,
    cors: CorsApply,
    /** Whether the method string is one `Method::try_from` accepts. */
    isMethod: string -> bool,
    /** `router.route_to_service(method, path)`. */
    route: (string, string) -> Result<string, ProxyError>,
    serviceBaseUrl: string -> Option<string>,
    parseUrl: string -> Option<Url>,
    /** `socket_addrs` with the default port; `None` when the lookup fails. */
    resolve: (Url, Option<nat>) -> Option<seq<SocketAddr>>,
    serviceAuthMethod: string -> Option<string>,
    /** `CallMeta::parse_without_caller`, failing with the parser's error. */
    parseCallMeta: seq<Header> -> Result<CallMeta, Cause>,
    /** The authentication handler, if the application has one, failing with its error. */
    auth: Option<(Uri, seq<Header>, CallMeta) -> Result<AuthResponse, Cause>>,
    /** `CallDesc::add_meta`: the headers after the attempt, and its error, if any. */
    addMeta: (CallDesc, seq<Header>) -> (seq<Header>, Option<Cause>),
    parseJson: WebSocketProtocol.JsonMapParser)

  /** pingora's per-request session: the client's request, the keep-alive
      setting and what has been written back. */
  class Session {
    const request: DownstreamRequest
    var keepAlive: bool
    var written: seq<Write>

    constructor (request: DownstreamRequest)
      ensures this.request == request && keepAlive && written == []
    {
      this.request := request;
      keepAlive := true;
      written := [];
    }

    method WriteResponseHeader(response: Response)
      modifies this
      ensures written == old(written) + [WriteHeader(response)] && keepAlive == old(keepAlive)
    {
      written := written + [WriteHeader(response)];
    }

    method WriteResponseBody(body: seq<Base64Url.byte>)
      modifies this
      ensures written == old(written) + [WriteBody(body)] && keepAlive == old(keepAlive)
    {
      written := written + [WriteBody(body)];
    }
  }

  /** The per-request context, `Option<GatewayCtx>`; `new_ctx` starts it empty. */
  class RequestCtx {
    var gateway: Option<GatewayCtx>

    constructor ()
      ensures gateway == None
    {
      gateway := None;
    }
  }

  /** `Uri::path`: the path and query without the query, that is, its longest
      prefix without a `?`. */
  function UriPath(uri: Uri): (p: string)
    ensures '?' !in p
    ensures uri.pathAndQuery.Some? ==> p <= uri.pathAndQuery.value
    ensures uri.pathAndQuery.Some? && |p| < |uri.pathAndQuery.value| ==> uri.pathAndQuery.value[|p|] == '?'
  {
    match uri.pathAndQuery
    case None => ""
    case Some(pq) =>
      SplitOmitsSeparator(pq, '?');
      SplitFirstIsPrefix(pq, '?');
      JoinSplit(pq, '?');
      Split(pq, '?')[0]
  }

  // ---------------------------------------------------------------- prepend

  /** `prepend_base_path`: the upstream's base path without trailing slashes,
      followed by the request's path and query; scheme and authority kept. */
  function PrependBasePath(ctx: GatewayCtx, uri: Uri): (r: Uri)
    ensures r.scheme == uri.scheme && r.authority == uri.authority && r.pathAndQuery.Some?
    ensures TrimTrailingSlashes(ctx.basePath) <= r.pathAndQuery.value
    ensures r.pathAndQuery.value[|TrimTrailingSlashes(ctx.basePath)|..] == uri.pathAndQuery.GetOr("")
  {
    Uri(uri.scheme, uri.authority, Some(TrimTrailingSlashes(ctx.basePath) + uri.pathAndQuery.GetOr("")))
  }

  // --------------------------------------------------------- request filter

  function ApplyCors(g: Gateway, req: DownstreamRequest, resp: Response): (r: (Response, Option<ProxyError>))
    ensures r.0.status == resp.status
  {
    var (hs, err) := g.cors(req, resp.headers);
    (Response(resp.status, hs), err)
  }

  function HealthzResponse(body: seq<Base64Url.byte>): Response {
    Response(200, [Header(ContentLength, Decimal(|body|)), Header(ContentType, ApplicationJson)])
  }

  lemma ContentLengthZeroInsertable(hs: seq<Header>)
    ensures Inserted(hs, ContentLength, "0").Some?
  {
    assert ValidName(ContentLength) by {
      forall i | 0 <= i < |ContentLength| ensures IsTokenChar(ContentLength[i]) {
      }
    }
  }

  /** The preflight answer: 200 with the CORS headers and `Content-Length: 0`. */
  function PreflightResponse(cors: Response): Response {
    ContentLengthZeroInsertable(cors.headers);
    Response(cors.status, Inserted(cors.headers, ContentLength, "0").value)
  }

  /** What `request_filter` writes and returns. */
  datatype Interception = Interception(writes: seq<Write>, result: Result<bool, ProxyError>)

  function Intercept(g: Gateway, req: DownstreamRequest): (r: Interception)
    ensures r.result != Ok(true) ==> r.writes == []
    ensures r.result == Ok(true) ==> 1 <= |r.writes| <= 2 && r.writes[0].WriteHeader?
  {
    if UriPath(req.uri) == HealthzPath then
      match g.healthz
      case None => Interception([], Err(Because(HTTPStatus(500), OtherCause("could not encode response"))))
      case Some(body) => Interception([WriteHeader(HealthzResponse(body)), WriteBody(body)], Ok(true))
    else if req.verb == Options then
      var (resp, err) := ApplyCors(g, req, Response(200, []));
      if err.Some? then Interception([], Err(err.value))
      else Interception([WriteHeader(PreflightResponse(resp))], Ok(true))
    else Interception([], Ok(false))
  }

  /** `request_filter`: answers health checks and CORS preflights itself. */
  method RequestFilter(g: Gateway, session: Session) returns (r: Result<bool, ProxyError>)
    modifies session
    ensures session.written == old(session.written) + Intercept(g, session.request).writes
    ensures r == Intercept(g, session.request).result
    ensures session.keepAlive == old(session.keepAlive)
  {
    if UriPath(session.request.uri) == HealthzPath {
      if g.healthz.None? {
        return Err(Because(HTTPStatus(500), OtherCause("could not encode response")));
      }
      var body := g.healthz.value;
      session.WriteResponseHeader(HealthzResponse(body));
      session.WriteResponseBody(body);
      return Ok(true);
    }
    if session.request.verb == Options {
      var (resp, err) := ApplyCors(g, session.request, Response(200, []));
      if err.Some? {
        return Err(err.value);
      }
      var resp' := PreflightResponse(resp);
      session.WriteResponseHeader(resp');
      return Ok(true);
    }
    return Ok(false);
  }

  // ---------------------------------------------------------- upstream peer

  /** The port `socket_addrs` falls back on for the scheme. */
  function DefaultPort(scheme: string): (r: Option<nat>)
    ensures r == Some(443) <==> scheme == "https"
    ensures r == Some(80) <==> scheme == "http"
    ensures r.None? <==> scheme != "https" && scheme != "http"
  {
    if scheme == "https" then Some(443) else if scheme == "http" then Some(80) else None
  }

  /** What `upstream_peer` decides: the gateway's own API (context untouched),
      a routed upstream (context recorded), or an error. */
  datatype Selection = Direct(peer: Peer) | Routed(peer: Peer, ctx: GatewayCtx) | Refused(error: ProxyError)

  predicate ToOwnApi(g: Gateway, req: DownstreamRequest) {
    g.ownApiAddress.Some? && StartsWith(UriPath(req.uri), InternalPrefix)
  }

  function SelectPeer(g: Gateway, req: DownstreamRequest): (r: Selection)
    ensures r.Direct? <==> ToOwnApi(g, req)
    ensures r.Routed? ==> g.isMethod(req.verb) && g.route(req.verb, UriPath(req.uri)) == Ok(r.ctx.serviceName)
  {
    var path := UriPath(req.uri);
    if ToOwnApi(g, req) then Direct(Peer(g.ownApiAddress.value, false, ""))
    else if !g.isMethod(req.verb) then Refused(Because(HTTPStatus(400), OtherCause("invalid http method")))
    else
      match g.route(req.verb, path)
      case Err(e) => Refused(e)
      case Ok(service) =>
        match g.serviceBaseUrl(service)
        case None => Refused(Explain(InternalError))
        case Some(upstream) =>
          match g.parseUrl(upstream)
          case None => Refused(Because(InternalError, OtherCause("upstream not a valid url")))
          case Some(url) =>
            match g.resolve(url, DefaultPort(url.scheme))
            case None => Refused(Because(InternalError, OtherCause("couldn't lookup upstream ip address")))
            case Some(addrs) =>
              if |addrs| == 0 then Refused(Explain(InternalError))
              else Routed(Peer(addrs[0], url.scheme == "https", url.host.GetOr("")),
                          GatewayCtx(service, url.path, url.host))
  }

  /** `upstream_peer`: picks the peer and, for routed requests, records the upstream. */
  method UpstreamPeer(g: Gateway, session: Session, ctx: RequestCtx) returns (r: Result<Peer, ProxyError>)
    modifies ctx
    ensures SelectPeer(g, session.request).Direct? ==>
              r == Ok(SelectPeer(g, session.request).peer) && ctx.gateway == old(ctx.gateway)
    ensures SelectPeer(g, session.request).Routed? ==>
              r == Ok(SelectPeer(g, session.request).peer) && ctx.gateway == Some(SelectPeer(g, session.request).ctx)
    ensures SelectPeer(g, session.request).Refused? ==>
              r == Err(SelectPeer(g, session.request).error) && ctx.gateway == old(ctx.gateway)
  {
    var req := session.request;
    var path := UriPath(req.uri);
    if g.ownApiAddress.Some? && StartsWith(path, InternalPrefix) {
      return Ok(Peer(g.ownApiAddress.value, false, ""));
    }
    if !g.isMethod(req.verb) {
      return Err(Because(HTTPStatus(400), OtherCause("invalid http method")));
    }
    var routed := g.route(req.verb, path);
    if routed.Err? {
      return Err(routed.error);
    }
    var service := routed.value;
    var upstream := g.serviceBaseUrl(service);
    if upstream.None? {
      return Err(Explain(InternalError));
    }
    var url := g.parseUrl(upstream.value);
    if url.None? {
      return Err(Because(InternalError, OtherCause("upstream not a valid url")));
    }
    var addrs := g.resolve(url.value, DefaultPort(url.value.scheme));
    if addrs.None? {
      return Err(Because(InternalError, OtherCause("couldn't lookup upstream ip address")));
    }
    if |addrs.value| == 0 {
      return Err(Explain(InternalError));
    }
    var tls := url.value.scheme == "https";
    var host := url.value.host;
    var peer := Peer(addrs.value[0], tls, host.GetOr(""));
    ctx.gateway := Some(GatewayCtx(service, url.value.path, host));
    return Ok(peer);
  }

  // -------------------------------------------------------- response filter

  /** `response_filter`: CORS headers on responses of routed requests only. */
  function ResponseFilter(g: Gateway, req: DownstreamRequest, ctx: Option<GatewayCtx>, resp: Response): (r: (Response, Option<ProxyError>))
    ensures r.0.status == resp.status
    ensures ctx.None? ==> r == (resp, None)
  {
    if ctx.Some? then ApplyCors(g, req, resp) else (resp, None)
  }

  // ------------------------------------------------ upstream request filter

  /** The request after the base path, the `Host` header and the WebSocket
      rewrite, and the error that stopped it, if any. */
  datatype Stage = Stage(uri: Uri, headers: seq<Header>, error: Option<ProxyError>)

  function Prepared(g: Gateway, c: GatewayCtx, uri: Uri, headers: seq<Header>, isUpgrade: bool): (r: Stage)
    ensures r.uri == PrependBasePath(c, uri)
    ensures r.error.Some? ==> StatusCode(r.error.value) == 500
    ensures c.host.None? && !isUpgrade ==> r.headers == headers && r.error.None?
  {
    var uri' := PrependBasePath(c, uri);
    if c.host.Some? && Inserted(headers, Host, c.host.value).None? then
      Stage(uri', headers, Some(Explain(InvalidHTTPHeader)))
    else
      var hs := if c.host.Some? then Inserted(headers, Host, c.host.value).value else headers;
      if !isUpgrade then Stage(uri', hs, None)
      else
        var o := WebSocketProtocol.Rewrite(hs, g.parseJson);
        Stage(uri', o.headers,
              if o.failure.Some? then Some(Because(UnknownError, OtherCause("failed parsing websocket protocol header")))
              else None)
  }

  /** The call metadata with a parent span: the request's own, or the fresh one. */
  function WithParentSpan(meta: CallMeta, span: string): (m: CallMeta)
    ensures m.traceId == meta.traceId && m.extCorrelationId == meta.extCorrelationId
    ensures m.parentSpanId.Some?
    ensures meta.parentSpanId.Some? ==> m == meta
    ensures meta.parentSpanId.None? ==> m.parentSpanId == Some(span)
  {
    if meta.parentSpanId.None? then meta.(parentSpanId := Some(span)) else meta
  }

  function Describe(g: Gateway, c: GatewayCtx, meta: CallMeta): (d: CallDesc)
    ensures d.caller == GatewayCaller(g.name) && d.authUserId.None? && d.authData.None?
    ensures d.parentSpan.Some? <==> meta.parentSpanId.Some?
  {
    CallDesc(
      GatewayCaller(g.name),
      if meta.parentSpanId.Some? then Some((meta.traceId, meta.parentSpanId.value)) else None,
      meta.extCorrelationId,
      None,
      None,
      g.serviceAuthMethod(c.serviceName).GetOr(NoopAuthMethod))
  }

  /** The authentication step: the description gains the user and data of an
      authenticated request; a failing handler is an internal error caused by
      the handler's own error. */
  function Authenticate(g: Gateway, uri: Uri, headers: seq<Header>, meta: CallMeta, desc: CallDesc): (r: Result<CallDesc, ProxyError>)
    ensures r.Err? <==> g.auth.Some? && g.auth.value(uri, headers, meta).Err?
    ensures r.Err? ==> r.error == Because(InternalError, g.auth.value(uri, headers, meta).error) && StatusCode(r.error) == 500
    ensures r.Ok? ==> r.value.(authUserId := desc.authUserId, authData := desc.authData) == desc
    ensures r.Ok? && g.auth.Some? && g.auth.value(uri, headers, meta).value.Authenticated? ==>
              r.value.authUserId == Some(g.auth.value(uri, headers, meta).value.uid)
              && r.value.authData == Some(g.auth.value(uri, headers, meta).value.data)
    ensures r.Ok? && (g.auth.None? || g.auth.value(uri, headers, meta).value.Unauthenticated?) ==> r.value == desc
  {
    match g.auth
    case None => Ok(desc)
    case Some(authenticate) =>
      match authenticate(uri, headers, meta)
      case Err(cause) => Err(Because(InternalError, cause))
      case Ok(Unauthenticated) => Ok(desc)
      case Ok(Authenticated(uid, data)) => Ok(desc.(authUserId := Some(uid), authData := Some(data)))
  }

  /** The forwarded request, the call description handed to the metadata
      writer (once there is one) and the error that stopped the rewrite. */
  datatype Forwarded = Forwarded(uri: Uri, headers: seq<Header>, desc: Option<CallDesc>, error: Option<ProxyError>)

  function Forward(g: Gateway, c: GatewayCtx, uri: Uri, headers: seq<Header>, isUpgrade: bool, freshSpan: string): (f: Forwarded)
    ensures f.error.None? ==> f.desc.Some?
    ensures f.desc.Some? ==> f.desc.value.parentSpan.Some?
    ensures f.error.Some? ==> f.error.value.etype == InternalError || f.error == Prepared(g, c, uri, headers, isUpgrade).error
  {
    var s := Prepared(g, c, uri, headers, isUpgrade);
    if s.error.Some? then Forwarded(s.uri, s.headers, None, s.error)
    else
      match g.parseCallMeta(s.headers)
      case Err(cause) => Forwarded(s.uri, s.headers, None, Some(Because(InternalError, cause)))
      case Ok(parsed) =>
        var meta := WithParentSpan(parsed, freshSpan);
        match Authenticate(g, s.uri, s.headers, meta, Describe(g, c, meta))
        case Err(e) => Forwarded(s.uri, s.headers, None, Some(e))
        case Ok(desc) =>
          var (hs, failure) := g.addMeta(desc, s.headers);
          Forwarded(s.uri, hs, Some(desc), if failure.None? then None else Some(Because(InternalError, failure.value)))
  }

  /** The first half of `upstream_request_filter`: the base path, the `Host`
      header and, on an upgrade, the WebSocket protocol rewrite, in place. */
  method PrepareInPlace(g: Gateway, c: GatewayCtx, req: RequestHeader, isUpgrade: bool)
    returns (error: Option<ProxyError>)
    modifies req
    ensures var s := Prepared(g, c, old(req.uri), old(req.headers), isUpgrade);
      req.uri == s.uri && req.headers == s.headers && error == s.error
  {
    req.SetUri(PrependBasePath(c, req.uri));
    if c.host.Some? {
      var ok := req.InsertHeader(Host, c.host.value);
      if !ok {
        return Some(Explain(InvalidHTTPHeader));
      }
    }
    if isUpgrade {
      var failure := WebSocketProtocol.UpdateRequestFromWebSocketProtocol(req, g.parseJson);
      if failure.Some? {
        return Some(Because(UnknownError, OtherCause("failed parsing websocket protocol header")));
      }
    }
    return None;
  }

  /** `upstream_request_filter`: rewrites the upstream request of a routed
      request in place; requests to the gateway's own API pass unchanged. */
  method UpstreamRequestFilter(g: Gateway, session: Session, req: RequestHeader, ctx: RequestCtx, freshSpan: string)
    returns (error: Option<ProxyError>)
    modifies req
    ensures ctx.gateway.None? ==> error.None? && req.uri == old(req.uri) && req.headers == old(req.headers)
    ensures ctx.gateway.Some? ==>
              var f := Forward(g, ctx.gateway.value, old(req.uri), old(req.headers), session.request.isUpgrade, freshSpan);
              req.uri == f.uri && req.headers == f.headers && error == f.error
  {
    if ctx.gateway.None? {
      return None;
    }
    var c := ctx.gateway.value;
    error := PrepareInPlace(g, c, req, session.request.isUpgrade);
    if error.Some? {
      return;
    }
    var svcAuthMethod := g.serviceAuthMethod(c.serviceName).GetOr(NoopAuthMethod);
    var parsed := g.parseCallMeta(req.headers);
    if parsed.Err? {
      return Some(Because(InternalError, parsed.error));
    }
    var meta := parsed.value;
    if meta.parentSpanId.None? {
      meta := meta.(parentSpanId := Some(freshSpan));
    }
    var desc := CallDesc(
      GatewayCaller(g.name),
      if meta.parentSpanId.Some? then Some((meta.traceId, meta.parentSpanId.value)) else None,
      meta.extCorrelationId,
      None,
      None,
      svcAuthMethod);
    if g.auth.Some? {
      var response := g.auth.value(req.uri, req.headers, meta);
      if response.Err? {
        return Some(Because(InternalError, response.error));
      }
      if response.value.Authenticated? {
        desc := desc.(authUserId := Some(response.value.uid), authData := Some(response.value.data));
      }
    }
    var (hs, failure) := g.addMeta(desc, req.headers);
    req.headers := hs;
    if failure.Some? {
      return Some(Because(InternalError, failure.value));
    }
    return None;
  }

  // ----------------------------------------------------------- fail to proxy

  /** What `fail_to_proxy` writes for an error on a live connection: the
      response header (with CORS headers when applying them succeeds, as far as
      they got otherwise) and, for an `api::Error`, its JSON body; `None` when
      building the response panics, before anything is written. */
  function FailureWrites(g: Gateway, req: DownstreamRequest, e: ProxyError): (w: Option<seq<Write>>)
    ensures w.Some? ==> 1 <= |w.value| <= 2 && w.value[0].WriteHeader?
  {
    match ErrorResponse(e, StatusCode(e))
    case None => None
    case Some((resp, body)) =>
      var (sent, _) := ApplyCors(g, req, resp);
      Some([WriteHeader(sent)] + (if body.Some? then [WriteBody(body.value)] else []))
  }

  /** `fail_to_proxy`: reports the status code; on a dead connection writes
      nothing, otherwise disables keep-alive and writes the error response.
      `None` stands for the panic of building a response for a code the `http`
      crate refuses: no code is returned and the session is left as it was. */
  method FailToProxy(g: Gateway, session: Session, e: ProxyError) returns (reported: Option<u16>)
    modifies session
    ensures ConnectionDead(e) ==>
              reported == Some(0) && session.written == old(session.written) && session.keepAlive == old(session.keepAlive)
    ensures !ConnectionDead(e) && FailureWrites(g, session.request, e).None? ==>
              reported.None? && session.written == old(session.written) && session.keepAlive == old(session.keepAlive)
    ensures !ConnectionDead(e) && FailureWrites(g, session.request, e).Some? ==>
              reported == Some(StatusCode(e)) && !session.keepAlive
              && session.written == old(session.written) + FailureWrites(g, session.request, e).value
  {
    var code: u16;
    if e.etype.HTTPStatus? {
      code := e.etype.code;
    } else if e.esource == Upstream {
      code := 502;
    } else if e.esource == Downstream {
      if e.etype == WriteError || e.etype == ReadError || e.etype == ConnectionClosed {
        return Some(0);
      }
      code := 400;
    } else {
      code := 500;
    }
    var resp: Response;
    var body: Option<seq<Base64Url.byte>>;
    var api := AsApiError(e);
    if api.Some? {
      var (r, b) := ApiErrorResponse(api.value);
      resp, body := r, Some(b);
    } else if code == 502 {
      resp, body := Http502Response, None;
    } else if code == 400 {
      resp, body := Http400Response, None;
    } else {
      var generated := GenErrorResponse(code);
      if generated.None? {
        return None;
      }
      resp, body := generated.value, None;
    }
    var (sent, _) := ApplyCors(g, session.request, resp);
    session.keepAlive := false;
    session.WriteResponseHeader(sent);
    if body.Some? {
      session.WriteResponseBody(body.value);
    }
    return Some(code);
  }
}
