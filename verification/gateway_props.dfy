/** Properties of the gateway hooks, stated over the functions that specify them. */
module GatewayProperties {
  import opened Wrappers
  import opened Text
  import opened Headers
  import opened Failures
  import opened Gateway
  import WebSocketProtocol
  import WebSocketProperties

  // ---------------------------------------------------------------- prepend

  /** A base path of slashes only (such as "/") leaves the path and query as they were. */
  lemma SlashBasePathKeepsPath(ctx: GatewayCtx, uri: Uri)
    requires forall i :: 0 <= i < |ctx.basePath| ==> ctx.basePath[i] == '/'
    ensures PrependBasePath(ctx, uri).pathAndQuery == Some(uri.pathAndQuery.GetOr(""))
  {
  }

  /** Trailing slashes of the base path never double the path's own leading slash. */
  lemma BasePathExample()
    ensures PrependBasePath(GatewayCtx("svc", "/api/", None), Uri(None, None, Some("/widgets/1?x=1"))).pathAndQuery
            == Some("/api/widgets/1?x=1")
  {
    assert "/api/"[..4] == "/api";
    assert TrimTrailingSlashes("/api/") == TrimTrailingSlashes("/api");
    assert TrimTrailingSlashes("/api") == "/api";
    assert "/api" + "/widgets/1?x=1" == "/api/widgets/1?x=1";
  }

  // --------------------------------------------------------- request filter

  /** The request filter answers a request exactly when it is a health check
      whose response could be encoded, or a preflight the CORS configuration accepts. */
  lemma AnsweredIff(g: Gateway, req: DownstreamRequest)
    ensures Intercept(g, req).result == Ok(true) <==>
              (UriPath(req.uri) == HealthzPath && g.healthz.Some?)
              || (UriPath(req.uri) != HealthzPath && req.verb == Options
                  && ApplyCors(g, req, Response(200, [])).1.None?)
    ensures Intercept(g, req).result == Ok(false) <==> UriPath(req.uri) != HealthzPath && req.verb != Options
    ensures Intercept(g, req).result.Ok? || Intercept(g, req).writes == []
  {
  }

  /** The health check is answered whatever the method, with its JSON body and length. */
  lemma HealthCheckForAnyMethod(g: Gateway, req: DownstreamRequest)
    requires UriPath(req.uri) == HealthzPath && g.healthz.Some?
    ensures Intercept(g, req).writes == [WriteHeader(HealthzResponse(g.healthz.value)), WriteBody(g.healthz.value)]
    ensures HealthzResponse(g.healthz.value).status == 200
    ensures GetAll(HealthzResponse(g.healthz.value).headers, ContentLength) == [Decimal(|g.healthz.value|)]
    ensures GetAll(HealthzResponse(g.healthz.value).headers, ContentType) == [ApplicationJson]
  {
    var hs := HealthzResponse(g.healthz.value).headers;
    assert hs == [hs[0]] + [hs[1]];
    GetAllAppend([hs[0]], [hs[1]], ContentLength);
    GetAllAppend([hs[0]], [hs[1]], ContentType);
  }

  /** A preflight is answered with one header-only 200 response carrying the CORS
      headers and exactly one `Content-Length: 0`. */
  lemma PreflightAnswer(g: Gateway, req: DownstreamRequest)
    requires UriPath(req.uri) != HealthzPath && req.verb == Options
    requires ApplyCors(g, req, Response(200, [])).1.None?
    ensures |Intercept(g, req).writes| == 1 && Intercept(g, req).writes[0].WriteHeader?
    ensures Intercept(g, req).writes[0].response.status == 200
    ensures GetAll(Intercept(g, req).writes[0].response.headers, ContentLength) == ["0"]
    ensures forall n :: n != ContentLength ==>
              GetAll(Intercept(g, req).writes[0].response.headers, n)
              == GetAll(ApplyCors(g, req, Response(200, [])).0.headers, n)
  {
    var cors := ApplyCors(g, req, Response(200, [])).0;
    ContentLengthZeroInsertable(cors.headers);
    LowerOfLowercase(ContentLength);
  }

  // ---------------------------------------------------------- upstream peer

  /** With an own API address, internal paths go there without TLS or SNI, before
      the method is even looked at. */
  lemma InternalPathsGoToOwnApi(g: Gateway, req: DownstreamRequest)
    requires g.ownApiAddress.Some? && StartsWith(UriPath(req.uri), InternalPrefix)
    ensures SelectPeer(g, req) == Direct(Peer(g.ownApiAddress.value, false, ""))
  {
  }

  /** An unknown method is a client error. */
  lemma UnknownMethodIsBadRequest(g: Gateway, req: DownstreamRequest)
    requires !ToOwnApi(g, req) && !g.isMethod(req.verb)
    ensures SelectPeer(g, req).Refused? && StatusCode(SelectPeer(g, req).error) == 400
  {
  }

  /** Once routed, every failure to find, parse or resolve the upstream is an internal error. */
  lemma LookupFailuresAreInternal(g: Gateway, req: DownstreamRequest, service: string)
    requires !ToOwnApi(g, req) && g.isMethod(req.verb)
    requires g.route(req.verb, UriPath(req.uri)) == Ok(service)
    ensures SelectPeer(g, req).Refused? ==> StatusCode(SelectPeer(g, req).error) == 500
  {
  }

  /** A routed request goes to the first resolved address, with TLS exactly for
      https and the URL's host as SNI, and the context records the service,
      the URL's path as base path and its host. */
  lemma RoutedPeerFollowsUrl(g: Gateway, req: DownstreamRequest, service: string, upstream: string, url: Url)
    requires !ToOwnApi(g, req) && g.isMethod(req.verb)
    requires g.route(req.verb, UriPath(req.uri)) == Ok(service)
    requires g.serviceBaseUrl(service) == Some(upstream) && g.parseUrl(upstream) == Some(url)
    ensures var addrs := g.resolve(url, DefaultPort(url.scheme));
      SelectPeer(g, req).Routed? <==> addrs.Some? && |addrs.value| > 0
    ensures SelectPeer(g, req).Routed? ==>
              var p := SelectPeer(g, req).peer;
              p.address == g.resolve(url, DefaultPort(url.scheme)).value[0]
              && (p.tls <==> url.scheme == "https")
              && p.sni == url.host.GetOr("")
              && SelectPeer(g, req).ctx == GatewayCtx(service, url.path, url.host)
  {
  }

  // -------------------------------------------------------- response filter

  /** Responses of routed requests get the CORS headers; the status is never changed. */
  lemma CorsOnlyForRoutedRequests(g: Gateway, req: DownstreamRequest, c: GatewayCtx, resp: Response)
    ensures ResponseFilter(g, req, Some(c), resp) == ApplyCors(g, req, resp)
    ensures ResponseFilter(g, req, None, resp) == (resp, None)
  {
  }

  // ------------------------------------------------ upstream request filter

  /** The forwarded URI always carries the base path, whatever later fails. */
  lemma ForwardedUriHasBasePath(g: Gateway, c: GatewayCtx, uri: Uri, hs: seq<Header>, isUpgrade: bool, span: string)
    ensures Forward(g, c, uri, hs, isUpgrade, span).uri == PrependBasePath(c, uri)
  {
  }

  /** A successful WebSocket rewrite keeps the only `Host` value in first place. */
  lemma RewriteKeepsHostFirst(h1: seq<Header>, parseJson: WebSocketProtocol.JsonMapParser, host: string)
    requires GetAll(h1, Host) == [host]
    requires WebSocketProtocol.Rewrite(h1, parseJson).failure.None?
    ensures var got := GetAll(WebSocketProtocol.Rewrite(h1, parseJson).headers, Host);
      |got| > 0 && got[0] == host
  {
    var P := SecWebSocketProtocol;
    var o := WebSocketProtocol.Rewrite(h1, parseJson);
    if GetAll(h1, P) == [] {
      assert o.headers == h1;
    } else {
      WebSocketProperties.RewriteSucceeds(h1, parseJson);
      var tail := WebSocketProperties.Contributions(GetAll(h1, P), parseJson);
      assert o.headers == RemoveAll(h1, P) + tail;
      GetAllAppend(RemoveAll(h1, P), tail, Host);
      GetAllRemoveOther(h1, P, Host);
    }
  }

  /** The upstream's host replaces the client's `Host`; the WebSocket rewrite
      keeps it in first place (tunnelled entries may add more `Host` values after it). */
  lemma HostReachesMetadata(g: Gateway, c: GatewayCtx, uri: Uri, hs: seq<Header>, isUpgrade: bool)
    requires c.host.Some?
    requires Prepared(g, c, uri, hs, isUpgrade).error.None?
    ensures var got := GetAll(Prepared(g, c, uri, hs, isUpgrade).headers, Host);
      |got| > 0 && got[0] == c.host.value
    ensures !isUpgrade ==> GetAll(Prepared(g, c, uri, hs, isUpgrade).headers, Host) == [c.host.value]
  {
    LowerOfLowercase(Host);
    var ins := Inserted(hs, Host, c.host.value);
    assert ins.Some?;
    var h1 := ins.value;
    assert GetAll(h1, Host) == [c.host.value];
    var s := Prepared(g, c, uri, hs, isUpgrade);
    if isUpgrade {
      assert s.headers == WebSocketProtocol.Rewrite(h1, g.parseJson).headers;
      RewriteKeepsHostFirst(h1, g.parseJson, c.host.value);
    } else {
      assert s.headers == h1;
    }
  }

  /** The call is described as coming from this gateway, with the service's
      authentication method (none configured: no-op), and the parent span of
      the request's metadata, or the fresh one when it has none. */
  lemma DescriptionOfCall(g: Gateway, c: GatewayCtx, uri: Uri, hs: seq<Header>, isUpgrade: bool, span: string)
    requires Forward(g, c, uri, hs, isUpgrade, span).desc.Some?
    ensures var s := Prepared(g, c, uri, hs, isUpgrade);
      var meta := g.parseCallMeta(s.headers).value;
      var d := Forward(g, c, uri, hs, isUpgrade, span).desc.value;
      d.caller == GatewayCaller(g.name)
      && d.svcAuthMethod == g.serviceAuthMethod(c.serviceName).GetOr(NoopAuthMethod)
      && d.parentSpan == Some((meta.traceId, meta.parentSpanId.GetOr(span)))
      && d.extCorrelationId == meta.extCorrelationId
  {
  }

  /** Every failure of the upstream request filter is reported as 500. */
  lemma ForwardingFailuresAre500(g: Gateway, c: GatewayCtx, uri: Uri, hs: seq<Header>, isUpgrade: bool, span: string)
    requires Forward(g, c, uri, hs, isUpgrade, span).error.Some?
    ensures StatusCode(Forward(g, c, uri, hs, isUpgrade, span).error.value) == 500
  {
    var s := Prepared(g, c, uri, hs, isUpgrade);
    var f := Forward(g, c, uri, hs, isUpgrade, span);
    if s.error.Some? {
      assert f.error == s.error;
      assert s.error.value.esource == Unset && !s.error.value.etype.HTTPStatus?;
    }
  }

  /** A malformed `Sec-WebSocket-Protocol` on an upgrade stops the rewrite, and
      only then does the WebSocket step fail. */
  lemma MalformedProtocolStopsUpgrade(g: Gateway, c: GatewayCtx, uri: Uri, hs: seq<Header>)
    requires c.host.None? || Inserted(hs, Host, c.host.value).Some?
    ensures Prepared(g, c, uri, hs, true).error.Some? <==>
              !WebSocketProperties.AllWellFormed(GetAll(hs, SecWebSocketProtocol), g.parseJson)
  {
    if c.host.Some? {
      LowerOfLowercase(Host);
      var h1 := Inserted(hs, Host, c.host.value).value;
      assert GetAll(h1, SecWebSocketProtocol) == GetAll(hs, SecWebSocketProtocol);
      WebSocketProperties.RewriteFailsIffMalformed(h1, g.parseJson);
    } else {
      WebSocketProperties.RewriteFailsIffMalformed(hs, g.parseJson);
    }
  }

  /** A failing authentication handler's own error is kept as the cause: when it
      is an `api::Error`, the filter reports 500 but the client is sent that
      error's status and JSON body. */
  lemma AuthApiErrorReachesClient(g: Gateway, c: GatewayCtx, uri: Uri, hs: seq<Header>, isUpgrade: bool, span: string,
                                  req: DownstreamRequest, a: ApiError)
    requires Prepared(g, c, uri, hs, isUpgrade).error.None?
    requires g.parseCallMeta(Prepared(g, c, uri, hs, isUpgrade).headers).Ok?
    requires var s := Prepared(g, c, uri, hs, isUpgrade);
      g.auth.Some? && g.auth.value(s.uri, s.headers, WithParentSpan(g.parseCallMeta(s.headers).value, span)) == Err(Api(a))
    ensures Forward(g, c, uri, hs, isUpgrade, span).error == Some(Because(InternalError, Api(a)))
    ensures StatusCode(Because(InternalError, Api(a))) == 500
    ensures FailureWrites(g, req, Because(InternalError, Api(a)))
            == Some([WriteHeader(ApplyCors(g, req, ApiErrorResponse(a).0).0), WriteBody(a.json)])
    ensures ApplyCors(g, req, ApiErrorResponse(a).0).0.status == a.status
  {
    ApiErrorWrites(g, req, Because(InternalError, Api(a)), a);
  }

  /** A request that went to the gateway's own API is forwarded unchanged. */
  method OwnApiRequestUnchanged(g: Gateway, session: Session, req: RequestHeader, span: string)
    returns (error: Option<ProxyError>)
    requires ToOwnApi(g, session.request)
    modifies req
    ensures error.None? && req.uri == old(req.uri) && req.headers == old(req.headers)
  {
    var ctx := new RequestCtx();
    var peer := UpstreamPeer(g, session, ctx);
    error := UpstreamRequestFilter(g, session, req, ctx, span);
  }

  // ----------------------------------------------------------- fail to proxy

  /** On a live connection the response cannot be built, and the hook panics,
      exactly for a code the `http` crate refuses without an `api::Error`.
      Otherwise the client gets one response header, followed by a body exactly
      when the error carries an `api::Error`; the header's status is that
      error's status, or else the reported code. */
  lemma FailureResponse(g: Gateway, req: DownstreamRequest, e: ProxyError)
    ensures FailureWrites(g, req, e).None? <==> !e.cause.Api? && !ValidStatus(StatusCode(e))
    ensures FailureWrites(g, req, e).Some? ==>
              var w := FailureWrites(g, req, e).value;
              |w| == (if e.cause.Api? then 2 else 1)
              && w[0].WriteHeader?
              && w[0].response.status == (if e.cause.Api? then e.cause.apiError.status else StatusCode(e))
              && (e.cause.Api? ==> w[1] == WriteBody(e.cause.apiError.json))
  {
    ErrorResponseShape(e, StatusCode(e));
  }

  /** An error caused by an `api::Error` sends that error's response, with the
      CORS headers, and its JSON body, whatever the reported code. */
  lemma ApiErrorWrites(g: Gateway, req: DownstreamRequest, e: ProxyError, a: ApiError)
    requires e.cause == Api(a)
    ensures FailureWrites(g, req, e) == Some([WriteHeader(ApplyCors(g, req, ApiErrorResponse(a).0).0), WriteBody(a.json)])
  {
    var sent := ApplyCors(g, req, ApiErrorResponse(a).0).0;
    assert ErrorResponse(e, StatusCode(e)) == Some((ApiErrorResponse(a).0, Some(a.json)));
    assert [WriteHeader(sent)] + [WriteBody(a.json)] == [WriteHeader(sent), WriteBody(a.json)];
  }

  /** An explicit `HTTPStatus(0)` without an `api::Error` reports no code at
      all: building the response for 0 panics, before anything is written. */
  lemma ZeroStatusPanics(g: Gateway, req: DownstreamRequest, source: ErrorSource, cause: Cause)
    requires !cause.Api?
    ensures var e := ProxyError(HTTPStatus(0), source, cause);
      StatusCode(e) == 0 && !ConnectionDead(e) && FailureWrites(g, req, e).None?
  {
  }

  /** The sentinel collision: an explicit `HTTPStatus(0)` caused by an
      `api::Error` reports 0, the code that otherwise means "connection dead,
      nothing sent", yet the API error's response is written. */
  lemma ZeroStatusStillWritten(g: Gateway, req: DownstreamRequest, source: ErrorSource, a: ApiError)
    ensures var e := ProxyError(HTTPStatus(0), source, Api(a));
      StatusCode(e) == 0 && !ConnectionDead(e)
      && FailureWrites(g, req, e) == Some([WriteHeader(ApplyCors(g, req, ApiErrorResponse(a).0).0), WriteBody(a.json)])
  {
    ApiErrorWrites(g, req, ProxyError(HTTPStatus(0), source, Api(a)), a);
  }
}
