/** Errors as pingora carries them through the proxy, and the failure-hook
    decisions of `fail_to_proxy`: which status code to report and which
    response to write. */
module Failures {
  import opened Wrappers
  import opened Headers
  import Base64Url

  type u16 = x: int | 0 <= x < 0x1_0000

  /** The codes the `http` crate's `StatusCode::from_u16` accepts. */
  predicate ValidStatus(code: u16) {
    100 <= code <= 999
  }

  /** A status code an `http::StatusCode` can hold. */
  type HttpStatus = c: u16 | 100 <= c <= 999 witness 200

  /** The variants of pingora's `ErrorType` the gateway distinguishes; the
      others are `Other`. */
  datatype ErrorType =
    | HTTPStatus(code: u16)
    | InternalError
    | UnknownError
    | InvalidHTTPHeader
    | ReadError
    | WriteError
    | ConnectionClosed
    | Other(name: string)

  datatype ErrorSource = Upstream | Downstream | Internal | Unset

  /** An `api::Error`: the status its code maps to, and its JSON serialisation. */
  datatype ApiError = ApiError(status: HttpStatus, json: seq<Base64Url.byte>)

  /** The cause attached to a pingora error. */
  datatype Cause = NoCause | Api(apiError: ApiError) | OtherCause(description: string)

  datatype ProxyError = ProxyError(etype: ErrorType, esource: ErrorSource, cause: Cause)

  /** `Error::because`: an error of the given type, source unset, with a cause. */
  function Because(etype: ErrorType, cause: Cause): ProxyError {
    ProxyError(etype, Unset, cause)
  }

  /** `Error::explain`: an error of the given type, source unset, no cause. */
  function Explain(etype: ErrorType): ProxyError {
    ProxyError(etype, Unset, NoCause)
  }

  /** A downstream transport error on a connection that is already gone. */
  predicate ConnectionDead(e: ProxyError): (dead: bool)
    ensures dead ==> e.esource == Downstream && !e.etype.HTTPStatus?
  {
    !e.etype.HTTPStatus? && e.esource == Downstream
    && (e.etype == WriteError || e.etype == ReadError || e.etype == ConnectionClosed)
  }

  /** The status code `fail_to_proxy` reports; 0 stands for "nothing was sent". */
  function StatusCode(e: ProxyError): (code: u16)
    ensures code == 0 <==> ConnectionDead(e) || e.etype == HTTPStatus(0)
    ensures code in {400, 500, 502} || ConnectionDead(e) || e.etype.HTTPStatus?
  {
    if e.etype.HTTPStatus? then e.etype.code
    else if e.esource == Upstream then 502
    else if e.esource == Downstream then
      (if e.etype == WriteError || e.etype == ReadError || e.etype == ConnectionClosed then 0 else 400)
    else 500
  }

  /** `as_api_error`: the `api::Error` the error was caused by, if any. */
  function AsApiError(e: ProxyError): (r: Option<ApiError>)
    ensures r.Some? <==> e.cause.Api?
    ensures r.Some? ==> r.value == e.cause.apiError
  {
    match e.cause
    case Api(a) => Some(a)
    case _ => None
  }

  datatype Response = Response(status: u16, headers: seq<Header>)

  predicate IsDigits(s: string) {
    forall i :: 0 <= i < |s| ==> '0' <= s[i] <= '9'
  }

  /** The number a string of decimal digits denotes, most significant digit first. */
  function DecimalValue(s: string): nat
    requires IsDigits(s)
  {
    if |s| == 0 then 0 else DecimalValue(s[..|s| - 1]) * 10 + (s[|s| - 1] as int - '0' as int)
  }

  /** Decimal digits of a number, for `Content-Length`: at least one digit, and
      no leading zero except for zero itself. */
  function Decimal(n: nat): (s: string)
    ensures |s| >= 1 && IsDigits(s)
    ensures s[0] == '0' ==> n == 0
  {
    if n < 10 then [('0' as int + n) as char] else Decimal(n / 10) + [('0' as int + n % 10) as char]
  }

  /** The digits written denote the number. */
  lemma {:induction false} DecimalDenotes(n: nat)
    ensures DecimalValue(Decimal(n)) == n
  {
    var s := Decimal(n);
    if n >= 10 {
      assert s[..|s| - 1] == Decimal(n / 10);
      DecimalDenotes(n / 10);
    }
  }

  const Server := "server"
  const Date := "date"
  /** pingora's `SERVER_NAME`, and the placeholder date both responses carry. */
  const ServerName := "Pingora"
  const PlaceholderDate := "Sun, 06 Nov 1994 08:49:37 GMT"

  /** pingora's `gen_error_response`: an empty response with the code; `None`
      for a code the `http` crate refuses, where its `unwrap` panics. */
  function GenErrorResponse(code: u16): (r: Option<Response>)
    ensures r.Some? <==> ValidStatus(code)
    ensures r.Some? ==> r.value.status == code && Header(ContentLength, "0") in r.value.headers
  {
    if !ValidStatus(code) then None
    else
      Some(Response(code, [
        Header(Server, ServerName),
        Header(Date, PlaceholderDate),
        Header(ContentLength, "0"),
        Header(CacheControl, "private, no-store")]))
  }

  /** The pre-generated `HTTP_502_RESPONSE` and `HTTP_400_RESPONSE`. */
  const Http502Response := GenErrorResponse(502).value
  const Http400Response := GenErrorResponse(400).value

  /** `api_error_response`: the error's own status and a JSON body. */
  function ApiErrorResponse(a: ApiError): (r: (Response, seq<Base64Url.byte>))
    ensures r.0.status == a.status && r.1 == a.json
    ensures Header(ContentType, "application/json") in r.0.headers
    ensures Header(ContentLength, Decimal(|a.json|)) in r.0.headers
  {
    (Response(a.status, [
      Header(Server, ServerName),
      Header(Date, PlaceholderDate),
      Header(ContentLength, Decimal(|a.json|)),
      Header(CacheControl, "private, no-store"),
      Header(ContentType, "application/json")]), a.json)
  }

  /** The response and optional body `fail_to_proxy` builds for the code;
      `None` where building it panics (no `api::Error` and a code the `http`
      crate refuses). */
  function ErrorResponse(e: ProxyError, code: u16): (r: Option<(Response, Option<seq<Base64Url.byte>>)>)
    ensures r.None? <==> !e.cause.Api? && !ValidStatus(code)
    ensures r.Some? ==> (r.value.1.Some? <==> e.cause.Api?)
  {
    match AsApiError(e)
    case Some(a) => var (resp, body) := ApiErrorResponse(a); Some((resp, Some(body)))
    case None =>
      if code == 502 then Some((Http502Response, None))
      else if code == 400 then Some((Http400Response, None))
      else
        match GenErrorResponse(code)
        case None => None
        case Some(resp) => Some((resp, None))
  }

  /** With an `api::Error` the response carries its status and its JSON body;
      without one it is the generated response for the code. */
  lemma ErrorResponseShape(e: ProxyError, code: u16)
    ensures e.cause.Api? ==>
              ErrorResponse(e, code).value.0.status == e.cause.apiError.status
              && ErrorResponse(e, code).value.1 == Some(e.cause.apiError.json)
    ensures !e.cause.Api? && ValidStatus(code) ==> ErrorResponse(e, code).value.0 == GenErrorResponse(code).value
  {
  }

  /** An explicit status wins whatever the source. */
  lemma ExplicitStatusWins(c: u16, source: ErrorSource, cause: Cause)
    ensures StatusCode(ProxyError(HTTPStatus(c), source, cause)) == c
  {
  }

  /** Without an explicit status the code depends on the source only, except
      that a dead downstream connection gets no response. */
  lemma ClassifiedBySource(e: ProxyError)
    requires !e.etype.HTTPStatus?
    ensures e.esource == Upstream ==> StatusCode(e) == 502
    ensures e.esource == Downstream ==> StatusCode(e) == (if ConnectionDead(e) then 0 else 400)
    ensures e.esource == Internal || e.esource == Unset ==> StatusCode(e) == 500
  {
  }

  /** The sentinel is ambiguous: an explicit `HTTPStatus(0)` also yields 0,
      although the connection is live. */
  lemma ZeroStatusIsNotDead(source: ErrorSource, cause: Cause)
    ensures var e := ProxyError(HTTPStatus(0), source, cause);
      StatusCode(e) == 0 && !ConnectionDead(e)
  {
  }

  /** The code returned and the status written can differ: an internal error
      caused by an `api::Error` reports 500 but writes the API error's status. */
  lemma ReportedCodeMayDifferFromWritten(a: ApiError)
    requires a.status != 500
    ensures var e := Because(InternalError, Api(a));
      StatusCode(e) == 500 && ErrorResponse(e, StatusCode(e)).value.0.status == a.status
  {
  }
}
