# Encore API gateway hooks, modelled in Dafny

This project models the request gateway of Encore's runtime
(`runtimes/core/src/api/gateway/mod.rs`). The gateway sits on the pingora
proxy engine and takes part in a request through five hooks:

- `request_filter` answers health checks and CORS preflights itself.
- `upstream_peer` routes the request to a service and records the chosen
  upstream in the per-request context (`Option<GatewayCtx>`). Paths under
  `/__encore/` go to the gateway's own API address when one is configured.
- `upstream_request_filter` rewrites the forwarded request:
  - it prepends the upstream's base path and sets `Host`;
  - for WebSocket upgrades it unpacks headers that browsers tunnel through
    `Sec-WebSocket-Protocol` (section 11.3.4 of RFC 6455) as
    `encore.dev.auth_data.<base64url>` tokens;
  - it builds the call description (caller, parent span, authentication)
    and writes it onto the request.
- `response_filter` adds CORS headers to the responses of routed requests.
- `fail_to_proxy` turns an error into a status code and an error response.
  The code 0 means "the connection is dead, nothing was sent".

Modules:

- `Wrappers`: `Option` and `Result`.
- `Text`: trimming, splitting and joining, as Rust's `str` methods do them.
- `Base64Url`: the URL-safe alphabet without padding (section 5 of RFC 4648),
  as the `base64` crate's `URL_SAFE_NO_PAD` engine decodes it: `=` is
  refused, a length of the form 4k+1 is refused, and unused trailing bits
  must be zero.
- `Headers`: a request's header multimap as a list of entries with
  lower-cased names, and the `RequestHeader` class the gateway edits in place.
- `WebSocketProtocol`: the specification of the header unpacking, and the
  in-place method that is proved to follow it.
- `WebSocketProperties`: what the unpacking guarantees.
- `Failures`: pingora errors, their classification and the error responses.
- `Gateway`: the hooks; `Session` and `RequestCtx` hold the per-request state.
- `GatewayProperties`: what the hooks guarantee.

Everything the gateway consults but does not decide is a parameter of the
`Gateway` value: the router, the service registry, URL parsing, address
resolution, the CORS configuration, the call-metadata parser and writer, the
authenticator, the JSON map parser, and the serialised health response. A
fresh span id is a parameter of `UpstreamRequestFilter`.

A health check is answered before the `OPTIONS` test, so an `OPTIONS`
request to `/__encore/healthz` gets the health response, not a preflight
answer.

Two behaviours of the source are stated as lemmas:

- The status code 0 is ambiguous. An error carrying an explicit
  `HTTPStatus(0)` and an `api::Error` cause also reports 0, although the API
  error's response is then written (`GatewayProperties.ZeroStatusStillWritten`).
  Without an `api::Error` cause, `fail_to_proxy` builds a response for a code
  outside 100..999 with `gen_error_response`, whose `unwrap` panics: nothing is
  written and no code is returned (`GatewayProperties.ZeroStatusPanics`).
- The code `fail_to_proxy` reports can differ from the status it sends. An
  error caused by an `api::Error` sends that error's status, whatever the code
  (`Failures.ReportedCodeMayDifferFromWritten`).

## Model

| member | source | states |
|---|---|---|
| Text.Trim | runtimes/core/src/api/gateway/mod.rs:473 | `str::trim`: the result neither starts nor ends with ASCII whitespace |
| Text.TrimIsSlice | runtimes/core/src/api/gateway/mod.rs:473 | the result of `trim` is one slice of the input, and everything removed before and after it is whitespace |
| Text.TrimIdempotent | runtimes/core/src/api/gateway/mod.rs:473 | trimming twice is trimming once |
| Text.TrimSpaceBeforeTrimmed | runtimes/core/src/api/gateway/mod.rs:473 | trimming a space followed by a trimmed string gives that string |
| Text.TrimTrailingSlashes | runtimes/core/src/api/gateway/mod.rs:67 | `trim_end_matches('/')`: a prefix of the input, not ending in `/`, and everything removed is `/` |
| Text.Split | runtimes/core/src/api/gateway/mod.rs:472 | `split(',')` yields at least one piece, also for the empty string |
| Text.SplitOmitsSeparator | runtimes/core/src/api/gateway/mod.rs:472 | no piece of `split(',')` contains the separator |
| Text.JoinSplit | runtimes/core/src/api/gateway/mod.rs:472 | joining the pieces of a split with the separator gives back the input |
| Text.Join | runtimes/core/src/api/gateway/mod.rs:489 | `join` starts with the first part, followed by the separator when there are more |
| Text.SplitFirstIsPrefix | runtimes/core/src/api/gateway/mod.rs:472 | the first piece of a split is a prefix of the input |
| Text.TokensOfJoin | runtimes/core/src/api/gateway/mod.rs:472-473 | splitting on `,` and trimming a `", "`-join of trimmed comma-free tokens gives back the tokens |
| Text.Tokens | runtimes/core/src/api/gateway/mod.rs:472-473 | a value has at least one token, and no token has whitespace at either end |
| Base64Url.Value | runtimes/core/src/api/gateway/mod.rs:476 | a character has a sextet value exactly when it is in the URL-safe alphabet, and the value's symbol is that character |
| Base64Url.Symbols | runtimes/core/src/api/gateway/mod.rs:476 | one symbol per sextet, each the symbol of its sextet |
| Base64Url.Values | runtimes/core/src/api/gateway/mod.rs:476 | the sextets of a string exist exactly when every character is in the alphabet, one per character, each that character's value |
| Base64Url.EncodeSextets | runtimes/core/src/api/gateway/mod.rs:476 | n bytes give ⌈4n/3⌉ sextets: four per group of three bytes, two or three for a short final group |
| Base64Url.ValuesOfSymbols | runtimes/core/src/api/gateway/mod.rs:476 | the values of the symbols of sextets are those sextets |
| Base64Url.Encode | runtimes/core/src/api/gateway/mod.rs:476 | the encoding of n bytes without padding has ⌈4n/3⌉ symbols |
| Base64Url.DecodeEncode | runtimes/core/src/api/gateway/mod.rs:476 | decoding the unpadded encoding of any bytes gives those bytes |
| Base64Url.DecodeEncodeSextets | runtimes/core/src/api/gateway/mod.rs:476 | decoding the sextets of any bytes gives those bytes |
| Base64Url.EncodeDecode | runtimes/core/src/api/gateway/mod.rs:476 | a string the decoder accepts is the canonical encoding of what it decodes to (no padding, no stray bits) |
| Base64Url.Decode | runtimes/core/src/api/gateway/mod.rs:476 | the decoder accepts only strings over the alphabet, never of length 4k+1, and gives 3 bytes per 4 symbols (rounded down) |
| Base64Url.DecodeSextets | runtimes/core/src/api/gateway/mod.rs:476 | sextets decode only for a count not of the form 4k+1, 3 bytes per 4 sextets (rounded down) |
| Base64Url.EncodeInAlphabet | runtimes/core/src/api/gateway/mod.rs:476 | every character of an encoding is in the URL-safe alphabet |
| Base64Url.EncodeDecodeSextets | runtimes/core/src/api/gateway/mod.rs:476 | sextets the decoder accepts are the sextets of what they decode to |
| Headers.Lower | runtimes/core/src/api/gateway/mod.rs:481 | header names are compared lower-cased: ASCII letters are lower-cased one for one |
| Headers.GetAll | runtimes/core/src/api/gateway/mod.rs:455-461 | `get_all`: no more values than entries |
| Headers.RemoveAll | runtimes/core/src/api/gateway/mod.rs:462-464 | `remove_header`: the list does not grow |
| Headers.InRemoveAll | runtimes/core/src/api/gateway/mod.rs:462-464 | after `remove_header` an entry is present exactly when it was present and stored under another name |
| Headers.GetAllAppend | runtimes/core/src/api/gateway/mod.rs:481 | the values under a name of two lists one after the other are the values of the first, then of the second |
| Headers.GetAllRemoveAll | runtimes/core/src/api/gateway/mod.rs:462-464 | after removing a name no value is left under it |
| Headers.RemoveAllAbsent | runtimes/core/src/api/gateway/mod.rs:462-467 | removing a name that has no entry changes nothing |
| Headers.InGetAll | runtimes/core/src/api/gateway/mod.rs:455-461 | a value is under a name exactly when the list has that entry |
| Headers.GetAllRemoveOther | runtimes/core/src/api/gateway/mod.rs:462-464 | removing one name leaves the values under every other name |
| Headers.LowerIsNormal | runtimes/core/src/api/gateway/mod.rs:481 | normalising a valid name gives a lower-case valid name |
| Headers.NormalisedKept | runtimes/core/src/api/gateway/mod.rs:462-481 | removing, appending and inserting keep every stored name lower-case and valid |
| Headers.Appended | runtimes/core/src/api/gateway/mod.rs:481 | `append_header` succeeds exactly for a valid name and value, keeps every entry and adds one at the end |
| Headers.Inserted | runtimes/core/src/api/gateway/mod.rs:299-301 | `insert_header` succeeds exactly for a valid name and value; afterwards the name has that one value and other names are untouched |
| Headers.RequestHeader.RemoveHeader | runtimes/core/src/api/gateway/mod.rs:462-464 | reports whether the name had entries and removes them all, URI kept |
| Headers.RequestHeader.AppendHeader | runtimes/core/src/api/gateway/mod.rs:481 | appends the entry when it is valid and otherwise changes nothing |
| Headers.RequestHeader.InsertHeader | runtimes/core/src/api/gateway/mod.rs:300 | replaces the name's entries by the one value when it is valid, and otherwise changes nothing |
| Headers.RequestHeader.SetUri | runtimes/core/src/api/gateway/mod.rs:294 | replaces the URI and keeps the headers |
| WebSocketProtocol.UpdateRequestFromWebSocketProtocol | runtimes/core/src/api/gateway/mod.rs:452-494 | the in-place loops leave the header list and the error that `Rewrite` specifies, including the changes made before an error, and keep the URI |
| WebSocketProtocol.ProcessValueInPlace | runtimes/core/src/api/gateway/mod.rs:469-491 | one original value is processed in place into the headers and error `ProcessValue` specifies, URI kept |
| WebSocketProtocol.ProcessTokensInPlace | runtimes/core/src/api/gateway/mod.rs:472-486 | the loop over the comma-separated pieces appends the smuggled entries, collects the genuine tokens and stops at the first error, as `ProcessTokens` specifies |
| WebSocketProtocol.AppendDecodedEntries | runtimes/core/src/api/gateway/mod.rs:479-482 | appends the decoded entries one by one and stops at the first invalid one, leaving the entries appended before it, as `AppendEntries` specifies |
| WebSocketProtocol.ProtocolNameIsLower | runtimes/core/src/api/gateway/mod.rs:457 | `sec-websocket-protocol` is already in the lower-cased form names are stored in |
| WebSocketProtocol.SmuggledMap | runtimes/core/src/api/gateway/mod.rs:474-477 | a token's data yields a map only when it is the canonical base64url encoding of bytes that parse as a map; otherwise it is a base64 or a JSON error |
| WebSocketProtocol.AppendEntries | runtimes/core/src/api/gateway/mod.rs:479-482 | appending decoded entries only adds after the existing ones, and fails only on an invalid header |
| WebSocketProtocol.ProcessTokens | runtimes/core/src/api/gateway/mod.rs:472-486 | the token loop only adds headers and kept tokens after the existing ones |
| WebSocketProtocol.ProcessValue | runtimes/core/src/api/gateway/mod.rs:469-491 | one value only adds headers, and succeeds only for a visible-ASCII value |
| WebSocketProtocol.ProcessValues | runtimes/core/src/api/gateway/mod.rs:469-491 | the outer loop only adds headers, and succeeds only when every value is visible ASCII |
| WebSocketProtocol.Rewrite | runtimes/core/src/api/gateway/mod.rs:452-494 | the rewrite fails only when there is a `Sec-WebSocket-Protocol` header, and keeps every other header in front |
| WebSocketProperties.AppendEntriesSpec | runtimes/core/src/api/gateway/mod.rs:480-482 | appending a decoded map succeeds exactly when every entry is a valid header, and then adds the entries in order |
| WebSocketProperties.ProcessTokensAccepts | runtimes/core/src/api/gateway/mod.rs:472-487 | the token loop succeeds exactly when every smuggled token decodes to a map of valid headers |
| WebSocketProperties.ProcessTokensResult | runtimes/core/src/api/gateway/mod.rs:472-487 | on success the token loop appends the smuggled entries in order and keeps the genuine trimmed tokens in order |
| WebSocketProperties.ProcessValueAccepts | runtimes/core/src/api/gateway/mod.rs:469-491 | one value is processed without error exactly when it is visible ASCII, its smuggled tokens are accepted and the re-joined genuine tokens form a valid value |
| WebSocketProperties.ProcessValueFailure | runtimes/core/src/api/gateway/mod.rs:469-491 | a visible-ASCII value fails exactly when a token fails or the re-joined genuine tokens are not a valid value |
| WebSocketProperties.ProcessValueShape | runtimes/core/src/api/gateway/mod.rs:486-488 | after the tokens, the genuine ones are re-attached as one header only when there are some |
| WebSocketProperties.ProcessValueResult | runtimes/core/src/api/gateway/mod.rs:469-491 | on success one value contributes its smuggled entries and then at most one `Sec-WebSocket-Protocol` header with its genuine tokens joined by `", "` |
| WebSocketProperties.ProcessValuesAccepts | runtimes/core/src/api/gateway/mod.rs:469-491 | the loop over the original values succeeds exactly when each is well formed |
| WebSocketProperties.ProcessValuesResult | runtimes/core/src/api/gateway/mod.rs:469-491 | on success the values contribute in their original order |
| WebSocketProperties.RewriteFailsIffMalformed | runtimes/core/src/api/gateway/mod.rs:452-494 | the rewrite fails exactly when some original value is malformed (not visible ASCII, bad base64url, not a JSON string map, or an invalid header) |
| WebSocketProperties.RewriteSucceeds | runtimes/core/src/api/gateway/mod.rs:452-494 | on success the list is the other headers, then for each original value its smuggled entries and its re-attached genuine tokens; a value with only smuggled tokens re-attaches nothing |
| WebSocketProperties.RewriteKeepsOtherHeaders | runtimes/core/src/api/gateway/mod.rs:480-482 | smuggled entries are appended: no existing header of another name is lost, even one with a smuggled name |
| WebSocketProperties.RewriteWithoutProtocolHeader | runtimes/core/src/api/gateway/mod.rs:462-467 | without a `Sec-WebSocket-Protocol` header the list is unchanged and the call succeeds |
| WebSocketProperties.RewriteRemovesSmuggledTokens | runtimes/core/src/api/gateway/mod.rs:469-491 | when no decoded map names `Sec-WebSocket-Protocol`, no resulting value of that header holds a prefixed token |
| WebSocketProperties.SmuggledProtocolEntrySurvives | runtimes/core/src/api/gateway/mod.rs:474-482 | a smuggled token whose payload parses to `{"sec-websocket-protocol": v}`, with `v` itself prefixed, is accepted and leaves `v` on the request as a protocol value |
| WebSocketProperties.RewriteNormalised | runtimes/core/src/api/gateway/mod.rs:452-494 | the rewrite, failing or not, stores every header name in normal form, smuggled names included |
| Failures.StatusCode | runtimes/core/src/api/gateway/mod.rs:383-402 | the code is 0 exactly for a dead downstream connection or an explicit `HTTPStatus(0)`; otherwise it is 400, 500, 502 or the explicit status |
| Failures.ConnectionDead | runtimes/core/src/api/gateway/mod.rs:386-394 | only a downstream error without an explicit status can mean the connection is dead |
| Failures.ExplicitStatusWins | runtimes/core/src/api/gateway/mod.rs:384 | `HTTPStatus(c)` yields `c` whatever the source and cause |
| Failures.ClassifiedBySource | runtimes/core/src/api/gateway/mod.rs:385-401 | without an explicit status: upstream 502; downstream 0 for write, read and closed-connection errors, else 400; internal or unset 500 |
| Failures.ZeroStatusIsNotDead | runtimes/core/src/api/gateway/mod.rs:384-394 | an explicit `HTTPStatus(0)` reports the sentinel 0 without being a dead connection |
| Failures.AsApiError | runtimes/core/src/api/gateway/mod.rs:496-502 | there is an API error exactly when the cause is one, and it is that cause |
| Failures.Decimal | runtimes/core/src/api/gateway/mod.rs:165 | a length is written as at least one decimal digit, with no leading zero except for 0 |
| Failures.DecimalDenotes | runtimes/core/src/api/gateway/mod.rs:165 | the digits written for a length denote that length |
| Failures.ApiErrorResponse | runtimes/core/src/api/gateway/mod.rs:504-521 | the response has the API error's status, `Content-Type: application/json` and the body's length, and the body is the error's JSON |
| Failures.ErrorResponseShape | runtimes/core/src/api/gateway/mod.rs:404-417 | with an `api::Error` the response carries its status and JSON body; without one, for a code in 100..999, it is the generated response for the code (pre-generated 502 and 400 included) |
| Failures.ErrorResponse | runtimes/core/src/api/gateway/mod.rs:404-417 | building the response panics exactly without an `api::Error` and with a code outside 100..999; otherwise a body comes exactly with an `api::Error` |
| Failures.GenErrorResponse | runtimes/core/src/api/gateway/mod.rs:413 | `gen_error_response` builds a response exactly for a code in 100..999, with that status and `Content-Length: 0` |
| Failures.ReportedCodeMayDifferFromWritten | runtimes/core/src/api/gateway/mod.rs:383-417 | an internal error caused by an API error reports 500 but sends the API error's status |
| Gateway.Session.WriteResponseHeader | runtimes/core/src/api/gateway/mod.rs:167 | records one header write |
| Gateway.Session.WriteResponseBody | runtimes/core/src/api/gateway/mod.rs:168-170 | records one body write |
| Gateway.RequestCtx.constructor | runtimes/core/src/api/gateway/mod.rs:141-145 | `new_ctx`: the context starts empty |
| Gateway.UriPath | runtimes/core/src/api/gateway/mod.rs:158 | `Uri::path` is the longest prefix of the path and query without a `?` |
| Gateway.PrependBasePath | runtimes/core/src/api/gateway/mod.rs:58-75 | scheme and authority kept; the new path and query is the base path without trailing slashes followed by the original path and query, verbatim |
| Gateway.ApplyCors | runtimes/core/src/api/gateway/mod.rs:178-180 | applying CORS never changes the status |
| Gateway.ContentLengthZeroInsertable | runtimes/core/src/api/gateway/mod.rs:181 | inserting `Content-Length: 0` cannot fail |
| Gateway.RequestFilter | runtimes/core/src/api/gateway/mod.rs:150-188 | writes and returns what `Intercept` specifies, keep-alive untouched |
| Gateway.Intercept | runtimes/core/src/api/gateway/mod.rs:150-188 | nothing is written unless the request is answered, and an answer is one header write, then at most one body write |
| Gateway.DefaultPort | runtimes/core/src/api/gateway/mod.rs:223-227 | port 443 exactly for https, 80 exactly for http, none for other schemes |
| Gateway.SelectPeer | runtimes/core/src/api/gateway/mod.rs:190-254 | the own API is chosen exactly for an internal path when it is configured; a routed request has a valid method and the router named its service |
| Gateway.UpstreamPeer | runtimes/core/src/api/gateway/mod.rs:190-254 | returns the peer or error `SelectPeer` specifies; the context is set only for a routed request |
| Gateway.ResponseFilter | runtimes/core/src/api/gateway/mod.rs:256-272 | the status is never changed, and without a context the response is left as it is |
| Gateway.WithParentSpan | runtimes/core/src/api/gateway/mod.rs:328-330 | a parent span is always set: the request's own, kept as it is, or the fresh one when it had none |
| Gateway.Authenticate | runtimes/core/src/api/gateway/mod.rs:350-366 | fails exactly when the handler exists and fails, as an internal error (500) caused by the handler's own error; the user and data are set only from an authenticated answer, and nothing else changes |
| Gateway.Describe | runtimes/core/src/api/gateway/mod.rs:313-348 | the call is described as coming from this gateway, with no user yet, and with a parent span exactly when the metadata has one |
| Gateway.Prepared | runtimes/core/src/api/gateway/mod.rs:284-311 | the URI always gets the base path; every error is a 500; with no upstream host and no upgrade the headers pass unchanged |
| Gateway.Forward | runtimes/core/src/api/gateway/mod.rs:283-371 | without an error there is a call description, and it always has a parent span; an error is the preparation's own or an internal error |
| Gateway.PrepareInPlace | runtimes/core/src/api/gateway/mod.rs:284-311 | sets the base-path URI and the upstream `Host` and runs the WebSocket rewrite on an upgrade, in place, with the URI, headers and error `Prepared` specifies |
| Gateway.UpstreamRequestFilter | runtimes/core/src/api/gateway/mod.rs:274-374 | without a context nothing changes; otherwise URI, headers and error are those `Forward` specifies, the errors of the metadata parser, the authenticator and the metadata writer keeping their own cause |
| Gateway.FailToProxy | runtimes/core/src/api/gateway/mod.rs:376-442 | a dead connection reports 0, gets no write and keeps its keep-alive; where building the response panics no code is returned and nothing changes; otherwise it reports the classified code, keep-alive is off and the error response is written |
| Gateway.FailureWrites | runtimes/core/src/api/gateway/mod.rs:404-439 | where the response can be built, one header write, then at most one body write |
| GatewayProperties.SlashBasePathKeepsPath | runtimes/core/src/api/gateway/mod.rs:67-72 | a base path of slashes only, such as `/`, leaves the path and query unchanged |
| GatewayProperties.BasePathExample | runtimes/core/src/api/gateway/mod.rs:67-72 | base `/api/` with `/widgets/1?x=1` gives `/api/widgets/1?x=1` |
| GatewayProperties.AnsweredIff | runtimes/core/src/api/gateway/mod.rs:158-187 | a request is answered exactly for an encodable health check or a preflight whose CORS headers apply; only non-health, non-`OPTIONS` requests pass on; nothing is written on an error |
| GatewayProperties.HealthCheckForAnyMethod | runtimes/core/src/api/gateway/mod.rs:158-173 | the health check is answered for every method, checked before `OPTIONS`, with a 200 carrying the body's length, `application/json` and the body |
| GatewayProperties.PreflightAnswer | runtimes/core/src/api/gateway/mod.rs:176-185 | a preflight gets a single 200 header write with exactly one `Content-Length: 0` and the CORS headers otherwise |
| GatewayProperties.InternalPathsGoToOwnApi | runtimes/core/src/api/gateway/mod.rs:197-201 | with an own API address, `/__encore/` paths go there with TLS off and no SNI |
| GatewayProperties.UnknownMethodIsBadRequest | runtimes/core/src/api/gateway/mod.rs:203-208 | an unparseable method is refused with status 400 |
| GatewayProperties.LookupFailuresAreInternal | runtimes/core/src/api/gateway/mod.rs:212-241 | once routed, failing to find, parse or resolve the upstream is a 500 |
| GatewayProperties.RoutedPeerFollowsUrl | runtimes/core/src/api/gateway/mod.rs:222-251 | a routed request is served exactly when resolution yields an address; the first is used, TLS is on iff the scheme is https, the SNI is the URL host, and the context records service, URL path and host |
| GatewayProperties.CorsOnlyForRoutedRequests | runtimes/core/src/api/gateway/mod.rs:265-269 | CORS headers are applied to upstream responses exactly when there is a context |
| GatewayProperties.ForwardedUriHasBasePath | runtimes/core/src/api/gateway/mod.rs:284-294 | the forwarded URI carries the base path whatever fails later |
| GatewayProperties.RewriteKeepsHostFirst | runtimes/core/src/api/gateway/mod.rs:303-311 | a successful WebSocket rewrite keeps the only `Host` value in first place |
| GatewayProperties.HostReachesMetadata | runtimes/core/src/api/gateway/mod.rs:299-311 | the upstream host replaces the client's `Host`; after a WebSocket rewrite it is still the first `Host` value |
| GatewayProperties.DescriptionOfCall | runtimes/core/src/api/gateway/mod.rs:313-348 | the call is described as coming from this gateway, with the service's auth method (no-op by default), the request's parent span or the fresh one, and its correlation id |
| GatewayProperties.ForwardingFailuresAre500 | runtimes/core/src/api/gateway/mod.rs:283-370 | every failure of the upstream request filter is reported as 500 |
| GatewayProperties.AuthApiErrorReachesClient | runtimes/core/src/api/gateway/mod.rs:350-356 | an `api::Error` from the authentication handler is kept as the cause: the filter reports 500, and the client is sent that error's status and JSON body |
| GatewayProperties.MalformedProtocolStopsUpgrade | runtimes/core/src/api/gateway/mod.rs:303-311 | on an upgrade the WebSocket step fails exactly when a `Sec-WebSocket-Protocol` value is malformed |
| GatewayProperties.OwnApiRequestUnchanged | runtimes/core/src/api/gateway/mod.rs:197-201 | a request sent to the gateway's own API leaves the context empty, so it is forwarded unchanged |
| GatewayProperties.FailureResponse | runtimes/core/src/api/gateway/mod.rs:404-441 | on a live connection the response cannot be built (a panic) exactly for a code outside 100..999 without an `api::Error`; otherwise one header is written, then a body exactly for an `api::Error`; the status is the API error's, or else the code |
| GatewayProperties.ZeroStatusStillWritten | runtimes/core/src/api/gateway/mod.rs:384-432 | an explicit `HTTPStatus(0)` caused by an `api::Error` reports 0 yet writes the API error's response and body |
| GatewayProperties.ZeroStatusPanics | runtimes/core/src/api/gateway/mod.rs:384-413 | an explicit `HTTPStatus(0)` without an `api::Error` is a live connection for which no response can be built |
| GatewayProperties.ApiErrorWrites | runtimes/core/src/api/gateway/mod.rs:404-439 | an error caused by an `api::Error` sends that error's response, with the CORS headers, and its JSON body |

## Left out

- Writes to the client are entries appended to `Session.written`. Their I/O errors are left out: the source propagates them in `request_filter` and only logs them in `fail_to_proxy`. The async structure, `serve` and the `watch` channel are left out too.
- The router, the service registry, the `url` crate's parsing, `socket_addrs` resolution, `CorsHeadersConfig::apply`, `CallMeta::parse_without_caller`, `CallDesc::add_meta`, the authenticator, `serde_json` and the health handler are not part of this model. They are parameters with no contract of their own.
- The CORS step is modelled as a change to the response headers only, never to the status.
- `SpanId::generate` is a parameter: the fresh span id.
- `Gateway.UriPath`: `Uri::path` is approximated as the path and query up to the first `?`. A URI with no path and query has the empty path.
- `Gateway.PrependBasePath`: the URI builder's failure (`failed to build uri`) is not modelled. Its error path is therefore missing from `UpstreamRequestFilter`.
- `Headers.ValidName` and `Headers.ValidValue` approximate the `http` crate's checks: a non-empty token name, and a value of tab or characters from space up, except DEL. The 64 KiB name limit and non-ASCII bytes in values are not modelled.
- The header map's internal order is modelled as insertion order. `insert_header` is modelled as removing the name's entries and appending one at the end.
- Strings are sequences of characters rather than UTF-8 bytes. Decoded bytes reach the JSON parse as bytes.
- `Failures.ErrorType` distinguishes only the pingora error types the gateway tests. Every other type is `Other`.
- Error context strings and the pingora error's `context` field are left out. A cause is an API error, a description, or whatever error the oracle that failed returned.
- The pre-generated 502 and 400 responses are modelled as the generated responses for those codes, which is what pingora pre-generates.
- `CallDesc.parent_event_id` is always `None` in the source and is not modelled.
- `fail_to_proxy`'s panic on a code outside 100..999 (the `unwrap` in `gen_error_response`) is modelled as an outcome with no code and no change to the session; the unwinding of the panic is not modelled.
- Headers.RequestHeader: the class does not carry `Normalised` as an invariant, because the metadata writer is a parameter that returns arbitrary lists. `NormalisedKept` and `RewriteNormalised` state it for the operations modelled here.
- WebSocketProperties.RewriteRemovesSmuggledTokens: the promise that no prefixed token survives is proved only for parsers whose maps never name `Sec-WebSocket-Protocol`. The source does not check entry names, and `SmuggledProtocolEntrySurvives` shows the gap.
