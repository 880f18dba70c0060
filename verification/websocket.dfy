/** The WebSocket header smuggling of `update_request_from_websocket_protocol`:
    browsers cannot set headers on a WebSocket handshake, so clients tunnel them
    through `Sec-WebSocket-Protocol` (section 11.3.4 of RFC 6455) as tokens
    `encore.dev.auth_data.<base64url, no padding, of a JSON string-to-string map>`.
    The gateway removes every such header, appends the tunnelled entries as
    request headers, and re-attaches the remaining tokens. */
module WebSocketProtocol {
  import opened Wrappers
  import opened Text
  import opened Headers
  import Base64Url

  const AuthDataPrefix := "encore.dev.auth_data."

  /** The JSON parse of decoded bytes into a string-to-string map, listed in the
      map's iteration order; `None` when the bytes are not such a map. */
  type JsonMapParser = seq<Base64Url.byte> -> Option<seq<(string, string)>>

  datatype Failure = NotVisibleAscii | BadBase64 | BadJson | InvalidHeader

  /** The header list after the rewrite, and the error it stopped at, if any.
      As in the source, the list keeps the changes made before the error. */
  datatype Outcome = Outcome(headers: seq<Header>, failure: Option<Failure>)

  datatype TokenOutcome = TokenOutcome(headers: seq<Header>, kept: seq<string>, failure: Option<Failure>)

  /** The map carried by a smuggled token (the token without its prefix): the
      data must be the canonical encoding of bytes that parse as a map. */
  function SmuggledMap(data: string, parse: JsonMapParser): (r: Result<seq<(string, string)>, Failure>)
    ensures r.Ok? ==> Base64Url.Decode(data).Some? && Base64Url.Encode(Base64Url.Decode(data).value) == data
                      && parse(Base64Url.Decode(data).value) == Some(r.value)
    ensures r.Err? ==> r.error == BadBase64 || r.error == BadJson
  {
    match Base64Url.Decode(data)
    case None => Err(BadBase64)
    case Some(bytes) =>
      Base64Url.EncodeDecode(data);
      match parse(bytes)
      case None => Err(BadJson)
      case Some(entries) => Ok(entries)
  }

  /** Appends the entries one by one, stopping at the first one `append_header`
      refuses: the existing entries are kept in front. */
  function AppendEntries(hs: seq<Header>, entries: seq<(string, string)>): (r: Outcome)
    ensures hs <= r.headers
    ensures r.failure.None? || r.failure == Some(InvalidHeader)
    decreases |entries|
  {
    if |entries| == 0 then Outcome(hs, None)
    else
      match Appended(hs, entries[0].0, entries[0].1)
      case None => Outcome(hs, Some(InvalidHeader))
      case Some(next) => AppendEntries(next, entries[1..])
  }

  /** The inner loop over the comma-separated pieces of one header value:
      `kept` collects the genuine protocol tokens (`filterd_protocols`). */
  function ProcessTokens(hs: seq<Header>, kept: seq<string>, pieces: seq<string>, parse: JsonMapParser): (r: TokenOutcome)
    ensures hs <= r.headers && kept <= r.kept
    decreases |pieces|
  {
    if |pieces| == 0 then TokenOutcome(hs, kept, None)
    else
      var token := Trim(pieces[0]);
      if StartsWith(token, AuthDataPrefix) then
        match SmuggledMap(token[|AuthDataPrefix|..], parse)
        case Err(f) => TokenOutcome(hs, kept, Some(f))
        case Ok(entries) =>
          var appended := AppendEntries(hs, entries);
          if appended.failure.Some? then TokenOutcome(appended.headers, kept, appended.failure)
          else ProcessTokens(appended.headers, kept, pieces[1..], parse)
      else ProcessTokens(hs, kept + [token], pieces[1..], parse)
  }

  /** One original header value: tokens processed, then the kept ones re-attached
      as one header joined by `", "`, if there are any. */
  function ProcessValue(hs: seq<Header>, value: string, parse: JsonMapParser): (r: Outcome)
    ensures hs <= r.headers
    ensures r.failure.None? ==> IsVisibleAscii(value)
  {
    if !IsVisibleAscii(value) then Outcome(hs, Some(NotVisibleAscii))
    else
      var t := ProcessTokens(hs, [], Split(value, ','), parse);
      if t.failure.Some? then Outcome(t.headers, t.failure)
      else if |t.kept| == 0 then Outcome(t.headers, None)
      else
        match Appended(t.headers, SecWebSocketProtocol, Join(t.kept, ", "))
        case None => Outcome(t.headers, Some(InvalidHeader))
        case Some(next) => Outcome(next, None)
  }

  /** The outer loop over the original values, stopping at the first error. */
  function ProcessValues(hs: seq<Header>, values: seq<string>, parse: JsonMapParser): (r: Outcome)
    ensures hs <= r.headers
    ensures r.failure.None? ==> forall i :: 0 <= i < |values| ==> IsVisibleAscii(values[i])
    decreases |values|
  {
    if |values| == 0 then Outcome(hs, None)
    else
      var o := ProcessValue(hs, values[0], parse);
      if o.failure.Some? then o else ProcessValues(o.headers, values[1..], parse)
  }

  /** The whole rewrite of a request's header list: it can fail only when there
      is a `Sec-WebSocket-Protocol` header, and the other headers are kept in front. */
  function Rewrite(hs: seq<Header>, parse: JsonMapParser): (r: Outcome)
    ensures r.failure.Some? ==> GetAll(hs, SecWebSocketProtocol) != []
    ensures RemoveAll(hs, SecWebSocketProtocol) <= r.headers
  {
    var values := GetAll(hs, SecWebSocketProtocol);
    if values == [] then RemoveAllAbsent(hs, SecWebSocketProtocol); Outcome(hs, None)
    else ProcessValues(RemoveAll(hs, SecWebSocketProtocol), values, parse)
  }

  lemma ProtocolNameIsLower()
    ensures Lower(SecWebSocketProtocol) == SecWebSocketProtocol
  {
    LowerOfLowercase(SecWebSocketProtocol);
  }

  /** `update_request_from_websocket_protocol`, on the request in place. */
  method UpdateRequestFromWebSocketProtocol(req: RequestHeader, parse: JsonMapParser) returns (failure: Option<Failure>)
    modifies req
    ensures Outcome(req.headers, failure) == Rewrite(old(req.headers), parse)
    ensures req.uri == old(req.uri)
  {
    ghost var goal := Rewrite(req.headers, parse);
    var values := GetAll(req.headers, SecWebSocketProtocol);
    ProtocolNameIsLower();
    var removed := req.RemoveHeader(SecWebSocketProtocol);
    if !removed {
      RemoveAllAbsent(old(req.headers), SecWebSocketProtocol);
      return None;
    }
    var i := 0;
    while i < |values|
      invariant 0 <= i <= |values|
      invariant req.uri == old(req.uri)
      invariant ProcessValues(req.headers, values[i..], parse) == goal
    {
      assert values[i..][1..] == values[i + 1..];
      failure := ProcessValueInPlace(req, values[i], parse);
      if failure.Some? {
        return;
      }
      i := i + 1;
    }
    return None;
  }

  /** The body of the loop over the original values: one value's tokens, then
      the genuine ones re-attached. */
  method ProcessValueInPlace(req: RequestHeader, value: string, parse: JsonMapParser) returns (failure: Option<Failure>)
    modifies req
    ensures Outcome(req.headers, failure) == ProcessValue(old(req.headers), value, parse)
    ensures req.uri == old(req.uri)
  {
    if !IsVisibleAscii(value) {
      return Some(NotVisibleAscii);
    }
    var kept;
    kept, failure := ProcessTokensInPlace(req, Split(value, ','), parse);
    if failure.Some? {
      return;
    }
    if |kept| > 0 {
      var ok := req.AppendHeader(SecWebSocketProtocol, Join(kept, ", "));
      if !ok {
        return Some(InvalidHeader);
      }
    }
    return None;
  }

  /** The loop over the comma-separated pieces of one value. */
  method ProcessTokensInPlace(req: RequestHeader, pieces: seq<string>, parse: JsonMapParser)
    returns (kept: seq<string>, failure: Option<Failure>)
    modifies req
    ensures TokenOutcome(req.headers, kept, failure) == ProcessTokens(old(req.headers), [], pieces, parse)
    ensures req.uri == old(req.uri)
  {
    kept := [];
    var j := 0;
    while j < |pieces|
      invariant 0 <= j <= |pieces|
      invariant req.uri == old(req.uri)
      invariant ProcessTokens(req.headers, kept, pieces[j..], parse) == ProcessTokens(old(req.headers), [], pieces, parse)
    {
      assert pieces[j..][1..] == pieces[j + 1..];
      var token := Trim(pieces[j]);
      if StartsWith(token, AuthDataPrefix) {
        var decoded := Base64Url.Decode(token[|AuthDataPrefix|..]);
        if decoded.None? {
          return kept, Some(BadBase64);
        }
        var entries := parse(decoded.value);
        if entries.None? {
          return kept, Some(BadJson);
        }
        var ok := AppendDecodedEntries(req, entries.value);
        if !ok {
          return kept, Some(InvalidHeader);
        }
      } else {
        kept := kept + [token];
      }
      j := j + 1;
    }
    return kept, None;
  }

  /** The loop over a decoded map: its entries appended one by one. */
  method AppendDecodedEntries(req: RequestHeader, es: seq<(string, string)>) returns (ok: bool)
    modifies req
    ensures AppendEntries(old(req.headers), es) == Outcome(req.headers, if ok then None else Some(InvalidHeader))
    ensures req.uri == old(req.uri)
  {
    var k := 0;
    while k < |es|
      invariant 0 <= k <= |es|
      invariant req.uri == old(req.uri)
      invariant AppendEntries(req.headers, es[k..]) == AppendEntries(old(req.headers), es)
    {
      assert es[k..][1..] == es[k + 1..];
      ok := req.AppendHeader(es[k].0, es[k].1);
      if !ok {
        return;
      }
      k := k + 1;
    }
    return true;
  }
}
