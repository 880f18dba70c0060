/** What the WebSocket header rewrite guarantees, proved about its specification
    `WebSocketProtocol.Rewrite` (which the in-place method is proved to follow). */
module WebSocketProperties {
  import opened Wrappers
  import opened Text
  import opened Headers
  import opened WebSocketProtocol
  import Base64Url

  // ---------------------------------------------------------------------------
  // A reference description of a successful rewrite, without loops or early exits.

  /** The headers a decoded map contributes, names normalised. */
  function EntryHeaders(entries: seq<(string, string)>): (r: seq<Header>)
    ensures |r| == |entries|
  {
    if |entries| == 0 then [] else [Header(Lower(entries[0].0), entries[0].1)] + EntryHeaders(entries[1..])
  }

  /** The headers a smuggled token contributes. */
  function TokenHeaders(token: string, parse: JsonMapParser): seq<Header>
    requires StartsWith(token, AuthDataPrefix)
  {
    match SmuggledMap(token[|AuthDataPrefix|..], parse)
    case Ok(entries) => EntryHeaders(entries)
    case Err(_) => []
  }

  /** The headers the smuggled tokens of a token list contribute, in order. */
  function SmuggledHeaders(tokens: seq<string>, parse: JsonMapParser): seq<Header> {
    if |tokens| == 0 then []
    else
      (if StartsWith(tokens[0], AuthDataPrefix) then TokenHeaders(tokens[0], parse) else [])
      + SmuggledHeaders(tokens[1..], parse)
  }

  /** The genuine protocol tokens: those without the reserved prefix, in order. */
  function KeptTokens(tokens: seq<string>): seq<string> {
    if |tokens| == 0 then []
    else (if StartsWith(tokens[0], AuthDataPrefix) then [] else [tokens[0]]) + KeptTokens(tokens[1..])
  }

  /** The header re-attached for one original value, if any. */
  function Reattached(kept: seq<string>): seq<Header> {
    if kept == [] then [] else [Header(SecWebSocketProtocol, Join(kept, ", "))]
  }

  /** Everything one original value contributes to the rewritten list. */
  function Contribution(value: string, parse: JsonMapParser): seq<Header> {
    SmuggledHeaders(Tokens(value), parse) + Reattached(KeptTokens(Tokens(value)))
  }

  function Contributions(values: seq<string>, parse: JsonMapParser): seq<Header> {
    if |values| == 0 then [] else Contribution(values[0], parse) + Contributions(values[1..], parse)
  }

  // ---------------------------------------------------------------------------
  // When the rewrite succeeds.

  predicate EntriesValid(entries: seq<(string, string)>) {
    |entries| == 0 || (ValidName(entries[0].0) && ValidValue(entries[0].1) && EntriesValid(entries[1..]))
  }

  /** A token is accepted when it is genuine, or decodes to a map whose entries are valid headers. */
  predicate TokenAccepted(token: string, parse: JsonMapParser) {
    StartsWith(token, AuthDataPrefix) ==>
      var m := SmuggledMap(token[|AuthDataPrefix|..], parse);
      m.Ok? && EntriesValid(m.value)
  }

  predicate AllAccepted(tokens: seq<string>, parse: JsonMapParser) {
    |tokens| == 0 || (TokenAccepted(tokens[0], parse) && AllAccepted(tokens[1..], parse))
  }

  predicate WellFormed(value: string, parse: JsonMapParser) {
    && IsVisibleAscii(value)
    && AllAccepted(Tokens(value), parse)
    && (KeptTokens(Tokens(value)) != [] ==> ValidValue(Join(KeptTokens(Tokens(value)), ", ")))
  }

  predicate AllWellFormed(values: seq<string>, parse: JsonMapParser) {
    |values| == 0 || (WellFormed(values[0], parse) && AllWellFormed(values[1..], parse))
  }

  lemma ProtocolNameValid()
    ensures ValidName(SecWebSocketProtocol)
  {
  }

  /** One visible-ASCII value succeeds when its token loop does and the joined
      genuine tokens, if any, form a valid header value. */
  lemma ProcessValueFailure(hs: seq<Header>, value: string, parse: JsonMapParser)
    requires IsVisibleAscii(value)
    ensures var t := ProcessTokens(hs, [], Split(value, ','), parse);
      ProcessValue(hs, value, parse).failure == None
      <==> t.failure == None && (t.kept != [] ==> ValidValue(Join(t.kept, ", ")))
  {
    ProtocolNameValid();
  }

  /** What one visible-ASCII value leaves: the headers of its token loop, and the
      re-attached genuine tokens when the loop succeeded and kept some. */
  lemma ProcessValueShape(hs: seq<Header>, value: string, parse: JsonMapParser)
    requires IsVisibleAscii(value)
    ensures var t := ProcessTokens(hs, [], Split(value, ','), parse);
      ProcessValue(hs, value, parse).headers
      == if t.failure == None && t.kept != [] && ValidValue(Join(t.kept, ", "))
         then t.headers + [Header(SecWebSocketProtocol, Join(t.kept, ", "))]
         else t.headers
  {
    ProtocolNameIsLower();
    ProtocolNameValid();
  }

  lemma {:induction false} AppendEntriesSpec(hs: seq<Header>, entries: seq<(string, string)>)
    ensures AppendEntries(hs, entries).failure == None <==> EntriesValid(entries)
    ensures AppendEntries(hs, entries).failure == None ==> AppendEntries(hs, entries).headers == hs + EntryHeaders(entries)
    decreases |entries|
  {
    if |entries| == 0 {
      assert hs + [] == hs;
    } else {
      var e := entries[0];
      assert entries == [e] + entries[1..];
      if ValidName(e.0) && ValidValue(e.1) {
        var next := hs + [Header(Lower(e.0), e.1)];
        AppendEntriesSpec(next, entries[1..]);
        assert next + EntryHeaders(entries[1..]) == hs + EntryHeaders(entries);
      }
    }
  }

  lemma {:induction false} ProcessTokensAccepts(hs: seq<Header>, kept: seq<string>, pieces: seq<string>, parse: JsonMapParser)
    ensures ProcessTokens(hs, kept, pieces, parse).failure == None <==> AllAccepted(TrimAll(pieces), parse)
    decreases |pieces|
  {
    if |pieces| > 0 {
      var token := Trim(pieces[0]);
      var all := TrimAll(pieces);
      assert all[0] == token && all[1..] == TrimAll(pieces[1..]);
      if StartsWith(token, AuthDataPrefix) {
        var m := SmuggledMap(token[|AuthDataPrefix|..], parse);
        if m.Ok? {
          AppendEntriesSpec(hs, m.value);
          var appended := AppendEntries(hs, m.value);
          if appended.failure == None {
            ProcessTokensAccepts(appended.headers, kept, pieces[1..], parse);
          }
        }
      } else {
        ProcessTokensAccepts(hs, kept + [token], pieces[1..], parse);
      }
    }
  }

  lemma {:induction false} ProcessTokensResult(hs: seq<Header>, kept: seq<string>, pieces: seq<string>, parse: JsonMapParser)
    requires ProcessTokens(hs, kept, pieces, parse).failure == None
    ensures ProcessTokens(hs, kept, pieces, parse).headers == hs + SmuggledHeaders(TrimAll(pieces), parse)
    ensures ProcessTokens(hs, kept, pieces, parse).kept == kept + KeptTokens(TrimAll(pieces))
    decreases |pieces|
  {
    if |pieces| == 0 {
      assert hs + [] == hs && kept + [] == kept;
    } else {
      var token := Trim(pieces[0]);
      var all := TrimAll(pieces);
      var rest := TrimAll(pieces[1..]);
      assert all[0] == token && all[1..] == rest;
      if StartsWith(token, AuthDataPrefix) {
        var m := SmuggledMap(token[|AuthDataPrefix|..], parse);
        AppendEntriesSpec(hs, m.value);
        var next := AppendEntries(hs, m.value).headers;
        assert ProcessTokens(hs, kept, pieces, parse) == ProcessTokens(next, kept, pieces[1..], parse);
        ProcessTokensResult(next, kept, pieces[1..], parse);
        SmuggledStep(hs, all, rest, EntryHeaders(m.value), parse);
      } else {
        assert ProcessTokens(hs, kept, pieces, parse) == ProcessTokens(hs, kept + [token], pieces[1..], parse);
        ProcessTokensResult(hs, kept + [token], pieces[1..], parse);
        GenuineStep(kept, token, all, rest, parse);
      }
    }
  }

  lemma SmuggledStep(hs: seq<Header>, all: seq<string>, rest: seq<string>, entries: seq<Header>, parse: JsonMapParser)
    requires |all| > 0 && all[1..] == rest && StartsWith(all[0], AuthDataPrefix)
    requires TokenHeaders(all[0], parse) == entries
    ensures hs + entries + SmuggledHeaders(rest, parse) == hs + SmuggledHeaders(all, parse)
    ensures KeptTokens(all) == KeptTokens(rest)
  {
    assert SmuggledHeaders(all, parse) == entries + SmuggledHeaders(rest, parse);
    ConcatAssoc(hs, entries, SmuggledHeaders(rest, parse));
    assert KeptTokens(all) == [] + KeptTokens(rest);
  }

  lemma GenuineStep(kept: seq<string>, token: string, all: seq<string>, rest: seq<string>, parse: JsonMapParser)
    requires |all| > 0 && all[0] == token && all[1..] == rest && !StartsWith(token, AuthDataPrefix)
    ensures SmuggledHeaders(all, parse) == SmuggledHeaders(rest, parse)
    ensures kept + [token] + KeptTokens(rest) == kept + KeptTokens(all)
  {
    assert KeptTokens(all) == [token] + KeptTokens(rest);
    assert SmuggledHeaders(all, parse) == [] + SmuggledHeaders(rest, parse);
    ConcatAssoc(kept, [token], KeptTokens(rest));
  }

  lemma ProcessValueAccepts(hs: seq<Header>, value: string, parse: JsonMapParser)
    ensures ProcessValue(hs, value, parse).failure == None <==> WellFormed(value, parse)
  {
    if IsVisibleAscii(value) {
      var pieces := Split(value, ',');
      var t := ProcessTokens(hs, [], pieces, parse);
      ProcessTokensAccepts(hs, [], pieces, parse);
      assert Tokens(value) == TrimAll(pieces);
      if t.failure == None {
        ProcessTokensResult(hs, [], pieces, parse);
        assert t.kept == KeptTokens(Tokens(value));
        ProtocolNameValid();
      }
    }
  }

  lemma ProcessValueResult(hs: seq<Header>, value: string, parse: JsonMapParser)
    requires ProcessValue(hs, value, parse).failure == None
    ensures ProcessValue(hs, value, parse).headers == hs + Contribution(value, parse)
  {
    var pieces := Split(value, ',');
    SucceededValue(hs, value, parse);
    ProcessTokensResult(hs, [], pieces, parse);
    assert Tokens(value) == TrimAll(pieces);
    assert [] + KeptTokens(Tokens(value)) == KeptTokens(Tokens(value));
    ConcatAssoc(hs, SmuggledHeaders(Tokens(value), parse), Reattached(KeptTokens(Tokens(value))));
  }

  /** A value that passes leaves the headers of its token loop and the re-attached tokens. */
  lemma SucceededValue(hs: seq<Header>, value: string, parse: JsonMapParser)
    requires ProcessValue(hs, value, parse).failure == None
    ensures IsVisibleAscii(value)
    ensures var t := ProcessTokens(hs, [], Split(value, ','), parse);
      t.failure == None && ProcessValue(hs, value, parse).headers == t.headers + Reattached(t.kept)
  {
    assert IsVisibleAscii(value);
    ProcessValueFailure(hs, value, parse);
    ProcessValueShape(hs, value, parse);
    var t := ProcessTokens(hs, [], Split(value, ','), parse);
    if t.kept == [] {
      assert Reattached(t.kept) == [];
      assert t.headers + [] == t.headers;
    }
  }

  lemma {:induction false} ProcessValuesAccepts(hs: seq<Header>, values: seq<string>, parse: JsonMapParser)
    ensures ProcessValues(hs, values, parse).failure == None <==> AllWellFormed(values, parse)
    decreases |values|
  {
    if |values| > 0 {
      ProcessValueAccepts(hs, values[0], parse);
      var o := ProcessValue(hs, values[0], parse);
      if o.failure == None {
        assert ProcessValues(hs, values, parse) == ProcessValues(o.headers, values[1..], parse);
        ProcessValuesAccepts(o.headers, values[1..], parse);
      }
    }
  }

  lemma {:induction false} ProcessValuesResult(hs: seq<Header>, values: seq<string>, parse: JsonMapParser)
    requires ProcessValues(hs, values, parse).failure == None
    ensures ProcessValues(hs, values, parse).headers == hs + Contributions(values, parse)
    decreases |values|
  {
    if |values| == 0 {
      assert hs + [] == hs;
    } else {
      var o := ProcessValue(hs, values[0], parse);
      ProcessValuesStep(hs, values, parse);
      ProcessValueResult(hs, values[0], parse);
      ProcessValuesResult(o.headers, values[1..], parse);
      ContributionsCons(hs, values, parse);
    }
  }

  lemma ProcessValuesStep(hs: seq<Header>, values: seq<string>, parse: JsonMapParser)
    requires |values| > 0
    requires ProcessValues(hs, values, parse).failure == None
    ensures ProcessValue(hs, values[0], parse).failure == None
    ensures ProcessValues(hs, values, parse) == ProcessValues(ProcessValue(hs, values[0], parse).headers, values[1..], parse)
  {
  }

  lemma ContributionsCons(hs: seq<Header>, values: seq<string>, parse: JsonMapParser)
    requires |values| > 0
    ensures hs + Contribution(values[0], parse) + Contributions(values[1..], parse) == hs + Contributions(values, parse)
  {
    var c, cs := Contribution(values[0], parse), Contributions(values[1..], parse);
    assert Contributions(values, parse) == c + cs;
    ConcatAssoc(hs, c, cs);
  }

  lemma ConcatAssoc<T>(a: seq<T>, b: seq<T>, c: seq<T>)
    ensures a + b + c == a + (b + c)
  {
  }

  /** The rewrite fails exactly when some original `Sec-WebSocket-Protocol` value
      is malformed: not visible ASCII, a smuggled token that is not base64url
      without padding or not a JSON string map, or an entry `append_header` refuses. */
  lemma RewriteFailsIffMalformed(hs: seq<Header>, parse: JsonMapParser)
    ensures Rewrite(hs, parse).failure == None <==>
      AllWellFormed(GetAll(hs, SecWebSocketProtocol), parse)
  {
    if GetAll(hs, SecWebSocketProtocol) != [] {
      ProcessValuesAccepts(RemoveAll(hs, SecWebSocketProtocol), GetAll(hs, SecWebSocketProtocol), parse);
    }
  }

  /** On success the result is the request's other headers, followed, for each
      original value in order, by the entries of its smuggled maps and then by
      at most one re-attached header holding its genuine tokens joined by `", "`. */
  lemma RewriteSucceeds(hs: seq<Header>, parse: JsonMapParser)
    requires Rewrite(hs, parse).failure == None
    ensures Rewrite(hs, parse).headers
      == RemoveAll(hs, SecWebSocketProtocol) + Contributions(GetAll(hs, SecWebSocketProtocol), parse)
  {
    var values := GetAll(hs, SecWebSocketProtocol);
    if values == [] {
      RemoveAllAbsent(hs, SecWebSocketProtocol);
      assert hs + [] == hs;
    } else {
      ProcessValuesResult(RemoveAll(hs, SecWebSocketProtocol), values, parse);
    }
  }

  /** Smuggled entries are appended: no header of another name is lost. */
  lemma RewriteKeepsOtherHeaders(hs: seq<Header>, parse: JsonMapParser, h: Header)
    requires Rewrite(hs, parse).failure == None
    requires h in hs && h.name != SecWebSocketProtocol
    ensures h in Rewrite(hs, parse).headers
  {
    RewriteSucceeds(hs, parse);
    InRemoveAll(hs, SecWebSocketProtocol, h);
  }

  /** Without a `Sec-WebSocket-Protocol` header the list is left as it is. */
  lemma RewriteWithoutProtocolHeader(hs: seq<Header>, parse: JsonMapParser)
    requires GetAll(hs, SecWebSocketProtocol) == []
    ensures Rewrite(hs, parse) == Outcome(hs, None)
  {
  }

  // ---------------------------------------------------------------------------
  // Stored names stay in normal form.

  lemma {:induction false} AppendEntriesNormalised(hs: seq<Header>, entries: seq<(string, string)>)
    requires Normalised(hs)
    ensures Normalised(AppendEntries(hs, entries).headers)
    decreases |entries|
  {
    if |entries| > 0 {
      NormalisedKept(hs, entries[0].0, entries[0].1);
      if Appended(hs, entries[0].0, entries[0].1).Some? {
        AppendEntriesNormalised(Appended(hs, entries[0].0, entries[0].1).value, entries[1..]);
      }
    }
  }

  lemma {:induction false} ProcessTokensNormalised(hs: seq<Header>, kept: seq<string>, pieces: seq<string>, parse: JsonMapParser)
    requires Normalised(hs)
    ensures Normalised(ProcessTokens(hs, kept, pieces, parse).headers)
    decreases |pieces|
  {
    if |pieces| > 0 {
      var token := Trim(pieces[0]);
      if StartsWith(token, AuthDataPrefix) {
        var m := SmuggledMap(token[|AuthDataPrefix|..], parse);
        if m.Ok? {
          AppendEntriesNormalised(hs, m.value);
          ProcessTokensNormalised(AppendEntries(hs, m.value).headers, kept, pieces[1..], parse);
        }
      } else {
        ProcessTokensNormalised(hs, kept + [token], pieces[1..], parse);
      }
    }
  }

  lemma {:induction false} ProcessValuesNormalised(hs: seq<Header>, values: seq<string>, parse: JsonMapParser)
    requires Normalised(hs)
    ensures Normalised(ProcessValues(hs, values, parse).headers)
    decreases |values|
  {
    if |values| > 0 {
      var value := values[0];
      if IsVisibleAscii(value) {
        var t := ProcessTokens(hs, [], Split(value, ','), parse);
        ProcessTokensNormalised(hs, [], Split(value, ','), parse);
        NormalisedKept(t.headers, SecWebSocketProtocol, Join(t.kept, ", "));
      }
      var o := ProcessValue(hs, value, parse);
      if o.failure.None? {
        ProcessValuesNormalised(o.headers, values[1..], parse);
      }
    }
  }

  /** The rewrite, failing or not, stores every name in normal form, as a
      `HeaderMap` does: smuggled names are normalised when appended. */
  lemma RewriteNormalised(hs: seq<Header>, parse: JsonMapParser)
    requires Normalised(hs)
    ensures Normalised(Rewrite(hs, parse).headers)
  {
    NormalisedKept(hs, SecWebSocketProtocol, "");
    ProcessValuesNormalised(RemoveAll(hs, SecWebSocketProtocol), GetAll(hs, SecWebSocketProtocol), parse);
  }

  // ---------------------------------------------------------------------------
  // No smuggled token reaches the backend.

  /** No token of the value carries the reserved prefix. */
  predicate NoSmuggledToken(value: string) {
    forall t :: t in Tokens(value) ==> !StartsWith(t, AuthDataPrefix)
  }

  /** No `Sec-WebSocket-Protocol` value of the list carries a smuggled token. */
  predicate Clean(hs: seq<Header>) {
    forall v :: v in GetAll(hs, SecWebSocketProtocol) ==> NoSmuggledToken(v)
  }

  /** The decoded maps never name `Sec-WebSocket-Protocol` (the source has no
      such check: see `SmuggledProtocolEntrySurvives`). */
  ghost predicate ParserAvoidsProtocol(parse: JsonMapParser) {
    forall b, e :: parse(b).Some? && e in parse(b).value ==> Lower(e.0) != SecWebSocketProtocol
  }

  predicate GenuineKept(kept: seq<string>) {
    forall k :: k in kept ==> ',' !in k && IsTrimmed(k) && !StartsWith(k, AuthDataPrefix)
  }

  lemma CleanAppend(hs: seq<Header>, h: Header)
    requires Clean(hs)
    requires h.name != SecWebSocketProtocol || NoSmuggledToken(h.value)
    ensures Clean(hs + [h])
  {
    GetAllAppend(hs, [h], SecWebSocketProtocol);
    assert GetAll([h], SecWebSocketProtocol) == (if h.name == SecWebSocketProtocol then [h.value] else []) + GetAll([], SecWebSocketProtocol);
  }

  lemma {:induction false} AppendEntriesClean(hs: seq<Header>, entries: seq<(string, string)>)
    requires Clean(hs)
    requires forall e :: e in entries ==> Lower(e.0) != SecWebSocketProtocol
    ensures Clean(AppendEntries(hs, entries).headers)
    decreases |entries|
  {
    if |entries| > 0 {
      var e := entries[0];
      assert e in entries;
      if ValidName(e.0) && ValidValue(e.1) {
        CleanAppend(hs, Header(Lower(e.0), e.1));
        assert forall x :: x in entries[1..] ==> x in entries;
        AppendEntriesClean(hs + [Header(Lower(e.0), e.1)], entries[1..]);
      }
    }
  }

  lemma {:induction false} ProcessTokensClean(hs: seq<Header>, kept: seq<string>, pieces: seq<string>, parse: JsonMapParser)
    requires Clean(hs) && GenuineKept(kept) && ParserAvoidsProtocol(parse)
    requires forall i :: 0 <= i < |pieces| ==> ',' !in pieces[i]
    ensures Clean(ProcessTokens(hs, kept, pieces, parse).headers)
    ensures GenuineKept(ProcessTokens(hs, kept, pieces, parse).kept)
    decreases |pieces|, 1
  {
    if |pieces| > 0 {
      if StartsWith(Trim(pieces[0]), AuthDataPrefix) {
        SmuggledTokenClean(hs, kept, pieces, parse);
      } else {
        GenuineTokenClean(hs, kept, pieces, parse);
      }
    }
  }

  lemma {:induction false} SmuggledTokenClean(hs: seq<Header>, kept: seq<string>, pieces: seq<string>, parse: JsonMapParser)
    requires Clean(hs) && GenuineKept(kept) && ParserAvoidsProtocol(parse)
    requires forall i :: 0 <= i < |pieces| ==> ',' !in pieces[i]
    requires |pieces| > 0 && StartsWith(Trim(pieces[0]), AuthDataPrefix)
    ensures Clean(ProcessTokens(hs, kept, pieces, parse).headers)
    ensures GenuineKept(ProcessTokens(hs, kept, pieces, parse).kept)
    decreases |pieces|, 0
  {
    var data := Trim(pieces[0])[|AuthDataPrefix|..];
    var m := SmuggledMap(data, parse);
    if m.Ok? {
      assert parse(Base64Url.Decode(data).value) == Some(m.value);
      AppendEntriesClean(hs, m.value);
      var appended := AppendEntries(hs, m.value);
      if appended.failure == None {
        assert ProcessTokens(hs, kept, pieces, parse) == ProcessTokens(appended.headers, kept, pieces[1..], parse);
        ProcessTokensClean(appended.headers, kept, pieces[1..], parse);
      }
    }
  }

  lemma {:induction false} GenuineTokenClean(hs: seq<Header>, kept: seq<string>, pieces: seq<string>, parse: JsonMapParser)
    requires Clean(hs) && GenuineKept(kept) && ParserAvoidsProtocol(parse)
    requires forall i :: 0 <= i < |pieces| ==> ',' !in pieces[i]
    requires |pieces| > 0 && !StartsWith(Trim(pieces[0]), AuthDataPrefix)
    ensures Clean(ProcessTokens(hs, kept, pieces, parse).headers)
    ensures GenuineKept(ProcessTokens(hs, kept, pieces, parse).kept)
    decreases |pieces|, 0
  {
    var token := Trim(pieces[0]);
    if ',' in token {
      TrimKeepsCharacters(pieces[0], ',');
    }
    assert GenuineKept(kept + [token]);
    assert ProcessTokens(hs, kept, pieces, parse) == ProcessTokens(hs, kept + [token], pieces[1..], parse);
    ProcessTokensClean(hs, kept + [token], pieces[1..], parse);
  }

  /** Re-attaching genuine tokens adds no smuggled one. */
  lemma ReattachClean(hs: seq<Header>, kept: seq<string>)
    requires Clean(hs) && GenuineKept(kept) && |kept| > 0
    ensures Clean(hs + [Header(SecWebSocketProtocol, Join(kept, ", "))])
  {
    TokensOfJoin(kept);
    CleanAppend(hs, Header(SecWebSocketProtocol, Join(kept, ", ")));
  }

  lemma ProcessValueClean(hs: seq<Header>, value: string, parse: JsonMapParser)
    requires Clean(hs) && ParserAvoidsProtocol(parse)
    ensures Clean(ProcessValue(hs, value, parse).headers)
  {
    if IsVisibleAscii(value) {
      var t := ProcessTokens(hs, [], Split(value, ','), parse);
      SplitOmitsSeparator(value, ',');
      ProcessTokensClean(hs, [], Split(value, ','), parse);
      ProcessValueShape(hs, value, parse);
      if t.failure == None && t.kept != [] {
        ReattachClean(t.headers, t.kept);
      }
    }
  }

  lemma {:induction false} ProcessValuesClean(hs: seq<Header>, values: seq<string>, parse: JsonMapParser)
    requires Clean(hs) && ParserAvoidsProtocol(parse)
    ensures Clean(ProcessValues(hs, values, parse).headers)
    decreases |values|
  {
    if |values| > 0 {
      ProcessValueClean(hs, values[0], parse);
      var o := ProcessValue(hs, values[0], parse);
      if o.failure == None {
        ProcessValuesClean(o.headers, values[1..], parse);
      }
    }
  }

  /** Whatever the outcome, no `Sec-WebSocket-Protocol` value left on the request
      carries a token with the reserved prefix, as long as the smuggled maps do
      not themselves name that header. */
  lemma RewriteRemovesSmuggledTokens(hs: seq<Header>, parse: JsonMapParser)
    requires ParserAvoidsProtocol(parse)
    ensures Clean(Rewrite(hs, parse).headers)
  {
    if GetAll(hs, SecWebSocketProtocol) != [] {
      GetAllRemoveAll(hs, SecWebSocketProtocol);
      ProcessValuesClean(RemoveAll(hs, SecWebSocketProtocol), GetAll(hs, SecWebSocketProtocol), parse);
    }
  }

  /** Without that restriction the property fails: a smuggled token whose map
      is `{"Sec-WebSocket-Protocol": v}`, with `v` itself carrying the reserved
      prefix, is accepted, and `v` is left on the request as a protocol value. */
  lemma SmuggledProtocolEntrySurvives(payload: seq<Base64Url.byte>, v: string, parse: JsonMapParser)
    requires parse(payload) == Some([(SecWebSocketProtocol, v)])
    requires StartsWith(v, AuthDataPrefix) && ',' !in v && IsTrimmed(v) && ValidValue(v)
    ensures var token := AuthDataPrefix + Base64Url.Encode(payload);
      Rewrite([Header(SecWebSocketProtocol, token)], parse) == Outcome([Header(SecWebSocketProtocol, v)], None)
    ensures !Clean([Header(SecWebSocketProtocol, v)])
  {
    var data := Base64Url.Encode(payload);
    var token := AuthDataPrefix + data;
    Base64Url.EncodeInAlphabet(payload);
    SmuggledTokenShape(data);
    assert token[|AuthDataPrefix|..] == data;
    Base64Url.DecodeEncode(payload);
    SmuggledValue(token, v, parse);
    RewriteOfSingleValue(token, parse);
    PrefixedValueNotClean(v);
  }

  /** A one-token value whose map names the protocol header with `v` leaves `v` alone. */
  lemma SmuggledValue(token: string, v: string, parse: JsonMapParser)
    requires IsVisibleAscii(token) && ',' !in token && IsTrimmed(token) && StartsWith(token, AuthDataPrefix)
    requires ValidValue(v)
    requires SmuggledMap(token[|AuthDataPrefix|..], parse) == Ok([(SecWebSocketProtocol, v)])
    ensures ProcessValue([], token, parse) == Outcome([Header(SecWebSocketProtocol, v)], None)
  {
    TokenReproduces(token, v, parse);
    SingleTokenValue(token);
  }

  /** A protocol value that is itself one prefixed token is not clean. */
  lemma PrefixedValueNotClean(v: string)
    requires StartsWith(v, AuthDataPrefix) && ',' !in v && IsTrimmed(v)
    ensures !Clean([Header(SecWebSocketProtocol, v)])
  {
    SingleTokenValue(v);
    assert GetAll([Header(SecWebSocketProtocol, v)], SecWebSocketProtocol) == [v];
    assert v in Tokens(v);
  }

  /** The prefix followed by base64url symbols is one visible-ASCII token with no
      comma and no whitespace at either end. */
  lemma SmuggledTokenShape(data: string)
    requires forall i :: 0 <= i < |data| ==> Base64Url.Value(data[i]).Some?
    ensures var token := AuthDataPrefix + data;
      IsVisibleAscii(token) && ',' !in token && IsTrimmed(token) && StartsWith(token, AuthDataPrefix)
  {
    var token := AuthDataPrefix + data;
    forall i | 0 <= i < |token|
      ensures ' ' < token[i] <= '~' && token[i] != ','
    {
      if i >= |AuthDataPrefix| {
        assert token[i] == data[i - |AuthDataPrefix|];
      }
    }
  }

  lemma TokenReproduces(token: string, v: string, parse: JsonMapParser)
    requires StartsWith(token, AuthDataPrefix) && IsTrimmed(token) && ValidValue(v)
    requires SmuggledMap(token[|AuthDataPrefix|..], parse) == Ok([(SecWebSocketProtocol, v)])
    ensures ProcessTokens([], [], [token], parse) == TokenOutcome([Header(SecWebSocketProtocol, v)], [], None)
  {
    var hs := [Header(SecWebSocketProtocol, v)];
    TrimTrimmed(token);
    AppendProtocolEntry(v);
    assert [token][1..] == [];
    assert ProcessTokens(hs, [], [], parse) == TokenOutcome(hs, [], None);
  }

  lemma RewriteOfSingleValue(value: string, parse: JsonMapParser)
    requires ProcessValue([], value, parse).failure == None
    ensures Rewrite([Header(SecWebSocketProtocol, value)], parse) == ProcessValue([], value, parse)
  {
    var hs := [Header(SecWebSocketProtocol, value)];
    assert GetAll(hs, SecWebSocketProtocol) == [value];
    assert RemoveAll(hs, SecWebSocketProtocol) == [];
    assert [value][1..] == [];
    var o := ProcessValue([], value, parse);
    assert o == Outcome(o.headers, None);
    assert ProcessValues(o.headers, [], parse) == o;
    assert ProcessValues([], [value], parse) == ProcessValues(o.headers, [value][1..], parse);
    assert Rewrite(hs, parse) == ProcessValues([], [value], parse);
  }

  lemma SingleTokenValue(token: string)
    requires ',' !in token && IsTrimmed(token)
    ensures Split(token, ',') == [token] && Tokens(token) == [token]
  {
    SplitWithoutSeparator(token, ',');
    TrimTrimmed(token);
  }

  lemma AppendProtocolEntry(value: string)
    requires ValidValue(value)
    ensures AppendEntries([], [(SecWebSocketProtocol, value)]) == Outcome([Header(SecWebSocketProtocol, value)], None)
  {
    ProtocolNameIsLower();
    ProtocolNameValid();
    var entries := [(SecWebSocketProtocol, value)];
    assert Appended([], SecWebSocketProtocol, value) == Some([Header(SecWebSocketProtocol, value)]);
    assert entries[1..] == [];
  }
}
