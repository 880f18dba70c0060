/** The header multimap of a request, as the `http` crate and pingora's
    `RequestHeader` keep it: a list of (name, value) entries whose names are
    stored in lower case, so lookup and removal ignore case. */
module Headers {
  import opened Wrappers

  datatype Header = Header(name: string, value: string)

  /** An HTTP URI split into the parts `prepend_base_path` handles. */
  datatype Uri = Uri(scheme: Option<string>, authority: Option<string>, pathAndQuery: Option<string>)

  const SecWebSocketProtocol := "sec-websocket-protocol"
  const Host := "host"
  const ContentLength := "content-length"
  const ContentType := "content-type"
  const CacheControl := "cache-control"

  function LowerChar(c: char): char {
    if 'A' <= c <= 'Z' then (c as int - 'A' as int + 'a' as int) as char else c
  }

  /** Header-name normalisation. */
  function Lower(s: string): (r: string)
    ensures |r| == |s|
    ensures forall i :: 0 <= i < |s| ==> r[i] == LowerChar(s[i])
  {
    seq(|s|, i requires 0 <= i < |s| => LowerChar(s[i]))
  }

  /** A name without upper-case letters is its own normal form. */
  lemma LowerOfLowercase(s: string)
    requires forall i :: 0 <= i < |s| ==> !('A' <= s[i] <= 'Z')
    ensures Lower(s) == s
  {
  }

  /** A `tchar` of section 3.2.6 of RFC 7230: what a header name may contain. */
  predicate IsTokenChar(c: char) {
    || ('a' <= c <= 'z') || ('A' <= c <= 'Z') || ('0' <= c <= '9')
    || c == '!' || c == '#' || c == '$' || c == '%' || c == '&' || c == '\'' || c == '*'
    || c == '+' || c == '-' || c == '.' || c == '^' || c == '_' || c == '`' || c == '|' || c == '~'
  }

  predicate ValidName(name: string) {
    |name| > 0 && forall i :: 0 <= i < |name| ==> IsTokenChar(name[i])
  }

  /** The bytes `HeaderValue` accepts: tab, and everything from space upwards but DEL. */
  predicate ValidValue(value: string) {
    forall i :: 0 <= i < |value| ==> value[i] == '\t' || (' ' <= value[i] && value[i] != '\U{7F}')
  }

  /** What `HeaderValue::to_str` accepts: tab and visible ASCII. */
  predicate IsVisibleAscii(value: string) {
    forall i :: 0 <= i < |value| ==> value[i] == '\t' || (' ' <= value[i] <= '~')
  }

  /** All values stored under `name`, in order (`HeaderMap::get_all`). */
  function GetAll(hs: seq<Header>, name: string): (r: seq<string>)
    ensures |r| <= |hs|
  {
    if |hs| == 0 then []
    else (if hs[0].name == name then [hs[0].value] else []) + GetAll(hs[1..], name)
  }

  /** The list without the entries stored under `name`. */
  function RemoveAll(hs: seq<Header>, name: string): (r: seq<Header>)
    ensures |r| <= |hs|
  {
    if |hs| == 0 then []
    else (if hs[0].name == name then [] else [hs[0]]) + RemoveAll(hs[1..], name)
  }

  /** `RemoveAll` keeps exactly the entries stored under other names. */
  lemma {:induction false} InRemoveAll(hs: seq<Header>, name: string, h: Header)
    ensures h in RemoveAll(hs, name) <==> h in hs && h.name != name
  {
    if |hs| > 0 {
      InRemoveAll(hs[1..], name, h);
      assert hs == [hs[0]] + hs[1..];
    }
  }

  /** `GetAll` distributes over concatenation. */
  lemma {:induction false} GetAllAppend(a: seq<Header>, b: seq<Header>, name: string)
    ensures GetAll(a + b, name) == GetAll(a, name) + GetAll(b, name)
  {
    if |a| == 0 {
      assert a + b == b;
    } else {
      var ab := a + b;
      assert ab[0] == a[0] && ab[1..] == a[1..] + b;
      GetAllAppend(a[1..], b, name);
      var h := if a[0].name == name then [a[0].value] else [];
      assert GetAll(ab, name) == h + GetAll(ab[1..], name);
      assert GetAll(a, name) == h + GetAll(a[1..], name);
    }
  }

  /** After `RemoveAll`, nothing is stored under the name. */
  lemma {:induction false} GetAllRemoveAll(hs: seq<Header>, name: string)
    ensures GetAll(RemoveAll(hs, name), name) == []
  {
    if |hs| > 0 {
      GetAllRemoveAll(hs[1..], name);
      GetAllAppend(if hs[0].name == name then [] else [hs[0]], RemoveAll(hs[1..], name), name);
    }
  }

  /** Removing a name that is not there changes nothing. */
  lemma {:induction false} RemoveAllAbsent(hs: seq<Header>, name: string)
    requires GetAll(hs, name) == []
    ensures RemoveAll(hs, name) == hs
  {
    if |hs| > 0 {
      RemoveAllAbsent(hs[1..], name);
      assert hs == [hs[0]] + hs[1..];
    }
  }

  /** A value is stored under `name` exactly when some entry carries both. */
  lemma {:induction false} InGetAll(hs: seq<Header>, name: string, v: string)
    ensures v in GetAll(hs, name) <==> Header(name, v) in hs
  {
    if |hs| > 0 {
      InGetAll(hs[1..], name, v);
      assert hs == [hs[0]] + hs[1..];
    }
  }

  /** `append_header`: the list with the entry added at the end, or `None` when
      the name or the value is not acceptable to the `http` crate. */
  function Appended(hs: seq<Header>, name: string, value: string): (r: Option<seq<Header>>)
    ensures r.Some? <==> ValidName(name) && ValidValue(value)
    ensures r.Some? ==> |r.value| == |hs| + 1 && r.value[..|hs|] == hs
    ensures r.Some? ==> r.value[|hs|] == Header(Lower(name), value)
  {
    if ValidName(name) && ValidValue(value) then Some(hs + [Header(Lower(name), value)]) else None
  }

  /** `insert_header`: every entry under the name replaced by one. */
  function Inserted(hs: seq<Header>, name: string, value: string): (r: Option<seq<Header>>)
    ensures r.Some? <==> ValidName(name) && ValidValue(value)
    ensures r.Some? ==> GetAll(r.value, Lower(name)) == [value]
    ensures r.Some? ==> forall n :: n != Lower(name) ==> GetAll(r.value, n) == GetAll(hs, n)
  {
    if ValidName(name) && ValidValue(value) then
      var rest := RemoveAll(hs, Lower(name));
      GetAllRemoveAll(hs, Lower(name));
      GetAllAppend(rest, [Header(Lower(name), value)], Lower(name));
      forall n | n != Lower(name) ensures GetAll(rest + [Header(Lower(name), value)], n) == GetAll(hs, n) {
        GetAllAppend(rest, [Header(Lower(name), value)], n);
        GetAllRemoveOther(hs, Lower(name), n);
      }
      Some(rest + [Header(Lower(name), value)])
    else None
  }

  /** Removing one name does not disturb the values of another. */
  lemma {:induction false} GetAllRemoveOther(hs: seq<Header>, removed: string, n: string)
    requires n != removed
    ensures GetAll(RemoveAll(hs, removed), n) == GetAll(hs, n)
  {
    if |hs| > 0 {
      GetAllRemoveOther(hs[1..], removed, n);
      GetAllAppend(if hs[0].name == removed then [] else [hs[0]], RemoveAll(hs[1..], removed), n);
    }
  }

  /** A name as the `http` crate stores it: a valid token, already lower-cased. */
  predicate NormalName(name: string) {
    ValidName(name) && Lower(name) == name
  }

  /** Every stored name is in normal form, as in a `HeaderMap`. */
  predicate Normalised(hs: seq<Header>) {
    forall h :: h in hs ==> NormalName(h.name)
  }

  /** Normalising a valid name gives a name in normal form. */
  lemma LowerIsNormal(name: string)
    requires ValidName(name)
    ensures NormalName(Lower(name))
  {
    var l := Lower(name);
    forall i | 0 <= i < |l| ensures IsTokenChar(l[i]) && LowerChar(l[i]) == l[i] {
      assert l[i] == LowerChar(name[i]);
    }
  }

  /** `remove_header`, `append_header` and `insert_header` keep every name in normal form. */
  lemma NormalisedKept(hs: seq<Header>, name: string, value: string)
    requires Normalised(hs)
    ensures Normalised(RemoveAll(hs, name))
    ensures Appended(hs, name, value).Some? ==> Normalised(Appended(hs, name, value).value)
    ensures Inserted(hs, name, value).Some? ==> Normalised(Inserted(hs, name, value).value)
  {
    forall h | h in RemoveAll(hs, name) ensures NormalName(h.name) {
      InRemoveAll(hs, name, h);
    }
    if ValidName(name) && ValidValue(value) {
      LowerIsNormal(name);
      var rest := RemoveAll(hs, Lower(name));
      forall h | h in rest ensures NormalName(h.name) {
        InRemoveAll(hs, Lower(name), h);
      }
      assert Inserted(hs, name, value).value == rest + [Header(Lower(name), value)];
    }
  }

  /** The upstream request header that the gateway rewrites in place. */
  class RequestHeader {
    var uri: Uri
    var headers: seq<Header>

    constructor (uri: Uri, headers: seq<Header>)
      ensures this.uri == uri && this.headers == headers
    {
      this.uri := uri;
      this.headers := headers;
    }

    /** `remove_header`: drops every entry under the name and reports whether there was one. */
    method RemoveHeader(name: string) returns (removed: bool)
      modifies this
      ensures removed <==> GetAll(old(headers), Lower(name)) != []
      ensures headers == RemoveAll(old(headers), Lower(name)) && uri == old(uri)
    {
      removed := GetAll(headers, Lower(name)) != [];
      headers := RemoveAll(headers, Lower(name));
    }

    /** `append_header`: adds an entry after the existing ones; fails on an invalid name or value. */
    method AppendHeader(name: string, value: string) returns (ok: bool)
      modifies this
      ensures ok == Appended(old(headers), name, value).Some?
      ensures headers == (if ok then Appended(old(headers), name, value).value else old(headers))
      ensures uri == old(uri)
    {
      var r := Appended(headers, name, value);
      ok := r.Some?;
      if ok {
        headers := r.value;
      }
    }

    /** `insert_header`: replaces the entries under the name by one. */
    method InsertHeader(name: string, value: string) returns (ok: bool)
      modifies this
      ensures ok == Inserted(old(headers), name, value).Some?
      ensures headers == (if ok then Inserted(old(headers), name, value).value else old(headers))
      ensures uri == old(uri)
    {
      var r := Inserted(headers, name, value);
      ok := r.Some?;
      if ok {
        headers := r.value;
      }
    }

    method SetUri(u: Uri)
      modifies this
      ensures uri == u && headers == old(headers)
    {
      uri := u;
    }
  }
}
