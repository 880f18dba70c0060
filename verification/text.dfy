/** String operations the gateway relies on: `trim`, `trim_end_matches('/')`,
    `split(',')`, `starts_with` and `join`, with the facts about them that the
    header rewrite needs. */
module Text {

  /** The whitespace `str::trim` removes, restricted to ASCII: header values reach
      `trim` only after `HeaderValue::to_str` has rejected every non-ASCII byte. */
  predicate IsWhitespace(c: char) {
    c == ' ' || c == '\t' || c == '\n' || c == '\r' || c == '\U{0B}' || c == '\U{0C}'
  }

  predicate StartsWith(s: string, prefix: string) {
    prefix <= s
  }

  /** Where `s` resumes after the whitespace that starts at index `i`. */
  function SkipLeading(s: string, i: nat): (n: nat)
    requires i <= |s|
    ensures i <= n <= |s|
    ensures n == |s| || !IsWhitespace(s[n])
    decreases |s| - i
  {
    if i < |s| && IsWhitespace(s[i]) then SkipLeading(s, i + 1) else i
  }

  /** Everything `SkipLeading` passes over is whitespace. */
  lemma {:induction false} SkipLeadingSkipsWhitespace(s: string, i: nat)
    requires i <= |s|
    ensures forall j :: i <= j < SkipLeading(s, i) ==> IsWhitespace(s[j])
    decreases |s| - i
  {
    if i < |s| && IsWhitespace(s[i]) {
      SkipLeadingSkipsWhitespace(s, i + 1);
    }
  }

  /** Where `s[lo..hi]` ends once the whitespace it ends with is dropped. */
  function SkipTrailing(s: string, lo: nat, hi: nat): (n: nat)
    requires lo <= hi <= |s|
    ensures lo <= n <= hi
    ensures n == lo || !IsWhitespace(s[n - 1])
    decreases hi
  {
    if lo < hi && IsWhitespace(s[hi - 1]) then SkipTrailing(s, lo, hi - 1) else hi
  }

  /** Everything `SkipTrailing` drops is whitespace. */
  lemma {:induction false} SkipTrailingSkipsWhitespace(s: string, lo: nat, hi: nat)
    requires lo <= hi <= |s|
    ensures forall j :: SkipTrailing(s, lo, hi) <= j < hi ==> IsWhitespace(s[j])
    decreases hi
  {
    if lo < hi && IsWhitespace(s[hi - 1]) {
      SkipTrailingSkipsWhitespace(s, lo, hi - 1);
    }
  }

  /** `str::trim`: `s` without the whitespace it starts and ends with. */
  function Trim(s: string): (r: string)
    ensures r == [] || (!IsWhitespace(r[0]) && !IsWhitespace(r[|r| - 1]))
    ensures |r| <= |s|
  {
    var a := SkipLeading(s, 0);
    s[a..SkipTrailing(s, a, |s|)]
  }

  /** `trim` keeps one slice of its input and removes only whitespace around it. */
  lemma TrimIsSlice(s: string)
    ensures var a := SkipLeading(s, 0);
      var b := SkipTrailing(s, a, |s|);
      && Trim(s) == s[a..b]
      && (forall i :: 0 <= i < a ==> IsWhitespace(s[i]))
      && (forall i :: b <= i < |s| ==> IsWhitespace(s[i]))
  {
    SkipLeadingSkipsWhitespace(s, 0);
    SkipTrailingSkipsWhitespace(s, SkipLeading(s, 0), |s|);
  }

  predicate IsTrimmed(s: string) {
    s == [] || (!IsWhitespace(s[0]) && !IsWhitespace(s[|s| - 1]))
  }

  /** Trimming a string that is already trimmed leaves it as it is. */
  lemma TrimTrimmed(s: string)
    requires IsTrimmed(s)
    ensures Trim(s) == s
  {
    assert SkipLeading(s, 0) == 0;
    assert SkipTrailing(s, 0, |s|) == |s|;
    assert s[0..|s|] == s;
  }

  /** `trim` is idempotent. */
  lemma TrimIdempotent(s: string)
    ensures Trim(Trim(s)) == Trim(s)
  {
    TrimTrimmed(Trim(s));
  }

  /** The space `join(", ")` puts before a trimmed token disappears under `trim`. */
  lemma TrimSpaceBeforeTrimmed(k: string)
    requires IsTrimmed(k)
    ensures Trim(" " + k) == k
  {
    var t := " " + k;
    assert SkipLeading(t, 1) == 1;
    assert SkipLeading(t, 0) == 1;
    assert SkipTrailing(t, 1, |t|) == |t|;
    assert t[1..|t|] == k;
  }

  /** `str::trim_end_matches('/')`: `s` with every trailing slash removed. */
  function TrimTrailingSlashes(s: string): (r: string)
    ensures r <= s
    ensures r == [] || r[|r| - 1] != '/'
    ensures forall i :: |r| <= i < |s| ==> s[i] == '/'
  {
    if |s| > 0 && s[|s| - 1] == '/' then TrimTrailingSlashes(s[..|s| - 1]) else s
  }

  /** `str::split(sep)`: the pieces between the separators, in order; an empty
      string yields one empty piece, as in Rust. */
  function Split(s: string, sep: char): (r: seq<string>)
    ensures |r| >= 1
  {
    if |s| == 0 then [""]
    else
      var rest := Split(s[1..], sep);
      if s[0] == sep then [""] + rest
      else [[s[0]] + rest[0]] + rest[1..]
  }

  /** The first piece of a split is a prefix of the input. */
  lemma {:induction false} SplitFirstIsPrefix(s: string, sep: char)
    ensures Split(s, sep)[0] <= s
  {
    if |s| > 0 && s[0] != sep {
      SplitFirstIsPrefix(s[1..], sep);
      assert s == [s[0]] + s[1..];
    }
  }

  /** No piece of a split contains the separator. */
  lemma {:induction false} SplitOmitsSeparator(s: string, sep: char)
    ensures forall i :: 0 <= i < |Split(s, sep)| ==> sep !in Split(s, sep)[i]
  {
    if |s| > 0 {
      var rest := Split(s[1..], sep);
      SplitOmitsSeparator(s[1..], sep);
      if s[0] != sep {
        assert sep !in [s[0]] + rest[0];
      }
    }
  }

  /** `[T]::join(sep)`: the first part, then each further part after a separator. */
  function Join(parts: seq<string>, sep: string): (r: string)
    ensures |parts| >= 1 ==> parts[0] <= r
    ensures |parts| >= 2 ==> parts[0] + sep <= r
  {
    if |parts| == 0 then ""
    else if |parts| == 1 then parts[0]
    else parts[0] + sep + Join(parts[1..], sep)
  }

  lemma JoinCons(c: char, parts: seq<string>, sep: string)
    requires |parts| >= 1
    ensures Join([[c] + parts[0]] + parts[1..], sep) == [c] + Join(parts, sep)
  {
    var ps := [[c] + parts[0]] + parts[1..];
    assert ps[1..] == parts[1..];
  }

  /** Joining the pieces of a split with the separator gives back the string. */
  lemma {:induction false} JoinSplit(s: string, sep: char)
    ensures Join(Split(s, sep), [sep]) == s
  {
    if |s| > 0 {
      var rest := Split(s[1..], sep);
      JoinSplit(s[1..], sep);
      if s[0] == sep {
        var ps := [""] + rest;
        assert ps[1..] == rest;
        assert Join(ps, [sep]) == "" + [sep] + Join(rest, [sep]);
        assert s == [s[0]] + s[1..];
      } else {
        JoinCons(s[0], rest, [sep]);
        assert s == [s[0]] + s[1..];
      }
    }
  }

  /** A string without the separator splits into itself alone. */
  lemma {:induction false} SplitWithoutSeparator(a: string, sep: char)
    requires sep !in a
    ensures Split(a, sep) == [a]
  {
    if |a| > 0 {
      SplitWithoutSeparator(a[1..], sep);
      assert [a[0]] + a[1..] == a;
    }
  }

  /** The first separator ends the first piece. */
  lemma {:induction false} SplitAtSeparator(a: string, b: string, sep: char)
    requires sep !in a
    ensures Split(a + [sep] + b, sep) == [a] + Split(b, sep)
  {
    var s := a + [sep] + b;
    if |a| == 0 {
      assert s[1..] == b;
    } else {
      assert s[1..] == a[1..] + [sep] + b;
      SplitAtSeparator(a[1..], b, sep);
      assert [a[0]] + a[1..] == a;
    }
  }

  /** Splitting `k0, k1, ..., kn` on commas gives `k0`, ` k1`, ..., ` kn`. */
  lemma {:induction false} SplitJoinComma(ks: seq<string>)
    requires |ks| >= 1
    requires forall i :: 0 <= i < |ks| ==> ',' !in ks[i]
    ensures |Split(Join(ks, ", "), ',')| == |ks|
    ensures Split(Join(ks, ", "), ',')[0] == ks[0]
    ensures forall i :: 1 <= i < |ks| ==> Split(Join(ks, ", "), ',')[i] == " " + ks[i]
  {
    if |ks| == 1 {
      SplitWithoutSeparator(ks[0], ',');
    } else {
      var tail := Join(ks[1..], ", ");
      SplitJoinComma(ks[1..]);
      assert Join(ks, ", ") == ks[0] + [','] + (" " + tail);
      SplitAtSeparator(ks[0], " " + tail, ',');
      var rest := Split(tail, ',');
      assert (" " + tail)[1..] == tail;
      assert Split(" " + tail, ',') == [" " + rest[0]] + rest[1..];
    }
  }

  /** Every piece of a split, trimmed. */
  function TrimAll(parts: seq<string>): (r: seq<string>)
    ensures |r| == |parts|
    ensures forall i :: 0 <= i < |parts| ==> r[i] == Trim(parts[i])
  {
    if |parts| == 0 then [] else [Trim(parts[0])] + TrimAll(parts[1..])
  }

  /** Every character of a trimmed string occurs in the original. */
  lemma TrimKeepsCharacters(s: string, c: char)
    requires c in Trim(s)
    ensures c in s
  {
    TrimIsSlice(s);
    var a := SkipLeading(s, 0);
    var j :| 0 <= j < |Trim(s)| && Trim(s)[j] == c;
    assert s[a + j] == c;
  }

  /** The tokens of a header value: its comma-separated pieces, trimmed; there
      is at least one, and none has whitespace at either end. */
  function Tokens(value: string): (r: seq<string>)
    ensures |r| >= 1
    ensures forall i :: 0 <= i < |r| ==> IsTrimmed(r[i])
  {
    TrimAll(Split(value, ','))
  }

  /** Joining trimmed, comma-free tokens with `", "` and tokenising the result
      gives back exactly those tokens. */
  lemma TokensOfJoin(ks: seq<string>)
    requires |ks| >= 1
    requires forall i :: 0 <= i < |ks| ==> ',' !in ks[i] && IsTrimmed(ks[i])
    ensures Tokens(Join(ks, ", ")) == ks
  {
    SplitJoinComma(ks);
    var parts := Split(Join(ks, ", "), ',');
    forall i | 0 <= i < |ks| ensures Trim(parts[i]) == ks[i] {
      if i > 0 {
        TrimSpaceBeforeTrimmed(ks[i]);
      } else {
        TrimTrimmed(ks[i]);
      }
    }
  }
}
