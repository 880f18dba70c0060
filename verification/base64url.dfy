/** Base64 with the URL- and filename-safe alphabet and no padding, as in
    section 5 of RFC 4648, with the decoder settings of the `base64` crate's
    `URL_SAFE_NO_PAD` engine: padding characters are rejected, a final group
    of one symbol is rejected, and the unused low bits of a final group of two
    or three symbols must be zero. */
module Base64Url {
  import opened Wrappers

  type byte = x: int | 0 <= x < 256
  type sextet = x: int | 0 <= x < 64

  /** The symbol for a 6-bit value: `A`-`Z`, `a`-`z`, `0`-`9`, `-`, `_`. */
  function Symbol(v: sextet): char {
    if v < 26 then ('A' as int + v) as char
    else if v < 52 then ('a' as int + (v - 26)) as char
    else if v < 62 then ('0' as int + (v - 52)) as char
    else if v == 62 then '-'
    else '_'
  }

  /** The 6-bit value of a symbol; `None` for a character outside the alphabet
      (`=`, `+` and `/` included). */
  function Value(c: char): (r: Option<sextet>)
    ensures r.Some? ==> Symbol(r.value) == c
  {
    if 'A' <= c <= 'Z' then Some(c as int - 'A' as int)
    else if 'a' <= c <= 'z' then Some(c as int - 'a' as int + 26)
    else if '0' <= c <= '9' then Some(c as int - '0' as int + 52)
    else if c == '-' then Some(62)
    else if c == '_' then Some(63)
    else None
  }

  lemma ValueOfSymbol(v: sextet)
    ensures Value(Symbol(v)) == Some(v)
  {
  }

  /** The symbols of a sequence of sextets. */
  function Symbols(vs: seq<sextet>): (s: string)
    ensures |s| == |vs| && forall i :: 0 <= i < |vs| ==> s[i] == Symbol(vs[i])
  {
    seq(|vs|, i requires 0 <= i < |vs| => Symbol(vs[i]))
  }

  /** The sextets of a string; `None` as soon as one character is outside the
      alphabet. */
  function Values(s: string): (r: Option<seq<sextet>>)
    ensures r.Some? <==> forall i :: 0 <= i < |s| ==> Value(s[i]).Some?
    ensures r.Some? ==> |r.value| == |s| && forall i :: 0 <= i < |s| ==> Value(s[i]) == Some(r.value[i])
  {
    if |s| == 0 then Some([])
    else
      match Value(s[0])
      case None => None
      case Some(v) =>
        match Values(s[1..])
        case None =>
          assert exists i :: 0 <= i < |s[1..]| && Value(s[1..][i]).None?;
          None
        case Some(vs) => Some([v] + vs)
  }

  /** Three bytes as four sextets, and the short final groups of one or two
      bytes as two or three sextets whose unused low bits are zero. */
  function EncodeSextets(b: seq<byte>): (vs: seq<sextet>)
    ensures |vs| == (4 * |b| + 2) / 3
  {
    if |b| == 0 then []
    else if |b| == 1 then [b[0] / 4, (b[0] % 4) * 16]
    else if |b| == 2 then [b[0] / 4, (b[0] % 4) * 16 + b[1] / 16, (b[1] % 16) * 4]
    else [b[0] / 4, (b[0] % 4) * 16 + b[1] / 16, (b[1] % 16) * 4 + b[2] / 64, b[2] % 64] + EncodeSextets(b[3..])
  }

  function Encode(b: seq<byte>): (s: string)
    ensures |s| == (4 * |b| + 2) / 3
  {
    Symbols(EncodeSextets(b))
  }

  /** Four sextets as three bytes. */
  function DecodeGroup(a: sextet, b: sextet, c: sextet, d: sextet): seq<byte> {
    [a as int * 4 + b / 16, (b % 16) as int * 16 + c / 4, (c % 4) as int * 64 + d]
  }

  /** Sextets as bytes: `None` for a count of the form 4k+1 or non-zero unused
      bits in the last sextet. */
  function DecodeSextets(vs: seq<sextet>): (r: Option<seq<byte>>)
    ensures r.Some? ==> |vs| % 4 != 1 && |r.value| == 3 * |vs| / 4
  {
    if |vs| == 0 then Some([])
    else if |vs| == 1 then None
    else if |vs| == 2 then
      if vs[1] % 16 == 0 then Some([vs[0] as int * 4 + vs[1] / 16]) else None
    else if |vs| == 3 then
      if vs[2] % 4 == 0 then Some([vs[0] as int * 4 + vs[1] / 16, (vs[1] % 16) as int * 16 + vs[2] / 4]) else None
    else
      match DecodeSextets(vs[4..])
      case None => None
      case Some(rest) => Some(DecodeGroup(vs[0], vs[1], vs[2], vs[3]) + rest)
  }

  /** The decoder: `None` for a symbol outside the alphabet, a length of the
      form 4k+1, or non-zero unused bits in the last symbol. */
  function Decode(s: string): (r: Option<seq<byte>>)
    ensures r.Some? ==> forall i :: 0 <= i < |s| ==> Value(s[i]).Some?
    ensures r.Some? ==> |s| % 4 != 1 && |r.value| == 3 * |s| / 4
  {
    match Values(s)
    case None => None
    case Some(vs) => DecodeSextets(vs)
  }

  lemma ValuesOfSymbols(vs: seq<sextet>)
    ensures Values(Symbols(vs)) == Some(vs)
  {
    var s := Symbols(vs);
    forall i | 0 <= i < |vs|
      ensures Value(s[i]) == Some(vs[i])
    {
      ValueOfSymbol(vs[i]);
    }
    assert Values(s).value == vs;
  }

  lemma SymbolsOfValues(s: string)
    requires Values(s).Some?
    ensures Symbols(Values(s).value) == s
  {
  }

  lemma SplitBy4(q: int, r: int)
    requires 0 <= r < 4
    ensures (q * 4 + r) / 4 == q && (q * 4 + r) % 4 == r
  {
  }

  lemma SplitBy16(q: int, r: int)
    requires 0 <= r < 16
    ensures (q * 16 + r) / 16 == q && (q * 16 + r) % 16 == r
  {
  }

  lemma SplitBy64(q: int, r: int)
    requires 0 <= r < 64
    ensures (q * 64 + r) / 64 == q && (q * 64 + r) % 64 == r
  {
  }

  lemma GroupRoundTrip(x: byte, y: byte, z: byte)
    ensures DecodeGroup(x / 4, (x % 4) * 16 + y / 16, (y % 16) * 4 + z / 64, z % 64) == [x, y, z]
  {
    SplitBy16(x % 4, y / 16);
    SplitBy4(y % 16, z / 64);
  }

  /** Re-encoding the bytes of a decoded group recovers its sextets. */
  lemma GroupInverse(a: sextet, b: sextet, c: sextet, d: sextet)
    ensures var x, y, z := a as int * 4 + b / 16, (b % 16) as int * 16 + c / 4, (c % 4) as int * 64 + d;
      x / 4 == a && (x % 4) * 16 + y / 16 == b && (y % 16) * 4 + z / 64 == c && z % 64 == d
  {
    SplitBy4(a, b / 16);
    SplitBy16(b % 16, c / 4);
    SplitBy64(c % 4, d);
    SplitBy16(b / 16, b % 16);
    SplitBy4(c / 4, c % 4);
  }

  lemma DecodeEncodeOne(x: byte)
    ensures DecodeSextets(EncodeSextets([x])) == Some([x])
  {
    var a: int, b: int := x / 4, (x % 4) * 16;
    assert EncodeSextets([x]) == [a, b];
    SplitBy16(x % 4, 0);
    assert a * 4 + b / 16 == x;
  }

  lemma DecodeEncodeTwo(x: byte, y: byte)
    ensures DecodeSextets(EncodeSextets([x, y])) == Some([x, y])
  {
    var a: int, b: int, c: int := x / 4, (x % 4) * 16 + y / 16, (y % 16) * 4;
    assert EncodeSextets([x, y]) == [a, b, c];
    SplitBy16(x % 4, y / 16);
    SplitBy4(y % 16, 0);
    assert a * 4 + b / 16 == x;
    assert (b % 16) * 16 + c / 4 == y;
  }

  lemma {:induction false} DecodeEncodeSextets(bs: seq<byte>)
    ensures DecodeSextets(EncodeSextets(bs)) == Some(bs)
  {
    if |bs| == 1 {
      DecodeEncodeOne(bs[0]);
      assert bs == [bs[0]];
    } else if |bs| == 2 {
      DecodeEncodeTwo(bs[0], bs[1]);
      assert bs == [bs[0], bs[1]];
    } else if |bs| >= 3 {
      var x, y, z := bs[0], bs[1], bs[2];
      var vs := EncodeSextets(bs);
      assert vs[4..] == EncodeSextets(bs[3..]);
      DecodeEncodeSextets(bs[3..]);
      GroupRoundTrip(x, y, z);
      assert bs == [x, y, z] + bs[3..];
    }
  }

  lemma EncodeDecodeTwo(vs: seq<sextet>)
    requires |vs| == 2 && DecodeSextets(vs).Some?
    ensures EncodeSextets(DecodeSextets(vs).value) == vs
  {
    var a: int, b: int := vs[0], vs[1];
    SplitBy4(a, b / 16);
    assert vs == [a, b];
  }

  lemma EncodeDecodeThree(vs: seq<sextet>)
    requires |vs| == 3 && DecodeSextets(vs).Some?
    ensures EncodeSextets(DecodeSextets(vs).value) == vs
  {
    var a: int, b: int, c: int := vs[0], vs[1], vs[2];
    SplitBy4(a, b / 16);
    SplitBy16(b % 16, c / 4);
    SplitBy16(b / 16, b % 16);
    SplitBy4(c / 4, c % 4);
    assert vs == [a, b, c];
  }

  /** A full group re-encodes to its own four sextets in front of the rest. */
  lemma EncodeGroupThenRest(a: sextet, b: sextet, c: sextet, d: sextet, rest: seq<byte>)
    ensures EncodeSextets(DecodeGroup(a, b, c, d) + rest) == [a, b, c, d] + EncodeSextets(rest)
  {
    GroupInverse(a, b, c, d);
    var bytes := DecodeGroup(a, b, c, d) + rest;
    assert bytes[3..] == rest;
  }

  lemma {:induction false} EncodeDecodeSextets(vs: seq<sextet>)
    requires DecodeSextets(vs).Some?
    ensures EncodeSextets(DecodeSextets(vs).value) == vs
  {
    if |vs| == 2 {
      EncodeDecodeTwo(vs);
    } else if |vs| == 3 {
      EncodeDecodeThree(vs);
    } else if |vs| >= 4 {
      var rest := DecodeSextets(vs[4..]).value;
      var group := DecodeGroup(vs[0], vs[1], vs[2], vs[3]);
      assert DecodeSextets(vs).value == group + rest;
      EncodeDecodeSextets(vs[4..]);
      EncodeGroupThenRest(vs[0], vs[1], vs[2], vs[3], rest);
      assert vs == [vs[0], vs[1], vs[2], vs[3]] + vs[4..];
    }
  }

  /** Every character of an encoding is in the alphabet. */
  lemma EncodeInAlphabet(bs: seq<byte>)
    ensures forall i :: 0 <= i < |Encode(bs)| ==> Value(Encode(bs)[i]).Some?
  {
    ValuesOfSymbols(EncodeSextets(bs));
  }

  /** Decoding an encoding gives back the bytes. */
  lemma DecodeEncode(bs: seq<byte>)
    ensures Decode(Encode(bs)) == Some(bs)
  {
    ValuesOfSymbols(EncodeSextets(bs));
    DecodeEncodeSextets(bs);
  }

  /** The decoder accepts only the canonical encoding of what it returns. */
  lemma EncodeDecode(s: string)
    requires Decode(s).Some?
    ensures Encode(Decode(s).value) == s
  {
    var vs := Values(s).value;
    EncodeDecodeSextets(vs);
    SymbolsOfValues(s);
  }
}
