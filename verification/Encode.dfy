/** Percent-encoding of remote paths (cloud/nextcloud.rs) and its inverse. */
module Encode {
  import opened Wrappers

  const SLASH: Byte := 0x2F
  const PERCENT: Byte := 0x25

  // Section 2.3 of RFC 3986: ALPHA / DIGIT / "-" / "." / "_" / "~".
  predicate Unreserved(b: Byte) {
    0x30 <= b <= 0x39 || 0x41 <= b <= 0x5A || 0x61 <= b <= 0x7A || b == 0x2D || b == 0x2E || b == 0x5F || b == 0x7E
  }

  function HexUpper(nibble: nat): (b: Byte)
    requires nibble < 16
  {
    if nibble <= 9 then 0x30 + nibble else 0x41 + (nibble - 10)
  }

  function HexValue(b: Byte): (v: Option<nat>)
    ensures v.Some? ==> v.value < 16
  {
    if 0x30 <= b <= 0x39 then Some(b - 0x30)
    else if 0x41 <= b <= 0x46 then Some(b - 0x41 + 10)
    else if 0x61 <= b <= 0x66 then Some(b - 0x61 + 10)
    else None
  }

  function EncodeByte(b: Byte): Bytes {
    if Unreserved(b) then [b] else [PERCENT, HexUpper(b / 16), HexUpper(b % 16)]
  }

  function Encoded(seg: Bytes): Bytes {
    if seg == [] then [] else Encoded(seg[..|seg| - 1]) + EncodeByte(seg[|seg| - 1])
  }

  // The loop of `encode_segment`.
  method EncodeSegment(seg: Bytes) returns (out: Bytes)
    ensures out == Encoded(seg)
  {
    out := [];
    for i := 0 to |seg|
      invariant out == Encoded(seg[..i])
    {
      var b := seg[i];
      assert seg[..i + 1][..i] == seg[..i];
      if Unreserved(b) {
        out := out + [b];
      } else {
        out := out + [PERCENT];
        out := out + [HexUpper(b / 16)];
        out := out + [HexUpper(b % 16)];
      }
    }
    assert seg[..|seg|] == seg;
  }

  // `split('/')` and `join("/")`.
  function Split(path: Bytes): (segs: seq<Bytes>)
    ensures segs != []
    ensures forall i :: 0 <= i < |segs| ==> SLASH !in segs[i]
    ensures Join(segs) == path
  {
    if path == [] then [[]]
    else
      var n := |path| - 1;
      var segs := Split(path[..n]);
      var k := |segs| - 1;
      assert path == path[..n] + [path[n]];
      if path[n] == SLASH then
        assert (segs + [[]])[..|segs|] == segs;
        segs + [[]]
      else
        assert segs[k := segs[k] + [path[n]]][..k] == segs[..k];
        segs[k := segs[k] + [path[n]]]
  }

  function Join(segs: seq<Bytes>): Bytes {
    if segs == [] then []
    else if |segs| == 1 then segs[0]
    else Join(segs[..|segs| - 1]) + [SLASH] + segs[|segs| - 1]
  }

  function EncodeAll(segs: seq<Bytes>): (r: seq<Bytes>)
    ensures |r| == |segs|
  {
    seq(|segs|, i requires 0 <= i < |segs| => Encoded(segs[i]))
  }

  function EncodePathSegments(path: Bytes): Bytes {
    Join(EncodeAll(Split(path)))
  }

  // Section 2.1 of RFC 3986: replace every "%XX" by the octet it stands for.
  function Decode(s: Bytes): Option<Bytes> {
    if s == [] then Some([])
    else if s[0] != PERCENT then
      var rest := Decode(s[1..]);
      if rest.Some? then Some([s[0]] + rest.value) else None
    else if |s| < 3 || HexValue(s[1]).None? || HexValue(s[2]).None? then None
    else
      var rest := Decode(s[3..]);
      if rest.Some? then Some([(HexValue(s[1]).value * 16 + HexValue(s[2]).value) as Byte] + rest.value) else None
  }

  lemma DecodeByte(b: Byte, rest: Bytes)
    requires Decode(rest).Some?
    ensures Decode(EncodeByte(b) + rest) == Some([b] + Decode(rest).value)
  {
  }

  lemma LastBack(seg: Bytes, rest: Bytes)
    requires seg != []
    ensures seg[..|seg| - 1] + ([seg[|seg| - 1]] + rest) == seg + rest
  {
  }

  lemma {:induction false} DecodeEncoded(seg: Bytes, rest: Bytes)
    requires Decode(rest).Some?
    ensures Decode(Encoded(seg) + rest) == Some(seg + Decode(rest).value)
  {
    if seg == [] {
      assert Encoded(seg) + rest == rest;
      assert seg + Decode(rest).value == Decode(rest).value;
    } else {
      var n := |seg| - 1;
      DecodeByte(seg[n], rest);
      DecodeEncoded(seg[..n], EncodeByte(seg[n]) + rest);
      assert Encoded(seg) + rest == Encoded(seg[..n]) + (EncodeByte(seg[n]) + rest);
      LastBack(seg, Decode(rest).value);
    }
  }

  lemma DecodeSlash(rest: Bytes)
    requires Decode(rest).Some?
    ensures Decode([SLASH] + rest) == Some([SLASH] + Decode(rest).value)
  {
  }

  lemma {:induction false} DecodeJoined(segs: seq<Bytes>, rest: Bytes)
    requires segs != [] && Decode(rest).Some?
    ensures Decode(Join(EncodeAll(segs)) + rest) == Some(Join(segs) + Decode(rest).value)
  {
    var k := |segs| - 1;
    DecodeEncoded(segs[k], rest);
    if k > 0 {
      var tail := Encoded(segs[k]) + rest;
      DecodeSlash(tail);
      DecodeJoined(segs[..k], [SLASH] + tail);
      JoinLast(segs, rest, Decode(rest).value);
    }
  }

  lemma JoinLast(segs: seq<Bytes>, rest: Bytes, decoded: Bytes)
    requires |segs| > 1
    ensures var k := |segs| - 1;
            && Join(EncodeAll(segs)) + rest == Join(EncodeAll(segs[..k])) + ([SLASH] + (Encoded(segs[k]) + rest))
            && Join(segs) + decoded == Join(segs[..k]) + ([SLASH] + (segs[k] + decoded))
  {
    var k := |segs| - 1;
    assert EncodeAll(segs)[..k] == EncodeAll(segs[..k]);
    Reassociate(Join(EncodeAll(segs[..k])), [SLASH], Encoded(segs[k]), rest);
    Reassociate(Join(segs[..k]), [SLASH], segs[k], decoded);
  }

  lemma Reassociate(a: Bytes, b: Bytes, c: Bytes, d: Bytes)
    ensures (a + b + c) + d == a + (b + (c + d))
  {
  }

  // Decoding gives the remote path back ...
  lemma EncodeRoundTrip(path: Bytes)
    ensures Decode(EncodePathSegments(path)) == Some(path)
  {
    var segs := Split(path);
    DecodeJoined(segs, []);
    assert Join(EncodeAll(segs)) + [] == Join(EncodeAll(segs));
    assert path + [] == path;
  }

  // ... so two remote paths never share a URL path.
  lemma EncodeInjective(a: Bytes, b: Bytes)
    requires EncodePathSegments(a) == EncodePathSegments(b)
    ensures a == b
  {
    EncodeRoundTrip(a);
    EncodeRoundTrip(b);
  }

  predicate UrlByte(b: Byte) {
    Unreserved(b) || b == PERCENT || b == SLASH
  }

  function Slashes(s: Bytes): nat {
    if s == [] then 0 else Slashes(s[..|s| - 1]) + if s[|s| - 1] == SLASH then 1 else 0
  }

  lemma {:induction false} SlashesConcat(a: Bytes, b: Bytes)
    ensures Slashes(a + b) == Slashes(a) + Slashes(b)
  {
    if b == [] {
      assert a + b == a;
    } else {
      assert (a + b)[..|a + b| - 1] == a + b[..|b| - 1];
      SlashesConcat(a, b[..|b| - 1]);
    }
  }

  lemma {:induction false} EncodedAlphabet(seg: Bytes)
    ensures forall i :: 0 <= i < |Encoded(seg)| ==> Unreserved(Encoded(seg)[i]) || Encoded(seg)[i] == PERCENT
    ensures Slashes(Encoded(seg)) == 0
  {
    if seg != [] {
      var n := |seg| - 1;
      EncodedAlphabet(seg[..n]);
      var e := EncodeByte(seg[n]);
      NoSlash(e);
      SlashesConcat(Encoded(seg[..n]), e);
    }
  }

  // The slashes of the URL path are those between the segments, and no other
  // byte outside the unreserved set and "%" occurs.
  lemma {:induction false} JoinedAlphabet(segs: seq<Bytes>)
    requires segs != []
    ensures forall i :: 0 <= i < |Join(EncodeAll(segs))| ==> UrlByte(Join(EncodeAll(segs))[i])
    ensures Slashes(Join(EncodeAll(segs))) == |segs| - 1
  {
    var k := |segs| - 1;
    EncodedAlphabet(segs[k]);
    if k > 0 {
      JoinedAlphabet(segs[..k]);
      assert EncodeAll(segs)[..k] == EncodeAll(segs[..k]);
      SlashesConcat(Join(EncodeAll(segs[..k])), [SLASH]);
      assert Slashes([SLASH]) == 1 by { assert [SLASH][..0] == []; }
      SlashesConcat(Join(EncodeAll(segs[..k])) + [SLASH], Encoded(segs[k]));
    }
  }

  lemma {:induction false} JoinSlashes(segs: seq<Bytes>)
    requires segs != [] && forall i :: 0 <= i < |segs| ==> SLASH !in segs[i]
    ensures Slashes(Join(segs)) == |segs| - 1
  {
    var k := |segs| - 1;
    NoSlash(segs[k]);
    if k > 0 {
      JoinSlashes(segs[..k]);
      assert Slashes([SLASH]) == 1 by { assert [SLASH][..0] == []; }
      SlashesConcat(Join(segs[..k]), [SLASH]);
      SlashesConcat(Join(segs[..k]) + [SLASH], segs[k]);
    }
  }

  lemma {:induction false} NoSlash(s: Bytes)
    requires SLASH !in s
    ensures Slashes(s) == 0
  {
    if s != [] {
      NoSlash(s[..|s| - 1]);
    }
  }

  lemma UrlAlphabet(path: Bytes)
    ensures forall i :: 0 <= i < |EncodePathSegments(path)| ==> UrlByte(EncodePathSegments(path)[i])
    ensures Slashes(EncodePathSegments(path)) == Slashes(path)
  {
    JoinedAlphabet(Split(path));
    JoinSlashes(Split(path));
  }
}
