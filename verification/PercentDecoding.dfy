/** Percent decoding of request paths (services/dev-server/src/api.rs, `urlencoding_decode`, and
    services/dev-server/src/dist.rs, `percent_decode`), at byte level: the final repair of invalid
    UTF-8 is not modelled.  Escapes are those of section 2.1 of RFC 3986. */
module PercentDecoding {
  import opened Wrappers

  type Byte = bv8
  type Bytes = seq<Byte>

  const PERCENT: Byte := 0x25

  function HexVal(c: Byte): Option<Byte> {
    if 0x30 <= c <= 0x39 then Some(c - 0x30)
    else if 0x61 <= c <= 0x66 then Some(c - 0x61 + 10)
    else if 0x41 <= c <= 0x46 then Some(c - 0x41 + 10)
    else None
  }

  /** Whether a complete escape begins at index 0. */
  predicate EscapeFirst(s: Bytes) {
    |s| > 2 && s[0] == PERCENT && HexVal(s[1]).Some? && HexVal(s[2]).Some?
  }

  function Unescape(s: Bytes): Byte
    requires EscapeFirst(s)
  {
    (HexVal(s[1]).value << 4) | HexVal(s[2]).value
  }

  function Decode(s: Bytes): (out: Bytes)
    ensures |out| <= |s|
  {
    if s == [] then []
    else if EscapeFirst(s) then [Unescape(s)] + Decode(s[3..])
    else [s[0]] + Decode(s[1..])
  }

  function Code(c: char): Byte
    requires c as int < 256
  {
    c as int as Byte
  }

  const LOWER := "0123456789abcdef"
  const UPPER := "0123456789ABCDEF"

  /** The digits and their values, in both cases. */
  lemma HexDigits(n: nat)
    requires n < 16
    ensures HexVal(Code(LOWER[n])) == Some(n as Byte) && HexVal(Code(UPPER[n])) == Some(n as Byte)
  {
    LowerDigits(n);
    UpperDigits(n);
  }

  lemma LowerDigits(n: nat)
    requires n < 16
    ensures HexVal(Code(LOWER[n])) == Some(n as Byte)
  {
    if n < 8 {
    } else {
    }
  }

  lemma UpperDigits(n: nat)
    requires n < 16
    ensures HexVal(Code(UPPER[n])) == Some(n as Byte)
  {
    if n < 8 {
    } else {
    }
  }

  /** Nothing else is a digit. */
  lemma OnlyHexDigits(c: Byte) returns (n: nat)
    requires HexVal(c).Some?
    ensures n < 16 && (c == Code(LOWER[n]) || c == Code(UPPER[n]))
  {
    var v := HexVal(c).value;
    assert v < 16;
    n := v as int;
    HexDigits(n);
    assert c < 0x60 || c >= 0x61;
    SameValueSameDigit(c, Code(LOWER[n]), Code(UPPER[n]));
  }

  lemma SameValueSameDigit(c: Byte, lower: Byte, upper: Byte)
    requires HexVal(c).Some? && HexVal(lower) == HexVal(c) && HexVal(upper) == HexVal(c)
    requires (lower < 0x3a || lower >= 0x61) && upper < 0x60
    ensures c == lower || c == upper
  {
  }

  /** The byte of an escape is its first digit times sixteen plus its second. */
  lemma EscapeValue(hi: Byte, lo: Byte)
    requires HexVal(hi).Some? && HexVal(lo).Some?
    ensures Decode([Code('%'), hi, lo]) == [HexVal(hi).value * 16 + HexVal(lo).value]
  {
  }

  // ----- the two loops -----

  lemma DecodeAt(bytes: Bytes, i: nat)
    requires i < |bytes|
    ensures EscapeFirst(bytes[i..]) <==>
            bytes[i] == PERCENT && i + 2 < |bytes| && HexVal(bytes[i + 1]).Some? && HexVal(bytes[i + 2]).Some?
    ensures Decode(bytes[i..]) ==
            if EscapeFirst(bytes[i..])
            then [(HexVal(bytes[i + 1]).value << 4) | HexVal(bytes[i + 2]).value] + Decode(bytes[i + 3..])
            else [bytes[i]] + Decode(bytes[i + 1..])
  {
    hide HexVal;
    assert bytes[i..][1..] == bytes[i + 1..];
    assert |bytes| > i + 2 ==> bytes[i..][3..] == bytes[i + 3..];
  }

  lemma Shift(out: Bytes, x: Byte, rest: Bytes)
    ensures out + ([x] + rest) == (out + [x]) + rest
  {
  }

  method UrlencodingDecode(bytes: Bytes) returns (out: Bytes)
    ensures out == Decode(bytes)
  {
    hide Decode, EscapeFirst, HexVal;
    out := [];
    var i := 0;
    DecodeNothing(bytes);
    while i < |bytes|
      invariant i <= |bytes|
      invariant out + Decode(bytes[i..]) == Decode(bytes)
    {
      DecodeAt(bytes, i);
      if bytes[i] == PERCENT && i + 2 < |bytes| {
        var hi, lo := HexVal(bytes[i + 1]), HexVal(bytes[i + 2]);
        if hi.Some? && lo.Some? {
          Shift(out, (hi.value << 4) | lo.value, Decode(bytes[i + 3..]));
          out := out + [(hi.value << 4) | lo.value];
          i := i + 3;
          continue;
        }
      }
      Shift(out, bytes[i], Decode(bytes[i + 1..]));
      out := out + [bytes[i]];
      i := i + 1;
    }
    DecodeNothing(bytes);
  }

  lemma DecodeNothing(bytes: Bytes)
    ensures bytes[0..] == bytes && Decode(bytes[|bytes|..]) == []
  {
  }

  /** The static-file server's copy first looks for a `%` at all. */
  method PercentDecode(input: Bytes) returns (out: Bytes)
    ensures out == Decode(input)
  {
    if PERCENT !in input {
      UnchangedIff(input);
      return input;
    }
    out := UrlencodingDecode(input);
  }

  /** Decoding changes a string exactly when a complete escape begins somewhere in it. */
  lemma {:induction false} UnchangedIff(s: Bytes)
    ensures Decode(s) == s <==> forall i :: 0 <= i < |s| ==> !EscapeFirst(s[i..])
  {
    if s == [] {
    } else {
      assert s[0..] == s;
      forall i | 0 <= i < |s[1..]| ensures s[1..][i..] == s[i + 1..] {}
      UnchangedIff(s[1..]);
      if EscapeFirst(s) {
        assert |Decode(s)| < |s|;
      } else {
        assert Decode(s)[1..] == Decode(s[1..]);
        if Decode(s) == s {
          forall i | 0 <= i < |s| ensures !EscapeFirst(s[i..]) {
            assert i > 0 ==> s[i..] == s[1..][i - 1..];
          }
        }
      }
    }
  }

  // ----- encodings -----

  /** One byte as written by an encoder: as itself, or escaped with either case for each digit. */
  datatype Piece = Plain(byte: Byte) | Escaped(byte: Byte, upperHi: bool, upperLo: bool)

  function HexDigit(nibble: Byte, upper: bool): (c: Byte)
    requires nibble < 16
    ensures HexVal(c) == Some(nibble)
  {
    if nibble < 10 then 0x30 + nibble else if upper then 0x41 + (nibble - 10) else 0x61 + (nibble - 10)
  }

  function EncodePiece(p: Piece): Bytes {
    match p
    case Plain(b) => [b]
    case Escaped(b, upperHi, upperLo) => [PERCENT, HexDigit(b >> 4, upperHi), HexDigit(b & 15, upperLo)]
  }

  function Encode(ps: seq<Piece>): Bytes {
    if ps == [] then [] else EncodePiece(ps[0]) + Encode(ps[1..])
  }

  function Values(ps: seq<Piece>): Bytes {
    seq(|ps|, i requires 0 <= i < |ps| => ps[i].byte)
  }

  /** A `%` written as itself must not happen to start a complete escape. */
  ghost predicate Unambiguous(ps: seq<Piece>) {
    forall i :: 0 <= i < |ps| && ps[i] == Plain(PERCENT) ==> !EscapeFirst(Encode(ps[i..]))
  }

  lemma NibblesOfByte(b: Byte)
    ensures ((b >> 4) << 4) | (b & 15) == b
  {
  }

  /** Decoding inverts every unambiguous encoding; in particular every one whose plain bytes are
      never `%`. */
  lemma {:induction false} DecodeInvertsEncode(ps: seq<Piece>)
    requires Unambiguous(ps)
    ensures Decode(Encode(ps)) == Values(ps)
  {
    if ps == [] {
    } else {
      var s, rest := Encode(ps), Encode(ps[1..]);
      assert ps[0..] == ps;
      forall i | 0 <= i < |ps[1..]| && ps[1..][i] == Plain(PERCENT)
        ensures !EscapeFirst(Encode(ps[1..][i..]))
      {
        assert ps[1..][i..] == ps[i + 1..];
        assert ps[i + 1] == Plain(PERCENT);
      }
      DecodeInvertsEncode(ps[1..]);
      assert Values(ps) == [ps[0].byte] + Values(ps[1..]);
      match ps[0] {
        case Plain(b) =>
          assert s[1..] == rest;
        case Escaped(b, upperHi, upperLo) =>
          NibblesOfByte(b);
          assert EscapeFirst(s) && s[3..] == rest;
      }
    }
  }

  lemma TailUnambiguous(ps: seq<Piece>)
    requires ps != []
    ensures Unambiguous(ps) <==> Unambiguous(ps[1..]) && !(ps[0] == Plain(PERCENT) && EscapeFirst(Encode(ps)))
  {
    hide EscapeFirst, Encode;
    assert ps[0..] == ps;
    forall i | 0 <= i < |ps[1..]| ensures ps[1..][i..] == ps[i + 1..] && ps[1..][i] == ps[i + 1] {}
    if Unambiguous(ps) {
      forall i | 0 <= i < |ps[1..]| && ps[1..][i] == Plain(PERCENT) ensures !EscapeFirst(Encode(ps[1..][i..])) {
        assert ps[i + 1] == Plain(PERCENT);
      }
    }
    if Unambiguous(ps[1..]) && !(ps[0] == Plain(PERCENT) && EscapeFirst(Encode(ps))) {
      forall i | 0 <= i < |ps| && ps[i] == Plain(PERCENT) ensures !EscapeFirst(Encode(ps[i..])) {
        assert i > 0 ==> ps[1..][i - 1] == Plain(PERCENT) && ps[1..][i - 1..] == ps[i..];
      }
    }
  }

  /** Hex digits are never the start of an escaped piece: a complete escape that begins with a plain
      `%` is made of three plain pieces. */
  lemma MergedPieces(ps: seq<Piece>)
    requires ps != [] && ps[0] == Plain(PERCENT) && EscapeFirst(Encode(ps))
    ensures |ps| >= 3 && Encode(ps)[3..] == Encode(ps[3..])
  {
    var s := Encode(ps);
    assert s[1..] == Encode(ps[1..]);
    assert ps[1..] != [] && ps[1].Plain? && s[1..] == [ps[1].byte] + Encode(ps[1..][1..]);
    assert ps[1..][1..] == ps[2..];
    assert s[2..] == s[1..][1..] == Encode(ps[2..]);
    assert ps[2..] != [] && ps[2].Plain? && s[2..] == [ps[2].byte] + Encode(ps[2..][1..]);
    assert ps[2..][1..] == ps[3..];
    assert s[3..] == s[2..][1..];
  }

  /** Decoding never yields more bytes than pieces were written, and fewer if some plain `%` starts
      a complete escape. */
  lemma {:induction false} AmbiguityShortens(ps: seq<Piece>)
    ensures |Decode(Encode(ps))| <= |ps|
    ensures !Unambiguous(ps) ==> |Decode(Encode(ps))| < |ps|
    decreases |ps|
  {
    if ps == [] {
    } else {
      var s := Encode(ps);
      TailUnambiguous(ps);
      AmbiguityShortens(ps[1..]);
      if ps[0].Escaped? {
        assert EscapeFirst(s) && s[3..] == Encode(ps[1..]);
      } else if EscapeFirst(s) {
        MergedPieces(ps);
        AmbiguityShortens(ps[3..]);
      } else {
        assert s[1..] == Encode(ps[1..]);
      }
    }
  }

  /** Decoding inverts an encoding if and only if no plain `%` in it starts a complete escape. */
  lemma DecodeInvertsIff(ps: seq<Piece>)
    ensures Decode(Encode(ps)) == Values(ps) <==> Unambiguous(ps)
  {
    AmbiguityShortens(ps);
    if Unambiguous(ps) {
      DecodeInvertsEncode(ps);
    }
  }

  lemma EscapedPercentIsUnambiguous(ps: seq<Piece>)
    requires Plain(PERCENT) !in ps
    ensures Unambiguous(ps)
  {
  }

  /** In particular, decoding inverts every encoding that escapes `%` itself. */
  lemma {:induction false} DecodeInvertsEscaping(ps: seq<Piece>)
    requires Plain(PERCENT) !in ps
    ensures Decode(Encode(ps)) == Values(ps)
  {
    EscapedPercentIsUnambiguous(ps);
    DecodeInvertsEncode(ps);
  }

  lemma DigitOfValue(c: Byte) returns (upper: bool)
    requires HexVal(c).Some?
    ensures HexVal(c).value < 16 && HexDigit(HexVal(c).value, upper) == c
  {
    upper := c < 0x60;
  }

  lemma ByteOfNibbles(h: Byte, l: Byte)
    requires h < 16 && l < 16
    ensures ((h << 4) | l) >> 4 == h && ((h << 4) | l) & 15 == l
  {
  }

  /** Conversely, every input is an unambiguous encoding of what it decodes to, malformed escapes
      included: decoding does nothing but read complete escapes. */
  lemma {:induction false} DecodeReadsAnEncoding(s: Bytes) returns (ps: seq<Piece>)
    ensures Unambiguous(ps) && Encode(ps) == s && Values(ps) == Decode(s)
  {
    if s == [] {
      return [];
    }
    var first, n;
    if EscapeFirst(s) {
      var upperHi := DigitOfValue(s[1]);
      var upperLo := DigitOfValue(s[2]);
      ByteOfNibbles(HexVal(s[1]).value, HexVal(s[2]).value);
      first, n := Escaped(Unescape(s), upperHi, upperLo), 3;
    } else {
      first, n := Plain(s[0]), 1;
    }
    var rest := DecodeReadsAnEncoding(s[n..]);
    ps := [first] + rest;
    assert ps[1..] == rest;
    assert EncodePiece(first) == s[..n];
    assert Encode(ps) == s[..n] + s[n..] == s;
    forall i | 0 <= i < |ps| && ps[i] == Plain(PERCENT) ensures !EscapeFirst(Encode(ps[i..])) {
      if i == 0 {
        assert ps[0..] == ps;
      } else {
        assert ps[i..] == rest[i - 1..];
        assert rest[i - 1] == Plain(PERCENT);
      }
    }
    assert Values(ps) == [first.byte] + Values(rest);
  }
}
