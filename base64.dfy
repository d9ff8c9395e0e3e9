/**
 * The base64 encoding of section 4 of RFC 4648 (standard alphabet, `=` padding), as computed by
 * Python's `base64.b64encode`, together with a canonical decoder used as its partner.
 */
module Base64 {
  import opened Wrappers
  import opened Bytes

  /** The padding character of section 4 of RFC 4648. */
  const Pad: char := '='

  /** Table 1 of RFC 4648: the character for a 6-bit value. */
  function Sextet(k: int): (c: char)
    requires 0 <= k < 64
    ensures IsAlphabet(c)
  {
    if k < 26 then ('A' as int + k) as char
    else if k < 52 then ('a' as int + (k - 26)) as char
    else if k < 62 then ('0' as int + (k - 52)) as char
    else if k == 62 then '+'
    else '/'
  }

  predicate IsAlphabet(c: char) {
    ('A' <= c <= 'Z') || ('a' <= c <= 'z') || ('0' <= c <= '9') || c == '+' || c == '/'
  }

  /** The inverse of Table 1 of RFC 4648. */
  function SextetValue(c: char): (k: int)
    requires IsAlphabet(c)
    ensures 0 <= k < 64 && Sextet(k) == c
  {
    if 'A' <= c <= 'Z' then c as int - 'A' as int
    else if 'a' <= c <= 'z' then c as int - 'a' as int + 26
    else if '0' <= c <= '9' then c as int - '0' as int + 52
    else if c == '+' then 62
    else 63
  }

  lemma SextetInjective(k: int)
    requires 0 <= k < 64
    ensures SextetValue(Sextet(k)) == k
  {
  }

  /** Three octets become four characters (section 4 of RFC 4648). */
  function EncodeTriple(b0: uint8, b1: uint8, b2: uint8): string {
    [Sextet(b0 / 4), Sextet((b0 % 4) * 16 + b1 / 16), Sextet((b1 % 16) * 4 + b2 / 64), Sextet(b2 % 64)]
  }

  /** A final quantum of two octets: three characters and one `=`. */
  function EncodePair(b0: uint8, b1: uint8): string {
    [Sextet(b0 / 4), Sextet((b0 % 4) * 16 + b1 / 16), Sextet((b1 % 16) * 4), Pad]
  }

  /** A final quantum of one octet: two characters and `==`. */
  function EncodeSingle(b0: uint8): string {
    [Sextet(b0 / 4), Sextet((b0 % 4) * 16), Pad, Pad]
  }

  /** `base64.b64encode`, read as text. */
  function Encode(s: seq<uint8>): (r: string)
    ensures |r| == 4 * ((|s| + 2) / 3)
    ensures forall i :: 0 <= i < |r| ==> IsAlphabet(r[i]) || r[i] == Pad
    decreases |s|
  {
    if |s| == 0 then ""
    else if |s| == 1 then EncodeSingle(s[0])
    else if |s| == 2 then EncodePair(s[0], s[1])
    else EncodeTriple(s[0], s[1], s[2]) + Encode(s[3..])
  }

  /**
   * One quantum of four characters. A padded final quantum is accepted only when the bits
   * after its last octet are zero, as section 3.5 of RFC 4648 has encoders leave them, so
   * every text accepted is the encoding of what it decodes to.
   */
  function DecodeQuad(c0: char, c1: char, c2: char, c3: char): Option<seq<uint8>> {
    if !IsAlphabet(c0) || !IsAlphabet(c1) then None
    else
      var k0, k1 := SextetValue(c0), SextetValue(c1);
      if c2 == Pad && c3 == Pad then
        if k1 % 16 != 0 then None else Some([k0 * 4 + k1 / 16])
      else if !IsAlphabet(c2) then None
      else
        var k2 := SextetValue(c2);
        if c3 == Pad then
          if k2 % 4 != 0 then None else Some([k0 * 4 + k1 / 16, (k1 % 16) * 16 + k2 / 4])
        else if !IsAlphabet(c3) then None
        else
          var k3 := SextetValue(c3);
          Some([k0 * 4 + k1 / 16, (k1 % 16) * 16 + k2 / 4, (k2 % 4) * 64 + k3])
  }

  /** Decoding of padded base64 text; padding is accepted only in the final quantum. */
  function Decode(t: string): Option<seq<uint8>>
    decreases |t|
  {
    if |t| == 0 then Some([])
    else if |t| < 4 then None
    else
      match DecodeQuad(t[0], t[1], t[2], t[3])
      case None => None
      case Some(bytes) =>
        if |bytes| < 3 then (if |t| == 4 then Some(bytes) else None)
        else
          match Decode(t[4..])
          case None => None
          case Some(rest) => Some(bytes + rest)
  }

  /** Splitting `a * m + r` back into quotient and remainder, for the bit-group widths used here. */
  lemma DivMod16(a: int, r: int)
    requires 0 <= a && 0 <= r < 16
    ensures (a * 16 + r) / 16 == a && (a * 16 + r) % 16 == r
  {
  }

  lemma DivMod4(a: int, r: int)
    requires 0 <= a && 0 <= r < 4
    ensures (a * 4 + r) / 4 == a && (a * 4 + r) % 4 == r
  {
  }

  lemma DecodeTriple(b0: uint8, b1: uint8, b2: uint8)
    ensures var e := EncodeTriple(b0, b1, b2); DecodeQuad(e[0], e[1], e[2], e[3]) == Some([b0, b1, b2])
  {
    var k0, k1, k2, k3 := b0 / 4, (b0 % 4) * 16 + b1 / 16, (b1 % 16) * 4 + b2 / 64, b2 % 64;
    var e := EncodeTriple(b0, b1, b2);
    assert e == [Sextet(k0), Sextet(k1), Sextet(k2), Sextet(k3)];
    SextetInjective(k0);
    SextetInjective(k1);
    SextetInjective(k2);
    SextetInjective(k3);
    DivMod16(b0 % 4, b1 / 16);
    DivMod4(b1 % 16, b2 / 64);
    assert k0 * 4 + k1 / 16 == b0;
    assert (k1 % 16) * 16 + k2 / 4 == b1;
    assert (k2 % 4) * 64 + k3 == b2;
  }

  lemma DecodePair(b0: uint8, b1: uint8)
    ensures var e := EncodePair(b0, b1); DecodeQuad(e[0], e[1], e[2], e[3]) == Some([b0, b1])
  {
    var k0, k1, k2 := b0 / 4, (b0 % 4) * 16 + b1 / 16, (b1 % 16) * 4;
    var e := EncodePair(b0, b1);
    assert e == [Sextet(k0), Sextet(k1), Sextet(k2), Pad];
    SextetInjective(k0);
    SextetInjective(k1);
    SextetInjective(k2);
    DivMod16(b0 % 4, b1 / 16);
    DivMod4(b1 % 16, 0);
    assert k0 * 4 + k1 / 16 == b0;
    assert (k1 % 16) * 16 + k2 / 4 == b1;
  }

  lemma DecodeSingle(b0: uint8)
    ensures var e := EncodeSingle(b0); DecodeQuad(e[0], e[1], e[2], e[3]) == Some([b0])
  {
    var k0, k1 := b0 / 4, (b0 % 4) * 16;
    SextetInjective(k0);
    SextetInjective(k1);
    DivMod16(b0 % 4, 0);
    assert k0 * 4 + k1 / 16 == b0;
  }

  /** Decoding a full quantum followed by more text that decodes. */
  lemma {:induction false} DecodeFullQuantum(q: string, rest: string, bytes: seq<uint8>, more: seq<uint8>)
    requires |q| == 4 && DecodeQuad(q[0], q[1], q[2], q[3]) == Some(bytes) && |bytes| == 3
    requires Decode(rest) == Some(more)
    ensures Decode(q + rest) == Some(bytes + more)
  {
    var t := q + rest;
    assert t[0] == q[0] && t[1] == q[1] && t[2] == q[2] && t[3] == q[3];
    assert t[4..] == rest;
  }

  /** One step of the round trip: a leading full quantum, then the rest by hypothesis. */
  lemma {:induction false} DecodeEncodeStep(s: seq<uint8>)
    requires |s| >= 3 && Decode(Encode(s[3..])) == Some(s[3..])
    ensures Decode(Encode(s)) == Some(s)
  {
    var q, bytes := LeadingQuantum(s);
    DecodeFullQuantum(q, Encode(s[3..]), bytes, s[3..]);
  }

  /** The first quantum of the encoding of `s` and the three octets it decodes to. */
  lemma LeadingQuantum(s: seq<uint8>) returns (q: string, bytes: seq<uint8>)
    requires |s| >= 3
    ensures |q| == 4 && DecodeQuad(q[0], q[1], q[2], q[3]) == Some(bytes) && |bytes| == 3
    ensures Encode(s) == q + Encode(s[3..]) && s == bytes + s[3..]
  {
    q, bytes := EncodeTriple(s[0], s[1], s[2]), [s[0], s[1], s[2]];
    DecodeTriple(s[0], s[1], s[2]);
    assert s == bytes + s[3..];
  }

  /** Decoding undoes `b64encode`: the encoding loses nothing. */
  lemma {:induction false} DecodeEncode(s: seq<uint8>)
    ensures Decode(Encode(s)) == Some(s)
    decreases |s|
  {
    if |s| == 1 {
      DecodeSingle(s[0]);
      assert s == [s[0]];
    } else if |s| == 2 {
      DecodePair(s[0], s[1]);
      assert s == [s[0], s[1]];
    } else if |s| >= 3 {
      DecodeEncode(s[3..]);
      DecodeEncodeStep(s);
    }
  }

  /** A quantum that decodes is the encoding of the octets it decodes to. */
  lemma DecodeQuadCanonical(c0: char, c1: char, c2: char, c3: char, bytes: seq<uint8>)
    requires DecodeQuad(c0, c1, c2, c3) == Some(bytes)
    ensures 1 <= |bytes| <= 3 && (|bytes| < 3 <==> c3 == Pad)
    ensures |bytes| == 1 ==> EncodeSingle(bytes[0]) == [c0, c1, c2, c3]
    ensures |bytes| == 2 ==> EncodePair(bytes[0], bytes[1]) == [c0, c1, c2, c3]
    ensures |bytes| == 3 ==> EncodeTriple(bytes[0], bytes[1], bytes[2]) == [c0, c1, c2, c3]
  {
    if c2 == Pad && c3 == Pad {
      CanonicalSingle(c0, c1, bytes[0]);
    } else if c3 == Pad {
      CanonicalPair(c0, c1, c2, bytes[0], bytes[1]);
    } else {
      CanonicalTriple(c0, c1, c2, c3, bytes[0], bytes[1], bytes[2]);
    }
  }

  lemma CanonicalSingle(c0: char, c1: char, b0: uint8)
    requires IsAlphabet(c0) && IsAlphabet(c1) && SextetValue(c1) % 16 == 0
    requires b0 == SextetValue(c0) * 4 + SextetValue(c1) / 16
    ensures EncodeSingle(b0) == [c0, c1, Pad, Pad]
  {
    var k0, k1 := SextetValue(c0), SextetValue(c1);
    DivMod4(k0, k1 / 16);
    assert b0 / 4 == k0 && (b0 % 4) * 16 == k1;
  }

  lemma CanonicalPair(c0: char, c1: char, c2: char, b0: uint8, b1: uint8)
    requires IsAlphabet(c0) && IsAlphabet(c1) && IsAlphabet(c2) && SextetValue(c2) % 4 == 0
    requires b0 == SextetValue(c0) * 4 + SextetValue(c1) / 16
    requires b1 == (SextetValue(c1) % 16) * 16 + SextetValue(c2) / 4
    ensures EncodePair(b0, b1) == [c0, c1, c2, Pad]
  {
    var k0, k1, k2 := SextetValue(c0), SextetValue(c1), SextetValue(c2);
    DivMod4(k0, k1 / 16);
    DivMod16(k1 % 16, k2 / 4);
    assert b0 / 4 == k0 && (b0 % 4) * 16 + b1 / 16 == k1;
    assert (b1 % 16) * 4 == k2;
  }

  lemma CanonicalTriple(c0: char, c1: char, c2: char, c3: char, b0: uint8, b1: uint8, b2: uint8)
    requires IsAlphabet(c0) && IsAlphabet(c1) && IsAlphabet(c2) && IsAlphabet(c3)
    requires b0 == SextetValue(c0) * 4 + SextetValue(c1) / 16
    requires b1 == (SextetValue(c1) % 16) * 16 + SextetValue(c2) / 4
    requires b2 == (SextetValue(c2) % 4) * 64 + SextetValue(c3)
    ensures EncodeTriple(b0, b1, b2) == [c0, c1, c2, c3]
  {
    TripleSextets(SextetValue(c0), SextetValue(c1), SextetValue(c2), SextetValue(c3));
  }

  /** Regrouping four sextets into three octets and back again gives the same sextets. */
  lemma TripleSextets(k0: int, k1: int, k2: int, k3: int)
    requires 0 <= k0 < 64 && 0 <= k1 < 64 && 0 <= k2 < 64 && 0 <= k3 < 64
    ensures var b0, b1, b2 := k0 * 4 + k1 / 16, (k1 % 16) * 16 + k2 / 4, (k2 % 4) * 64 + k3;
      b0 / 4 == k0 && (b0 % 4) * 16 + b1 / 16 == k1 && (b1 % 16) * 4 + b2 / 64 == k2 && b2 % 64 == k3
  {
    DivMod4(k0, k1 / 16);
    DivMod16(k1 % 16, k2 / 4);
    DivMod64(k2 % 4, k3);
  }

  lemma DivMod64(a: int, r: int)
    requires 0 <= a && 0 <= r < 64
    ensures (a * 64 + r) / 64 == a && (a * 64 + r) % 64 == r
  {
  }

  /** Every text that decodes is exactly the encoding of its octets: the decoder accepts no other spelling. */
  lemma {:induction false} EncodeDecode(t: string, o: seq<uint8>)
    requires Decode(t) == Some(o)
    ensures Encode(o) == t
    decreases |t|
  {
    if |t| > 0 {
      var bytes, rest := DecodeLeading(t, o);
      if |bytes| == 3 {
        EncodeDecode(t[4..], rest);
      }
      EncodeLeading(t, bytes, rest);
    }
  }

  /** A non-empty text that decodes starts with a quantum; only a full quantum is followed by more. */
  lemma DecodeLeading(t: string, o: seq<uint8>) returns (bytes: seq<uint8>, rest: seq<uint8>)
    requires |t| > 0 && Decode(t) == Some(o)
    ensures |t| >= 4 && DecodeQuad(t[0], t[1], t[2], t[3]) == Some(bytes) && o == bytes + rest
    ensures |bytes| < 3 ==> |t| == 4 && rest == []
    ensures |bytes| >= 3 ==> Decode(t[4..]) == Some(rest)
  {
    bytes := DecodeQuad(t[0], t[1], t[2], t[3]).value;
    if |bytes| < 3 {
      rest := [];
      assert o == bytes + rest;
    } else {
      rest := Decode(t[4..]).value;
    }
  }

  /** Re-encoding a leading quantum and the encoding of the rest gives the text back. */
  lemma EncodeLeading(t: string, bytes: seq<uint8>, rest: seq<uint8>)
    requires |t| >= 4 && DecodeQuad(t[0], t[1], t[2], t[3]) == Some(bytes)
    requires |bytes| < 3 ==> |t| == 4 && rest == []
    requires |bytes| >= 3 ==> Encode(rest) == t[4..]
    ensures Encode(bytes + rest) == t
  {
    DecodeQuadCanonical(t[0], t[1], t[2], t[3], bytes);
    if |bytes| < 3 {
      assert bytes + rest == bytes && t == [t[0], t[1], t[2], t[3]];
    } else {
      EncodeFullLeading(t, bytes, rest);
    }
  }

  lemma EncodeFullLeading(t: string, bytes: seq<uint8>, rest: seq<uint8>)
    requires |t| >= 4 && |bytes| == 3 && EncodeTriple(bytes[0], bytes[1], bytes[2]) == [t[0], t[1], t[2], t[3]]
    requires Encode(rest) == t[4..]
    ensures Encode(bytes + rest) == t
  {
    var o := bytes + rest;
    assert t[..4] == [t[0], t[1], t[2], t[3]];
    assert o[0] == bytes[0] && o[1] == bytes[1] && o[2] == bytes[2] && o[3..] == rest;
    assert t == t[..4] + t[4..];
  }

  /** `Zh==` would decode to the octet of `Zg==` with a stray bit set; it is rejected. */
  lemma NonCanonicalRejected()
    ensures Decode("Zh==") == None
  {
    assert SextetValue('h') == 33;
  }

  /** The test vectors of section 10 of RFC 4648 (the octets of "f", "fo", ..., "foobar"). */
  lemma RfcVectors()
    ensures Encode([]) == ""
    ensures Encode([0x66]) == "Zg=="
    ensures Encode([0x66, 0x6F]) == "Zm8="
    ensures Encode([0x66, 0x6F, 0x6F]) == "Zm9v"
    ensures Encode([0x66, 0x6F, 0x6F, 0x62]) == "Zm9vYg=="
    ensures Encode([0x66, 0x6F, 0x6F, 0x62, 0x61]) == "Zm9vYmE="
    ensures Encode([0x66, 0x6F, 0x6F, 0x62, 0x61, 0x72]) == "Zm9vYmFy"
  {
    FooQuanta();
    BarQuanta();
    assert [0x66, 0x6F, 0x6F][3..] == [];
    assert [0x66, 0x6F, 0x6F, 0x62][3..] == [0x62];
    assert [0x66, 0x6F, 0x6F, 0x62, 0x61][3..] == [0x62, 0x61];
    assert [0x66, 0x6F, 0x6F, 0x62, 0x61, 0x72][3..] == [0x62, 0x61, 0x72];
    assert [0x62, 0x61, 0x72][3..] == [];
  }

  /** The quanta of "f", "fo" and "foo". */
  lemma FooQuanta()
    ensures EncodeSingle(0x66) == "Zg==" && EncodePair(0x66, 0x6F) == "Zm8=" && EncodeTriple(0x66, 0x6F, 0x6F) == "Zm9v"
  {
    assert 0x66 / 4 == 25 && (0x66 % 4) * 16 == 32 && (0x66 % 4) * 16 + 0x6F / 16 == 38;
    assert (0x6F % 16) * 4 == 60 && (0x6F % 16) * 4 + 0x6F / 64 == 61 && 0x6F % 64 == 47;
    assert Sextet(25) == 'Z' && Sextet(32) == 'g' && Sextet(38) == 'm' && Sextet(60) == '8';
    assert Sextet(61) == '9' && Sextet(47) == 'v';
  }

  /** The quanta of "b", "ba" and "bar". */
  lemma BarQuanta()
    ensures EncodeSingle(0x62) == "Yg==" && EncodePair(0x62, 0x61) == "YmE=" && EncodeTriple(0x62, 0x61, 0x72) == "YmFy"
  {
    assert 0x62 / 4 == 24 && (0x62 % 4) * 16 == 32 && (0x62 % 4) * 16 + 0x61 / 16 == 38;
    assert (0x61 % 16) * 4 == 4 && (0x61 % 16) * 4 + 0x72 / 64 == 5 && 0x72 % 64 == 50;
    assert Sextet(24) == 'Y' && Sextet(32) == 'g' && Sextet(38) == 'm' && Sextet(4) == 'E';
    assert Sextet(5) == 'F' && Sextet(50) == 'y';
  }

  /** Different octet strings have different encodings. */
  lemma EncodeInjective(s: seq<uint8>, u: seq<uint8>)
    requires Encode(s) == Encode(u)
    ensures s == u
  {
    DecodeEncode(s);
    DecodeEncode(u);
  }
}
