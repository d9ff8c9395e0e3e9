/**
 * UTF-8 encoding of section 3 of RFC 3629, as computed by Python's `str.encode("utf-8")`.
 * A Dafny `char` is a Unicode scalar value, so every string here has an encoding; the lone
 * surrogates a Python `str` may hold, which fail to encode, have no counterpart.
 */
module Utf8 {
  import opened Bytes

  /** The octets of one scalar value. */
  function EncodeChar(c: char): (r: seq<uint8>)
    ensures 1 <= |r| <= 4
    ensures |r| == 1 <==> c as int < 0x80
    ensures |r| == 1 ==> r[0] == c as int
    ensures |r| > 1 ==> forall i :: 0 <= i < |r| ==> r[i] >= 0x80
  {
    var v := c as int;
    if v < 0x80 then [v]
    else if v < 0x800 then [0xC0 + v / 0x40, 0x80 + v % 0x40]
    else if v < 0x1_0000 then [0xE0 + v / 0x1000, 0x80 + (v / 0x40) % 0x40, 0x80 + v % 0x40]
    else [0xF0 + v / 0x4_0000, 0x80 + (v / 0x1000) % 0x40, 0x80 + (v / 0x40) % 0x40, 0x80 + v % 0x40]
  }

  /** The octets of a string: the encodings of its characters, in order. */
  function Encode(s: string): (r: seq<uint8>)
    ensures |s| <= |r| <= 4 * |s|
    decreases |s|
  {
    if |s| == 0 then [] else EncodeChar(s[0]) + Encode(s[1..])
  }

  predicate IsAscii(s: string) {
    forall i :: 0 <= i < |s| ==> s[i] as int < 0x80
  }

  /** Encoding distributes over concatenation. */
  lemma {:induction false} EncodeAppend(a: string, b: string)
    ensures Encode(a + b) == Encode(a) + Encode(b)
    decreases |a|
  {
    if |a| == 0 {
      assert a + b == b;
    } else {
      var c := a + b;
      assert c[0] == a[0];
      assert c[1..] == a[1..] + b;
      EncodeAppend(a[1..], b);
      calc {
        Encode(c);
        EncodeChar(a[0]) + Encode(a[1..] + b);
        EncodeChar(a[0]) + (Encode(a[1..]) + Encode(b));
        (EncodeChar(a[0]) + Encode(a[1..])) + Encode(b);
      }
    }
  }

  /** On ASCII text the encoding is the identity on code points. */
  lemma {:induction false} EncodeAscii(s: string)
    requires IsAscii(s)
    ensures |Encode(s)| == |s|
    ensures forall i :: 0 <= i < |s| ==> Encode(s)[i] == s[i] as int
    decreases |s|
  {
    if |s| > 0 {
      assert IsAscii(s[1..]) by {
        forall i | 0 <= i < |s| - 1 ensures s[1..][i] as int < 0x80 {
          assert s[1..][i] == s[i + 1];
        }
      }
      EncodeAscii(s[1..]);
      assert EncodeChar(s[0]) == [s[0] as int];
    }
  }

  /**
   * An ASCII octet appears in an encoding only where that character appears in the text:
   * multi-octet sequences use octets 0x80 and above only.
   */
  lemma {:induction false} AsciiOctetAbsent(s: string, c: char)
    requires c as int < 0x80 && c !in s
    ensures c as int !in Encode(s)
    decreases |s|
  {
    if |s| > 0 {
      assert s[0] != c;
      AsciiOctetAbsent(s[1..], c);
    }
  }

  lemma ColonEncoding()
    ensures Encode(":") == [0x3A]
  {
  }
}
