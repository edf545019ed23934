/** The bytes of a Rust `&str` (`str::as_bytes`): its UTF-8 encoding. A
    Dafny `char` is a Unicode scalar value, as a Rust `char` is. */
module Utf8 {
  import opened Base

  /** A continuation byte: `10xxxxxx`. */
  predicate IsContinuation(b: byte)
  {
    0x80 <= b < 0xC0
  }

  /** The number of bytes a UTF-8 sequence occupies, read off its lead byte. */
  function LeadLength(lead: byte): nat
  {
    if lead < 0x80 then 1
    else if 0xC0 <= lead < 0xE0 then 2
    else if 0xE0 <= lead < 0xF0 then 3
    else if 0xF0 <= lead < 0xF8 then 4
    else 0
  }

  /** The UTF-8 encoding of one scalar value: its lead byte announces the
      length and every other byte is a continuation byte. */
  function EncodeChar(c: char): (bs: seq<byte>)
    ensures 1 <= |bs| <= 4 && LeadLength(bs[0]) == |bs|
    ensures forall i :: 1 <= i < |bs| ==> IsContinuation(bs[i])
    ensures |bs| == 1 <==> (c as int) < 0x80
    ensures (c as int) < 0x80 ==> bs[0] as int == c as int
    ensures |bs| == if (c as int) < 0x80 then 1 else if (c as int) < 0x800 then 2
                     else if (c as int) < 0x1_0000 then 3 else 4
  {
    var cp := c as int;
    if cp < 0x80 then
      [cp as byte]
    else if cp < 0x800 then
      [(0xC0 + cp / 0x40) as byte, (0x80 + cp % 0x40) as byte]
    else if cp < 0x1_0000 then
      [(0xE0 + cp / 0x1000) as byte, (0x80 + (cp / 0x40) % 0x40) as byte, (0x80 + cp % 0x40) as byte]
    else
      [(0xF0 + cp / 0x4_0000) as byte, (0x80 + (cp / 0x1000) % 0x40) as byte,
       (0x80 + (cp / 0x40) % 0x40) as byte, (0x80 + cp % 0x40) as byte]
  }

  /** The scalar value a one- to four-byte sequence carries: the payload
      bits of its lead byte followed by six bits per continuation byte. */
  function DecodeChar(bs: seq<byte>): int
    requires 1 <= |bs| <= 4
  {
    if |bs| == 1 then bs[0] as int
    else if |bs| == 2 then (bs[0] as int - 0xC0) * 0x40 + (bs[1] as int - 0x80)
    else if |bs| == 3 then
      ((bs[0] as int - 0xE0) * 0x40 + (bs[1] as int - 0x80)) * 0x40 + (bs[2] as int - 0x80)
    else
      (((bs[0] as int - 0xF0) * 0x40 + (bs[1] as int - 0x80)) * 0x40 + (bs[2] as int - 0x80)) * 0x40
        + (bs[3] as int - 0x80)
  }

  /** The encoding of a character carries its scalar value: decoding the
      payload bits gives the character back. */
  lemma DecodeEncodeChar(c: char)
    ensures DecodeChar(EncodeChar(c)) == c as int
  {
    var cp := c as int;
    var q1, q2 := cp / 0x40, cp / 0x1000;
    assert cp == q1 * 0x40 + cp % 0x40;
    assert q1 == q2 * 0x40 + q1 % 0x40;
    assert q2 == (cp / 0x4_0000) * 0x40 + q2 % 0x40;
    assert q1 % 0x40 == (cp / 0x40) % 0x40;
    assert q2 % 0x40 == (cp / 0x1000) % 0x40;
  }

  /** `str::as_bytes`: the characters' encodings, in order; every character
      takes one to four bytes. */
  function Encode(s: string): (bs: seq<byte>)
    ensures |s| <= |bs| <= 4 * |s|
    decreases |s|
  {
    if s == [] then [] else EncodeChar(s[0]) + Encode(s[1..])
  }

  /** Encoding distributes over concatenation. */
  lemma {:induction false} EncodeAppend(a: string, b: string)
    ensures Encode(a + b) == Encode(a) + Encode(b)
    decreases |a|
  {
    if a == [] {
      assert a + b == b;
    } else {
      assert (a + b)[1..] == a[1..] + b;
      EncodeAppend(a[1..], b);
    }
  }

  /** An ASCII string is its own byte string. */
  lemma {:induction false} EncodeAscii(s: string)
    requires forall i :: 0 <= i < |s| ==> (s[i] as int) < 0x80
    ensures |Encode(s)| == |s|
    ensures forall i :: 0 <= i < |s| ==> Encode(s)[i] as int == s[i] as int
    decreases |s|
  {
    if s != [] {
      EncodeAscii(s[1..]);
      assert Encode(s) == EncodeChar(s[0]) + Encode(s[1..]);
    }
  }
}
