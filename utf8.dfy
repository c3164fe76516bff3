/** UTF-8, the encoding Python's `str.encode()` uses by default: what a text
    actually puts on the wire. */
module Utf8 {
  import Base

  /** The number of bytes UTF-8 spends on one code point. */
  function CharWidth(c: char): nat {
    if c as int < 0x80 then 1
    else if c as int < 0x800 then 2
    else if c as int < 0x10000 then 3
    else 4
  }

  /** The UTF-8 bytes of one code point. */
  function EncodeChar(c: char): (b: seq<bv8>)
    ensures |b| == CharWidth(c)
  {
    var n := c as int;
    if n < 0x80 then [n as bv8]
    else if n < 0x800 then [(0xC0 + n / 0x40) as bv8, (0x80 + n % 0x40) as bv8]
    else if n < 0x10000 then
      [(0xE0 + n / 0x1000) as bv8, (0x80 + n / 0x40 % 0x40) as bv8, (0x80 + n % 0x40) as bv8]
    else
      [(0xF0 + n / 0x40000) as bv8, (0x80 + n / 0x1000 % 0x40) as bv8,
       (0x80 + n / 0x40 % 0x40) as bv8, (0x80 + n % 0x40) as bv8]
  }

  /** `s.encode('utf-8')`. */
  function Encode(s: string): seq<bv8> {
    if s == [] then [] else Encode(s[..|s| - 1]) + EncodeChar(s[|s| - 1])
  }

  /** `len(s.encode('utf-8'))`, counted without building the bytes. */
  function ByteLength(s: string): nat {
    if s == [] then 0 else ByteLength(s[..|s| - 1]) + CharWidth(s[|s| - 1])
  }

  lemma {:induction false} EncodeLength(s: string)
    ensures |Encode(s)| == ByteLength(s)
  {
    if s != [] {
      EncodeLength(s[..|s| - 1]);
    }
  }

  /** Encoding is a homomorphism: the bytes of `a + b` are those of `a`, then those of `b`. */
  lemma {:induction false} EncodeAppend(a: string, b: string)
    ensures Encode(a + b) == Encode(a) + Encode(b)
    decreases |b|
  {
    if b == [] {
      assert a + b == a;
    } else {
      var b', c := b[..|b| - 1], b[|b| - 1];
      assert (a + b)[..|a + b| - 1] == a + b' && (a + b)[|a + b| - 1] == c;
      EncodeAppend(a, b');
      assert Encode(a + b) == (Encode(a) + Encode(b')) + EncodeChar(c);
      assert Encode(b) == Encode(b') + EncodeChar(c);
      Base.AppendAssoc(Encode(a), Encode(b'), EncodeChar(c));
    }
  }

  /** Every code point takes at least one byte, and one outside ASCII takes more. */
  lemma {:induction false} ByteLengthAtLeast(s: string, k: nat)
    requires k < |s|
    ensures ByteLength(s) >= |s|
    ensures s[k] as int >= 0x80 ==> ByteLength(s) > |s|
    decreases |s|
  {
    var init := s[..|s| - 1];
    if k == |s| - 1 {
      if init != [] {
        ByteLengthAtLeast(init, 0);
      }
    } else {
      ByteLengthAtLeast(init, k);
      assert init[k] == s[k];
    }
  }
}
