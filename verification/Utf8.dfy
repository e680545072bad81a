/** `TextEncoder`: a well-formed string (a sequence of Unicode scalar values) as UTF-8 bytes. */
module Utf8 {

  type byte = x: int | 0 <= x < 256

  /** The one to four bytes of a scalar value. */
  function EncodeScalar(v: nat): (bs: seq<byte>)
    requires v < 0x11_0000
    ensures 1 <= |bs| <= 4
  {
    if v < 0x80 then
      [v]
    else if v < 0x800 then
      [0xC0 + v / 64, 0x80 + v % 64]
    else if v < 0x1_0000 then
      [0xE0 + v / 64 / 64, 0x80 + v / 64 % 64, 0x80 + v % 64]
    else
      [0xF0 + v / 64 / 64 / 64, 0x80 + v / 64 / 64 % 64, 0x80 + v / 64 % 64, 0x80 + v % 64]
  }

  function Encode(s: string): seq<byte> {
    if s == "" then [] else EncodeScalar(s[0] as int) + Encode(s[1..])
  }

  /** How many bytes the lead byte announces. */
  function LengthFromLead(lead: byte): nat {
    if lead < 0xC0 then 1 else if lead < 0xE0 then 2 else if lead < 0xF0 then 3 else 4
  }

  lemma LeadGivesLength(v: nat)
    requires v < 0x11_0000
    ensures LengthFromLead(EncodeScalar(v)[0]) == |EncodeScalar(v)|
  {
    if 0x800 <= v {
      assert v / 64 / 64 < 0x110;
      assert v < 0x1_0000 ==> v / 64 < 1024;
    }
  }

  lemma SameSixBits(v: nat, w: nat)
    requires v / 64 == w / 64 && v % 64 == w % 64
    ensures v == w
  {
  }

  lemma ScalarInjective(v: nat, w: nat)
    requires v < 0x11_0000 && w < 0x11_0000
    requires EncodeScalar(v) == EncodeScalar(w)
    ensures v == w
  {
    var a, b := EncodeScalar(v), EncodeScalar(w);
    assert a[0] == b[0];
    if |a| == 2 {
      assert a[1] == b[1];
    } else if |a| == 3 {
      assert a[1] == b[1] && a[2] == b[2];
      SameSixBits(v / 64, w / 64);
    } else if |a| == 4 {
      assert a[1] == b[1] && a[2] == b[2] && a[3] == b[3];
      SameSixBits(v / 64 / 64, w / 64 / 64);
      SameSixBits(v / 64, w / 64);
    }
  }

  /** An encoded character can be peeled off a stream in one way only. */
  lemma ScalarIsPrefixFree(v: nat, w: nat, x: seq<byte>, y: seq<byte>)
    requires v < 0x11_0000 && w < 0x11_0000
    requires EncodeScalar(v) + x == EncodeScalar(w) + y
    ensures v == w && x == y
  {
    var a, b := EncodeScalar(v), EncodeScalar(w);
    assert (a + x)[0] == a[0] && (b + y)[0] == b[0];
    LeadGivesLength(v);
    LeadGivesLength(w);
    assert a == (a + x)[..|a|] == (b + y)[..|b|] == b;
    assert x == (a + x)[|a|..] == (b + y)[|b|..] == y;
    ScalarInjective(v, w);
  }

  lemma {:induction false} EncodeInjective(s: string, t: string)
    requires Encode(s) == Encode(t)
    ensures s == t
  {
    if s != "" && t != "" {
      ScalarIsPrefixFree(s[0] as int, t[0] as int, Encode(s[1..]), Encode(t[1..]));
      EncodeInjective(s[1..], t[1..]);
      assert s == [s[0]] + s[1..] && t == [t[0]] + t[1..];
    }
  }

  // ---------------------------------------------------------------- the bits

  /** The bits of a byte below its marker. */
  function Low(b: byte, marker: nat): nat
    requires marker <= b
  {
    b - marker
  }

  /** 10xxxxxx */
  predicate Continues(b: byte) {
    0x80 <= b < 0xC0
  }

  /** The bytes hold the bits of `v`, in the shortest of the four forms (section 3 of RFC 3629). */
  predicate HoldBits(bs: seq<byte>, v: nat) {
    || (|bs| == 1 && v < 0x80 && bs[0] == v)
    || (|bs| == 2 && v >= 0x80 && 0xC0 <= bs[0] < 0xE0 && Continues(bs[1])
        && v == 0x40 * Low(bs[0], 0xC0) + Low(bs[1], 0x80))
    || (|bs| == 3 && v >= 0x800 && 0xE0 <= bs[0] < 0xF0 && Continues(bs[1]) && Continues(bs[2])
        && v == 0x1000 * Low(bs[0], 0xE0) + 0x40 * Low(bs[1], 0x80) + Low(bs[2], 0x80))
    || (|bs| == 4 && v >= 0x1_0000 && 0xF0 <= bs[0] < 0xF8 && Continues(bs[1]) && Continues(bs[2]) && Continues(bs[3])
        && v == 0x4_0000 * Low(bs[0], 0xF0) + 0x1000 * Low(bs[1], 0x80) + 0x40 * Low(bs[2], 0x80) + Low(bs[3], 0x80))
  }

  /** The bytes of a text, character by character. */
  predicate IsUtf8(bs: seq<byte>, s: string) {
    if s == "" then bs == []
    else exists n | 1 <= n <= |bs| :: HoldBits(bs[..n], s[0] as int) && IsUtf8(bs[n..], s[1..])
  }

  lemma ScalarHoldsBits(v: nat)
    requires v < 0x11_0000
    ensures HoldBits(EncodeScalar(v), v)
  {
    assert v == v / 64 * 64 + v % 64;
    assert v / 64 == v / 64 / 64 * 64 + v / 64 % 64;
    assert v / 64 / 64 == v / 64 / 64 / 64 * 64 + v / 64 / 64 % 64;
  }

  lemma SixBits(high: nat, low: nat)
    requires low < 64
    ensures (64 * high + low) / 64 == high && (64 * high + low) % 64 == low
  {
  }

  lemma BitsHoldOnce(bs: seq<byte>, v: nat)
    requires HoldBits(bs, v) && v < 0x11_0000
    ensures bs == EncodeScalar(v)
  {
    if |bs| == 2 {
      SixBits(Low(bs[0], 0xC0), Low(bs[1], 0x80));
    } else if |bs| == 3 {
      SixBits(64 * Low(bs[0], 0xE0) + Low(bs[1], 0x80), Low(bs[2], 0x80));
      SixBits(Low(bs[0], 0xE0), Low(bs[1], 0x80));
    } else if |bs| == 4 {
      SixBits(0x1000 * Low(bs[0], 0xF0) + 64 * Low(bs[1], 0x80) + Low(bs[2], 0x80), Low(bs[3], 0x80));
      SixBits(64 * Low(bs[0], 0xF0) + Low(bs[1], 0x80), Low(bs[2], 0x80));
      SixBits(Low(bs[0], 0xF0), Low(bs[1], 0x80));
    }
  }

  /** What `Encode` gives is the UTF-8 of the text, and nothing else is. */
  lemma {:induction false} EncodesExactly(bs: seq<byte>, s: string)
    ensures bs == Encode(s) <==> IsUtf8(bs, s)
    decreases |s|
  {
    hide HoldBits, EncodeScalar;
    if s != "" {
      var v := s[0] as int;
      var first := EncodeScalar(v);
      ScalarHoldsBits(v);
      if bs == Encode(s) {
        assert bs[..|first|] == first && bs[|first|..] == Encode(s[1..]);
        EncodesExactly(bs[|first|..], s[1..]);
      }
      if IsUtf8(bs, s) {
        var n :| 1 <= n <= |bs| && HoldBits(bs[..n], v) && IsUtf8(bs[n..], s[1..]);
        BitsHoldOnce(bs[..n], v);
        EncodesExactly(bs[n..], s[1..]);
        assert bs == bs[..n] + bs[n..];
      }
    }
  }
}
