/** The associated-data framing of packages/credentials-crypto/src/aead.ts, byte for byte. */
module Aad {
  import opened Utf8
  import Decimal

  const LENGTH_PREFIX_BYTES: nat := 4
  const TWO_TO_THE_32: nat := 0x1_0000_0000

  /**
   * A part is a string or a number, and `encodeAad` takes `String` of it first. Of a
   * number that is no natural number only that text matters.
   */
  datatype Part = Text(text: string) | Number(value: nat) | OtherNumber(printed: string) {
    function Stringify(): string {
      match this
      case Text(t) => t
      case Number(n) => Decimal.Print(n)
      case OtherNumber(printed) => printed
    }
  }

  function Texts(parts: seq<Part>): (texts: seq<string>)
    ensures |texts| == |parts|
    ensures forall i | 0 <= i < |parts| :: texts[i] == parts[i].Stringify()
  {
    seq(|parts|, i requires 0 <= i < |parts| => parts[i].Stringify())
  }

  function Segments(texts: seq<string>): (segments: seq<seq<byte>>)
    ensures |segments| == |texts|
    ensures forall i | 0 <= i < |texts| :: segments[i] == Encode(texts[i])
  {
    seq(|texts|, i requires 0 <= i < |texts| => Encode(texts[i]))
  }

  /** `DataView.setUint32`, big-endian, which keeps the value modulo 2^32. */
  function BigEndian32(n: nat): (bs: seq<byte>)
    ensures |bs| == LENGTH_PREFIX_BYTES
  {
    [n / 256 / 256 / 256 % 256, n / 256 / 256 % 256, n / 256 % 256, n % 256]
  }

  function Frames(segments: seq<seq<byte>>): seq<byte> {
    if segments == [] then []
    else BigEndian32(|segments[0]|) + segments[0] + Frames(segments[1..])
  }

  /** What the buffer-filling method below computes. */
  function Framed(domain: string, parts: seq<Part>): seq<byte> {
    Frames(Segments([domain] + Texts(parts)))
  }

  function FramedSize(segments: seq<seq<byte>>): nat {
    if segments == [] then 0
    else LENGTH_PREFIX_BYTES + |segments[0]| + FramedSize(segments[1..])
  }

  lemma {:induction false} FramesSnoc(segments: seq<seq<byte>>, last: seq<byte>)
    ensures Frames(segments + [last]) == Frames(segments) + BigEndian32(|last|) + last
    ensures FramedSize(segments + [last]) == FramedSize(segments) + LENGTH_PREFIX_BYTES + |last|
  {
    if segments == [] {
      assert [last][1..] == [];
    } else {
      assert (segments + [last])[1..] == segments[1..] + [last];
      FramesSnoc(segments[1..], last);
    }
  }

  lemma {:induction false} FramedSizeSplit(segments: seq<seq<byte>>, k: nat)
    requires k <= |segments|
    ensures FramedSize(segments) == FramedSize(segments[..k]) + FramedSize(segments[k..])
    ensures |Frames(segments)| == FramedSize(segments)
  {
    if segments != [] {
      if k > 0 {
        assert segments[..k][1..] == segments[1..][..k - 1];
        assert segments[k..] == segments[1..][k - 1..];
        FramedSizeSplit(segments[1..], k - 1);
      } else {
        assert segments[..0] == [] && segments[0..] == segments;
        FramedSizeSplit(segments[1..], 0);
      }
    }
  }

  // ---------------------------------------------------------------- what the bytes say

  /** The 32-bit number at an offset, most significant byte first. */
  function NumberAt(bytes: seq<byte>, p: nat): nat
    requires p + 4 <= |bytes|
  {
    0x100_0000 * bytes[p] as nat + 0x1_0000 * bytes[p + 1] as nat + 0x100 * bytes[p + 2] as nat + bytes[p + 3]
  }

  /** The UTF-8 of a part: of a text as it is, of a natural number as its decimal numeral. */
  ghost predicate IsPart(bytes: seq<byte>, part: Part) {
    match part
    case Text(text) => IsUtf8(bytes, text)
    case Number(n) => exists s :: Decimal.Numeral(s, n) && IsUtf8(bytes, s)
    case OtherNumber(printed) => IsUtf8(bytes, printed)
  }

  /** From offset `p` on: of each part its length and then its bytes, and nothing after the last. */
  ghost predicate Reads(bytes: seq<byte>, p: nat, parts: seq<Part>)
    decreases |parts|
  {
    if parts == [] then p == |bytes|
    else exists end | p + 4 <= end <= |bytes| ::
      && NumberAt(bytes, p) == (end - (p + 4)) % TWO_TO_THE_32
      && IsPart(bytes[p + 4..end], parts[0])
      && Reads(bytes, end, parts[1..])
  }

  lemma BigEndianValue(n: nat)
    ensures NumberAt(BigEndian32(n), 0) == n % TWO_TO_THE_32
  {
    var a, b, c := n / 256, n / 256 / 256, n / 256 / 256 / 256;
    var low := 0x100_0000 * (c % 256) + 0x1_0000 * (b % 256) + 0x100 * (a % 256) + n % 256;
    assert n == TWO_TO_THE_32 * (c / 256) + low;
    ModuloIs(n, c / 256, low);
  }

  lemma ModuloIs(n: nat, high: nat, low: nat)
    requires n == TWO_TO_THE_32 * high + low && low < TWO_TO_THE_32
    ensures n % TWO_TO_THE_32 == low
  {
  }

  lemma StringifiedIsPart(part: Part)
    ensures IsPart(Encode(part.Stringify()), part)
  {
    EncodesExactly(Encode(part.Stringify()), part.Stringify());
    if part.Number? {
      Decimal.PrintIsNumeral(part.Stringify(), part.value);
    }
  }

  lemma {:induction false} FramesRead(done: seq<byte>, parts: seq<Part>)
    ensures Reads(done + Frames(Segments(Texts(parts))), |done|, parts)
    decreases |parts|
  {
    hide IsPart, BigEndian32, Reads, Frames;
    if parts == [] {
      NothingReads(done);
    } else {
      var segment := Encode(parts[0].Stringify());
      var rest := Frames(Segments(Texts(parts[1..])));
      var next := done + BigEndian32(|segment|) + segment;
      FirstFrame(parts);
      assert done + Frames(Segments(Texts(parts))) == next + rest;
      FramesRead(next, parts[1..]);
      FrameReads(next + rest, done, segment, rest);
      StringifiedIsPart(parts[0]);
      ReadsOn(next + rest, |done|, |next|, parts);
    }
  }

  lemma NothingReads(done: seq<byte>)
    ensures Reads(done + Frames(Segments(Texts([]))), |done|, [])
  {
  }

  lemma FirstFrame(parts: seq<Part>)
    requires parts != []
    ensures
      var segment := Encode(parts[0].Stringify());
      Frames(Segments(Texts(parts))) == BigEndian32(|segment|) + segment + Frames(Segments(Texts(parts[1..])))
  {
    hide BigEndian32;
    assert Segments(Texts(parts))[1..] == Segments(Texts(parts[1..]));
  }

  lemma ReadsOn(bytes: seq<byte>, p: nat, end: nat, parts: seq<Part>)
    requires parts != [] && p + 4 <= end <= |bytes| && Reads(bytes, end, parts[1..])
    requires NumberAt(bytes, p) == (end - (p + 4)) % TWO_TO_THE_32 && IsPart(bytes[p + 4..end], parts[0])
    ensures Reads(bytes, p, parts)
  {
    hide IsPart, NumberAt;
  }

  lemma FrameReads(bytes: seq<byte>, done: seq<byte>, segment: seq<byte>, rest: seq<byte>)
    requires bytes == done + BigEndian32(|segment|) + segment + rest
    ensures |done| + 4 <= |bytes| && NumberAt(bytes, |done|) == |segment| % TWO_TO_THE_32
    ensures bytes[|done| + 4..|done| + 4 + |segment|] == segment
  {
    var prefix := BigEndian32(|segment|);
    assert forall k | 0 <= k < 4 :: bytes[|done| + k] == prefix[k];
    hide BigEndian32;
    BigEndianValue(|segment|);
  }

  /** A framing reads back as the domain and the parts, each behind its length. */
  lemma FramedReads(domain: string, parts: seq<Part>)
    ensures Reads(Framed(domain, parts), 0, [Text(domain)] + parts)
  {
    FramesRead([], [Text(domain)] + parts);
    assert Texts([Text(domain)] + parts) == [domain] + Texts(parts);
    assert [] + Framed(domain, parts) == Framed(domain, parts);
  }

  // ---------------------------------------------------------------- the buffer

  /**
   * `encodeAad`: measure the segments, allocate one buffer, then write each length
   * and each segment at the running offset, which ends exactly at `size`.
   */
  method EncodeAad(domain: string, parts: seq<Part>) returns (out: array<byte>)
    ensures fresh(out)
    ensures out[..] == Framed(domain, parts)
    ensures Reads(out[..], 0, [Text(domain)] + parts)
  {
    var segments := Segments([domain] + Texts(parts));
    var size := MeasureSegments(segments);
    out := new byte[size](_ => 0);
    var end := FillSegments(out, segments);
    FramedSizeSplit(segments, 0);
    assert out[..end] == out[..];
    FramedReads(domain, parts);
  }

  method MeasureSegments(segments: seq<seq<byte>>) returns (size: nat)
    ensures size == FramedSize(segments)
  {
    size := 0;
    for i := 0 to |segments|
      invariant size == FramedSize(segments[..i])
    {
      assert segments[..i + 1] == segments[..i] + [segments[i]];
      FramesSnoc(segments[..i], segments[i]);
      size := size + LENGTH_PREFIX_BYTES + |segments[i]|;
    }
    assert segments[..|segments|] == segments;
  }

  method FillSegments(out: array<byte>, segments: seq<seq<byte>>) returns (offset: nat)
    requires out.Length == FramedSize(segments)
    modifies out
    ensures offset == out.Length
    ensures out[..offset] == Frames(segments)
  {
    offset := 0;
    for i := 0 to |segments|
      invariant offset == FramedSize(segments[..i]) <= out.Length
      invariant out[..offset] == Frames(segments[..i])
    {
      var segment := segments[i];
      assert segments[..i + 1] == segments[..i] + [segment];
      FramesSnoc(segments[..i], segment);
      FramedSizeSplit(segments, i + 1);
      WriteSegment(out, offset, segment);
      offset := offset + LENGTH_PREFIX_BYTES + |segment|;
    }
    assert segments[..|segments|] == segments;
  }

  /** `view.setUint32(offset, seg.length)` followed by `out.set(seg, offset + 4)`. */
  method WriteSegment(out: array<byte>, offset: nat, segment: seq<byte>)
    requires offset + LENGTH_PREFIX_BYTES + |segment| <= out.Length
    modifies out
    ensures out[..offset] == old(out[..offset])
    ensures out[..offset + LENGTH_PREFIX_BYTES + |segment|]
         == old(out[..offset]) + BigEndian32(|segment|) + segment
  {
    var prefix := BigEndian32(|segment|);
    forall k | 0 <= k < LENGTH_PREFIX_BYTES {
      out[offset + k] := prefix[k];
    }
    var base := offset + LENGTH_PREFIX_BYTES;
    forall k | 0 <= k < |segment| {
      out[base + k] := segment[k];
    }
    assert out[..base + |segment|] == out[..offset] + out[offset..base] + out[base..base + |segment|];
    assert out[offset..base] == prefix;
    assert out[base..base + |segment|] == segment;
  }

  // ---------------------------------------------------------------- unambiguous

  /** Every segment is short enough for its four-byte length. */
  ghost predicate Framable(texts: seq<string>) {
    forall i | 0 <= i < |texts| :: |Encode(texts[i])| < TWO_TO_THE_32
  }

  lemma SameLowByte(m: nat, n: nat)
    requires m / 256 == n / 256 && m % 256 == n % 256
    ensures m == n
  {
  }

  lemma BigEndian32Injective(m: nat, n: nat)
    requires m < TWO_TO_THE_32 && n < TWO_TO_THE_32
    requires BigEndian32(m) == BigEndian32(n)
    ensures m == n
  {
    var a, b := BigEndian32(m), BigEndian32(n);
    assert a[0] == b[0] && a[1] == b[1] && a[2] == b[2] && a[3] == b[3];
    assert m / 256 / 256 / 256 < 256 && n / 256 / 256 / 256 < 256;
    SameLowByte(m / 256 / 256, n / 256 / 256);
    SameLowByte(m / 256, n / 256);
  }

  lemma {:induction false} FramesInjective(a: seq<seq<byte>>, b: seq<seq<byte>>)
    requires forall i | 0 <= i < |a| :: |a[i]| < TWO_TO_THE_32
    requires forall i | 0 <= i < |b| :: |b[i]| < TWO_TO_THE_32
    requires Frames(a) == Frames(b)
    ensures a == b
  {
    if a != [] && b != [] {
      var x, y := a[0], b[0];
      var s := Frames(a);
      assert s[..4] == BigEndian32(|x|) && Frames(b)[..4] == BigEndian32(|y|);
      BigEndian32Injective(|x|, |y|);
      assert s[4..][..|x|] == x && Frames(b)[4..][..|y|] == y;
      assert s[4 + |x|..] == Frames(a[1..]) && Frames(b)[4 + |y|..] == Frames(b[1..]);
      FramesInjective(a[1..], b[1..]);
      assert a == [x] + a[1..] && b == [y] + b[1..];
    }
  }

  /**
   * The framing is unambiguous up to stringification: two bindings share their bytes
   * exactly when the domains and the stringified parts agree. `Text("1")` and
   * `Number(1)` therefore coincide, and nothing else does.
   */
  lemma FramedInjective(d: string, ps: seq<Part>, e: string, qs: seq<Part>)
    requires Framable([d] + Texts(ps)) && Framable([e] + Texts(qs))
    ensures Framed(d, ps) == Framed(e, qs) <==> d == e && Texts(ps) == Texts(qs)
  {
    var a, b := [d] + Texts(ps), [e] + Texts(qs);
    if Framed(d, ps) == Framed(e, qs) {
      FramesInjective(Segments(a), Segments(b));
      forall i | 0 <= i < |a|
        ensures a[i] == b[i]
      {
        assert Segments(a)[i] == Segments(b)[i];
        EncodeInjective(a[i], b[i]);
      }
      assert a == b;
      assert a[0] == b[0] && a[1..] == Texts(ps) && b[1..] == Texts(qs);
    }
  }

  lemma SamePart(ps: seq<Part>, qs: seq<Part>, i: nat)
    requires Texts(ps) == Texts(qs) && i < |ps|
    ensures i < |qs| && ps[i].Stringify() == qs[i].Stringify()
  {
    assert Texts(ps)[i] == ps[i].Stringify() && Texts(qs)[i] == qs[i].Stringify();
  }

  /** Whatever the lengths, one segment alone cannot differ: it is what is left of the framing. */
  lemma SecondSegment(a: seq<byte>, b: seq<byte>, b': seq<byte>, rest: seq<seq<byte>>)
    requires Frames([a, b] + rest) == Frames([a, b'] + rest)
    ensures b == b'
  {
    TwoFrames(a, b, rest);
    TwoFrames(a, b', rest);
    var head := BigEndian32(|a|) + a;
    assert |head + BigEndian32(|b|) + b + Frames(rest)| == |head + BigEndian32(|b'|) + b' + Frames(rest)|;
    assert (head + BigEndian32(|b|) + b + Frames(rest))[|head| + 4..][..|b|] == b;
    assert (head + BigEndian32(|b'|) + b' + Frames(rest))[|head| + 4..][..|b'|] == b';
  }

  lemma TwoFrames(a: seq<byte>, b: seq<byte>, rest: seq<seq<byte>>)
    ensures Frames([a, b] + rest) == BigEndian32(|a|) + a + BigEndian32(|b|) + b + Frames(rest)
  {
    var all := [a, b] + rest;
    assert all[1..] == [b] + rest && all[1..][1..] == rest;
    assert Frames(all) == BigEndian32(|a|) + a + Frames(all[1..]);
    assert Frames(all[1..]) == BigEndian32(|b|) + b + Frames(rest);
  }

  /** Two bindings that differ in their first part at most have the same bytes only if it is the same. */
  lemma FirstPartShows(d: string, p: string, q: string, rest: seq<Part>)
    ensures Framed(d, [Text(p)] + rest) == Framed(d, [Text(q)] + rest) <==> p == q
  {
    SegmentsOfParts(d, p, rest);
    SegmentsOfParts(d, q, rest);
    if Framed(d, [Text(p)] + rest) == Framed(d, [Text(q)] + rest) {
      SecondSegment(Encode(d), Encode(p), Encode(q), Segments(Texts(rest)));
      EncodeInjective(p, q);
    }
  }

  lemma SegmentsOfParts(d: string, p: string, rest: seq<Part>)
    ensures Segments([d] + Texts([Text(p)] + rest)) == [Encode(d), Encode(p)] + Segments(Texts(rest))
  {
    var texts := [d] + Texts([Text(p)] + rest);
    assert texts == [d, p] + Texts(rest);
  }

  function Zeros(n: nat): seq<byte> {
    seq(n, _ => 0)
  }

  function Empties(n: nat): seq<seq<byte>> {
    seq(n, _ => [])
  }

  /** An empty segment is four zero bytes. */
  lemma {:induction false} FramesOfEmpties(n: nat)
    ensures Frames(Empties(n)) == Zeros(4 * n)
  {
    if n > 0 {
      assert Empties(n)[1..] == Empties(n - 1);
      FramesOfEmpties(n - 1);
      assert BigEndian32(0) + Zeros(4 * (n - 1)) == Zeros(4 * n);
    }
  }

  function Nulls(n: nat): string {
    seq(n, _ => '\0')
  }

  function EmptyTexts(n: nat): seq<Part> {
    seq(n, _ => Text(""))
  }

  lemma {:induction false} NullsEncode(n: nat)
    ensures Encode(Nulls(n)) == Zeros(n)
  {
    if n > 0 {
      assert Nulls(n)[1..] == Nulls(n - 1);
      NullsEncode(n - 1);
      assert [0] + Zeros(n - 1) == Zeros(n);
    }
  }

  lemma EmptySegments(n: nat)
    ensures Segments([""] + Texts(EmptyTexts(n))) == Empties(n + 1)
  {
    var texts := [""] + Texts(EmptyTexts(n));
    forall i | 0 <= i < n + 1
      ensures Segments(texts)[i] == []
    {
      assert texts[i] == "";
    }
  }

  lemma OneFrame(segment: seq<byte>)
    ensures Frames([segment]) == BigEndian32(|segment|) + segment
  {
    assert [segment][1..] == [];
  }

  /**
   * The bound on segments is needed: the length of a segment of 2^32 bytes is written
   * as zero, so a domain of as many null characters and no part has the bytes of the
   * empty domain with 2^30 empty parts.
   */
  lemma LongSegmentCollides()
    ensures Framed(Nulls(TWO_TO_THE_32), []) == Framed("", EmptyTexts(TWO_TO_THE_32 / 4))
    ensures Nulls(TWO_TO_THE_32) != ""
  {
    var n := TWO_TO_THE_32;
    NullsEncode(n);
    assert Segments([Nulls(n)] + Texts([])) == [Zeros(n)];
    EmptySegments(n / 4);
    FramesOfEmpties(n / 4 + 1);
    OneFrame(Zeros(n));
    assert BigEndian32(n) + Zeros(n) == Zeros(n + 4);
  }
}
