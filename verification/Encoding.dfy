/**
 * Base64, base64url and hex with the input normalisation of packages/encoding.
 * `btoa` is section 4 of RFC 4648; `atob` is the forgiving-base64 decode of the
 * WHATWG Infra standard.
 */
module Encoding {
  import opened Wrappers
  import opened Utf8
  import opened JsText

  type Sextet = n: nat | n < 64

  datatype DecodeError = RangeError | InvalidCharacter

  function Letter(n: Sextet): char {
    if n < 26 then (n + 'A' as int) as char
    else if n < 52 then (n - 26 + 'a' as int) as char
    else if n < 62 then (n - 52 + '0' as int) as char
    else if n == 62 then '+' else '/'
  }

  predicate IsLetter(c: char) {
    'A' <= c <= 'Z' || 'a' <= c <= 'z' || '0' <= c <= '9' || c == '+' || c == '/'
  }

  function LetterValue(c: char): Sextet
    requires IsLetter(c)
  {
    if 'A' <= c <= 'Z' then c as int - 'A' as int
    else if 'a' <= c <= 'z' then c as int - 'a' as int + 26
    else if '0' <= c <= '9' then c as int - '0' as int + 52
    else if c == '+' then 62 else 63
  }

  lemma LetterRoundTrip(n: Sextet)
    ensures IsLetter(Letter(n)) && LetterValue(Letter(n)) == n
  {
  }

  // ---------------------------------------------------------------- groups of digits

  function Digits(data: seq<byte>): (digits: seq<Sextet>)
    ensures |digits| == |data| / 3 * 4 + (if |data| % 3 == 0 then 0 else |data| % 3 + 1)
  {
    if |data| == 0 then []
    else if |data| == 1 then [data[0] / 4, Mid1(data[0], 0)]
    else if |data| == 2 then [data[0] / 4, Mid1(data[0], data[1]), Mid2(data[1], 0)]
    else [data[0] / 4, Mid1(data[0], data[1]), Mid2(data[1], data[2]), data[2] % 64] + Digits(data[3..])
  }

  function Mid1(x: byte, y: byte): Sextet {
    x % 4 * 16 + y / 16
  }

  function Mid2(y: byte, z: byte): Sextet {
    y % 16 * 4 + z / 64
  }

  function First(p: Sextet, q: Sextet): byte {
    p * 4 + q / 16
  }

  function Second(q: Sextet, r: Sextet): byte {
    q % 16 * 16 + r / 4
  }

  function Third(r: Sextet, s: Sextet): byte {
    r % 4 * 64 + s
  }

  /** The bits left over after the last whole byte are dropped, whatever they are. */
  function Undigits(d: seq<Sextet>): seq<byte>
    requires |d| % 4 != 1
  {
    if |d| == 0 then []
    else if |d| == 2 then [First(d[0], d[1])]
    else if |d| == 3 then [First(d[0], d[1]), Second(d[1], d[2])]
    else [First(d[0], d[1]), Second(d[1], d[2]), Third(d[2], d[3])] + Undigits(d[4..])
  }

  lemma FirstInverse(x: byte, y: byte)
    ensures First(x / 4, Mid1(x, y)) == x
  {
  }

  lemma GroupInverse(x: byte, y: byte, z: byte)
    ensures First(x / 4, Mid1(x, y)) == x
    ensures Second(Mid1(x, y), Mid2(y, z)) == y
    ensures Third(Mid2(y, z), z % 64) == z
  {
  }

  lemma UndigitsGroup(p: Sextet, q: Sextet, r: Sextet, s: Sextet, rest: seq<Sextet>)
    requires |rest| % 4 != 1
    ensures Undigits([p, q, r, s] + rest) == [First(p, q), Second(q, r), Third(r, s)] + Undigits(rest)
  {
    assert ([p, q, r, s] + rest)[4..] == rest;
  }

  lemma UndigitsTail(p: Sextet, q: Sextet, r: Sextet)
    ensures Undigits([p, q]) == [First(p, q)]
    ensures Undigits([p, q, r]) == [First(p, q), Second(q, r)]
  {
  }

  lemma OneByteTail(x: byte)
    ensures Undigits([x / 4, Mid1(x, 0)]) == [x]
  {
    FirstInverse(x, 0);
    UndigitsTail(x / 4, Mid1(x, 0), 0);
  }

  lemma TwoByteTail(x: byte, y: byte)
    ensures Undigits([x / 4, Mid1(x, y), Mid2(y, 0)]) == [x, y]
  {
    GroupInverse(x, y, 0);
    var p: Sextet, q, r := x / 4, Mid1(x, y), Mid2(y, 0);
    UndigitsTail(p, q, r);
  }

  lemma DigitsGroup(x: byte, y: byte, z: byte, rest: seq<byte>)
    ensures Digits([x, y, z] + rest) == [x / 4, Mid1(x, y), Mid2(y, z), z % 64] + Digits(rest)
  {
    assert ([x, y, z] + rest)[3..] == rest;
  }

  lemma GroupRoundTrip(x: byte, y: byte, z: byte, rest: seq<byte>)
    requires Undigits(Digits(rest)) == rest
    ensures Undigits(Digits([x, y, z] + rest)) == [x, y, z] + rest
  {
    hide Digits, Undigits, Mid1, Mid2, First, Second, Third;
    DigitsGroup(x, y, z, rest);
    UndigitsGroup(x / 4, Mid1(x, y), Mid2(y, z), z % 64, Digits(rest));
    GroupInverse(x, y, z);
  }

  lemma {:induction false} UndigitsDigits(data: seq<byte>)
    ensures Undigits(Digits(data)) == data
  {
    if |data| == 1 {
      OneByteTail(data[0]);
    } else if |data| == 2 {
      TwoByteTail(data[0], data[1]);
    } else if |data| >= 3 {
      UndigitsDigits(data[3..]);
      GroupRoundTrip(data[0], data[1], data[2], data[3..]);
      assert data == [data[0], data[1], data[2]] + data[3..];
    }
  }

  // ---------------------------------------------------------------- texts

  predicate AllLetters(s: string) {
    forall c | c in s :: IsLetter(c)
  }

  function Text(digits: seq<Sextet>): (s: string)
    ensures |s| == |digits| && AllLetters(s) && Values(s) == digits
  {
    var s := seq(|digits|, i requires 0 <= i < |digits| => Letter(digits[i]));
    assert forall i | 0 <= i < |digits| ::
        IsLetter(Letter(digits[i])) && LetterValue(Letter(digits[i])) == digits[i] by {
      forall i | 0 <= i < |digits|
        ensures IsLetter(Letter(digits[i])) && LetterValue(Letter(digits[i])) == digits[i]
      {
        LetterRoundTrip(digits[i]);
      }
    }
    s
  }

  function Values(s: string): seq<Sextet>
    requires AllLetters(s)
  {
    seq(|s|, i requires 0 <= i < |s| => LetterValue(s[i]))
  }

  function Equals(n: nat): string {
    seq(n, _ => '=')
  }

  predicate AllEquals(s: string) {
    forall c | c in s :: c == '='
  }

  /** How many `=` bring a length to a multiple of four. */
  function PadCount(length: nat): (n: nat)
    ensures n < 4 && (length + n) % 4 == 0
  {
    (4 - length % 4) % 4
  }

  function Pad(s: string): string {
    s + Equals(PadCount(|s|))
  }

  function ToBase64(data: seq<byte>): string {
    Pad(Text(Digits(data)))
  }

  function Compact(s: string): (r: string)
    ensures forall c | c in r :: !IsSpace(c)
  {
    if s == "" then "" else (if IsSpace(s[0]) then "" else [s[0]]) + Compact(s[1..])
  }

  /** The longest prefix made of letters; `^[letters]*={0,2}$` matches when at most two `=` follow it. */
  function Body(s: string, letters: char -> bool): (d: string)
    ensures d <= s && forall c | c in d :: letters(c)
    ensures |d| < |s| ==> !letters(s[|d|])
  {
    if s == "" || !letters(s[0]) then "" else [s[0]] + Body(s[1..], letters)
  }

  predicate MatchesPattern(s: string, letters: char -> bool) {
    var tail := s[|Body(s, letters)|..];
    |tail| <= 2 && AllEquals(tail)
  }

  function NormalizeBase64(s: string): Result<string, DecodeError> {
    var compact := Compact(s);
    if !MatchesPattern(compact, IsLetter) || |compact| % 4 == 1 then Err(RangeError) else Ok(Pad(compact))
  }

  predicate IsAsciiSpace(c: char) {
    c == '\t' || c == '\n' || c as int == 12 || c == '\r' || c == ' '
  }

  function StripAsciiSpace(s: string): string {
    if s == "" then "" else (if IsAsciiSpace(s[0]) then "" else [s[0]]) + StripAsciiSpace(s[1..])
  }

  function DropEquals(s: string): string {
    if s != "" && s[|s| - 1] == '=' then s[..|s| - 1] else s
  }

  function DecodeLetters(s: string): Result<seq<byte>, DecodeError> {
    if |s| % 4 == 1 || !AllLetters(s) then Err(InvalidCharacter) else Ok(Undigits(Values(s)))
  }

  function Atob(s: string): Result<seq<byte>, DecodeError> {
    var stripped := StripAsciiSpace(s);
    DecodeLetters(if |stripped| % 4 == 0 then DropEquals(DropEquals(stripped)) else stripped)
  }

  function FromBase64(s: string): Result<seq<byte>, DecodeError> {
    var padded :- NormalizeBase64(s);
    Atob(padded)
  }

  // ---------------------------------------------------------------- exactly what decodes

  /** `d` letters followed by `k` equals signs decode. */
  predicate Accepts(d: nat, k: nat) {
    || (d % 4 == 0 && k == 0)
    || (d % 4 == 2 && k <= 2)
    || (d % 4 == 3 && k <= 1)
  }

  lemma {:induction false} StripsNothing(s: string)
    requires forall c | c in s :: !IsAsciiSpace(c)
    ensures StripAsciiSpace(s) == s
  {
    if s != "" {
      StripsNothing(s[1..]);
      assert s == [s[0]] + s[1..];
    }
  }

  lemma {:induction false} BodyOf(d: string, tail: string, letters: char -> bool)
    requires (forall c | c in d :: letters(c)) && (tail == "" || !letters(tail[0]))
    ensures Body(d + tail, letters) == d
  {
    if d == "" {
      assert d + tail == tail;
    } else {
      assert (d + tail)[1..] == d[1..] + tail;
      BodyOf(d[1..], tail, letters);
    }
  }

  lemma DropOne(d: string, k: nat)
    requires AllLetters(d)
    ensures DropEquals(d + Equals(k)) == d + Equals(if k == 0 then 0 else k - 1)
  {
    var s := d + Equals(k);
    if k > 0 {
      assert s[..|s| - 1] == d + Equals(k - 1);
    } else if s != "" {
      assert s[|s| - 1] in d;
    }
  }

  lemma AtobPadded(d: string, k: nat)
    requires AllLetters(d) && k <= 4 && (|d| + k) % 4 == 0
    ensures Atob(d + Equals(k)) == DecodeLetters(d + Equals(if k <= 2 then 0 else k - 2))
  {
    hide DecodeLetters, DropEquals;
    StripsNothing(d + Equals(k));
    DropOne(d, k);
    DropOne(d, if k == 0 then 0 else k - 1);
  }

  lemma LettersOnly(d: string, k: nat)
    requires AllLetters(d)
    ensures AllLetters(d + Equals(k)) <==> k == 0
    ensures d + Equals(0) == d
  {
    if k > 0 {
      assert (d + Equals(k))[|d|] == '=' && '=' in d + Equals(k);
    }
  }

  lemma PaddedText(d: string, tail: string)
    requires AllEquals(tail)
    ensures Pad(d + tail) == d + Equals(|tail| + PadCount(|d + tail|))
  {
    var n := PadCount(|d + tail|);
    assert forall i | 0 <= i < |tail| :: tail[i] in tail;
    assert tail + Equals(n) == Equals(|tail| + n);
  }

  lemma AcceptsByPadding(d: nat, k: nat)
    requires k <= 2 && (d + k) % 4 != 1
    ensures k + PadCount(d + k) <= 2 <==> Accepts(d, k)
    ensures k + PadCount(d + k) <= 4
    ensures Accepts(d, k) ==> d % 4 != 1
  {
  }

  lemma AcceptedLength(d: nat, k: nat)
    ensures Accepts(d, k) ==> (d + k) % 4 != 1
  {
  }

  lemma DecodesPadded(d: string, tail: string)
    requires AllLetters(d) && AllEquals(tail) && |tail| <= 2 && |d + tail| % 4 != 1
    ensures Atob(Pad(d + tail)) == if Accepts(|d|, |tail|) then Ok(Undigits(Values(d))) else Err(InvalidCharacter)
  {
    var k := |tail| + PadCount(|d + tail|);
    PaddedText(d, tail);
    AcceptsByPadding(|d|, |tail|);
    AtobPadded(d, k);
    LettersOnly(d, if k <= 2 then 0 else k - 2);
  }

  /**
   * Decoding, for every input: with the whitespace gone, `d` letters and then `k`
   * equals signs decode exactly when `Accepts`. A text the pattern refuses or of
   * length 1 modulo 4 is a RangeError; every other refusal comes from `atob`.
   */
  lemma DecodesExactly(s: string)
    ensures
      var compact := Compact(s);
      var d := Body(compact, IsLetter);
      FromBase64(s)
        == if !MatchesPattern(compact, IsLetter) || |compact| % 4 == 1 then Err(RangeError)
           else if Accepts(|d|, |compact| - |d|) then Ok(Undigits(Values(d)))
           else Err(InvalidCharacter)
  {
    var compact := Compact(s);
    var d := Body(compact, IsLetter);
    if MatchesPattern(compact, IsLetter) && |compact| % 4 != 1 {
      assert compact == d + compact[|d|..];
      DecodesPadded(d, compact[|d|..]);
    }
  }

  // ---------------------------------------------------------------- round trips

  lemma {:induction false} CompactsNothing(s: string)
    requires forall c | c in s :: !IsSpace(c)
    ensures Compact(s) == s
  {
    if s != "" {
      CompactsNothing(s[1..]);
      assert s == [s[0]] + s[1..];
    }
  }

  lemma NoSpaceInPadded(d: string, k: nat)
    requires AllLetters(d)
    ensures Compact(d + Equals(k)) == d + Equals(k)
    ensures Body(d + Equals(k), IsLetter) == d
    ensures AllEquals((d + Equals(k))[|d|..])
  {
    hide Compact, Body;
    forall c | c in d + Equals(k)
      ensures !IsSpace(c)
    {
      assert c in d || c == '=';
    }
    CompactsNothing(d + Equals(k));
    BodyOf(d, Equals(k), IsLetter);
  }

  lemma DecodesCompact(s: string, d: string, k: nat)
    requires AllLetters(d) && Compact(s) == d + Equals(k)
    ensures Accepts(|d|, k) ==> FromBase64(s) == Ok(Undigits(Values(d)))
    ensures k > 2 ==> FromBase64(s) == Err(RangeError)
  {
    hide FromBase64, Compact, Undigits, Values;
    BodyOf(d, Equals(k), IsLetter);
    assert Compact(s)[|d|..] == Equals(k);
    DecodesExactly(s);
  }

  /** An encoding and any part of its padding are accepted. */
  lemma DigitsAccepted(data: seq<byte>, k: nat)
    requires k <= PadCount(|Digits(data)|)
    ensures Accepts(|Digits(data)|, k)
  {
    hide Digits;
  }

  /**
   * Every text that is the encoding of `data` up to inserted whitespace and dropped
   * padding decodes to `data`.
   */
  lemma Base64Tolerant(data: seq<byte>, s: string, k: nat)
    requires Compact(s) == Text(Digits(data)) + Equals(k)
    requires k <= PadCount(|Digits(data)|)
    ensures FromBase64(s) == Ok(data)
  {
    DecodesCompact(s, Text(Digits(data)), k);
    DigitsAccepted(data, k);
    UndigitsDigits(data);
  }

  /** `fromBase64(toBase64(data))` is `data`. */
  lemma Base64RoundTrip(data: seq<byte>)
    ensures FromBase64(ToBase64(data)) == Ok(data)
  {
    var d := Text(Digits(data));
    NoSpaceInPadded(d, PadCount(|d|));
    Base64Tolerant(data, ToBase64(data), PadCount(|d|));
  }

  // ---------------------------------------------------------------- base64url

  function Swap(s: string, a: char, b: char): (r: string)
    ensures |r| == |s|
  {
    seq(|s|, i requires 0 <= i < |s| => if s[i] == a then b else s[i])
  }

  predicate IsUrlLetter(c: char) {
    'A' <= c <= 'Z' || 'a' <= c <= 'z' || '0' <= c <= '9' || c == '-' || c == '_'
  }

  function ToUrl(s: string): string {
    Swap(Swap(s, '+', '-'), '/', '_')
  }

  function FromUrl(s: string): string {
    Swap(Swap(s, '-', '+'), '_', '/')
  }

  function DropAllEquals(s: string): string {
    if s != "" && s[|s| - 1] == '=' then DropAllEquals(s[..|s| - 1]) else s
  }

  function ToBase64Url(data: seq<byte>): string {
    DropAllEquals(ToUrl(ToBase64(data)))
  }

  function NormalizeBase64Url(s: string): Result<string, DecodeError> {
    var compact := Compact(s);
    if !MatchesPattern(compact, IsUrlLetter) || |compact| % 4 == 1 then Err(RangeError) else Ok(FromUrl(compact))
  }

  function FromBase64Url(s: string): Result<seq<byte>, DecodeError> {
    var normalized :- NormalizeBase64Url(s);
    FromBase64(Pad(normalized))
  }

  predicate AllUrlLetters(s: string) {
    forall c | c in s :: IsUrlLetter(c)
  }

  lemma UrlInverse(d: string)
    requires AllLetters(d)
    ensures AllUrlLetters(ToUrl(d)) && FromUrl(ToUrl(d)) == d
  {
    assert forall i | 0 <= i < |d| :: d[i] in d;
  }

  lemma UrlToLetters(d: string, k: nat)
    requires AllUrlLetters(d)
    ensures AllLetters(FromUrl(d)) && FromUrl(d + Equals(k)) == FromUrl(d) + Equals(k)
  {
    assert forall i | 0 <= i < |d| :: d[i] in d;
  }

  lemma {:induction false} DropsPadding(d: string, k: nat)
    requires '=' !in d
    ensures DropAllEquals(d + Equals(k)) == d
  {
    var s := d + Equals(k);
    if k > 0 {
      assert s[..|s| - 1] == d + Equals(k - 1);
      DropsPadding(d, k - 1);
    } else if s != "" {
      assert s[|s| - 1] in d;
      assert s == d;
    }
  }

  /** The url form is the digits in the url alphabet: no `+`, no `/`, no `=`. */
  lemma UrlText(data: seq<byte>)
    ensures ToBase64Url(data) == ToUrl(Text(Digits(data)))
    ensures AllUrlLetters(ToBase64Url(data))
    ensures '+' !in ToBase64Url(data) && '/' !in ToBase64Url(data) && '=' !in ToBase64Url(data)
  {
    var d := Text(Digits(data));
    UrlInverse(d);
    assert ToUrl(Pad(d)) == ToUrl(d) + Equals(PadCount(|d|));
    assert '=' !in ToUrl(d);
    DropsPadding(ToUrl(d), PadCount(|d|));
  }

  /** Standard letters padded to a multiple of four decode unless more than two `=` were needed. */
  lemma PaddedDecodes(d: string, k: nat)
    requires AllLetters(d) && (|d| + k) % 4 == 0
    ensures k <= 2 ==> Accepts(|d|, k) && FromBase64(d + Equals(k)) == Ok(Undigits(Values(d)))
    ensures k > 2 ==> FromBase64(d + Equals(k)) == Err(RangeError)
  {
    hide FromBase64, Undigits, Values, Compact, Body;
    NoSpaceInPadded(d, k);
    DecodesCompact(d + Equals(k), d, k);
  }

  /** What `fromBase64Url` does with url letters and then `k` equals signs, whitespace aside. */
  lemma UrlDecodesBody(d: string, k: nat)
    requires AllUrlLetters(d) && k <= 2 && (|d| + k) % 4 != 1
    ensures AllLetters(FromUrl(d))
    ensures FromBase64(Pad(FromUrl(d + Equals(k))))
         == if Accepts(|d|, k) then Ok(Undigits(Values(FromUrl(d)))) else Err(RangeError)
  {
    hide FromBase64, Undigits, Values, Compact, Body;
    UrlToLetters(d, k);
    PaddedText(FromUrl(d), Equals(k));
    AcceptsByPadding(|d|, k);
    PaddedDecodes(FromUrl(d), k + PadCount(|d| + k));
  }

  lemma UrlNormalized(s: string, d: string, k: nat)
    requires AllUrlLetters(d) && k <= 2 && (|d| + k) % 4 != 1 && Compact(s) == d + Equals(k)
    ensures NormalizeBase64Url(s) == Ok(FromUrl(d + Equals(k)))
  {
    hide Compact, Body, FromUrl;
    var compact := d + Equals(k);
    BodyOf(d, Equals(k), IsUrlLetter);
    assert compact[|d|..] == Equals(k);
  }

  lemma SplitAtBody(compact: string, letters: char -> bool)
    requires MatchesPattern(compact, letters)
    ensures |compact| - |Body(compact, letters)| <= 2
    ensures compact == Body(compact, letters) + Equals(|compact| - |Body(compact, letters)|)
  {
    var tail := compact[|Body(compact, letters)|..];
    assert forall i | 0 <= i < |tail| :: tail[i] in tail;
  }

  /** What url letters and then `k` equals signs decode to, if anything. */
  function UrlOutcome(d: string, k: nat): Result<seq<byte>, DecodeError>
    requires AllUrlLetters(d)
  {
    UrlToLetters(d, 0);
    if Accepts(|d|, k) then Ok(Undigits(Values(FromUrl(d)))) else Err(RangeError)
  }

  lemma UrlDecodesText(s: string, d: string, k: nat)
    requires AllUrlLetters(d) && k <= 2 && (|d| + k) % 4 != 1 && Compact(s) == d + Equals(k)
    ensures FromBase64Url(s) == UrlOutcome(d, k)
  {
    UrlNormalized(s, d, k);
    UrlDecodesBody(d, k);
  }

  lemma UrlRefuses(s: string)
    requires !MatchesPattern(Compact(s), IsUrlLetter) || |Compact(s)| % 4 == 1
    ensures FromBase64Url(s) == Err(RangeError)
  {
    hide MatchesPattern, Compact;
  }

  /** The url form accepts the same letter and padding counts, and every refusal is a RangeError. */
  lemma UrlDecodesExactly(s: string)
    ensures
      var compact := Compact(s);
      var d := Body(compact, IsUrlLetter);
      FromBase64Url(s)
        == if MatchesPattern(compact, IsUrlLetter) then UrlOutcome(d, |compact| - |d|) else Err(RangeError)
  {
    hide Compact, Body, MatchesPattern, NormalizeBase64Url, FromBase64Url, UrlOutcome, Accepts;
    var compact := Compact(s);
    var d := Body(compact, IsUrlLetter);
    var k := |compact| - |d|;
    if MatchesPattern(compact, IsUrlLetter) {
      SplitAtBody(compact, IsUrlLetter);
      if |compact| % 4 == 1 {
        UrlRefuses(s);
        UnevenOutcome(d, k);
      } else {
        UrlDecodesText(s, d, k);
      }
    } else {
      UrlRefuses(s);
    }
  }

  /** A length of one past a multiple of four decodes to nothing, however it is split. */
  lemma UnevenOutcome(d: string, k: nat)
    requires AllUrlLetters(d) && (|d| + k) % 4 == 1
    ensures UrlOutcome(d, k) == Err(RangeError)
  {
    AcceptedLength(|d|, k);
  }

  /** The two alphabets differ in the error: one letter and one `=` passes the base64 check and fails in `atob`. */
  lemma OneLetterOneEquals(c: char)
    requires 'A' <= c <= 'Z'
    ensures FromBase64([c, '=']) == Err(InvalidCharacter)
    ensures FromBase64Url([c, '=']) == Err(RangeError)
  {
    assert [c] + Equals(1) == [c, '='];
    NoSpaceInPadded([c], 1);
    DecodesExactly([c, '=']);
    BodyOf([c], Equals(1), IsUrlLetter);
    UrlDecodesExactly([c, '=']);
  }

  lemma UrlHasNoSpace(d: string)
    requires AllUrlLetters(d)
    ensures Compact(d) == d && Body(d, IsUrlLetter) == d
  {
    assert d + "" == d;
    CompactsNothing(d);
    BodyOf(d, "", IsUrlLetter);
  }

  /** `fromBase64Url(toBase64Url(data))` is `data`. */
  lemma Base64UrlRoundTrip(data: seq<byte>)
    ensures FromBase64Url(ToBase64Url(data)) == Ok(data)
  {
    var d := Text(Digits(data));
    UrlText(data);
    UrlInverse(d);
    UrlHasNoSpace(ToUrl(d));
    UrlDecodesExactly(ToUrl(d));
    DigitsAccepted(data, 0);
    UndigitsDigits(data);
  }

  // ---------------------------------------------------------------- hex

  function HexDigit(n: nat): char
    requires n < 16
  {
    if n < 10 then (n + '0' as int) as char else (n - 10 + 'a' as int) as char
  }

  predicate IsHexDigit(c: char) {
    '0' <= c <= '9' || 'a' <= c <= 'f' || 'A' <= c <= 'F'
  }

  function HexValue(c: char): (n: nat)
    requires IsHexDigit(c)
    ensures n < 16
  {
    if '0' <= c <= '9' then c as int - '0' as int
    else if 'a' <= c <= 'f' then c as int - 'a' as int + 10
    else c as int - 'A' as int + 10
  }

  /** `toString(16)` padded to two characters, byte by byte. */
  function ToHex(data: seq<byte>): (s: string)
    ensures |s| == 2 * |data| && forall c | c in s :: IsHexDigit(c)
  {
    if data == [] then "" else [HexDigit(data[0] / 16), HexDigit(data[0] % 16)] + ToHex(data[1..])
  }

  function HexBytes(s: string): seq<byte>
    requires |s| % 2 == 0 && forall c | c in s :: IsHexDigit(c)
  {
    if s == "" then [] else [HexValue(s[0]) * 16 + HexValue(s[1])] + HexBytes(s[2..])
  }

  function FromHex(s: string): Result<seq<byte>, DecodeError> {
    if |s| % 2 == 0 && forall c | c in s :: IsHexDigit(c) then Ok(HexBytes(s)) else Err(RangeError)
  }

  function LowerHex(s: string): string
    requires forall c | c in s :: IsHexDigit(c)
  {
    seq(|s|, i requires 0 <= i < |s| => HexDigit(HexValue(s[i])))
  }

  lemma HexPair(b: byte)
    ensures HexValue(HexDigit(b / 16)) * 16 + HexValue(HexDigit(b % 16)) == b
  {
  }

  lemma HexPairs(hi: char, lo: char, rest: string)
    requires IsHexDigit(hi) && IsHexDigit(lo) && FromHex(rest).Ok?
    ensures FromHex([hi, lo] + rest) == Ok([HexValue(hi) * 16 + HexValue(lo)] + FromHex(rest).value)
  {
    assert ([hi, lo] + rest)[2..] == rest;
  }

  /** `fromHex(toHex(data))` is `data`. */
  lemma {:induction false} HexRoundTrip(data: seq<byte>)
    ensures FromHex(ToHex(data)) == Ok(data)
  {
    if data != [] {
      var b := data[0];
      HexRoundTrip(data[1..]);
      HexPairs(HexDigit(b / 16), HexDigit(b % 16), ToHex(data[1..]));
      HexPair(b);
      assert data == [b] + data[1..];
    }
  }

  /** And back: a hex text that decodes re-encodes to itself in lower case. */
  lemma {:induction false} HexBack(s: string)
    requires FromHex(s).Ok?
    ensures ToHex(FromHex(s).value) == LowerHex(s)
  {
    if s != "" {
      HexBack(s[2..]);
      PairToHex(HexValue(s[0]), HexValue(s[1]), HexBytes(s[2..]));
      LowerPair(s);
    }
  }

  lemma PairToHex(hi: nat, lo: nat, rest: seq<byte>)
    requires hi < 16 && lo < 16
    ensures ToHex([hi * 16 + lo] + rest) == [HexDigit(hi), HexDigit(lo)] + ToHex(rest)
  {
    assert ([hi * 16 + lo] + rest)[1..] == rest;
  }

  lemma LowerPair(s: string)
    requires |s| >= 2 && forall c | c in s :: IsHexDigit(c)
    ensures LowerHex(s) == [HexDigit(HexValue(s[0])), HexDigit(HexValue(s[1]))] + LowerHex(s[2..])
  {
  }
}
