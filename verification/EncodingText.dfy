/** Base64, base64url and hex in terms of the characters themselves (sections 4, 5 and 8 of RFC 4648). */
module EncodingText {
  import opened Wrappers
  import opened Utf8
  import opened JsText
  import opened Encoding

  // ---------------------------------------------------------------- alphabets

  /** The 64 letters, in the order of the numbers they stand for. */
  function Alphabet(): (s: string)
    ensures |s| == 64
  {
    "ABCDEFGHIJKLMNOPQRSTUVWXYZ" + "abcdefghijklmnopqrstuvwxyz" + "0123456789" + "+/"
  }

  function UrlAlphabet(): (s: string)
    ensures |s| == 64
  {
    "ABCDEFGHIJKLMNOPQRSTUVWXYZ" + "abcdefghijklmnopqrstuvwxyz" + "0123456789" + "-_"
  }

  lemma UpperPlace(n: nat)
    requires n < 26
    ensures "ABCDEFGHIJKLMNOPQRSTUVWXYZ"[n] == (n + 'A' as int) as char
  {
  }

  lemma LowerPlace(n: nat)
    requires n < 26
    ensures "abcdefghijklmnopqrstuvwxyz"[n] == (n + 'a' as int) as char
  {
  }

  lemma LetterIsPlace(n: Sextet)
    ensures Letter(n) == Alphabet()[n]
    ensures ToUrl([Letter(n)]) == [UrlAlphabet()[n]] && FromUrl([UrlAlphabet()[n]]) == [Letter(n)]
  {
    if n < 26 {
      UpperPlace(n);
    } else if n < 52 {
      LowerPlace(n - 26);
    }
  }

  lemma LettersInOrder(c: char, n: Sextet)
    ensures Letter(n) == Alphabet()[n]
    ensures IsLetter(c) <==> c in Alphabet()
    ensures IsLetter(c) && LetterValue(c) == n <==> c == Alphabet()[n]
  {
    LetterIsPlace(n);
    LetterRoundTrip(n);
    hide Alphabet;
    if IsLetter(c) {
      LetterIsPlace(LetterValue(c));
      assert Letter(LetterValue(c)) == c;
    }
    if c in Alphabet() {
      var i :| 0 <= i < 64 && Alphabet()[i] == c;
      LetterIsPlace(i);
      LetterRoundTrip(i);
    }
  }

  lemma UrlLettersInOrder(c: char, n: Sextet)
    ensures ToUrl([Letter(n)]) == [UrlAlphabet()[n]] && FromUrl([UrlAlphabet()[n]]) == [Letter(n)]
    ensures IsUrlLetter(c) <==> c in UrlAlphabet()
  {
    LetterIsPlace(n);
    hide Alphabet, UrlAlphabet;
    if IsUrlLetter(c) {
      UrlLetterIsThere(c);
    }
    if c in UrlAlphabet() {
      var i :| 0 <= i < 64 && UrlAlphabet()[i] == c;
      LetterIsPlace(i);
      LetterRoundTrip(i);
      assert ToUrl([Letter(i)]) == [c];
      UrlInverse([Letter(i)]);
      assert c in ToUrl([Letter(i)]);
    }
  }

  lemma UrlLetterIsThere(c: char)
    requires IsUrlLetter(c)
    ensures c in UrlAlphabet()
  {
    var d := FromUrl([c]);
    assert AllUrlLetters([c]);
    UrlToLetters([c], 0);
    assert d[0] in d && IsLetter(d[0]);
    LetterIsPlace(LetterValue(d[0]));
    assert Letter(LetterValue(d[0])) == d[0] && ToUrl([d[0]]) == [c];
    hide UrlAlphabet;
    assert [UrlAlphabet()[LetterValue(d[0])]][0] == [c][0];
  }

  // ---------------------------------------------------------------- encoding

  /** Up to three bytes from position `i` on, as one number of 24 bits; missing bytes count as zero. */
  function Group(data: seq<byte>, i: nat): (v: nat)
    requires i < |data|
    ensures v < 0x100_0000
  {
    var second: nat := if i + 1 < |data| then data[i + 1] else 0;
    var third: nat := if i + 2 < |data| then data[i + 2] else 0;
    0x1_0000 * data[i] as nat + 0x100 * second + third
  }

  lemma SextetsOf(x: byte, y: byte, z: byte)
    ensures
      var v := 0x1_0000 * x as nat + 0x100 * y as nat + z;
      && x / 4 == v / 0x4_0000 && Mid1(x, y) == v / 0x1000 % 64 && Mid2(y, z) == v / 64 % 64 && z % 64 == v % 64
  {
    var a, b: nat, c, d: nat, e, f: nat := x / 4, x % 4, y / 16, y % 16, z / 64, z % 64;
    var v := 0x1_0000 * x as nat + 0x100 * y as nat + z;
    assert v == 0x4_0000 * a + 0x1000 * (16 * b + c) + 64 * (4 * d + e) + f;
    SplitSix(0x1000 * a + 64 * (16 * b + c) + (4 * d + e), f);
    SplitSix(64 * a + (16 * b + c), 4 * d + e);
    SplitSix(a, 16 * b + c);
    assert v / 64 / 64 == v / 0x1000 && v / 0x1000 / 64 == v / 0x4_0000;
  }

  lemma SplitSix(high: nat, low: nat)
    requires low < 64
    ensures (64 * high + low) / 64 == high && (64 * high + low) % 64 == low
  {
  }

  /** How many digits stand for the bytes from position `i` on, up to four. */
  function GroupDigits(data: seq<byte>, i: nat): nat
    requires i < |data|
  {
    if |data| - i >= 3 then 4 else |data| - i + 1
  }

  /** The digits of the bytes from `3 * g` on are six bits each of their number. */
  predicate DigitsOf(d: seq<Sextet>, data: seq<byte>, g: nat)
    requires 3 * g < |data|
  {
    var v, n := Group(data, 3 * g), GroupDigits(data, 3 * g);
    && |d| >= 4 * g + n && (3 * g + 3 >= |data| ==> |d| == 4 * g + n)
    && d[4 * g] == v / 0x4_0000 && d[4 * g + 1] == v / 0x1000 % 64
    && (n > 2 ==> d[4 * g + 2] == v / 64 % 64)
    && (n > 3 ==> d[4 * g + 3] == v % 64)
  }

  lemma FirstDigits(data: seq<byte>)
    requires data != []
    ensures DigitsOf(Digits(data), data, 0)
  {
    SextetsOf(data[0], if |data| > 1 then data[1] else 0, if |data| > 2 then data[2] else 0);
    hide Mid1, Mid2;
  }

  lemma NextDigits(p: Sextet, q: Sextet, r: Sextet, s: Sextet, d: seq<Sextet>, data: seq<byte>, g: nat)
    requires g > 0 && 3 * g < |data| && DigitsOf(d, data[3..], g - 1)
    ensures DigitsOf([p, q, r, s] + d, data, g)
  {
    assert Group(data[3..], 3 * (g - 1)) == Group(data, 3 * g);
    hide Group;
  }

  lemma {:induction false} DigitsAt(data: seq<byte>, g: nat)
    requires 3 * g < |data|
    ensures DigitsOf(Digits(data), data, g)
    decreases g
  {
    if g == 0 {
      FirstDigits(data);
    } else {
      hide DigitsOf, Mid1, Mid2;
      DigitsAt(data[3..], g - 1);
      NextDigits(data[0] / 4, Mid1(data[0], data[1]), Mid2(data[1], data[2]), data[2] % 64, Digits(data[3..]), data, g);
    }
  }

  lemma TextAt(digits: seq<Sextet>, i: nat)
    requires i < |digits|
    ensures Text(digits)[i] == Alphabet()[digits[i]]
  {
    LettersInOrder(Text(digits)[i], digits[i]);
  }

  /** Three bytes from position `3 * g` on as four letters of six bits each, with `=` for those without a bit. */
  predicate FourLetters(text: string, data: seq<byte>, g: nat)
    requires 3 * g < |data|
  {
    var v := Group(data, 3 * g);
    && 4 * g + 4 <= |text|
    && text[4 * g] == Alphabet()[v / 0x4_0000]
    && text[4 * g + 1] == Alphabet()[v / 0x1000 % 64]
    && text[4 * g + 2] == (if 3 * g + 1 < |data| then Alphabet()[v / 64 % 64] else '=')
    && text[4 * g + 3] == (if 3 * g + 2 < |data| then Alphabet()[v % 64] else '=')
  }

  lemma PadAt(d: string, i: nat)
    ensures i < |d| ==> Pad(d)[i] == d[i]
    ensures |d| <= i < |Pad(d)| ==> Pad(d)[i] == '='
  {
  }

  lemma Base64Length(data: seq<byte>)
    ensures |ToBase64(data)| == (|data| + 2) / 3 * 4
  {
    hide Digits, Text, PadCount;
    PaddedLength(|data| / 3, |data| % 3, |Digits(data)|);
    assert |data| == 3 * (|data| / 3) + |data| % 3;
  }

  lemma PaddedLength(q: nat, r: nat, d: nat)
    requires r < 3 && d == 4 * q + (if r == 0 then 0 else r + 1)
    ensures d + PadCount(d) == (3 * q + r + 2) / 3 * 4
  {
    if r == 0 {
      assert (3 * q + 2) / 3 == q && d % 4 == 0;
    } else {
      assert (3 * q + r + 2) / 3 == q + 1 && d % 4 == r + 1;
    }
  }

  /** The base64 text has four letters for every three bytes, and no more. */
  lemma Base64Letters(data: seq<byte>, g: nat)
    requires 3 * g < |data|
    ensures |ToBase64(data)| == (|data| + 2) / 3 * 4 && FourLetters(ToBase64(data), data, g)
  {
    hide Digits, Text, Alphabet, Group, Pad;
    var d := Digits(data);
    Base64Length(data);
    DigitsAt(data, g);
    LetterOrPad(d, 4 * g);
    LetterOrPad(d, 4 * g + 1);
    LetterOrPad(d, 4 * g + 2);
    LetterOrPad(d, 4 * g + 3);
  }

  lemma LetterOrPad(digits: seq<Sextet>, i: nat)
    ensures i < |digits| ==> i < |Pad(Text(digits))| && Pad(Text(digits))[i] == Alphabet()[digits[i]]
    ensures |digits| <= i < |Pad(Text(digits))| ==> Pad(Text(digits))[i] == '='
  {
    hide Alphabet, Text;
    if i < |digits| {
      TextAt(digits, i);
    }
    PadAt(Text(digits), i);
  }

  /** The same bits in the url alphabet, and nothing for letters without a bit. */
  predicate UrlGroup(text: string, data: seq<byte>, g: nat)
    requires 3 * g < |data|
  {
    var v := Group(data, 3 * g);
    && 4 * g + (if 3 * g + 2 < |data| then 4 else if 3 * g + 1 < |data| then 3 else 2) <= |text|
    && text[4 * g] == UrlAlphabet()[v / 0x4_0000]
    && text[4 * g + 1] == UrlAlphabet()[v / 0x1000 % 64]
    && (3 * g + 1 < |data| ==> text[4 * g + 2] == UrlAlphabet()[v / 64 % 64])
    && (3 * g + 2 < |data| ==> text[4 * g + 3] == UrlAlphabet()[v % 64])
  }

  lemma UrlLetters(data: seq<byte>, g: nat)
    requires 3 * g < |data|
    ensures |ToBase64Url(data)| == (4 * |data| + 2) / 3 && UrlGroup(ToBase64Url(data), data, g)
  {
    hide Digits, Text, ToBase64Url, UrlAlphabet;
    var d := Digits(data);
    UrlText(data);
    DigitsAt(data, g);
    UrlAt(d, 4 * g);
    UrlAt(d, 4 * g + 1);
    if 3 * g + 1 < |data| {
      UrlAt(d, 4 * g + 2);
    }
    if 3 * g + 2 < |data| {
      UrlAt(d, 4 * g + 3);
    }
  }

  lemma UrlAt(digits: seq<Sextet>, i: nat)
    requires i < |digits|
    ensures ToUrl(Text(digits))[i] == UrlAlphabet()[digits[i]]
  {
    UrlLettersInOrder('A', digits[i]);
    assert ToUrl([Letter(digits[i])])[0] == ToUrl(Text(digits))[i];
  }

  // ---------------------------------------------------------------- decoding

  /** White space is dropped, wherever it stands, and nothing else. */
  lemma {:induction false} CompactDrops(a: string, c: char, b: string)
    ensures Compact(a + [c] + b) == Compact(a) + (if IsSpace(c) then "" else [c]) + Compact(b)
  {
    if a == "" {
      assert a + [c] + b == [c] + b;
      assert ([c] + b)[1..] == b;
    } else {
      assert (a + [c] + b)[1..] == a[1..] + [c] + b;
      CompactDrops(a[1..], c, b);
    }
  }

  /** The letters of the text are these numbers. */
  predicate Spells(s: string, digits: seq<Sextet>, letters: string)
    requires |letters| == 64
  {
    |s| == |digits| && forall i | 0 <= i < |s| :: s[i] == letters[digits[i]]
  }

  /** The bits of four letters make three bytes, of three two and of two one; what is left over is dropped. */
  ghost predicate HoldsBits(data: seq<byte>, digits: seq<Sextet>) {
    && |data| == |digits| / 4 * 3 + (if |digits| % 4 == 0 then 0 else |digits| % 4 - 1)
    && forall i | 0 <= i < |data| :: data[i] == ByteOf(digits, i / 3, i % 3)
  }

  function DigitAt(digits: seq<Sextet>, i: nat): nat {
    if i < |digits| then digits[i] else 0
  }

  /** The four digits from `i` on as one number of 24 bits; digits that are missing count as zero. */
  function FourDigits(digits: seq<Sextet>, i: nat): nat {
    0x4_0000 * DigitAt(digits, i) + 0x1000 * DigitAt(digits, i + 1) + 64 * DigitAt(digits, i + 2)
    + DigitAt(digits, i + 3)
  }

  /** The `k`-th byte of the four digits from `4 * g` on. */
  function ByteOf(digits: seq<Sextet>, g: nat, k: nat): nat {
    var v := FourDigits(digits, 4 * g);
    if k == 0 then v / 0x1_0000 else if k == 1 then v / 0x100 % 0x100 else v % 0x100
  }

  lemma BytesOf(p: Sextet, q: Sextet, r: Sextet, s: Sextet)
    ensures
      var v := 0x4_0000 * p as nat + 0x1000 * q as nat + 64 * r as nat + s;
      && First(p, q) == v / 0x1_0000 && Second(q, r) == v / 0x100 % 0x100 && Third(r, s) == v % 0x100
  {
    var a, b: nat, c, d: nat := q / 16, q % 16, r / 4, r % 4;
    var v := 0x4_0000 * p as nat + 0x1000 * q as nat + 64 * r as nat + s;
    assert v == 0x1_0000 * (4 * p as nat + a) + 0x100 * (16 * b + c) + (64 * d + s);
    SplitEight(0x100 * (4 * p as nat + a) + (16 * b + c), 64 * d + s);
    SplitEight(4 * p as nat + a, 16 * b + c);
    assert v / 0x100 / 0x100 == v / 0x1_0000;
  }

  lemma SplitEight(high: nat, low: nat)
    requires low < 256
    ensures (256 * high + low) / 256 == high && (256 * high + low) % 256 == low
  {
  }

  lemma {:induction false} UndigitsLength(digits: seq<Sextet>)
    requires |digits| % 4 != 1
    ensures |Undigits(digits)| == |digits| / 4 * 3 + (if |digits| % 4 == 0 then 0 else |digits| % 4 - 1)
  {
    if |digits| > 3 {
      UndigitsLength(digits[4..]);
    }
  }

  lemma {:induction false} UndigitsAt(digits: seq<Sextet>, i: nat)
    requires |digits| % 4 != 1 && i < |Undigits(digits)|
    ensures Undigits(digits)[i] == ByteOf(digits, i / 3, i % 3)
  {
    if i < 3 {
      FirstBytes(digits, i);
    } else {
      hide First, Second, Third, ByteOf;
      assert Undigits(digits)[i] == Undigits(digits[4..])[i - 3];
      UndigitsAt(digits[4..], i - 3);
      assert (i - 3) / 3 == i / 3 - 1 && (i - 3) % 3 == i % 3;
      NextBytes(digits, i / 3, i % 3);
    }
  }

  lemma UndigitsBits(digits: seq<Sextet>)
    requires |digits| % 4 != 1
    ensures HoldsBits(Undigits(digits), digits)
  {
    hide Undigits, ByteOf;
    UndigitsLength(digits);
    forall i | 0 <= i < |Undigits(digits)|
      ensures Undigits(digits)[i] == ByteOf(digits, i / 3, i % 3)
    {
      UndigitsAt(digits, i);
    }
  }

  lemma FirstBytes(digits: seq<Sextet>, k: nat)
    requires |digits| % 4 != 1 && k < 3 && k < |Undigits(digits)|
    ensures Undigits(digits)[k] == ByteOf(digits, 0, k)
  {
    var q, r, t := DigitAt(digits, 1), DigitAt(digits, 2), DigitAt(digits, 3);
    BytesOf(digits[0], q, r, t);
    FirstOf(digits, q, r, t);
    assert FourDigits(digits, 0) == 0x4_0000 * digits[0] as nat + 0x1000 * q + 64 * r + t;
    hide First, Second, Third, FourDigits, Undigits;
  }

  lemma FirstOf(digits: seq<Sextet>, q: Sextet, r: Sextet, t: Sextet)
    requires |digits| % 4 != 1 && digits != []
    requires q == DigitAt(digits, 1) && r == DigitAt(digits, 2) && t == DigitAt(digits, 3)
    ensures forall k | 0 <= k < 3 && k < |Undigits(digits)| ::
              Undigits(digits)[k]
              == if k == 0 then First(digits[0], q) else if k == 1 then Second(q, r) else Third(r, t)
  {
    hide First, Second, Third;
  }

  lemma NextBytes(digits: seq<Sextet>, g: nat, k: nat)
    requires |digits| > 3 && g > 0
    ensures ByteOf(digits[4..], g - 1, k) == ByteOf(digits, g, k)
  {
  }

  lemma LettersSpell(d: string, digits: seq<Sextet>)
    requires Spells(d, digits, Alphabet())
    ensures AllLetters(d) && Values(d) == digits
  {
    hide Alphabet;
    forall i | 0 <= i < |d|
      ensures IsLetter(d[i]) && LetterValue(d[i]) == digits[i]
    {
      LettersInOrder(d[i], digits[i]);
    }
  }

  /**
   * A text that is letters and then `k` equals signs, white space aside: when it decodes,
   * to which bytes, and what refuses it.
   */
  lemma DecodesLetters(s: string, digits: seq<Sextet>, d: string, k: nat)
    requires Spells(d, digits, Alphabet())
    requires Compact(s) == d + Equals(k)
    ensures
      if k > 2 || (|d| + k) % 4 == 1 then FromBase64(s) == Err(RangeError)
      else if |d| % 4 == 1 || (|d| % 4 == 0 && k > 0) || (|d| % 4 == 3 && k > 1)
      then FromBase64(s) == Err(InvalidCharacter)
      else FromBase64(s).Ok? && HoldsBits(FromBase64(s).value, digits)
  {
    LettersSpell(d, digits);
    BodyOf(d, Equals(k), IsLetter);
    assert Compact(s)[|d|..] == Equals(k);
    hide FromBase64, Compact, Undigits, Values, Body;
    DecodesExactly(s);
    if |d| % 4 != 1 {
      UndigitsBits(digits);
    }
  }

  /** Any other text is refused: a character that is neither letter, white space nor `=`, or an `=` before a letter. */
  lemma RefusesOthers(s: string, d: string, c: char, rest: string)
    requires Compact(s) == d + [c] + rest && AllLetters(d)
    requires c !in Alphabet()
    requires c != '=' || exists x :: x in rest && x != '='
    ensures FromBase64(s) == Err(RangeError)
  {
    LettersInOrder(c, 0);
    hide FromBase64, Compact, Body;
    var compact := Compact(s);
    assert compact == d + ([c] + rest);
    BodyOf(d, [c] + rest, IsLetter);
    assert compact[|d|..] == [c] + rest;
    if c == '=' {
      var x :| x in rest && x != '=';
      assert x in [c] + rest;
    } else {
      assert c in [c] + rest;
    }
    DecodesExactly(s);
  }

  lemma UrlSpells(d: string, digits: seq<Sextet>)
    requires Spells(d, digits, UrlAlphabet())
    ensures AllUrlLetters(d) && AllLetters(FromUrl(d)) && Values(FromUrl(d)) == digits
  {
    hide UrlAlphabet, Alphabet;
    forall i | 0 <= i < |d|
      ensures IsUrlLetter(d[i]) && IsLetter(FromUrl(d)[i]) && LetterValue(FromUrl(d)[i]) == digits[i]
    {
      UrlLettersInOrder(d[i], digits[i]);
      assert d[i] in UrlAlphabet();
      assert FromUrl([d[i]])[0] == FromUrl(d)[i];
      LettersInOrder(FromUrl(d)[i], digits[i]);
    }
  }

  /** The same of the url form, whose refusals are all RangeErrors. */
  lemma UrlDecodesLetters(s: string, digits: seq<Sextet>, d: string, k: nat)
    requires Spells(d, digits, UrlAlphabet())
    requires Compact(s) == d + Equals(k)
    ensures
      if k > 2 || |d| % 4 == 1 || (|d| % 4 == 0 && k > 0) || (|d| % 4 == 3 && k > 1)
      then FromBase64Url(s) == Err(RangeError)
      else FromBase64Url(s).Ok? && HoldsBits(FromBase64Url(s).value, digits)
  {
    UrlSpells(d, digits);
    BodyOf(d, Equals(k), IsUrlLetter);
    assert Compact(s)[|d|..] == Equals(k);
    hide FromBase64Url, Compact, Undigits, Values, Body, FromUrl;
    UrlDecodesExactly(s);
    if |d| % 4 != 1 {
      UndigitsBits(digits);
    }
  }

  lemma UrlRefusesOthers(s: string, d: string, c: char, rest: string)
    requires Compact(s) == d + [c] + rest && AllUrlLetters(d) && c !in UrlAlphabet()
    requires c != '=' || exists x :: x in rest && x != '='
    ensures FromBase64Url(s) == Err(RangeError)
  {
    UrlLettersInOrder(c, 0);
    hide FromBase64Url, Compact, Body, UrlAlphabet;
    var compact := Compact(s);
    assert compact == d + ([c] + rest);
    BodyOf(d, [c] + rest, IsUrlLetter);
    assert compact[|d|..] == [c] + rest;
    if c == '=' {
      var x :| x in rest && x != '=';
      assert x in [c] + rest;
    } else {
      assert c in [c] + rest;
    }
    UrlDecodesExactly(s);
  }

  // ---------------------------------------------------------------- hex

  lemma HexInOrder(c: char, n: nat)
    requires n < 16
    ensures HexDigit(n) == "0123456789abcdef"[n]
    ensures IsHexDigit(c) <==> c in "0123456789abcdef" || c in "ABCDEF"
    ensures IsHexDigit(c) && HexValue(c) == n <==> c == "0123456789abcdef"[n] || c == "0123456789ABCDEF"[n]
  {
  }

  /** Each byte is written as two digits, lower case, the high one first. */
  lemma {:induction false} HexText(data: seq<byte>, i: nat)
    requires i < |data|
    ensures
      var digits := "0123456789abcdef";
      ToHex(data)[2 * i] == digits[data[i] / 16] && ToHex(data)[2 * i + 1] == digits[data[i] % 16]
  {
    HexInOrder('0', data[i] / 16);
    HexInOrder('0', data[i] % 16);
    hide HexDigit;
    if i > 0 {
      HexText(data[1..], i - 1);
      assert ToHex(data)[2 * i] == ToHex(data[1..])[2 * (i - 1)];
      assert ToHex(data)[2 * i + 1] == ToHex(data[1..])[2 * (i - 1) + 1];
    }
  }

  /** A text decodes if and only if it is pairs of digits of either case, and then to the bytes the pairs denote. */
  lemma HexDecodes(s: string, digits: seq<nat>)
    requires |digits| == |s|
    requires forall i | 0 <= i < |s| ::
               digits[i] < 16 && (s[i] == "0123456789abcdef"[digits[i]] || s[i] == "0123456789ABCDEF"[digits[i]])
    ensures FromHex(s).Ok? <==> |s| % 2 == 0
    ensures FromHex(s).Ok? ==>
              && |FromHex(s).value| == |s| / 2
              && forall i | 0 <= i < |s| / 2 :: FromHex(s).value[i] == 16 * digits[2 * i] + digits[2 * i + 1]
  {
    forall i | 0 <= i < |s|
      ensures IsHexDigit(s[i]) && HexValue(s[i]) == digits[i]
    {
      HexInOrder(s[i], digits[i]);
    }
    hide HexBytes;
    if |s| % 2 == 0 {
      forall i | 0 <= i < |s| / 2
        ensures |HexBytes(s)| == |s| / 2 && HexBytes(s)[i] == 16 * digits[2 * i] + digits[2 * i + 1]
      {
        HexByteAt(s, i);
      }
      HexLength(s);
    }
  }

  lemma {:induction false} HexLength(s: string)
    requires |s| % 2 == 0 && forall c | c in s :: IsHexDigit(c)
    ensures |HexBytes(s)| == |s| / 2
  {
    if s != "" {
      HexLength(s[2..]);
    }
  }

  lemma {:induction false} HexByteAt(s: string, i: nat)
    requires |s| % 2 == 0 && i < |s| / 2 && forall c | c in s :: IsHexDigit(c)
    ensures |HexBytes(s)| == |s| / 2
    ensures HexBytes(s)[i] == HexValue(s[2 * i]) * 16 + HexValue(s[2 * i + 1])
  {
    hide HexValue;
    HexLength(s);
    if i > 0 {
      HexByteAt(s[2..], i - 1);
      assert HexBytes(s)[i] == HexBytes(s[2..])[i - 1];
      assert s[2..][2 * (i - 1)] == s[2 * i] && s[2..][2 * (i - 1) + 1] == s[2 * i + 1];
    }
  }

  lemma HexRefuses(s: string, c: char)
    requires c in s && c !in "0123456789abcdef" && c !in "ABCDEF"
    ensures FromHex(s) == Err(RangeError)
  {
    HexInOrder(c, 0);
  }
}
