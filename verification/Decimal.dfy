/** Base-10 digits: how JavaScript prints a non-negative integer and reads one back. */
module Decimal {

  predicate IsDigit(c: char) {
    '0' <= c <= '9'
  }

  predicate AllDigits(s: string) {
    forall i | 0 <= i < |s| :: IsDigit(s[i])
  }

  function DigitValue(c: char): nat
    requires IsDigit(c)
  {
    c as int - '0' as int
  }

  function DigitChar(d: nat): (c: char)
    requires d < 10
    ensures IsDigit(c) && DigitValue(c) == d
  {
    ('0' as int + d) as char
  }

  /** `String(n)` for an integer below 10^21. */
  function Print(n: nat): (s: string)
    ensures |s| > 0 && AllDigits(s)
  {
    if n < 10 then [DigitChar(n)] else Print(n / 10) + [DigitChar(n % 10)]
  }

  /** The number a run of digits denotes; the empty run denotes 0. */
  function Value(s: string): nat
    requires AllDigits(s)
  {
    if |s| == 0 then 0 else 10 * Value(s[..|s| - 1]) + DigitValue(s[|s| - 1])
  }

  /** Reading back what was printed gives the number. */
  lemma {:induction false} ValueOfPrint(n: nat)
    ensures Value(Print(n)) == n
  {
    if n >= 10 {
      var s := Print(n);
      assert s[..|s| - 1] == Print(n / 10);
      ValueOfPrint(n / 10);
    } else {
      assert Print(n)[..0] == "";
    }
  }

  lemma PrintInjective(m: nat, n: nat)
    requires Print(m) == Print(n)
    ensures m == n
  {
    ValueOfPrint(m);
    ValueOfPrint(n);
  }

  // ---------------------------------------------------------------- what digits mean

  function Pow10(n: nat): nat {
    if n == 0 then 1 else 10 * Pow10(n - 1)
  }

  /** The number whose digits, the most significant first, are `ds`. */
  function Weighted(ds: seq<nat>): nat {
    if ds == [] then 0 else ds[0] * Pow10(|ds| - 1) + Weighted(ds[1..])
  }

  /** Each character is the digit at its place in the row of the ten digits. */
  predicate Spells(s: string, ds: seq<nat>) {
    |s| == |ds| && forall i | 0 <= i < |s| :: ds[i] < 10 && s[i] == "0123456789"[ds[i]]
  }

  /** The usual way to write a number: no leading zero, unless it is zero. */
  ghost predicate Numeral(s: string, n: nat) {
    s != "" && (s[0] == '0' ==> s == "0") && exists ds :: Spells(s, ds) && Weighted(ds) == n
  }

  lemma DigitsInOrder(c: char, d: nat)
    requires d < 10
    ensures IsDigit(c) <==> c in "0123456789"
    ensures c == "0123456789"[d] <==> IsDigit(c) && DigitValue(c) == d
  {
  }

  /** A printed number ends in the digit of its remainder, after the print of what is left. */
  lemma PrintsLastDigit(n: nat)
    ensures Print(n) == (if n < 10 then "" else Print(n / 10)) + ["0123456789"[n % 10]]
  {
    DigitsInOrder(DigitChar(n % 10), n % 10);
  }

  lemma {:induction false} WeightedSnoc(ds: seq<nat>, d: nat)
    ensures Weighted(ds + [d]) == 10 * Weighted(ds) + d
  {
    if ds == [] {
      assert [d][1..] == [];
      assert [] + [d] == [d];
    } else {
      assert (ds + [d])[1..] == ds[1..] + [d];
      WeightedSnoc(ds[1..], d);
      assert ds[0] * Pow10(|ds|) == ds[0] * 10 * Pow10(|ds| - 1);
    }
  }

  /** The value of a run of digits is the sum of its digits, each times its power of ten. */
  lemma {:induction false} ValueIsSum(s: string, ds: seq<nat>)
    requires Spells(s, ds)
    ensures AllDigits(s) && Value(s) == Weighted(ds)
  {
    forall i | 0 <= i < |s|
      ensures IsDigit(s[i]) && DigitValue(s[i]) == ds[i]
    {
      DigitsInOrder(s[i], ds[i]);
    }
    if s != "" {
      var n := |s| - 1;
      ValueIsSum(s[..n], ds[..n]);
      WeightedSnoc(ds[..n], ds[n]);
      assert ds == ds[..n] + [ds[n]];
    }
  }

  lemma {:induction false} PrintOfValue(s: string)
    requires s != "" && AllDigits(s) && (s[0] == '0' ==> s == "0")
    ensures Print(Value(s)) == s
    ensures Value(s) == 0 ==> s == "0"
  {
    var n := |s| - 1;
    assert s == s[..n] + [s[n]];
    assert DigitChar(DigitValue(s[n])) == s[n];
    if n > 0 {
      PrintOfValue(s[..n]);
      assert s[..n] != "0" by { assert s[..n][0] == s[0]; }
    } else {
      assert s[..0] == "";
    }
  }

  /** A number is printed as its numeral, and has no other. */
  lemma PrintIsNumeral(s: string, n: nat)
    ensures s == Print(n) <==> Numeral(s, n)
  {
    if s == Print(n) {
      var ds := seq(|s|, i requires 0 <= i < |s| => DigitValue(s[i]));
      forall i | 0 <= i < |s|
        ensures ds[i] < 10 && s[i] == "0123456789"[ds[i]]
      {
        DigitsInOrder(s[i], ds[i]);
      }
      ValueIsSum(s, ds);
      ValueOfPrint(n);
      NoLeadingZero(n);
    }
    if Numeral(s, n) {
      var ds :| Spells(s, ds) && Weighted(ds) == n;
      ValueIsSum(s, ds);
      PrintOfValue(s);
    }
  }

  lemma {:induction false} NoLeadingZero(n: nat)
    ensures Print(n)[0] == '0' <==> n == 0
    ensures n == 0 ==> Print(n) == "0"
  {
    if n >= 10 {
      NoLeadingZero(n / 10);
    }
  }

  /** The end of the maximal run of digits that starts at `i`. */
  function DigitsEnd(s: string, i: nat): (j: nat)
    requires i <= |s|
    ensures i <= j <= |s|
    ensures AllDigits(s[i..j])
    ensures j < |s| ==> !IsDigit(s[j])
    decreases |s| - i
  {
    if i == |s| || !IsDigit(s[i]) then i else DigitsEnd(s, i + 1)
  }

  /** Only one end fits: everything before it is a digit and the next character is not. */
  lemma {:induction false} DigitsEndUnique(s: string, i: nat, j: nat)
    requires i <= j <= |s|
    requires AllDigits(s[i..j])
    requires j < |s| ==> !IsDigit(s[j])
    ensures DigitsEnd(s, i) == j
    decreases j - i
  {
    if i < j {
      assert s[i..j][0] == s[i];
      assert s[i + 1..j] == s[i..j][1..];
      DigitsEndUnique(s, i + 1, j);
    }
  }
}
