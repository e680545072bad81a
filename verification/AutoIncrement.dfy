/** Version and build-number bumping (apps/cli/src/lib/auto-increment.ts). */
module AutoIncrement {
  import opened Wrappers
  import opened Decimal
  import opened JsText

  /** From here on a JavaScript number no longer holds every integer: 2^53. */
  const EXACT: int := 0x20_0000_0000_0000

  datatype BumpError = NoVersion | NotSemver | NotAnInteger

  /** What `String(n + 1)` prints for an integer past `EXACT`, where the addition rounds. */
  type Rounding = int -> string

  // ---------------------------------------------------------------- versions

  datatype Version = Version(major: string, minor: string, patch: string, suffix: string)

  predicate Number(s: string) {
    s != "" && AllDigits(s)
  }

  predicate WellFormed(v: Version) {
    && Number(v.major) && Number(v.minor) && Number(v.patch)
    && (v.suffix == "" || !IsDigit(v.suffix[0]))
    && forall c | c in v.suffix :: !IsLineTerminator(c)
  }

  function Format(v: Version): string {
    v.major + "." + v.minor + "." + v.patch + v.suffix
  }

  /** A maximal run of digits and what follows it. */
  function SplitDigits(s: string): (r: (string, string))
    ensures r.0 + r.1 == s && AllDigits(r.0) && (r.1 == "" || !IsDigit(r.1[0]))
  {
    var i := DigitsEnd(s, 0);
    assert s[0..i] == s[..i];
    (s[..i], s[i..])
  }

  /** `^(\d+)\.(\d+)\.(\d+)(.*)$`: digits are taken greedily, and no `.` is a digit. */
  function ParseVersion(s: string): (v: Option<Version>)
    ensures v.Some? ==> Number(v.value.patch)
  {
    var (major, afterMajor) := SplitDigits(s);
    if major == "" || afterMajor == "" || afterMajor[0] != '.' then None
    else
      var (minor, afterMinor) := SplitDigits(afterMajor[1..]);
      if minor == "" || afterMinor == "" || afterMinor[0] != '.' then None
      else
        var (patch, suffix) := SplitDigits(afterMinor[1..]);
        if patch == "" || exists c | c in suffix :: IsLineTerminator(c) then None
        else Some(Version(major, minor, patch, suffix))
  }

  /** `String` of an integer. */
  function PrintInt(i: int): string {
    if i < 0 then "-" + Print(-i) else Print(i)
  }

  /** `String(n + 1)`. */
  function Successor(n: int, rounded: Rounding): string {
    if -EXACT <= n < EXACT then PrintInt(n + 1) else rounded(n)
  }

  function BumpVersion(current: Option<string>, rounded: Rounding): Result<string, BumpError> {
    match current
    case None => Err(NoVersion)
    case Some(text) =>
      match ParseVersion(text)
      case None => Err(NotSemver)
      case Some(v) => Ok(Format(v.(patch := Successor(Value(v.patch), rounded))))
  }

  lemma SplitIs(digits: string, rest: string)
    requires AllDigits(digits) && (rest == "" || !IsDigit(rest[0]))
    ensures SplitDigits(digits + rest) == (digits, rest)
  {
    var s := digits + rest;
    assert s[0..|digits|] == digits;
    DigitsEndUnique(s, 0, |digits|);
    assert s[..|digits|] == digits && s[|digits|..] == rest;
  }

  lemma FormatParses(v: Version)
    requires WellFormed(v)
    ensures ParseVersion(Format(v)) == Some(v)
  {
    hide SplitDigits, Format, AllDigits, IsLineTerminator;
    var afterMinor := "." + (v.patch + v.suffix);
    var afterMajor := "." + (v.minor + afterMinor);
    FormatNests(v);
    SplitIs(v.major, afterMajor);
    assert afterMajor[1..] == v.minor + afterMinor;
    SplitIs(v.minor, afterMinor);
    assert afterMinor[1..] == v.patch + v.suffix;
    SplitIs(v.patch, v.suffix);
  }

  lemma FormatNests(v: Version)
    ensures Format(v) == v.major + ("." + (v.minor + ("." + (v.patch + v.suffix))))
  {
  }

  lemma SplitAtDot(s: string)
    requires SplitDigits(s).1 != "" && SplitDigits(s).1[0] == '.'
    ensures s == SplitDigits(s).0 + ("." + SplitDigits(s).1[1..])
  {
    var (digits, rest) := SplitDigits(s);
    assert rest == "." + rest[1..];
  }

  lemma ParsedIsFormat(s: string, v: Version)
    requires ParseVersion(s) == Some(v)
    ensures WellFormed(v) && s == Format(v)
  {
    var afterMajor := SplitDigits(s).1[1..];
    SplitAtDot(s);
    SplitAtDot(afterMajor);
    FormatNests(v);
  }

  /** The pattern matches exactly the formatted versions, and captures their parts. */
  lemma ParseFormat(s: string, v: Version)
    ensures ParseVersion(s) == Some(v) <==> WellFormed(v) && s == Format(v)
  {
    if WellFormed(v) && s == Format(v) {
      FormatParses(v);
    }
    if ParseVersion(s) == Some(v) {
      ParsedIsFormat(s, v);
    }
  }

  lemma BumpsOnce(v: Version, rounded: Rounding)
    requires WellFormed(v) && Value(v.patch) < EXACT
    ensures BumpVersion(Some(Format(v)), rounded) == Ok(Format(v.(patch := Print(Value(v.patch) + 1))))
  {
    hide SplitDigits, Print, Value;
    FormatParses(v);
  }

  /** In digits: the patch is bumped to the numeral of the next number, and everything else stays as it is. */
  lemma BumpCounts(
    major: string, minor: string, patch: string, suffix: string, ds: seq<nat>, next: string, rounded: Rounding)
    requires WellFormed(Version(major, minor, patch, suffix)) && Spells(patch, ds)
    requires Weighted(ds) < 0x20_0000_0000_0000 && Numeral(next, Weighted(ds) + 1)
    ensures BumpVersion(Some(major + "." + minor + "." + patch + suffix), rounded)
         == Ok(major + "." + minor + "." + next + suffix)
  {
    hide BumpVersion, Print, Value, Weighted, Spells, Numeral;
    ValueIsSum(patch, ds);
    PrintIsNumeral(next, Weighted(ds) + 1);
    BumpsOnce(Version(major, minor, patch, suffix), rounded);
  }

  /** So a patch that does not end in 9 changes in its last digit only, to the next one. */
  lemma BumpsLastDigit(major: string, minor: string, stem: string, d: nat, suffix: string, n: nat, rounded: Rounding)
    requires d < 9 && WellFormed(Version(major, minor, stem + ["0123456789"[d]], suffix))
    requires Numeral(stem + ["0123456789"[d]], n) && n < 0x20_0000_0000_0000
    ensures BumpVersion(Some(major + "." + minor + "." + (stem + ["0123456789"[d]]) + suffix), rounded)
         == Ok(major + "." + minor + "." + (stem + ["0123456789"[d + 1]]) + suffix)
  {
    hide BumpVersion, WellFormed, Numeral, Print;
    PrintIsNumeral(stem + ["0123456789"[d]], n);
    LastDigitIs(n, stem, d);
    BumpsPrinted(major, minor, stem + ["0123456789"[d]], stem + ["0123456789"[d + 1]], suffix, n, rounded);
  }

  lemma BumpsPrinted(
    major: string, minor: string, patch: string, next: string, suffix: string, n: nat, rounded: Rounding)
    requires WellFormed(Version(major, minor, patch, suffix))
    requires patch == Print(n) && next == Print(n + 1) && n < EXACT
    ensures BumpVersion(Some(major + "." + minor + "." + patch + suffix), rounded)
         == Ok(major + "." + minor + "." + next + suffix)
  {
    ValueOfPrint(n);
    hide BumpVersion, Print, Value;
    BumpsOnce(Version(major, minor, patch, suffix), rounded);
  }

  lemma LastDigitIs(n: nat, stem: string, d: nat)
    requires d < 9 && Print(n) == stem + ["0123456789"[d]]
    ensures Print(n + 1) == stem + ["0123456789"[d + 1]]
  {
    PrintsLastDigit(n);
    PrintsLastDigit(n + 1);
    hide Print;
    SameDigit(n % 10, d);
    assert Print(n)[|stem|] == "0123456789"[n % 10];
    assert stem == Print(n)[..|stem|];
    assert (n + 1) / 10 == n / 10 && (n + 1) % 10 == d + 1;
  }

  lemma SameDigit(x: nat, y: nat)
    requires x < 10 && y < 10
    ensures "0123456789"[x] == "0123456789"[y] <==> x == y
  {
    DigitsInOrder("0123456789"[x], x);
    DigitsInOrder("0123456789"[x], y);
  }

  function BumpTimes(current: Option<string>, n: nat, rounded: Rounding): Result<string, BumpError>
    requires n > 0
  {
    if n == 1 then BumpVersion(current, rounded)
    else
      var previous :- BumpTimes(current, n - 1, rounded);
      BumpVersion(Some(previous), rounded)
  }

  /**
   * Bumping n times adds n to the patch and leaves major, minor and suffix as they
   * are, byte for byte: each bump parses its own output to the same parts.
   */
  lemma {:induction false} BumpAdds(s: string, v: Version, n: nat, rounded: Rounding)
    requires n > 0 && WellFormed(v) && s == Format(v) && Value(v.patch) + n <= EXACT
    ensures BumpTimes(Some(s), n, rounded) == Ok(Format(v.(patch := Print(Value(v.patch) + n))))
  {
    hide BumpVersion, ParseVersion, Print, Value, Format;
    if n == 1 {
      BumpsOnce(v, rounded);
    } else {
      BumpAdds(s, v, n - 1, rounded);
      BumpsAgain(v, Value(v.patch) + n - 1, rounded);
    }
  }

  /** A patch that was printed bumps to the next. */
  lemma BumpsAgain(v: Version, patch: nat, rounded: Rounding)
    requires WellFormed(v) && patch < EXACT
    ensures BumpVersion(Some(Format(v.(patch := Print(patch)))), rounded) == Ok(Format(v.(patch := Print(patch + 1))))
  {
    hide BumpVersion, ParseVersion, Print, Value, Format;
    ValueOfPrint(patch);
    BumpsOnce(v.(patch := Print(patch)), rounded);
  }

  /** A bump succeeds exactly on formatted versions, and changes nothing but the patch. */
  lemma BumpSucceedsExactly(s: string, rounded: Rounding)
    ensures BumpVersion(Some(s), rounded).Ok? <==> exists v :: WellFormed(v) && s == Format(v)
    ensures BumpVersion(Some(s), rounded) == Err(NotSemver) <==> forall v :: WellFormed(v) ==> s != Format(v)
    ensures forall v | WellFormed(v) && s == Format(v) ::
              BumpVersion(Some(s), rounded) == Ok(Format(v.(patch := Successor(Value(v.patch), rounded))))
  {
    hide Format, Successor;
    forall v
      ensures ParseVersion(s) == Some(v) <==> WellFormed(v) && s == Format(v)
    {
      ParseFormat(s, v);
    }
    if ParseVersion(s).Some? {
      var v := ParseVersion(s).value;
      assert WellFormed(v) && s == Format(v);
    }
  }

  // ---------------------------------------------------------------- build numbers

  /** `Number.parseInt(raw, 10)`: white space, a sign, and as many digits as there are; the rest is ignored. */
  function ParseInt(raw: string): Option<int> {
    var text := TrimStart(raw);
    var signed := text != "" && (text[0] == '-' || text[0] == '+');
    var (digits, rest) := SplitDigits(if signed then text[1..] else text);
    if digits == "" then None
    else
      var magnitude: int := Value(digits);
      Some(if signed && text[0] == '-' then -magnitude else magnitude)
  }

  function BumpBuildNumber(current: Option<string>, rounded: Rounding): Result<string, BumpError> {
    match ParseInt(if current.Some? then current.value else "0")
    case None => Err(NotAnInteger)
    case Some(parsed) => Ok(Successor(parsed, rounded))
  }

  /**
   * White space, a sign or none, digits, and anything that does not start with a
   * digit: the digits are the number, the sign its sign, and the rest is ignored. A
   * text whose sign is not followed by a digit is no number.
   */
  lemma ParseIntReads(spaces: string, sign: string, digits: string, rest: string)
    requires AllSpaces(spaces)
    requires sign == "" || sign == "+" || sign == "-"
    requires AllDigits(digits) && (rest == "" || !IsDigit(rest[0]))
    requires digits != "" || sign != ""
    ensures ParseInt(spaces + (sign + (digits + rest)))
         == if digits == "" then None else Some(if sign == "-" then -(Value(digits) as int) else Value(digits))
  {
    hide ParseInt, TrimStart, Value, IsSpace, AllDigits, IsDigit, AllSpaces;
    StartsNumber(sign, digits, rest);
    TrimStartDropsSpaces(spaces, sign + (digits + rest));
    ParsesTrimmed(spaces + (sign + (digits + rest)), sign, digits, rest);
  }

  lemma ParsesTrimmed(raw: string, sign: string, digits: string, rest: string)
    requires TrimStart(raw) == sign + (digits + rest)
    requires sign == "" || sign == "+" || sign == "-"
    requires AllDigits(digits) && (rest == "" || !IsDigit(rest[0]))
    requires digits != "" || sign != ""
    ensures ParseInt(raw)
         == if digits == "" then None else Some(if sign == "-" then -(Value(digits) as int) else Value(digits))
  {
    hide TrimStart, SplitDigits, Value, IsSpace, AllDigits;
    StartsNumber(sign, digits, rest);
    SplitIs(digits, rest);
  }

  lemma StartsNumber(sign: string, digits: string, rest: string)
    requires sign == "" || sign == "+" || sign == "-"
    requires AllDigits(digits) && (digits != "" || sign != "")
    ensures
      var text := sign + (digits + rest);
      && text != "" && !IsSpace(text[0]) && text[|sign|..] == digits + rest
      && (sign == "" ==> text == digits + rest && IsDigit(text[0]))
      && (sign != "" ==> text[0] == sign[0])
  {
    if sign == "" {
      assert (digits + rest)[0] == digits[0];
    }
  }

  /** In digits: what a build number is bumped to, with `n` the number of its digits. */
  ghost predicate Follows(sign: string, n: nat, next: string) {
    if sign != "-" || n == 0 then Numeral(next, n + 1)
    else if n == 1 then next == "0"
    else next != "" && next[0] == '-' && Numeral(next[1..], n - 1)
  }

  /** A build number is read up to the end of its first run of digits, and the next integer is written. */
  lemma BuildCounts(
    spaces: string, sign: string, digits: string, rest: string, ds: seq<nat>, next: string, rounded: Rounding)
    requires AllSpaces(spaces) && (sign == "" || sign == "+" || sign == "-")
    requires digits != "" && Spells(digits, ds) && (rest == "" || rest[0] !in "0123456789")
    requires Weighted(ds) < 0x20_0000_0000_0000 && Follows(sign, Weighted(ds), next)
    ensures BumpBuildNumber(Some(spaces + (sign + (digits + rest))), rounded) == Ok(next)
  {
    hide ParseInt, Print, Value, Weighted, Spells, Numeral, AllSpaces;
    var n := Weighted(ds);
    ValueIsSum(digits, ds);
    if rest != "" {
      DigitsInOrder(rest[0], 0);
    }
    ParseIntReads(spaces, sign, digits, rest);
    PrintIsNumeral(next, n + 1);
    if sign == "-" && n > 1 {
      PrintIsNumeral(next[1..], n - 1);
      assert next == "-" + next[1..];
    } else if sign == "-" && n == 1 {
      NoLeadingZero(0);
    }
  }

  /** Without a build number the first one is 1. */
  lemma FirstBuild(rounded: Rounding)
    ensures BumpBuildNumber(None, rounded) == Ok("1")
  {
    ZeroAndOne();
    hide ParseInt, Print, Value;
    assert "" + ("" + ("0" + "")) == "0";
    ParseIntReads("", "", "0", "");
  }

  lemma ZeroAndOne()
    ensures Value("0") == 0 && Print(1) == "1"
  {
    PrintsLastDigit(1);
    ValueOfPrint(0);
    NoLeadingZero(0);
  }

  lemma ParsePrintInt(i: int)
    ensures ParseInt(PrintInt(i)) == Some(i)
  {
    hide ParseInt, Print, Value;
    var digits := Print(if i < 0 then -i else i);
    ValueOfPrint(if i < 0 then -i else i);
    var sign := if i < 0 then "-" else "";
    assert PrintInt(i) == "" + (sign + (digits + ""));
    ParseIntReads("", sign, digits, "");
  }

  function BumpBuildTimes(current: Option<string>, n: nat, rounded: Rounding): Result<string, BumpError>
    requires n > 0
  {
    if n == 1 then BumpBuildNumber(current, rounded)
    else
      var previous :- BumpBuildTimes(current, n - 1, rounded);
      BumpBuildNumber(Some(previous), rounded)
  }

  lemma BumpPrinted(i: int, rounded: Rounding)
    requires -EXACT <= i < EXACT
    ensures BumpBuildNumber(Some(PrintInt(i)), rounded) == Ok(PrintInt(i + 1))
  {
    hide Print, ParseInt;
    ParsePrintInt(i);
  }

  /** n bumps of a build number add n to the integer it starts with, dropping what follows the digits. */
  lemma {:induction false} BumpBuildAdds(current: Option<string>, start: int, n: nat, rounded: Rounding)
    requires n > 0 && -EXACT <= start && start + n <= EXACT
    requires ParseInt(if current.Some? then current.value else "0") == Some(start)
    ensures BumpBuildTimes(current, n, rounded) == Ok(PrintInt(start + n))
  {
    hide Print, ParseInt;
    if n > 1 {
      BumpBuildAdds(current, start, n - 1, rounded);
      BumpPrinted(start + n - 1, rounded);
    }
  }
}
