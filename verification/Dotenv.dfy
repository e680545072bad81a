/** The dotenv parser of packages/dotenv. */
module Dotenv {
  import opened Wrappers
  import opened JsText

  datatype Entry = Entry(key: string, value: string)

  /** `replaceAll` of a two-character pattern by one character. */
  function ReplacePair(s: string, a: char, b: char, with: char): string {
    if s == "" then ""
    else if |s| > 1 && s[0] == a && s[1] == b then [with] + ReplacePair(s[2..], a, b, with)
    else [s[0]] + ReplacePair(s[1..], a, b, with)
  }

  predicate IsQuote(c: char) {
    c == '"' || c == '\''
  }

  /** `slice(1, -1)`. */
  function Inner(s: string): string {
    if |s| < 2 then "" else s[1..|s| - 1]
  }

  function StripWrappingQuotes(value: string): string {
    if value == "" || !IsQuote(value[0]) || value[|value| - 1] != value[0] then value
    else if value[0] == '"' then
      ReplacePair(ReplacePair(ReplacePair(Inner(value), '\\', 'n', '\n'), '\\', 'r', '\r'), '\\', 't', '\t')
    else Inner(value)
  }

  /** `\s+#.*$` matches at the start. */
  predicate CommentAt(s: string) {
    var rest := TrimStart(s);
    && s != "" && IsSpace(s[0])
    && rest != "" && rest[0] == '#'
    && forall c | c in rest :: !IsLineTerminator(c)
  }

  function DropInlineComment(s: string): string {
    if s == "" || CommentAt(s) then "" else [s[0]] + DropInlineComment(s[1..])
  }

  function ParseDotenvValue(raw: string): string {
    var trimmed := Trim(raw);
    if trimmed != "" && IsQuote(trimmed[0]) then StripWrappingQuotes(trimmed)
    else Trim(DropInlineComment(trimmed))
  }

  const EXPORT := "export "

  function StripExportPrefix(line: string): string {
    if EXPORT <= line then TrimStart(line[|EXPORT|..]) else line
  }

  function ParseAssignment(text: string): Option<Entry> {
    var separatorIndex := IndexOf(text, '=');
    if separatorIndex < 1 then None
    else
      var key := Trim(text[..separatorIndex]);
      if key == "" then None else Some(Entry(key, ParseDotenvValue(text[separatorIndex + 1..])))
  }

  function ParseTrimmedLine(trimmed: string): Option<Entry> {
    if trimmed == "" || trimmed[0] == '#' then None else ParseAssignment(StripExportPrefix(trimmed))
  }

  function DropCr(line: string): string {
    if line != "" && line[|line| - 1] == '\r' then line[..|line| - 1] else line
  }

  /** `split(/\r?\n/)`: only a carriage return right before a line feed goes with it. */
  function Lines(content: string): (lines: seq<string>)
    ensures lines != [] && forall line | line in lines :: '\n' !in line
  {
    var i := IndexOf(content, '\n');
    if i < 0 then [content] else [DropCr(content[..i])] + Lines(content[i + 1..])
  }

  type LineParser = string -> Option<Entry>

  function Lift(entry: Option<Entry>): seq<Entry> {
    if entry.None? then [] else [entry.value]
  }

  function ParseDotenvLine(line: string): Option<Entry> {
    ParseTrimmedLine(Trim(line))
  }

  /** `flatMap` of the line parser. */
  function EntriesOf(lines: seq<string>, parse: LineParser): seq<Entry> {
    if lines == [] then [] else Lift(parse(lines[0])) + EntriesOf(lines[1..], parse)
  }

  function ParseDotenvEntries(content: string): seq<Entry> {
    EntriesOf(Lines(content), ParseDotenvLine)
  }

  /** `Object.fromEntries`. */
  function FromEntries(entries: seq<Entry>): map<string, string> {
    if entries == [] then map[]
    else
      var last := entries[|entries| - 1];
      FromEntries(entries[..|entries| - 1])[last.key := last.value]
  }

  function ParseDotenvContent(content: string): map<string, string> {
    FromEntries(ParseDotenvEntries(content))
  }

  // ---------------------------------------------------------------- lines

  lemma TrimIgnoresCr(line: string)
    ensures Trim(DropCr(line)) == Trim(line)
    ensures Trim(line + "\r") == Trim(line)
  {
    TrimIgnoresLast(line, '\r');
    if line != "" && line[|line| - 1] == '\r' {
      TrimIgnoresLast(DropCr(line), '\r');
      assert DropCr(line) + "\r" == line;
    }
  }

  lemma FirstLine(line: string, rest: string)
    requires '\n' !in line
    ensures Lines(line + "\n" + rest) == [DropCr(line)] + Lines(rest)
  {
    var s := line + "\n" + rest;
    assert s[..|line|] == line && s[|line| + 1..] == rest;
    FirstIndex(s, '\n', |line|);
  }

  /** A carriage return at the end of a line makes no difference. */
  ghost predicate IgnoresCr(parse: LineParser) {
    forall line {:trigger parse(DropCr(line))} {:trigger parse(line + "\r")} ::
      parse(DropCr(line)) == parse(line) && parse(line + "\r") == parse(line)
  }

  lemma FirstEntries(line: string, rest: string, parse: LineParser)
    requires '\n' !in line && IgnoresCr(parse)
    ensures EntriesOf(Lines(line + "\n" + rest), parse) == Lift(parse(line)) + EntriesOf(Lines(rest), parse)
  {
    FirstLine(line, rest);
    var lines := [DropCr(line)] + Lines(rest);
    assert lines[0] == DropCr(line) && lines[1..] == Lines(rest);
    assert parse(DropCr(line)) == parse(line);
  }

  lemma OnlyEntries(line: string, parse: LineParser)
    requires '\n' !in line
    ensures EntriesOf(Lines(line), parse) == Lift(parse(line))
  {
    assert Lines(line) == [line] && [line][1..] == [];
  }

  /** Two texts joined by a line break of either kind. */
  function Join(x: string, cr: string, y: string): string {
    x + cr + "\n" + y
  }

  lemma JoinAfterLine(line: string, rest: string, cr: string, y: string)
    ensures Join(line + "\n" + rest, cr, y) == line + "\n" + Join(rest, cr, y)
  {
  }

  lemma LastLineJoins(x: string, cr: string, y: string, parse: LineParser)
    requires (cr == "" || cr == "\r") && '\n' !in x && IgnoresCr(parse)
    ensures EntriesOf(Lines(Join(x, cr, y)), parse) == EntriesOf(Lines(x), parse) + EntriesOf(Lines(y), parse)
  {
    OnlyEntries(x, parse);
    FirstEntries(x + cr, y, parse);
    if cr == "" {
      assert x + cr == x;
    } else {
      assert parse(x + "\r") == parse(x);
    }
  }

  lemma ConcatAssociates(a: seq<Entry>, b: seq<Entry>, c: seq<Entry>)
    ensures a + (b + c) == a + b + c
  {
  }

  ghost predicate Concatenates(x: string, cr: string, y: string, parse: LineParser) {
    EntriesOf(Lines(Join(x, cr, y)), parse) == EntriesOf(Lines(x), parse) + EntriesOf(Lines(y), parse)
  }

  lemma FirstLineJoins(line: string, rest: string, cr: string, y: string, parse: LineParser)
    requires '\n' !in line && IgnoresCr(parse) && Concatenates(rest, cr, y, parse)
    ensures Concatenates(line + "\n" + rest, cr, y, parse)
  {
    JoinAfterLine(line, rest, cr, y);
    FirstEntries(line, Join(rest, cr, y), parse);
    FirstEntries(line, rest, parse);
    ConcatAssociates(Lift(parse(line)), EntriesOf(Lines(rest), parse), EntriesOf(Lines(y), parse));
  }

  lemma {:induction false} LinesConcat(x: string, cr: string, y: string, parse: LineParser)
    requires (cr == "" || cr == "\r") && IgnoresCr(parse)
    ensures Concatenates(x, cr, y, parse)
    decreases |x|
  {
    var i := IndexOf(x, '\n');
    if i < 0 {
      LastLineJoins(x, cr, y, parse);
    } else {
      SplitAt(x, i);
      LinesConcat(x[i + 1..], cr, y, parse);
      FirstLineJoins(x[..i], x[i + 1..], cr, y, parse);
    }
  }

  lemma SplitAt(x: string, i: nat)
    requires i < |x| && x[i] == '\n'
    ensures x == x[..i] + "\n" + x[i + 1..]
  {
  }

  /**
   * Parsing is a homomorphism on lines, for either line ending: what comes before
   * the line break and what comes after it parse on their own.
   */
  lemma ParseConcat(x: string, y: string)
    ensures ParseDotenvEntries(Join(x, "", y)) == ParseDotenvEntries(x) + ParseDotenvEntries(y)
    ensures ParseDotenvEntries(Join(x, "\r", y)) == ParseDotenvEntries(x) + ParseDotenvEntries(y)
  {
    forall line: string
      ensures ParseDotenvLine(DropCr(line)) == ParseDotenvLine(line)
      ensures ParseDotenvLine(line + "\r") == ParseDotenvLine(line)
    {
      TrimIgnoresCr(line);
    }
    LinesConcat(x, "", y, ParseDotenvLine);
    LinesConcat(x, "\r", y, ParseDotenvLine);
  }

  // ---------------------------------------------------------------- the record form

  predicate IsLast(entries: seq<Entry>, key: string, i: int) {
    0 <= i < |entries| && entries[i].key == key && forall j | i < j < |entries| :: entries[j].key != key
  }

  /** The last entry of a key wins, and a key is there exactly when some entry has it. */
  lemma {:induction false} LastEntryWins(entries: seq<Entry>, key: string)
    ensures key in FromEntries(entries) <==> exists i :: IsLast(entries, key, i)
    ensures forall i :: IsLast(entries, key, i) ==>
              key in FromEntries(entries) && FromEntries(entries)[key] == entries[i].value
  {
    if entries != [] {
      var n := |entries| - 1;
      LastEntryWins(entries[..n], key);
      if entries[n].key == key {
        assert IsLast(entries, key, n);
      } else {
        forall i
          ensures IsLast(entries, key, i) <==> IsLast(entries[..n], key, i)
        {
        }
      }
    }
  }

  lemma {:induction false} FromEntriesConcat(a: seq<Entry>, b: seq<Entry>)
    ensures FromEntries(a + b) == FromEntries(a) + FromEntries(b)
  {
    if b == [] {
      assert a + b == a;
    } else {
      var n := |b| - 1;
      assert (a + b)[..|a + b| - 1] == a + b[..n];
      FromEntriesConcat(a, b[..n]);
    }
  }

  /** Later lines override earlier ones key by key. */
  lemma ContentConcat(x: string, y: string)
    ensures ParseDotenvContent(Join(x, "", y)) == ParseDotenvContent(x) + ParseDotenvContent(y)
    ensures ParseDotenvContent(Join(x, "\r", y)) == ParseDotenvContent(x) + ParseDotenvContent(y)
  {
    ParseConcat(x, y);
    FromEntriesConcat(ParseDotenvEntries(x), ParseDotenvEntries(y));
  }

  // ---------------------------------------------------------------- quoted values

  /** A key that a line can define. */
  predicate BareKey(key: string) {
    && key != "" && !IsSpace(key[0]) && !IsSpace(key[|key| - 1])
    && '=' !in key && '\n' !in key
  }

  function QuotedLine(key: string, value: string): string {
    key + ("='" + value + "'")
  }

  lemma QuotedValue(value: string)
    ensures ParseDotenvValue("'" + value + "'") == value
  {
    hide TrimStart, TrimEnd, Trim, ReplacePair, DropInlineComment;
    var raw := "'" + value + "'";
    TrimmedIsTrim(raw);
    assert raw[1..|raw| - 1] == value;
  }

  /** A bare key and a quoted value, once any `export ` is gone. */
  lemma SplitsAtKey(key: string, value: string)
    requires BareKey(key)
    ensures ParseAssignment(QuotedLine(key, value)) == Some(Entry(key, value))
  {
    hide ParseDotenvValue, IndexOf, TrimStart, TrimEnd;
    var line := QuotedLine(key, value);
    assert line[..|key|] == key && line[|key| + 1..] == "'" + value + "'";
    FirstIndex(line, '=', |key|);
    TrimmedIsTrim(key);
    QuotedValue(value);
  }

  lemma NoExport(key: string, rest: string)
    requires !(EXPORT <= key) && rest != "" && rest[0] == '='
    ensures !(EXPORT <= key + rest)
  {
    assert (key + rest)[|key|] == '=';
  }

  lemma QuotedIsTrimmed(key: string, value: string)
    requires BareKey(key)
    ensures Trim(QuotedLine(key, value)) == QuotedLine(key, value)
    ensures TrimStart(QuotedLine(key, value)) == QuotedLine(key, value)
  {
    TrimmedIsTrim(QuotedLine(key, value));
  }

  lemma StripsNothing(key: string, value: string)
    requires BareKey(key) && !(EXPORT <= key)
    ensures StripExportPrefix(QuotedLine(key, value)) == QuotedLine(key, value)
  {
    NoExport(key, "='" + value + "'");
  }

  lemma ParsesVia(line: string, key: string, value: string)
    requires BareKey(key) && Trim(line) == line && line != "" && line[0] != '#'
    requires StripExportPrefix(line) == QuotedLine(key, value)
    ensures ParseDotenvLine(line) == Some(Entry(key, value))
  {
    SplitsAtKey(key, value);
  }

  lemma ParsesPlain(key: string, value: string)
    requires BareKey(key) && key[0] != '#' && !(EXPORT <= key)
    ensures ParseDotenvLine(QuotedLine(key, value)) == Some(Entry(key, value))
  {
    QuotedIsTrimmed(key, value);
    StripsNothing(key, value);
    ParsesVia(QuotedLine(key, value), key, value);
  }

  lemma ExportedIsTrimmed(key: string, value: string, line: string)
    requires BareKey(key) && line == EXPORT + QuotedLine(key, value)
    ensures Trim(line) == line && line != "" && line[0] == 'e'
    ensures StripExportPrefix(line) == QuotedLine(key, value)
  {
    assert line[|line| - 1] == '\'';
    TrimmedIsTrim(line);
    assert line[|EXPORT|..] == QuotedLine(key, value);
    QuotedIsTrimmed(key, value);
  }

  lemma ParsesExported(key: string, value: string, line: string)
    requires BareKey(key) && line == EXPORT + QuotedLine(key, value)
    ensures ParseDotenvLine(line) == Some(Entry(key, value))
  {
    ExportedIsTrimmed(key, value, line);
    ParsesVia(line, key, value);
  }

  lemma KeyPart(text: string)
    ensures ParseAssignment(text).Some? ==>
              var key := ParseAssignment(text).value.key;
              && key != "" && !IsSpace(key[0]) && !IsSpace(key[|key| - 1]) && '=' !in key
              && |key| <= IndexOf(text, '=') && forall c | c in key :: c in text
  {
    var i := IndexOf(text, '=');
    if i >= 1 {
      var key := Trim(text[..i]);
      assert |key| <= i;
      forall c | c in key
        ensures c in text[..i] && c in text
      {
        TrimIsPart(text[..i], c);
      }
    }
  }

  /** A key that itself starts with `export ` loses that part. */
  lemma ExportKeyIsCut(key: string, value: string)
    requires BareKey(key) && EXPORT <= key
    ensures IndexOf(StripExportPrefix(QuotedLine(key, value)), '=') < |key|
  {
    var line := QuotedLine(key, value);
    var rest := line[|EXPORT|..];
    assert key[|EXPORT| - 1] == ' ';
    var last := |key| - 1 - |EXPORT|;
    assert rest[last] == key[|key| - 1];
    TrimStartStops(rest, last);
    var stripped := TrimStart(rest);
    assert stripped[|stripped| - (|line| - |key|)] == '=';
  }

  lemma StripsToPart(line: string)
    ensures forall c | c in StripExportPrefix(Trim(line)) :: c in line
  {
    hide TrimStart, Trim;
    var trimmed := Trim(line);
    forall c | c in StripExportPrefix(trimmed)
      ensures c in line
    {
      assert c in trimmed;
      TrimIsPart(line, c);
    }
  }

  /** Whatever the text, the keys that come out of a line are bare. */
  lemma KeysAreBare(line: string)
    requires '\n' !in line && ParseDotenvLine(line).Some?
    ensures BareKey(ParseDotenvLine(line).value.key)
  {
    StripsToPart(line);
    KeyPart(StripExportPrefix(Trim(line)));
  }

  lemma EntryFromLine(line: string, entry: Entry)
    requires entry in Lift(ParseDotenvLine(line))
    ensures ParseDotenvLine(line) == Some(entry)
  {
  }

  lemma {:induction false} EntriesAreBare(lines: seq<string>, entry: Entry)
    requires (forall line | line in lines :: '\n' !in line) && entry in EntriesOf(lines, ParseDotenvLine)
    ensures BareKey(entry.key)
  {
    if entry in Lift(ParseDotenvLine(lines[0])) {
      EntryFromLine(lines[0], entry);
      KeysAreBare(lines[0]);
    } else {
      EntriesAreBare(lines[1..], entry);
    }
  }

  lemma OneLineContent(line: string)
    requires '\n' !in line
    ensures ParseDotenvEntries(line) == Lift(ParseDotenvLine(line))
  {
    OnlyEntries(line, ParseDotenvLine);
  }

  /** The lines of which `key` is not the key: a comment, or an `export` of something shorter. */
  lemma OtherKey(key: string, value: string)
    requires BareKey(key) && (key[0] == '#' || EXPORT <= key)
    ensures ParseDotenvLine(QuotedLine(key, value)) != Some(Entry(key, value))
  {
    QuotedIsTrimmed(key, value);
    if EXPORT <= key {
      ExportKeyIsCut(key, value);
      KeyPart(StripExportPrefix(QuotedLine(key, value)));
    }
  }

  lemma OnlyBareKeys(content: string, key: string, value: string)
    requires !BareKey(key)
    ensures ParseDotenvEntries(content) != [Entry(key, value)]
  {
    if ParseDotenvEntries(content) == [Entry(key, value)] {
      EntriesAreBare(Lines(content), Entry(key, value));
    }
  }

  lemma PlainRoundTrip(key: string, value: string, line: string)
    requires '\n' !in value && line == QuotedLine(key, value)
    ensures ParseDotenvEntries(line) == [Entry(key, value)] <==> BareKey(key) && key[0] != '#' && !(EXPORT <= key)
  {
    if !BareKey(key) {
      OnlyBareKeys(line, key, value);
    } else {
      OneLineContent(line);
      if key[0] != '#' && !(EXPORT <= key) {
        ParsesPlain(key, value);
      } else {
        OtherKey(key, value);
      }
    }
  }

  lemma ExportedRoundTrip(key: string, value: string, line: string)
    requires '\n' !in value && line == EXPORT + QuotedLine(key, value)
    ensures ParseDotenvEntries(line) == [Entry(key, value)] <==> BareKey(key)
  {
    if !BareKey(key) {
      OnlyBareKeys(line, key, value);
    } else {
      OneLineContent(line);
      ParsesExported(key, value, line);
    }
  }

  /**
   * A single-quoted value without line feeds, whatever quotes, hashes or white space
   * it holds, parses back exactly under `key` if and only if the key is bare and the
   * line neither starts a comment nor an export; behind `export ` any bare key does.
   */
  lemma QuotedRoundTrip(key: string, value: string)
    requires '\n' !in value
    ensures ParseDotenvEntries(QuotedLine(key, value)) == [Entry(key, value)]
       <==> BareKey(key) && key[0] != '#' && !("export " <= key)
    ensures ParseDotenvEntries("export " + QuotedLine(key, value)) == [Entry(key, value)] <==> BareKey(key)
  {
    PlainRoundTrip(key, value, QuotedLine(key, value));
    ExportedRoundTrip(key, value, EXPORT + QuotedLine(key, value));
  }

  // ---------------------------------------------------------------- escapes in double quotes

  /** What the character after a backslash stands for. */
  function Escaped(c: char): Option<char> {
    if c == 'n' then Some('\n') else if c == 'r' then Some('\r') else if c == 't' then Some('\t') else None
  }

  predicate EscapeAt(s: string) {
    |s| > 1 && s[0] == '\\' && Escaped(s[1]).Some?
  }

  /** One pass from the left over the three escapes. */
  function Unescape(s: string): string {
    if s == "" then ""
    else if EscapeAt(s) then [Escaped(s[1]).value] + Unescape(s[2..])
    else [s[0]] + Unescape(s[1..])
  }

  function ThreePasses(s: string): string {
    ReplacePair(ReplacePair(ReplacePair(s, '\\', 'n', '\n'), '\\', 'r', '\r'), '\\', 't', '\t')
  }

  /** A pass leaves the first character alone or makes it a control character. */
  lemma ReplaceFirst(s: string, b: char, with: char)
    requires s != ""
    ensures ReplacePair(s, '\\', b, with) != ""
    ensures ReplacePair(s, '\\', b, with)[0] == s[0] || ReplacePair(s, '\\', b, with)[0] == with
  {
  }

  /** A character that starts no escape passes through all three passes, whatever follows. */
  lemma PassesKeep(c: char, rest: string)
    requires !EscapeAt([c] + rest)
    ensures ThreePasses([c] + rest) == [c] + ThreePasses(rest)
  {
    var one := ReplacePair(rest, '\\', 'n', '\n');
    var two := ReplacePair(one, '\\', 'r', '\r');
    PassKeeps(c, rest, 'n', '\n');
    if rest != "" {
      ReplaceFirst(rest, 'n', '\n');
      ReplaceFirst(one, 'r', '\r');
    }
    PassKeeps(c, one, 'r', '\r');
    PassKeeps(c, two, 't', '\t');
  }

  lemma PassKeeps(c: char, rest: string, b: char, with: char)
    requires c == '\\' && rest != "" ==> rest[0] != b
    ensures ReplacePair([c] + rest, '\\', b, with) == [c] + ReplacePair(rest, '\\', b, with)
  {
    assert ([c] + rest)[1..] == rest;
  }

  lemma PassReplaces(rest: string, b: char, with: char)
    ensures ReplacePair(['\\', b] + rest, '\\', b, with) == [with] + ReplacePair(rest, '\\', b, with)
  {
    assert (['\\', b] + rest)[2..] == rest;
  }

  lemma PassSkips(e: char, rest: string, b: char, with: char)
    requires e != b && e != '\\'
    ensures ReplacePair(['\\', e] + rest, '\\', b, with) == ['\\', e] + ReplacePair(rest, '\\', b, with)
  {
    assert ['\\', e] + rest == ['\\'] + ([e] + rest);
    PassKeeps('\\', [e] + rest, b, with);
    PassKeeps(e, rest, b, with);
  }

  lemma PassesReplace(e: char, rest: string)
    requires Escaped(e).Some?
    ensures ThreePasses(['\\', e] + rest) == [Escaped(e).value] + ThreePasses(rest)
  {
    var one := ReplacePair(rest, '\\', 'n', '\n');
    var two := ReplacePair(one, '\\', 'r', '\r');
    if e == 'n' {
      PassReplaces(rest, 'n', '\n');
      PassKeeps('\n', one, 'r', '\r');
      PassKeeps('\n', two, 't', '\t');
    } else if e == 'r' {
      PassSkips(e, rest, 'n', '\n');
      PassReplaces(one, 'r', '\r');
      PassKeeps('\r', two, 't', '\t');
    } else {
      PassSkips(e, rest, 'n', '\n');
      PassSkips(e, one, 'r', '\r');
      PassReplaces(two, 't', '\t');
    }
  }

  /** The three replacements of a double-quoted value are one pass: none of them makes a new escape. */
  lemma {:induction false} PassesUnescape(s: string)
    ensures ThreePasses(s) == Unescape(s)
    decreases |s|
  {
    if s != "" {
      if EscapeAt(s) {
        PassesUnescape(s[2..]);
        assert s == ['\\', s[1]] + s[2..];
        PassesReplace(s[1], s[2..]);
      } else {
        PassesUnescape(s[1..]);
        assert s == [s[0]] + s[1..];
        PassesKeep(s[0], s[1..]);
      }
    }
  }

  predicate HasEscape(s: string) {
    exists i | 0 <= i < |s| :: EscapeAt(s[i..])
  }

  lemma {:induction false} UnescapeShrinks(s: string)
    ensures |Unescape(s)| <= |s|
    ensures |Unescape(s)| == |s| ==> Unescape(s) == s
    ensures HasEscape(s) ==> |Unescape(s)| < |s|
    ensures !HasEscape(s) ==> Unescape(s) == s
    decreases |s|
  {
    if s != "" {
      if EscapeAt(s) {
        assert s[0..] == s;
        UnescapeShrinks(s[2..]);
      } else {
        UnescapeShrinks(s[1..]);
        forall i | 0 <= i < |s| - 1
          ensures s[1..][i..] == s[i + 1..]
        {
        }
        assert s[0..] == s;
        assert HasEscape(s) <==> HasEscape(s[1..]) by {
          if i :| 0 <= i < |s| && EscapeAt(s[i..]) {
            assert EscapeAt(s[1..][i - 1..]);
          }
          if i :| 0 <= i < |s| - 1 && EscapeAt(s[1..][i..]) {
            assert EscapeAt(s[i + 1..]);
          }
        }
        assert s == [s[0]] + s[1..];
      }
    }
  }

  /** A double-quoted value has its escapes undone, so it comes back as written if and only if it has none. */
  lemma DoubleQuoted(value: string)
    ensures ParseDotenvValue("\"" + value + "\"") == Unescape(value)
    ensures ParseDotenvValue("\"" + value + "\"") == value <==> !HasEscape(value)
  {
    hide TrimStart, TrimEnd, Trim, ReplacePair, DropInlineComment;
    var raw := "\"" + value + "\"";
    TrimmedIsTrim(raw);
    assert raw[1..|raw| - 1] == value;
    PassesUnescape(value);
    UnescapeShrinks(value);
  }

  // ---------------------------------------------------------------- unquoted values

  /** Inside a text without `#` that does not end in white space, no comment starts. */
  lemma {:induction false} NoCommentInside(text: string, rest: string)
    requires text != "" && '#' !in text && !IsSpace(text[|text| - 1])
    ensures !CommentAt(text + rest)
    decreases |text|
  {
    var all := text + rest;
    if IsSpace(text[0]) {
      assert all[1..] == text[1..] + rest;
      FirstNonSpace(text, rest);
    }
  }

  lemma {:induction false} FirstNonSpace(text: string, rest: string)
    requires text != "" && !IsSpace(text[|text| - 1])
    ensures TrimStart(text + rest) != "" && TrimStart(text + rest)[0] in text
  {
    assert text + rest != "" && (text + rest)[0] == text[0];
    if IsSpace(text[0]) {
      assert (text + rest)[1..] == text[1..] + rest;
      FirstNonSpace(text[1..], rest);
    }
  }

  /** A comment starts within `text` when `rest` follows it. */
  predicate CommentInside(text: string, rest: string) {
    exists i | 0 <= i < |text| :: CommentAt((text + rest)[i..])
  }

  lemma ShiftInside(text: string, rest: string)
    requires text != ""
    ensures CommentInside(text, rest) <==> CommentAt(text + rest) || CommentInside(text[1..], rest)
  {
    hide CommentAt;
    var all, less := text + rest, text[1..] + rest;
    assert all[0..] == all;
    forall i | 0 <= i < |text| - 1
      ensures less[i..] == all[i + 1..]
    {
    }
    if i :| 0 <= i < |text| && CommentAt(all[i..]) {
      assert i > 0 ==> CommentAt(less[i - 1..]);
    }
    if i :| 0 <= i < |text| - 1 && CommentAt(less[i..]) {
      assert CommentAt(all[i + 1..]);
    }
  }

  /** Of a text before a comment, or before the end, everything stays unless a comment starts earlier. */
  lemma {:induction false} DropsFrom(text: string, rest: string)
    requires rest == "" || CommentAt(rest)
    ensures DropInlineComment(text + rest) <= text
    ensures DropInlineComment(text + rest) == text <==> !CommentInside(text, rest)
    decreases |text|
  {
    hide CommentAt, CommentInside, TrimStart;
    if text == "" {
      assert text + rest == rest;
      assert !CommentInside(text, rest) by { NothingInside(rest); }
    } else {
      ShiftInside(text, rest);
      assert (text + rest)[1..] == text[1..] + rest;
      DropsFrom(text[1..], rest);
      assert text == [text[0]] + text[1..];
    }
  }

  lemma NothingInside(rest: string)
    ensures !CommentInside("", rest)
  {
  }

  lemma NoHashNoComment(text: string, rest: string)
    requires text != "" && '#' !in text && !IsSpace(text[|text| - 1])
    ensures !CommentInside(text, rest)
  {
    hide CommentAt;
    forall i | 0 <= i < |text|
      ensures !CommentAt((text + rest)[i..])
    {
      assert (text + rest)[i..] == text[i..] + rest;
      NoCommentInside(text[i..], rest);
    }
  }

  /**
   * An unquoted value comes back as written if and only if no comment starts within it,
   * with and without a comment after it; one without `#` always does. A comment is white
   * space and `#`, with no line break from there to the end.
   */
  lemma Unquoted(value: string, spaces: string, comment: string)
    requires value != "" && !IsSpace(value[0]) && !IsSpace(value[|value| - 1]) && !IsQuote(value[0])
    requires spaces != "" && AllSpaces(spaces)
    requires comment == "" || !IsSpace(comment[|comment| - 1])
    requires forall c | c in comment :: !IsLineTerminator(c)
    ensures ParseDotenvValue(value) == value <==> !CommentInside(value, "")
    ensures ParseDotenvValue(value + (spaces + ("#" + comment))) == value
       <==> !CommentInside(value, spaces + ("#" + comment))
    ensures '#' !in value ==>
              ParseDotenvValue(value) == ParseDotenvValue(value + (spaces + ("#" + comment))) == value
  {
    hide TrimStart, TrimEnd, DropInlineComment, ParseDotenvValue, IsQuote, CommentInside;
    var tail := spaces + ("#" + comment);
    var rest := "#" + comment;
    TrimStartDropsSpaces(spaces, rest);
    assert CommentAt(tail);
    assert tail[|tail| - 1] == rest[|rest| - 1];
    UnquotedWith(value, tail);
    UnquotedWith(value, "");
    assert value + "" == value;
    if '#' !in value {
      NoHashNoComment(value, tail);
      NoHashNoComment(value, "");
    }
  }

  lemma UnquotedWith(value: string, tail: string)
    requires value != "" && !IsSpace(value[0]) && !IsSpace(value[|value| - 1]) && !IsQuote(value[0])
    requires tail == "" || (CommentAt(tail) && !IsSpace(tail[|tail| - 1]))
    ensures ParseDotenvValue(value + tail) == value <==> !CommentInside(value, tail)
  {
    hide TrimStart, TrimEnd, Trim, CommentAt, CommentInside, DropInlineComment, StripWrappingQuotes;
    var raw := value + tail;
    assert raw[0] == value[0] && raw[|raw| - 1] == if tail == "" then value[|value| - 1] else tail[|tail| - 1];
    TrimmedIsTrim(raw);
    TrimmedIsTrim(value);
    DropsFrom(value, tail);
    TrimIsShort(DropInlineComment(raw));
  }

  lemma TrimIsShort(s: string)
    ensures |Trim(s)| <= |s|
  {
  }

  // ---------------------------------------------------------------- character by character

  /** A comment is white space, a `#`, and no line break after it. */
  lemma CommentIs(s: string)
    ensures CommentAt(s) <==>
              exists n | 1 <= n < |s| ::
                && AllSpaces(s[..n]) && s[n] == '#' && forall i | n < i < |s| :: !IsLineTerminator(s[i])
  {
    hide IsSpace, IsLineTerminator;
    var n := |s| - |TrimStart(s)|;
    TrimStartTakes(s);
    if CommentAt(s) {
      assert s[n] == '#' && AllSpaces(s[..n]);
      assert forall i | n < i < |s| :: s[i] == TrimStart(s)[i - n];
    }
    if m :| 1 <= m < |s| && AllSpaces(s[..m]) && s[m] == '#' && forall i | m < i < |s| :: !IsLineTerminator(s[i]) {
      CommentFound(s, m);
    }
  }

  lemma CommentFound(s: string, n: nat)
    requires 1 <= n < |s| && AllSpaces(s[..n]) && s[n] == '#'
    requires forall i | n < i < |s| :: !IsLineTerminator(s[i])
    ensures CommentAt(s)
  {
    assert s == s[..n] + s[n..];
    TrimStartDropsSpaces(s[..n], s[n..]);
    assert s[..n][0] == s[0] && s[0] in s[..n];
  }

  lemma NoHashAfterSpace(s: string)
    requires forall i | 0 < i < |s| && s[i] == '#' :: !IsSpace(s[i - 1])
    ensures !CommentAt(s)
  {
    CommentIs(s);
    hide IsSpace, CommentAt;
    forall n | 1 <= n < |s| && s[n] == '#'
      ensures !AllSpaces(s[..n])
    {
      assert s[..n][n - 1] == s[n - 1] && s[..n][n - 1] in s[..n];
    }
  }

  /** So a value is cut nowhere if no `#` in it comes after white space. */
  lemma HashStays(value: string)
    requires value != "" && !IsSpace(value[0]) && !IsSpace(value[|value| - 1]) && value[0] !in "\"'"
    requires forall i | 0 < i < |value| && value[i] == '#' :: !IsSpace(value[i - 1])
    ensures ParseDotenvValue(value) == value
  {
    hide IsSpace, CommentAt, ParseDotenvValue;
    UnquotedWith(value, "");
    assert value + "" == value;
    forall i | 0 <= i < |value|
      ensures !CommentAt((value + "")[i..])
    {
      NoHashAfterSpace(value[i..]);
    }
  }

  /** The three escapes of a double-quoted value. */
  lemma UnescapesTo(rest: string)
    ensures Unescape(['\\', 'n'] + rest) == ['\n'] + Unescape(rest)
    ensures Unescape(['\\', 'r'] + rest) == ['\r'] + Unescape(rest)
    ensures Unescape(['\\', 't'] + rest) == ['\t'] + Unescape(rest)
  {
    UnescapesPair('n', rest);
    UnescapesPair('r', rest);
    UnescapesPair('t', rest);
    hide Unescape;
  }

  lemma UnescapesPair(e: char, rest: string)
    requires Escaped(e).Some?
    ensures Unescape(['\\', e] + rest) == [Escaped(e).value] + Unescape(rest)
  {
    assert (['\\', e] + rest)[2..] == rest;
  }

  /** And every other character as it is. */
  lemma UnescapesElse(c: char, rest: string)
    requires c == '\\' && rest != "" ==> rest[0] != 'n' && rest[0] != 'r' && rest[0] != 't'
    ensures Unescape("") == "" && Unescape([c] + rest) == [c] + Unescape(rest)
  {
    assert ([c] + rest)[1..] == rest;
  }

  /** A value that opens a quote and does not close it is taken as it is; a quote alone is an empty value. */
  lemma UnclosedQuote(value: string)
    requires value != "" && value[0] in "\"'" && !IsSpace(value[|value| - 1])
    ensures value[|value| - 1] != value[0] ==> ParseDotenvValue(value) == value
    ensures |value| == 1 ==> ParseDotenvValue(value) == ""
  {
    assert forall b: char, with: char :: ReplacePair("", '\\', b, with) == "";
    hide TrimStart, TrimEnd, Trim, ReplacePair, DropInlineComment;
    TrimmedIsTrim(value);
  }

  /** Blank lines, comment lines and lines without an equals sign define nothing. */
  lemma DefinesNothing(spaces: string, text: string)
    requires AllSpaces(spaces)
    ensures ParseDotenvLine(spaces) == None
    ensures ParseDotenvLine(spaces + ("#" + text)) == None
    ensures '=' !in text ==> ParseDotenvLine(text) == None
  {
    BlankIsTrimmed(spaces);
    HashLine(spaces, "#" + text);
    hide Trim, ParseDotenvValue, ParseAssignment, StripExportPrefix, IndexOf, IsSpace, AllSpaces;
    if '=' !in text {
      NothingToSplit(text);
    }
  }

  lemma BlankIsTrimmed(spaces: string)
    requires AllSpaces(spaces)
    ensures Trim(spaces) == ""
  {
    TrimStartDropsSpaces(spaces, "");
    assert spaces + "" == spaces;
    hide IsSpace, TrimStart;
  }

  lemma HashLine(spaces: string, rest: string)
    requires AllSpaces(spaces) && rest != "" && rest[0] == '#'
    ensures ParseDotenvLine(spaces + rest) == None
  {
    assert !IsSpace('#');
    hide IsSpace, TrimStart, TrimEnd, ParseAssignment, StripExportPrefix;
    TrimStartDropsSpaces(spaces, rest);
    HashIsFirst(rest);
  }

  lemma NothingToSplit(text: string)
    requires '=' !in text
    ensures ParseDotenvLine(text) == None
  {
    StripsToPart(text);
    hide Trim, StripExportPrefix, ParseDotenvValue;
    var stripped := StripExportPrefix(Trim(text));
    assert '=' !in stripped;
  }

  lemma {:induction false} HashIsFirst(s: string)
    requires s != "" && !IsSpace(s[0])
    ensures TrimEnd(s) != "" && TrimEnd(s)[0] == s[0]
  {
    hide IsSpace;
    if IsSpace(s[|s| - 1]) {
      HashIsFirst(s[..|s| - 1]);
    }
  }
}
