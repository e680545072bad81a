/** The signing init script rendered by apps/cli/src/lib/android-signing-gradle.ts, and a reader for its literals. */
module Groovy {
  import opened Wrappers

  /** `replaceAll` of a one-character pattern. */
  function ReplaceAll(s: string, c: char, with: string): string {
    if s == "" then "" else (if s[0] == c then with else [s[0]]) + ReplaceAll(s[1..], c, with)
  }

  function EscapeGroovySingleQuoted(value: string): string {
    ReplaceAll(ReplaceAll(ReplaceAll(value, '\\', "\\\\"), '\'', "\\'"), '$', "\\$")
  }

  predicate NeedsEscape(c: char) {
    c == '\\' || c == '\'' || c == '$'
  }

  function EscapeChar(c: char): string {
    if NeedsEscape(c) then ['\\', c] else [c]
  }

  /** Every character on its own: what the three passes amount to. */
  function EscapeEach(value: string): string {
    if value == "" then "" else EscapeChar(value[0]) + EscapeEach(value[1..])
  }

  lemma {:induction false} ReplaceAllConcat(a: string, b: string, c: char, with: string)
    ensures ReplaceAll(a + b, c, with) == ReplaceAll(a, c, with) + ReplaceAll(b, c, with)
  {
    if a == "" {
      assert a + b == b;
    } else {
      assert (a + b)[1..] == a[1..] + b;
      ReplaceAllConcat(a[1..], b, c, with);
    }
  }

  lemma ThreePassesOneChar(c: char)
    ensures EscapeGroovySingleQuoted([c]) == EscapeChar(c)
  {
    assert forall d: char, e: char, with: string :: ReplaceAll([d], e, with) == if d == e then with else [d];
    ReplaceAllConcat("\\", [c], '\'', "\\'");
    ReplaceAllConcat("\\", [c], '$', "\\$");
    assert "\\" + [c] == ['\\', c];
  }

  /**
   * The three passes never see each other's output: a pass escapes only characters
   * the later ones leave alone, so together they escape each character once.
   */
  lemma {:induction false} ThreePassesAreOne(value: string)
    ensures EscapeGroovySingleQuoted(value) == EscapeEach(value)
  {
    if value != "" {
      var c, rest := [value[0]], value[1..];
      assert value == c + rest;
      ReplaceAllConcat(c, rest, '\\', "\\\\");
      ReplaceAllConcat(ReplaceAll(c, '\\', "\\\\"), ReplaceAll(rest, '\\', "\\\\"), '\'', "\\'");
      ReplaceAllConcat(
        ReplaceAll(ReplaceAll(c, '\\', "\\\\"), '\'', "\\'"),
        ReplaceAll(ReplaceAll(rest, '\\', "\\\\"), '\'', "\\'"), '$', "\\$");
      ThreePassesOneChar(value[0]);
      ThreePassesAreOne(rest);
    }
  }

  /** Backslash, quote and dollar sign get a backslash in front, and every other character stays. */
  lemma EscapesExactly(a: string, c: char, b: string)
    ensures EscapeGroovySingleQuoted("") == ""
    ensures EscapeGroovySingleQuoted(a + [c] + b)
         == EscapeGroovySingleQuoted(a) + (if c in "\\'$" then "\\" + [c] else [c]) + EscapeGroovySingleQuoted(b)
  {
    EscapesCons(c, b);
    ThreePassesAreOne("");
    EscapesConcat(a, [c] + b);
    hide EscapeGroovySingleQuoted;
    assert a + [c] + b == a + ([c] + b);
  }

  lemma EscapesCons(c: char, b: string)
    ensures EscapeGroovySingleQuoted([c] + b) == (if c in "\\'$" then "\\" + [c] else [c]) + EscapeGroovySingleQuoted(b)
  {
    ThreePassesAreOne([c] + b);
    ThreePassesAreOne(b);
    hide EscapeGroovySingleQuoted;
    assert ([c] + b)[1..] == b;
    assert "\\" + [c] == ['\\', c];
  }

  lemma EscapesConcat(a: string, b: string)
    ensures EscapeGroovySingleQuoted(a + b) == EscapeGroovySingleQuoted(a) + EscapeGroovySingleQuoted(b)
  {
    ThreePassesAreOne(a + b);
    ThreePassesAreOne(a);
    ThreePassesAreOne(b);
    hide EscapeGroovySingleQuoted;
    EachConcat(a, b);
  }

  lemma {:induction false} EachConcat(a: string, b: string)
    ensures EscapeEach(a + b) == EscapeEach(a) + EscapeEach(b)
  {
    if a == "" {
      assert a + b == b;
    } else {
      assert (a + b)[1..] == a[1..] + b;
      EachConcat(a[1..], b);
    }
  }

  // ---------------------------------------------------------------- reading it back

  predicate IsNewline(c: char) {
    c == '\n' || c == '\r'
  }

  predicate HasNewline(s: string) {
    exists c | c in s :: IsNewline(c)
  }

  /** Groovy's one-character escapes. */
  function Unescape(c: char): Option<char> {
    if NeedsEscape(c) || c == '"' then Some(c)
    else if c == 'n' then Some('\n')
    else if c == 'r' then Some('\r')
    else if c == 't' then Some('\t')
    else if c == 'b' then Some(8 as char)
    else if c == 'f' then Some(12 as char)
    else if c == 's' then Some(' ')
    else None
  }

  datatype Literal = Literal(value: string, rest: string)

  /** Reads from just after an opening single quote to its closing quote, which must be on the same line. */
  function ReadLiteral(s: string): (r: Option<Literal>)
    ensures r.Some? ==> |r.value.rest| < |s|
  {
    if s == "" || IsNewline(s[0]) then None
    else if s[0] == '\'' then Some(Literal("", s[1..]))
    else if s[0] != '\\' then Prepend(s[0], ReadLiteral(s[1..]))
    else if |s| > 1 && Unescape(s[1]).Some? then Prepend(Unescape(s[1]).value, ReadLiteral(s[2..]))
    else None
  }

  function Prepend(c: char, r: Option<Literal>): Option<Literal> {
    if r.None? then None else Some(r.value.(value := [c] + r.value.value))
  }

  /**
   * An escaped value in single quotes is read back as the value, the reader stopping
   * at exactly the closing quote, if and only if the value has no newline.
   */
  lemma {:induction false} ReadsBack(value: string, rest: string)
    ensures ReadLiteral(EscapeGroovySingleQuoted(value) + "'" + rest)
         == if HasNewline(value) then None else Some(Literal(value, rest))
  {
    if value == "" {
      ReadsEmpty(rest);
    } else {
      var c := value[0];
      var tail := EscapeGroovySingleQuoted(value[1..]) + "'" + rest;
      EscapesFirst(value, rest);
      NewlineFirst(value);
      assert value == [c] + value[1..];
      hide ReadLiteral, EscapeGroovySingleQuoted, EscapeChar, HasNewline, IsNewline;
      ReadsBack(value[1..], rest);
      ReadsChar(c, tail);
    }
  }

  lemma ReadsEmpty(rest: string)
    ensures ReadLiteral(EscapeGroovySingleQuoted("") + "'" + rest) == Some(Literal("", rest))
  {
    ThreePassesAreOne("");
    assert "" + "'" + rest == ['\''] + rest;
  }

  lemma EscapesFirst(value: string, rest: string)
    requires value != ""
    ensures EscapeGroovySingleQuoted(value) + "'" + rest
         == EscapeChar(value[0]) + (EscapeGroovySingleQuoted(value[1..]) + "'" + rest)
  {
    ThreePassesAreOne(value);
    ThreePassesAreOne(value[1..]);
    hide EscapeGroovySingleQuoted, EscapeChar;
    assert EscapeEach(value) == EscapeChar(value[0]) + EscapeEach(value[1..]);
  }

  lemma NewlineFirst(value: string)
    requires value != ""
    ensures HasNewline(value) <==> IsNewline(value[0]) || HasNewline(value[1..])
  {
    assert value == [value[0]] + value[1..];
  }

  lemma ReadsChar(c: char, tail: string)
    ensures ReadLiteral(EscapeChar(c) + tail) == if IsNewline(c) then None else Prepend(c, ReadLiteral(tail))
  {
    var s := EscapeChar(c) + tail;
    assert s[|EscapeChar(c)|..] == tail;
  }

  // ---------------------------------------------------------------- the whole script

  /** A script with its literals cut out: the text between them and their values, in order. */
  datatype Script = Script(skeleton: string, literals: seq<string>)

  function Scan(s: string): Option<Script>
    decreases |s|
  {
    if s == "" then Some(Script("", []))
    else if s[0] != '\'' then
      match Scan(s[1..])
      case None => None
      case Some(script) => Some(script.(skeleton := [s[0]] + script.skeleton))
    else
      match ReadLiteral(s[1..])
      case None => None
      case Some(literal) =>
        match Scan(literal.rest)
        case None => None
        case Some(script) => Some(Script(['\''] + script.skeleton, [literal.value] + script.literals))
  }

  /** Plain text in front of a scanned script. */
  function After(plain: string, r: Option<Script>): Option<Script> {
    if r.None? then None else Some(r.value.(skeleton := plain + r.value.skeleton))
  }

  /** A literal of that value in front of a scanned script. */
  function Cut(value: string, r: Option<Script>): Option<Script> {
    if HasNewline(value) || r.None? then None
    else Some(Script("'" + r.value.skeleton, [value] + r.value.literals))
  }

  predicate Plain(s: string) {
    '\'' !in s
  }

  lemma {:induction false} ScanPlain(plain: string, rest: string)
    requires Plain(plain)
    ensures Scan(plain + rest) == After(plain, Scan(rest))
  {
    if plain == "" {
      assert plain + rest == rest;
      assert Scan(rest).Some? ==> plain + Scan(rest).value.skeleton == Scan(rest).value.skeleton;
    } else {
      assert (plain + rest)[1..] == plain[1..] + rest;
      ScanPlain(plain[1..], rest);
      if Scan(rest).Some? {
        assert [plain[0]] + (plain[1..] + Scan(rest).value.skeleton) == plain + Scan(rest).value.skeleton;
      }
    }
  }

  function Quoted(value: string): string {
    "'" + EscapeGroovySingleQuoted(value) + "'"
  }

  lemma ScanLiteral(value: string, rest: string)
    ensures Scan(Quoted(value) + rest) == Cut(value, Scan(rest))
  {
    var s := Quoted(value) + rest;
    assert s[0] == '\'' && s[1..] == EscapeGroovySingleQuoted(value) + "'" + rest;
    ReadsBack(value, rest);
  }

  /** Plain text, a quoted value, and more: the value is one literal, whatever it contains. */
  lemma ScanQuoted(plain: string, value: string, rest: string)
    requires Plain(plain)
    ensures Scan(plain + Quoted(value) + rest) == After(plain, Cut(value, Scan(rest)))
  {
    ScanLiteral(value, rest);
    ScanPlain(plain, Quoted(value) + rest);
    assert plain + (Quoted(value) + rest) == plain + Quoted(value) + rest;
  }

  // A template is a list of slots, the text before each value and the value, and a closing text.

  datatype Slot = Slot(before: string, value: string)

  function Fill(slots: seq<Slot>, close: string): string {
    if slots == [] then close else slots[0].before + Quoted(slots[0].value) + Fill(slots[1..], close)
  }

  /** The text around the values, each reduced to one quote. */
  function Frame(slots: seq<Slot>, close: string): string {
    if slots == [] then close else slots[0].before + ("'" + Frame(slots[1..], close))
  }

  function SlotValues(slots: seq<Slot>): seq<string> {
    seq(|slots|, i requires 0 <= i < |slots| => slots[i].value)
  }

  predicate OneLine(slots: seq<Slot>) {
    forall slot | slot in slots :: !HasNewline(slot.value)
  }

  /**
   * A filled template scans to its fixed frame and to exactly the values, in order,
   * if and only if no value has a newline; with one, a literal never closes.
   */
  lemma {:induction false} FillScans(slots: seq<Slot>, close: string)
    requires Plain(close) && forall slot | slot in slots :: Plain(slot.before)
    ensures Scan(Fill(slots, close))
         == if OneLine(slots) then Some(Script(Frame(slots, close), SlotValues(slots))) else None
  {
    if slots == [] {
      ScanPlain(close, "");
      assert close + "" == close;
    } else {
      FillScans(slots[1..], close);
      assert slots == [slots[0]] + slots[1..];
      assert SlotValues(slots) == [slots[0].value] + SlotValues(slots[1..]);
      ScanQuoted(slots[0].before, slots[0].value, Fill(slots[1..], close));
    }
  }

  datatype SigningInput = SigningInput(
    keystorePath: string,
    storePassword: string,
    keyAlias: string,
    keyPassword: string)

  const PLUGIN := "com.android.application"

  function Spaces(n: nat): string {
    seq(n, _ => ' ')
  }

  function Indent(n: nat, text: string): string {
    Spaces(n) + text
  }

  function Line(n: nat, text: string): string {
    Indent(n, text) + "\n"
  }

  const BEFORE_PLUGIN :=
    Line(0, "allprojects {") + Line(2, "afterEvaluate { project ->") + Indent(4, "if (project.plugins.hasPlugin(")
  const BEFORE_STORE_FILE :=
    Line(0, ")) {") + Line(6, "project.android {") + Line(8, "signingConfigs {") + Line(10, "release {")
    + Indent(12, "storeFile file(")
  const BEFORE_STORE_PASSWORD := Line(0, ")") + Indent(12, "storePassword ")
  const BEFORE_KEY_ALIAS := Line(0, "") + Indent(12, "keyAlias ")
  const BEFORE_KEY_PASSWORD := Line(0, "") + Indent(12, "keyPassword ")
  const BUILD_TYPES :=
    Line(0, "") + Line(10, "}") + Line(8, "}") + Line(8, "buildTypes {") + Line(10, "release {")
    + Line(12, "signingConfig signingConfigs.release")
  const CLOSE_BLOCKS := Line(10, "}") + Line(8, "}") + Line(6, "}") + Line(4, "}") + Line(2, "}") + Line(0, "}")
  const CLOSE_SCRIPT := BUILD_TYPES + CLOSE_BLOCKS

  function InputSlots(input: SigningInput): seq<Slot> {
    [Slot(BEFORE_STORE_FILE, input.keystorePath),
     Slot(BEFORE_STORE_PASSWORD, input.storePassword),
     Slot(BEFORE_KEY_ALIAS, input.keyAlias),
     Slot(BEFORE_KEY_PASSWORD, input.keyPassword)]
  }

  function RenderSigningGradle(input: SigningInput): string {
    BEFORE_PLUGIN + ("'" + PLUGIN + "'") + Fill(InputSlots(input), CLOSE_SCRIPT)
  }

  lemma PlainLine(n: nat, text: string)
    requires '\'' !in text
    ensures '\'' !in Indent(n, text) && '\'' !in Line(n, text)
  {
  }

  lemma PlainOpening()
    ensures Plain(BEFORE_PLUGIN)
  {
    PlainLine(0, "allprojects {");
    PlainLine(2, "afterEvaluate { project ->");
    PlainLine(4, "if (project.plugins.hasPlugin(");
  }

  lemma PlainSigning()
    ensures Plain(BEFORE_STORE_FILE)
  {
    PlainLine(0, ")) {");
    PlainLine(6, "project.android {");
    PlainLine(8, "signingConfigs {");
    PlainLine(10, "release {");
    PlainLine(12, "storeFile file(");
  }

  lemma PlainBetween()
    ensures Plain(BEFORE_STORE_PASSWORD) && Plain(BEFORE_KEY_ALIAS) && Plain(BEFORE_KEY_PASSWORD)
  {
    PlainLine(12, "storePassword ");
    PlainLine(12, "keyAlias ");
    PlainLine(12, "keyPassword ");
  }

  lemma PlainClosing()
    ensures Plain(BUILD_TYPES)
  {
    PlainLine(8, "buildTypes {");
    PlainLine(10, "release {");
    PlainLine(12, "signingConfig signingConfigs.release");
  }

  lemma PlainBlocks()
    ensures Plain(CLOSE_BLOCKS)
  {
    PlainLine(10, "}");
    PlainLine(8, "}");
    PlainLine(6, "}");
    PlainLine(4, "}");
    PlainLine(2, "}");
    PlainLine(0, "}");
  }

  lemma PlainPlugin()
    ensures !HasNewline(PLUGIN) && forall c | c in PLUGIN :: !NeedsEscape(c)
  {
  }

  lemma {:induction false} NothingToEscape(s: string)
    requires forall c | c in s :: !NeedsEscape(c)
    ensures EscapeEach(s) == s
  {
    if s != "" {
      NothingToEscape(s[1..]);
      assert s == [s[0]] + s[1..];
    }
  }

  predicate SingleLine(input: SigningInput) {
    && !HasNewline(input.keystorePath) && !HasNewline(input.storePassword)
    && !HasNewline(input.keyAlias) && !HasNewline(input.keyPassword)
  }

  lemma InputValues(input: SigningInput)
    ensures SlotValues(InputSlots(input))
         == [input.keystorePath, input.storePassword, input.keyAlias, input.keyPassword]
    ensures OneLine(InputSlots(input)) <==> SingleLine(input)
    ensures forall slot | slot in InputSlots(input) :: slot.before in PIECES
  {
    var slots := InputSlots(input);
    assert slots[0] in slots && slots[1] in slots && slots[2] in slots && slots[3] in slots;
  }

  const PIECES := {BEFORE_STORE_FILE, BEFORE_STORE_PASSWORD, BEFORE_KEY_ALIAS, BEFORE_KEY_PASSWORD}

  /** The frame depends on the template alone. */
  lemma {:induction false} SameFrame(slots: seq<Slot>, others: seq<Slot>, close: string)
    requires |slots| == |others| && forall i | 0 <= i < |slots| :: slots[i].before == others[i].before
    ensures Frame(slots, close) == Frame(others, close)
  {
    if slots != [] {
      SameFrame(slots[1..], others[1..], close);
    }
  }

  lemma PluginScans(rest: string)
    ensures Scan(BEFORE_PLUGIN + ("'" + PLUGIN + "'") + rest) == After(BEFORE_PLUGIN, Cut(PLUGIN, Scan(rest)))
    ensures !HasNewline(PLUGIN)
  {
    PlainOpening();
    PlainPlugin();
    NothingToEscape(PLUGIN);
    ThreePassesAreOne(PLUGIN);
    ScanQuoted(BEFORE_PLUGIN, PLUGIN, rest);
  }

  lemma PlainTemplate()
    ensures Plain(CLOSE_SCRIPT) && forall piece | piece in PIECES :: Plain(piece)
  {
    PlainSigning();
    PlainBetween();
    PlainClosing();
    PlainBlocks();
  }

  /** The script with its literals cut out, the same for every input. */
  function Skeleton(): string {
    BEFORE_PLUGIN + ("'" + Frame(InputSlots(SigningInput("", "", "", "")), CLOSE_SCRIPT))
  }

  /**
   * The rendered script is the fixed skeleton with exactly five literals, the plugin
   * id and then the four input values as given, if and only if no value has a
   * newline; with a newline some literal never closes.
   */
  lemma ScriptHoldsInputs(input: SigningInput)
    ensures Scan(RenderSigningGradle(input))
         == if SingleLine(input)
            then Some(Script(Skeleton(),
              ["com.android.application", input.keystorePath, input.storePassword, input.keyAlias, input.keyPassword]))
            else None
  {
    hide Scan, Fill, EscapeGroovySingleQuoted, HasNewline;
    var slots := InputSlots(input);
    PlainTemplate();
    InputValues(input);
    FillScans(slots, CLOSE_SCRIPT);
    SameFrame(slots, InputSlots(SigningInput("", "", "", "")), CLOSE_SCRIPT);
    PluginScans(Fill(slots, CLOSE_SCRIPT));
    assert [PLUGIN] + SlotValues(slots)
        == [PLUGIN, input.keystorePath, input.storePassword, input.keyAlias, input.keyPassword];
  }

  // ---------------------------------------------------------------- which keyword precedes which input

  /** The four settings of the release config, each keyword before its own input. */
  function Settings(input: SigningInput): string {
    "storeFile file(" + Quoted(input.keystorePath) + (")\n" + Spaces(12))
    + "storePassword " + Quoted(input.storePassword) + ("\n" + Spaces(12))
    + "keyAlias " + Quoted(input.keyAlias) + ("\n" + Spaces(12))
    + "keyPassword " + Quoted(input.keyPassword) + "\n"
  }

  lemma BlankLine(text: string)
    ensures Line(0, text) == text + "\n"
  {
  }

  lemma Keyword(end: string, keyword: string)
    ensures Line(0, end) + Indent(12, keyword) == (end + "\n" + Spaces(12)) + keyword
  {
    BlankLine(end);
    assert Indent(12, keyword) == Spaces(12) + keyword;
  }

  lemma FourSlots(a: Slot, b: Slot, c: Slot, e: Slot, close: string)
    ensures Fill([a, b, c, e], close)
         == a.before + Quoted(a.value) + (b.before + Quoted(b.value) + (c.before + Quoted(c.value)
            + (e.before + Quoted(e.value) + close)))
  {
    hide Quoted;
    assert [a, b, c, e][1..] == [b, c, e] && [b, c, e][1..] == [c, e] && [c, e][1..] == [e] && [e][1..] == [];
    assert Fill([e][1..], close) == close;
    assert Fill([c, e], close) == c.before + Quoted(c.value) + Fill([e], close);
    assert Fill([b, c, e], close) == b.before + Quoted(b.value) + Fill([c, e], close);
  }

  lemma Regroup(
    before: string, open: string, k1: string, p: string, b: string, k2: string, q: string, c: string, k3: string,
    r: string, k4: string, t: string, newline: string, after: string)
    ensures before + ((open + k1) + p + ((b + k2) + q + ((c + k3) + r + ((c + k4) + t + (newline + after)))))
         == (before + open) + (k1 + p + b + k2 + q + c + k3 + r + c + k4 + t + newline) + after
  {
  }

  lemma OpensWithStoreFile() returns (open: string)
    ensures BEFORE_STORE_FILE == open + "storeFile file("
  {
    var lines := Line(0, ")) {") + Line(6, "project.android {") + Line(8, "signingConfigs {") + Line(10, "release {");
    open := lines + Spaces(12);
    hide Line;
    assert Indent(12, "storeFile file(") == Spaces(12) + "storeFile file(";
    hide Indent, Spaces;
    assert lines + (Spaces(12) + "storeFile file(") == open + "storeFile file(";
  }

  lemma ClosesWithNewline() returns (after: string)
    ensures CLOSE_SCRIPT == "\n" + after
  {
    BlankLine("");
    hide Line;
    assert CLOSE_SCRIPT[0] == Line(0, "")[0] == '\n';
    after := CLOSE_SCRIPT[1..];
  }

  /** Four settings in any template of this shape. */
  lemma Assembles(before: string, open: string, slots: seq<Slot>, close: string, after: string, input: SigningInput)
    requires |slots| == 4 && close == "\n" + after
    requires slots[0] == Slot(open + "storeFile file(", input.keystorePath)
    requires slots[1] == Slot((")\n" + Spaces(12)) + "storePassword ", input.storePassword)
    requires slots[2] == Slot(("\n" + Spaces(12)) + "keyAlias ", input.keyAlias)
    requires slots[3] == Slot(("\n" + Spaces(12)) + "keyPassword ", input.keyPassword)
    ensures before + Fill(slots, close) == (before + open) + Settings(input) + after
  {
    assert slots == [slots[0], slots[1], slots[2], slots[3]];
    FourSlots(slots[0], slots[1], slots[2], slots[3], close);
    hide Fill, EscapeGroovySingleQuoted, Spaces;
    Regroup(before, open, "storeFile file(", Quoted(input.keystorePath), ")\n" + Spaces(12), "storePassword ",
      Quoted(input.storePassword), "\n" + Spaces(12), "keyAlias ", Quoted(input.keyAlias), "keyPassword ",
      Quoted(input.keyPassword), "\n", after);
  }

  lemma SlotsAre(input: SigningInput) returns (open: string)
    ensures InputSlots(input)
         == [Slot(open + "storeFile file(", input.keystorePath),
             Slot((")\n" + Spaces(12)) + "storePassword ", input.storePassword),
             Slot(("\n" + Spaces(12)) + "keyAlias ", input.keyAlias),
             Slot(("\n" + Spaces(12)) + "keyPassword ", input.keyPassword)]
  {
    open := OpensWithStoreFile();
    Keyword(")", "storePassword ");
    Keyword("", "keyAlias ");
    Keyword("", "keyPassword ");
    hide Line, Indent, Spaces;
    assert "" + "\n" == "\n";
    assert BEFORE_STORE_PASSWORD == (")\n" + Spaces(12)) + "storePassword ";
    assert BEFORE_KEY_ALIAS == ("\n" + Spaces(12)) + "keyAlias ";
    assert BEFORE_KEY_PASSWORD == ("\n" + Spaces(12)) + "keyPassword ";
  }

  /** In the script `storeFile file(` precedes the path, and each of the three other keywords its own input. */
  lemma KeywordsPrecedeInputs(input: SigningInput)
    ensures exists before, after :: RenderSigningGradle(input) == before + Settings(input) + after
  {
    var open := SlotsAre(input);
    var after := ClosesWithNewline();
    var slots, close := InputSlots(input), CLOSE_SCRIPT;
    hide Settings, Fill, InputSlots, Spaces;
    Assembles(BEFORE_PLUGIN + ("'" + PLUGIN + "'"), open, slots, close, after, input);
  }
}
