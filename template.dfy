/**
 * The script template: the text of a C# ScriptableObject class rendered
 * from the window's six settings.
 *
 * `GenerateScriptContent` appends the same literals as the editor window, in
 * the same order, grouped by the five blocks of the template (head, sample
 * fields, separator, `OnEnable` stub, `OnValidate` stub) and the closing
 * brace. `ScriptLines` is the same script seen as a list of lines, each
 * without its newline; `RenderIsJoinedLines` proves that the text is exactly
 * those lines joined. The properties of the template (which blocks appear,
 * where, separated by which blank lines) are stated on the lines, where the
 * user's script name and menu path sit inside one line each and cannot be
 * mistaken for a generated block.
 */
module ScriptTemplate {

  import TemplateLiterals

  /** The six settings of the window. */
  datatype Config = Config(
    scriptName: string,
    menuPath: string,
    addHeader: bool,
    addOnEnable: bool,
    addOnValidate: bool,
    addSampleFields: bool)

  // ---------------------------------------------------------------------
  // The rendered text

  /** Using directive, blank line, asset-menu attribute, class declaration
      and opening brace. */
  function HeadText(c: Config): string
  {
    "using UnityEngine;\n\n"
    + "[CreateAssetMenu(fileName = \"" + c.scriptName + "\", menuName = \"" + c.menuPath + "/" + c.scriptName + "\")]\n"
    + "public class " + c.scriptName + " : ScriptableObject\n"
    + "{\n"
  }

  /** The optional header, the two sample fields and the placeholder comment. */
  function FieldsText(c: Config): string
  {
    if c.addSampleFields then
      (if c.addHeader then "    [Header(\"Settings\")]\n" else "")
      + "    [SerializeField] private string displayName;\n"
      + "    [SerializeField] private int value;\n\n"
      + "    // Add your fields here\n"
    else ""
  }

  /** One blank line before the lifecycle stubs, when there is any. */
  function SeparatorText(c: Config): string
  {
    if c.addOnEnable || c.addOnValidate then "\n" else ""
  }

  function OnEnableText(c: Config): string
  {
    if c.addOnEnable then
      "    private void OnEnable()\n"
      + "    {\n"
      + "        // Initialization when the asset is loaded\n"
      + "    }\n"
    else ""
  }

  function OnValidateText(c: Config): string
  {
    if c.addOnValidate then
      (if c.addOnEnable then "\n" else "")
      + "    private void OnValidate()\n"
      + "    {\n"
      + "        // Validation in the editor\n"
      + "    }\n"
    else ""
  }

  /** The rendered script text. */
  function GenerateScriptContent(c: Config): string
  {
    HeadText(c) + FieldsText(c) + SeparatorText(c) + OnEnableText(c) + OnValidateText(c) + "}\n"
  }

  // ---------------------------------------------------------------------
  // The script as a list of lines

  /** Each line followed by a newline, in order. */
  function JoinLines(lines: seq<string>): string
  {
    if lines == [] then "" else lines[0] + "\n" + JoinLines(lines[1..])
  }

  const UsingLine := "using UnityEngine;"
  const OpenBrace := "{"
  const CloseBrace := "}"
  const HeaderLine := "    [Header(\"Settings\")]"
  const SampleFieldLines := [
    "    [SerializeField] private string displayName;",
    "    [SerializeField] private int value;",
    "",
    "    // Add your fields here"]
  const OnEnableLines := [
    "    private void OnEnable()",
    "    {",
    "        // Initialization when the asset is loaded",
    "    }"]
  const OnValidateLines := [
    "    private void OnValidate()",
    "    {",
    "        // Validation in the editor",
    "    }"]

  /** Every line of the template that does not depend on the settings. */
  const FixedLines := [UsingLine, "", OpenBrace, CloseBrace, HeaderLine]
    + SampleFieldLines + OnEnableLines + OnValidateLines

  /** The `[CreateAssetMenu]` attribute line. */
  function AttributeLine(c: Config): string
  {
    "[CreateAssetMenu(fileName = \"" + c.scriptName + "\", menuName = \"" + c.menuPath + "/" + c.scriptName + "\")]"
  }

  /** The class declaration line. */
  function ClassLine(c: Config): string
  {
    "public class " + c.scriptName + " : ScriptableObject"
  }

  function HeadLines(c: Config): seq<string>
  {
    [UsingLine, "", AttributeLine(c), ClassLine(c), OpenBrace]
  }

  function FieldLines(c: Config): seq<string>
  {
    if c.addSampleFields then (if c.addHeader then [HeaderLine] else []) + SampleFieldLines else []
  }

  function SeparatorLines(c: Config): seq<string>
  {
    if c.addOnEnable || c.addOnValidate then [""] else []
  }

  function OnEnableBlock(c: Config): seq<string>
  {
    if c.addOnEnable then OnEnableLines else []
  }

  function OnValidateBlock(c: Config): seq<string>
  {
    if c.addOnValidate then (if c.addOnEnable then [""] else []) + OnValidateLines else []
  }

  /** Everything between the opening and the closing brace of the class. */
  function BodyLines(c: Config): seq<string>
  {
    FieldLines(c) + SeparatorLines(c) + OnEnableBlock(c) + OnValidateBlock(c)
  }

  /** The script, line by line. */
  function ScriptLines(c: Config): seq<string>
  {
    HeadLines(c) + BodyLines(c) + [CloseBrace]
  }

  // ---------------------------------------------------------------------
  // Text and lines agree

  lemma {:induction false} JoinLinesAppend(a: seq<string>, b: seq<string>)
    ensures JoinLines(a + b) == JoinLines(a) + JoinLines(b)
  {
    if a == [] {
      assert a + b == b;
    } else {
      assert (a + b)[1..] == a[1..] + b;
      JoinLinesAppend(a[1..], b);
    }
  }

  lemma JoinLinesCons(x: string, rest: seq<string>)
    ensures JoinLines([x] + rest) == x + "\n" + JoinLines(rest)
  {
    assert ([x] + rest)[1..] == rest;
  }

  lemma JoinFour(lines: seq<string>)
    requires |lines| == 4
    ensures JoinLines(lines) == lines[0] + "\n" + lines[1] + "\n" + lines[2] + "\n" + lines[3] + "\n"
  {
    JoinLinesCons(lines[3], []);
    assert lines[3..] == [lines[3]];
    assert lines[2..] == [lines[2]] + lines[3..];
    JoinLinesCons(lines[2], lines[3..]);
    assert lines[1..] == [lines[1]] + lines[2..];
    JoinLinesCons(lines[1], lines[2..]);
    assert lines == [lines[0]] + lines[1..];
    JoinLinesCons(lines[0], lines[1..]);
  }

  lemma JoinFive(l0: string, l1: string, l2: string, l3: string, l4: string)
    ensures JoinLines([l0, l1, l2, l3, l4]) ==
      l0 + "\n" + (l1 + "\n") + (l2 + "\n") + (l3 + "\n") + (l4 + "\n")
  {
    JoinLinesCons(l4, []);
    JoinLinesCons(l3, [l4]);
    JoinLinesCons(l2, [l3, l4]);
    JoinLinesCons(l1, [l2, l3, l4]);
    JoinLinesCons(l0, [l1, l2, l3, l4]);
  }

  lemma RegroupHead(u: string, a1: string, n: string, a2: string, m: string, a3: string, a4: string,
                    k1: string, k2: string, o: string)
    ensures u + (a1 + n + a2 + m + a3 + n + a4) + (k1 + n + k2) + o
         == u + a1 + n + a2 + m + a3 + n + a4 + k1 + n + k2 + o
  {
  }

  lemma JoinHeadLines(c: Config)
    ensures JoinLines(HeadLines(c)) == HeadText(c)
  {
    JoinFive(UsingLine, "", AttributeLine(c), ClassLine(c), OpenBrace);
    assert UsingLine + "\n" + ("" + "\n") == "using UnityEngine;\n\n";
    assert OpenBrace + "\n" == "{\n";
    assert AttributeLine(c) + "\n" ==
      "[CreateAssetMenu(fileName = \"" + c.scriptName + "\", menuName = \"" + c.menuPath + "/" + c.scriptName + "\")]\n";
    assert ClassLine(c) + "\n" == "public class " + c.scriptName + " : ScriptableObject\n";
    RegroupHead("using UnityEngine;\n\n", "[CreateAssetMenu(fileName = \"", c.scriptName, "\", menuName = \"",
      c.menuPath, "/", "\")]\n", "public class ", " : ScriptableObject\n", "{\n");
  }

  lemma JoinSampleFieldLines()
    ensures JoinLines(SampleFieldLines) ==
      "    [SerializeField] private string displayName;\n"
      + "    [SerializeField] private int value;\n\n"
      + "    // Add your fields here\n"
  {
    JoinFour(SampleFieldLines);
  }

  lemma JoinFieldLines(c: Config)
    ensures JoinLines(FieldLines(c)) == FieldsText(c)
  {
    if c.addSampleFields {
      JoinSampleFieldLines();
      if c.addHeader {
        assert FieldLines(c) == [HeaderLine] + SampleFieldLines;
        JoinLinesCons(HeaderLine, SampleFieldLines);
      } else {
        assert FieldLines(c) == SampleFieldLines;
      }
    }
  }

  lemma JoinSeparatorLines(c: Config)
    ensures JoinLines(SeparatorLines(c)) == SeparatorText(c)
  {
    JoinLinesCons("", []);
  }

  lemma JoinOnEnableBlock(c: Config)
    ensures JoinLines(OnEnableBlock(c)) == OnEnableText(c)
  {
    JoinFour(OnEnableLines);
  }

  lemma JoinOnValidateLines()
    ensures JoinLines(OnValidateLines) ==
      "    private void OnValidate()\n"
      + "    {\n"
      + "        // Validation in the editor\n"
      + "    }\n"
  {
    JoinFour(OnValidateLines);
  }

  lemma JoinOnValidateBlock(c: Config)
    ensures JoinLines(OnValidateBlock(c)) == OnValidateText(c)
  {
    if c.addOnValidate {
      JoinOnValidateLines();
      if c.addOnEnable {
        assert OnValidateBlock(c) == [""] + OnValidateLines;
        JoinLinesCons("", OnValidateLines);
      } else {
        assert OnValidateBlock(c) == OnValidateLines;
      }
    }
  }

  /** Joining five blocks of lines and the closing brace gives the five
      blocks' texts and "}\n" in the same order. */
  lemma JoinBlocks(h: seq<string>, f: seq<string>, s: seq<string>, e: seq<string>, v: seq<string>,
                   ht: string, ft: string, st: string, et: string, vt: string)
    requires JoinLines(h) == ht && JoinLines(f) == ft && JoinLines(s) == st
    requires JoinLines(e) == et && JoinLines(v) == vt
    ensures JoinLines(h + (f + s + e + v) + [CloseBrace]) == ht + ft + st + et + vt + "}\n"
  {
    var fs := f + s;
    JoinLinesAppend(f, s);
    var fse := fs + e;
    JoinLinesAppend(fs, e);
    var body := fse + v;
    JoinLinesAppend(fse, v);
    JoinLinesAppend(h, body);
    JoinLinesAppend(h + body, [CloseBrace]);
    JoinLinesCons(CloseBrace, []);
    assert JoinLines([CloseBrace]) == "}\n";
    Regroup(ht, ft, st, et, vt, "}\n");
  }

  lemma Regroup(a: string, b: string, c: string, d: string, e: string, z: string)
    ensures a + (b + c + d + e) + z == a + b + c + d + e + z
  {
  }

  /** The rendered text is exactly the script's lines, each ended by "\n". */
  lemma RenderIsJoinedLines(c: Config)
    ensures GenerateScriptContent(c) == JoinLines(ScriptLines(c))
  {
    JoinHeadLines(c);
    JoinFieldLines(c);
    JoinSeparatorLines(c);
    JoinOnEnableBlock(c);
    JoinOnValidateBlock(c);
    JoinBlocks(HeadLines(c), FieldLines(c), SeparatorLines(c), OnEnableBlock(c), OnValidateBlock(c),
      HeadText(c), FieldsText(c), SeparatorText(c), OnEnableText(c), OnValidateText(c));
  }

  // ---------------------------------------------------------------------
  // Reading the lines back

  /** Index of the first newline in `s`, or `|s|` when there is none. */
  function LineEnd(s: string): (i: nat)
    ensures i <= |s|
    ensures i < |s| ==> s[i] == '\n'
    ensures '\n' !in s[..i]
  {
    if s == [] || s[0] == '\n' then 0
    else
      var j := LineEnd(s[1..]);
      assert s[..1 + j] == [s[0]] + s[1..][..j];
      1 + j
  }

  /** The lines of a text: every newline ends one; text after the last
      newline is a last, unterminated line. */
  function SplitLines(s: string): seq<string>
    decreases |s|
  {
    if s == [] then []
    else
      var i := LineEnd(s);
      if i == |s| then [s] else [s[..i]] + SplitLines(s[i + 1..])
  }

  lemma {:induction false} LineEndAfter(a: string, b: string)
    requires '\n' !in a
    ensures LineEnd(a + "\n" + b) == |a|
  {
    if a != [] {
      assert (a + "\n" + b)[1..] == a[1..] + "\n" + b;
      assert a[0] in a;
      LineEndAfter(a[1..], b);
    }
  }

  /** Lines without newlines, joined, split back into the same lines. */
  lemma {:induction false} SplitJoinedLines(lines: seq<string>)
    requires forall l | l in lines :: '\n' !in l
    ensures SplitLines(JoinLines(lines)) == lines
  {
    if lines != [] {
      var rest := JoinLines(lines[1..]);
      var s := lines[0] + "\n" + rest;
      assert JoinLines(lines) == s;
      LineEndAfter(lines[0], rest);
      assert s[..|lines[0]|] == lines[0];
      assert s[|lines[0]| + 1..] == rest;
      assert lines == [lines[0]] + lines[1..];
      SplitJoinedLines(lines[1..]);
    }
  }

  /** No line of the template that does not depend on the settings holds
      a newline. */
  lemma FixedLinesHaveNoNewline()
    ensures forall x | x in FixedLines :: '\n' !in x
  {
    TemplateLiterals.NoNewlineInUsingDirective();
    TemplateLiterals.NoNewlineInHeader();
    TemplateLiterals.NoNewlineInDisplayNameField();
    TemplateLiterals.NoNewlineInValueField();
    TemplateLiterals.NoNewlineInFieldsComment();
    TemplateLiterals.NoNewlineInOnEnableDeclaration();
    TemplateLiterals.NoNewlineInOnEnableComment();
    TemplateLiterals.NoNewlineInOnValidateDeclaration();
    TemplateLiterals.NoNewlineInOnValidateComment();
  }

  /** The two lines built from the settings hold a newline only when the
      script name or the menu path does. */
  lemma UserLinesHaveNoNewline(c: Config)
    requires '\n' !in c.scriptName && '\n' !in c.menuPath
    ensures '\n' !in AttributeLine(c) && '\n' !in ClassLine(c)
  {
    TemplateLiterals.NoNewlineInAttributeOpening();
    TemplateLiterals.NoNewlineInBaseClass();
  }

  /** No line of the script holds a newline unless the script name or the
      menu path does. */
  lemma ScriptLinesHaveNoNewline(c: Config)
    requires '\n' !in c.scriptName && '\n' !in c.menuPath
    ensures forall l | l in ScriptLines(c) :: '\n' !in l
  {
    FixedLinesHaveNoNewline();
    UserLinesHaveNoNewline(c);
    BodyLinesAreFixed(c);
    assert ScriptLines(c) == HeadLines(c) + (BodyLines(c) + [CloseBrace]);
    forall l | l in ScriptLines(c) ensures '\n' !in l {
      if l !in HeadLines(c) {
        assert l in BodyLines(c) + [CloseBrace];
      }
    }
  }

  /** When neither the script name nor the menu path holds a newline, the
      lines of the written file are exactly `ScriptLines`, so every property
      stated on `ScriptLines` is a property of the file's lines. */
  lemma ScriptLinesAreFileLines(c: Config)
    requires '\n' !in c.scriptName && '\n' !in c.menuPath
    ensures SplitLines(GenerateScriptContent(c)) == ScriptLines(c)
  {
    RenderIsJoinedLines(c);
    ScriptLinesHaveNoNewline(c);
    SplitJoinedLines(ScriptLines(c));
  }

  // ---------------------------------------------------------------------
  // Properties of the template

  /** Every script starts with the using directive and a blank line and ends
      with the closing brace of the class. */
  lemma RenderFraming(c: Config)
    ensures var text := GenerateScriptContent(c);
      && |text| >= 22
      && text[..20] == "using UnityEngine;\n\n"
      && text[|text| - 2..] == "}\n"
  {
  }

  /** Lines one to five: the using directive, a blank line, the asset-menu
      attribute naming the script in both the file name and the menu entry,
      the class declaration, the opening brace; the last line closes the class. */
  lemma ScriptHead(c: Config)
    ensures var lines := ScriptLines(c);
      && |lines| >= 6
      && lines[..5] == [
           "using UnityEngine;",
           "",
           "[CreateAssetMenu(fileName = \"" + c.scriptName + "\", menuName = \"" + c.menuPath + "/" + c.scriptName + "\")]",
           "public class " + c.scriptName + " : ScriptableObject",
           "{"]
      && lines[|lines| - 1] == "}"
  {
    assert ScriptLines(c)[..5] == HeadLines(c);
  }

  /** Number of lines: six always, five more with the sample fields (one of
      them the header), one blank line before the first stub, four per stub
      and one blank line between the two stubs. */
  lemma LineCount(c: Config)
    ensures |ScriptLines(c)| ==
      6
      + (if c.addSampleFields then 4 + (if c.addHeader then 1 else 0) else 0)
      + (if c.addOnEnable || c.addOnValidate then 1 else 0)
      + (if c.addOnEnable then 4 else 0)
      + (if c.addOnValidate then 4 else 0)
      + (if c.addOnEnable && c.addOnValidate then 1 else 0)
  {
  }

  /** No fixed line of the template can be taken for the attribute or class
      line, whatever the name and menu path. */
  lemma UserLinesAreDistinct(c: Config, x: string)
    requires x in FixedLines
    ensures x != AttributeLine(c) && x != ClassLine(c)
  {
    // The attribute line is the only line ending in "]" that is longer than
    // the header line; the class line is the only one ending in "t".
    var a, k := AttributeLine(c), ClassLine(c);
    assert |a| >= 48 && a[|a| - 1] == ']';
    assert |k| >= 32 && k[|k| - 1] == 't';
    assert x == "" || x[|x| - 1] != 't';
    assert x == "" || x[|x| - 1] != ']' || |x| < 48;
  }

  /** A line of the template other than the using directive, the blank line
      and the opening brace never occurs among the first five lines. */
  lemma NotInHead(c: Config, x: string)
    requires x in FixedLines && x != UsingLine && x != "" && x != OpenBrace
    ensures x !in HeadLines(c)
  {
    UserLinesAreDistinct(c, x);
  }

  /** The `[Header("Settings")]` line appears exactly when both the sample
      fields and the header are asked for: the header alone has no effect. */
  lemma HeaderPresence(c: Config)
    ensures HeaderLine in ScriptLines(c) <==> c.addSampleFields && c.addHeader
  {
    NotInHead(c, HeaderLine);
    assert |HeaderLine| == 24;
    assert HeaderLine !in SampleFieldLines + SeparatorLines(c) + OnEnableBlock(c) + OnValidateBlock(c) + [CloseBrace];
  }

  /** A line of the sample-field block appears exactly when the sample fields
      are asked for. */
  lemma SampleFieldPresence(c: Config, k: int)
    requires k in {0, 1, 3}
    ensures SampleFieldLines[k] in ScriptLines(c) <==> c.addSampleFields
  {
    var x := SampleFieldLines[k];
    NotInHead(c, x);
    assert |x| == 48 || |x| == 39 || (|x| == 27 && x[26] == 'e');
    assert x !in OnEnableBlock(c) + OnValidateBlock(c) + [CloseBrace, HeaderLine];
  }

  /** The two serialized fields and the placeholder comment appear exactly
      when the sample fields are asked for. */
  lemma SampleFieldsPresence(c: Config)
    ensures SampleFieldLines[0] in ScriptLines(c) <==> c.addSampleFields
    ensures SampleFieldLines[1] in ScriptLines(c) <==> c.addSampleFields
    ensures SampleFieldLines[3] in ScriptLines(c) <==> c.addSampleFields
  {
    SampleFieldPresence(c, 0);
    SampleFieldPresence(c, 1);
    SampleFieldPresence(c, 3);
  }

  /** The `OnEnable` stub appears exactly when asked for. */
  lemma OnEnablePresence(c: Config)
    ensures OnEnableLines[0] in ScriptLines(c) <==> c.addOnEnable
  {
    var x := OnEnableLines[0];
    NotInHead(c, x);
    assert |x| == 27 && x[26] == ')';
    assert x !in FieldLines(c) + OnValidateBlock(c) + [CloseBrace];
  }

  /** The `OnValidate` stub appears exactly when asked for. */
  lemma OnValidatePresence(c: Config)
    ensures OnValidateLines[0] in ScriptLines(c) <==> c.addOnValidate
  {
    var x := OnValidateLines[0];
    NotInHead(c, x);
    assert |x| == 29;
    assert x !in FieldLines(c) + OnEnableBlock(c) + [CloseBrace];
  }

  /** With sample fields the body opens with the optional header, the two
      fields, a blank line and the placeholder comment. */
  lemma FieldsLayout(c: Config)
    ensures var lines := ScriptLines(c);
      c.addSampleFields ==>
        var fields := (if c.addHeader then [HeaderLine] else []) + SampleFieldLines;
        |lines| >= 5 + |fields| && lines[5..5 + |fields|] == fields
  {
    var fields := (if c.addHeader then [HeaderLine] else []) + SampleFieldLines;
    if c.addSampleFields {
      var rest := SeparatorLines(c) + OnEnableBlock(c) + OnValidateBlock(c) + [CloseBrace];
      assert FieldLines(c) == fields;
      var lines := HeadLines(c) + fields + rest;
      assert ScriptLines(c) == lines;
      assert |HeadLines(c)| == 5;
      assert lines[5..5 + |fields|] == fields;
    }
  }

  /** Both stubs: a blank line, `OnEnable`, a blank line, `OnValidate`, and the
      closing brace end the script. */
  lemma BothStubsLayout(c: Config)
    requires c.addOnEnable && c.addOnValidate
    ensures var lines := ScriptLines(c); var n := |lines|;
      n >= 11 && lines[n - 11..] == [""] + OnEnableLines + [""] + OnValidateLines + ["}"]
  {
    var post := SeparatorLines(c) + OnEnableBlock(c) + OnValidateBlock(c) + [CloseBrace];
    EndsWith(ScriptLines(c), HeadLines(c) + FieldLines(c), post);
    assert post == [""] + OnEnableLines + [""] + OnValidateLines + ["}"];
  }

  /** Only `OnEnable`: a blank line, the stub and the closing brace end the script. */
  lemma OnEnableOnlyLayout(c: Config)
    requires c.addOnEnable && !c.addOnValidate
    ensures var lines := ScriptLines(c); var n := |lines|;
      n >= 6 && lines[n - 6..] == [""] + OnEnableLines + ["}"]
  {
    var post := SeparatorLines(c) + OnEnableBlock(c) + OnValidateBlock(c) + [CloseBrace];
    EndsWith(ScriptLines(c), HeadLines(c) + FieldLines(c), post);
    assert post == [""] + OnEnableLines + ["}"];
  }

  /** Only `OnValidate`: a single blank line, the stub and the closing brace
      end the script. */
  lemma OnValidateOnlyLayout(c: Config)
    requires !c.addOnEnable && c.addOnValidate
    ensures var lines := ScriptLines(c); var n := |lines|;
      n >= 6 && lines[n - 6..] == [""] + OnValidateLines + ["}"]
  {
    var post := SeparatorLines(c) + OnEnableBlock(c) + OnValidateBlock(c) + [CloseBrace];
    EndsWith(ScriptLines(c), HeadLines(c) + FieldLines(c), post);
    assert post == [""] + OnValidateLines + ["}"];
  }

  /** No stub: the closing brace follows the last field line, or the opening
      brace, with no blank line in between. */
  lemma NoStubLayout(c: Config)
    requires !c.addOnEnable && !c.addOnValidate
    ensures var lines := ScriptLines(c); var n := |lines|;
      n >= 2 && lines[n - 2] == (if c.addSampleFields then "    // Add your fields here" else "{")
  {
    var pre := HeadLines(c) + FieldLines(c);
    assert ScriptLines(c) == pre + [CloseBrace];
  }

  /** The end of the class body: one blank line before the first stub,
      `OnEnable` before `OnValidate` with one blank line between them when both
      are emitted, and no blank line before the closing brace when neither is. */
  lemma LifecycleLayout(c: Config)
    ensures var lines := ScriptLines(c); var n := |lines|;
      && (c.addOnEnable && c.addOnValidate ==>
            n >= 11 && lines[n - 11..] == [""] + OnEnableLines + [""] + OnValidateLines + ["}"])
      && (c.addOnEnable && !c.addOnValidate ==>
            n >= 6 && lines[n - 6..] == [""] + OnEnableLines + ["}"])
      && (!c.addOnEnable && c.addOnValidate ==>
            n >= 6 && lines[n - 6..] == [""] + OnValidateLines + ["}"])
      && (!c.addOnEnable && !c.addOnValidate ==>
            n >= 2 && lines[n - 2] == (if c.addSampleFields then "    // Add your fields here" else "{"))
  {
    if c.addOnEnable && c.addOnValidate {
      BothStubsLayout(c);
    } else if c.addOnEnable {
      OnEnableOnlyLayout(c);
    } else if c.addOnValidate {
      OnValidateOnlyLayout(c);
    } else {
      NoStubLayout(c);
    }
  }

  lemma EndsWith(lines: seq<string>, pre: seq<string>, post: seq<string>)
    requires lines == pre + post
    ensures |lines| >= |post| && lines[|lines| - |post|..] == post
  {
    assert lines[|pre|..] == post;
  }

  /** With no sample fields and neither stub the class body is empty: the
      header option alone adds nothing. */
  lemma EmptyBody(c: Config)
    requires !c.addOnEnable && !c.addOnValidate && !c.addSampleFields
    ensures GenerateScriptContent(c) ==
      "using UnityEngine;\n\n"
      + "[CreateAssetMenu(fileName = \"" + c.scriptName + "\", menuName = \"" + c.menuPath + "/" + c.scriptName + "\")]\n"
      + "public class " + c.scriptName + " : ScriptableObject\n"
      + "{\n}\n"
  {
  }

  lemma BodyLinesAreFixed(c: Config)
    ensures forall x | x in BodyLines(c) + [CloseBrace] :: x in FixedLines
  {
    var f, v := FieldLines(c), OnValidateBlock(c);
    assert forall x | x in f :: x in FixedLines;
    assert forall x | x in v :: x in FixedLines;
  }

  lemma UserLinesNotInBody(c: Config)
    ensures AttributeLine(c) !in BodyLines(c) + [CloseBrace]
    ensures ClassLine(c) !in BodyLines(c) + [CloseBrace]
  {
    BodyLinesAreFixed(c);
    forall x | x in BodyLines(c) + [CloseBrace]
      ensures x != AttributeLine(c) && x != ClassLine(c)
    {
      UserLinesAreDistinct(c, x);
    }
  }

  lemma HeadLinesDistinct(c: Config)
    ensures forall j | 0 <= j < 5 && j != 2 :: HeadLines(c)[j] != AttributeLine(c)
    ensures forall j | 0 <= j < 5 && j != 3 :: HeadLines(c)[j] != ClassLine(c)
  {
    var a, k := AttributeLine(c), ClassLine(c);
    UserLinesAreDistinct(c, UsingLine);
    UserLinesAreDistinct(c, "");
    UserLinesAreDistinct(c, OpenBrace);
    assert a[|a| - 1] == ']' && k[|k| - 1] == 't';
  }

  /** Whatever the options, the asset-menu attribute is the third line and
      the class declaration the fourth, and no other line is either of them. */
  lemma SingleDeclarations(c: Config)
    ensures var lines := ScriptLines(c);
      && |lines| > 3
      && lines[2] == AttributeLine(c)
      && lines[3] == ClassLine(c)
      && (forall j | 0 <= j < |lines| && j != 2 :: lines[j] != AttributeLine(c))
      && (forall j | 0 <= j < |lines| && j != 3 :: lines[j] != ClassLine(c))
  {
    var h, rest := HeadLines(c), BodyLines(c) + [CloseBrace];
    var lines := ScriptLines(c);
    assert lines == h + rest;
    UserLinesNotInBody(c);
    HeadLinesDistinct(c);
    forall j | 5 <= j < |lines| ensures lines[j] in rest {
      assert lines[j] == rest[j - 5];
    }
  }
}
