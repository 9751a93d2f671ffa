/**
 * The worked example of the generated file: the `PlayerStats` asset in the
 * `Game/Data` menu with every option on.
 */
module TemplateExample {
  import opened ScriptTemplate

  // Three steps that merge the attribute line's pieces into one literal.

  lemma MergeFileName()
    ensures "[CreateAssetMenu(fileName = \"" + "PlayerStats" + "\", menuName = \""
         == "[CreateAssetMenu(fileName = \"PlayerStats\", menuName = \""
  {
  }

  lemma MergeMenuName()
    ensures "Game/Data" + "/" + "PlayerStats" + "\")]" == "Game/Data/PlayerStats\")]"
  {
  }

  lemma MergeAttribute()
    ensures "[CreateAssetMenu(fileName = \"PlayerStats\", menuName = \"" + "Game/Data/PlayerStats\")]"
         == "[CreateAssetMenu(fileName = \"PlayerStats\", menuName = \"Game/Data/PlayerStats\")]"
  {
  }

  lemma PlayerStatsAttribute()
    ensures AttributeLine(Config("PlayerStats", "Game/Data", true, true, true, true))
      == "[CreateAssetMenu(fileName = \"PlayerStats\", menuName = \"Game/Data/PlayerStats\")]"
  {
    var x := "[CreateAssetMenu(fileName = \"" + "PlayerStats" + "\", menuName = \"";
    var y := "Game/Data" + "/" + "PlayerStats" + "\")]";
    assert AttributeLine(Config("PlayerStats", "Game/Data", true, true, true, true)) == x + y;
    MergeFileName();
    MergeMenuName();
    MergeAttribute();
  }

  lemma PlayerStatsClassLine()
    ensures ClassLine(Config("PlayerStats", "Game/Data", true, true, true, true))
      == "public class PlayerStats : ScriptableObject"
  {
  }

  lemma PlayerStatsHead()
    ensures HeadLines(Config("PlayerStats", "Game/Data", true, true, true, true)) == [
      "using UnityEngine;",
      "",
      "[CreateAssetMenu(fileName = \"PlayerStats\", menuName = \"Game/Data/PlayerStats\")]",
      "public class PlayerStats : ScriptableObject",
      "{"]
  {
    var c := Config("PlayerStats", "Game/Data", true, true, true, true);
    PlayerStatsAttribute();
    PlayerStatsClassLine();
    assert HeadLines(c) == [UsingLine, "", AttributeLine(c), ClassLine(c), OpenBrace];
  }

  lemma PlayerStatsBody()
    ensures var c := Config("PlayerStats", "Game/Data", true, true, true, true);
      BodyLines(c) + [CloseBrace] == [
        "    [Header(\"Settings\")]",
        "    [SerializeField] private string displayName;",
        "    [SerializeField] private int value;",
        "",
        "    // Add your fields here",
        "",
        "    private void OnEnable()",
        "    {",
        "        // Initialization when the asset is loaded",
        "    }",
        "",
        "    private void OnValidate()",
        "    {",
        "        // Validation in the editor",
        "    }",
        "}"]
  {
  }

  /** The file for `PlayerStats` in the `Game/Data` menu with every option on,
      line by line (the rendered text is these lines, each ended by a newline,
      by `RenderIsJoinedLines`). */
  lemma PlayerStatsExample()
    ensures ScriptLines(Config("PlayerStats", "Game/Data", true, true, true, true)) == [
        "using UnityEngine;",
        "",
        "[CreateAssetMenu(fileName = \"PlayerStats\", menuName = \"Game/Data/PlayerStats\")]",
        "public class PlayerStats : ScriptableObject",
        "{"] + [
        "    [Header(\"Settings\")]",
        "    [SerializeField] private string displayName;",
        "    [SerializeField] private int value;",
        "",
        "    // Add your fields here",
        "",
        "    private void OnEnable()",
        "    {",
        "        // Initialization when the asset is loaded",
        "    }",
        "",
        "    private void OnValidate()",
        "    {",
        "        // Validation in the editor",
        "    }",
        "}"]
  {
    var c := Config("PlayerStats", "Game/Data", true, true, true, true);
    PlayerStatsHead();
    PlayerStatsBody();
    assert ScriptLines(c) == HeadLines(c) + (BodyLines(c) + [CloseBrace]);
  }
}
