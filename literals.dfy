/**
 * The fixed lines of the script template hold no newline.
 *
 * The solver reads a short string literal character by character, but not a
 * long one: each long line of the template is first shown equal to short
 * pieces (`...Pieces`), and the pieces are then read one by one. The lemmas
 * are stated on the bare literals, so that they are checked outside the
 * template's own definitions; `ScriptTemplate` applies them to its lines.
 */
module TemplateLiterals {

  lemma DisplayNameFieldPieces()
    ensures "    [SerializeField] private string displayName;"
         == "    [Serialize" + "Field] private" + " string displa" + "yName;"
  {
  }

  lemma NoNewlineInDisplayNameField()
    ensures '\n' !in "    [SerializeField] private string displayName;"
  {
    DisplayNameFieldPieces();
  }

  lemma ValueFieldPieces()
    ensures "    [SerializeField] private int value;"
         == "    [Serialize" + "Field] private" + " int value;"
  {
  }

  lemma NoNewlineInValueField()
    ensures '\n' !in "    [SerializeField] private int value;"
  {
    ValueFieldPieces();
  }

  lemma NoNewlineInFieldsComment()
    ensures '\n' !in "    // Add your fields here"
  {
    assert "    // Add your fields here" == "    // Add you" + "r fields here";
  }

  lemma NoNewlineInOnEnableDeclaration()
    ensures '\n' !in "    private void OnEnable()"
  {
    assert "    private void OnEnable()" == "    private vo" + "id OnEnable()";
  }

  lemma OnEnableCommentPieces()
    ensures "        // Initialization when the asset is loaded"
         == "        // Ini" + "tialization wh" + "en the asset i" + "s loaded"
  {
  }

  lemma NoNewlineInOnEnableComment()
    ensures '\n' !in "        // Initialization when the asset is loaded"
  {
    OnEnableCommentPieces();
  }

  lemma NoNewlineInOnValidateDeclaration()
    ensures '\n' !in "    private void OnValidate()"
  {
    assert "    private void OnValidate()" == "    private vo" + "id OnValidate(" + ")";
  }

  lemma OnValidateCommentPieces()
    ensures "        // Validation in the editor"
         == "        // Val" + "idation in the" + " editor"
  {
  }

  lemma NoNewlineInOnValidateComment()
    ensures '\n' !in "        // Validation in the editor"
  {
    OnValidateCommentPieces();
  }

  lemma NoNewlineInUsingDirective()
    ensures '\n' !in "using UnityEngine;"
  {
    assert "using UnityEngine;" == "using UnityEng" + "ine;";
  }

  lemma NoNewlineInHeader()
    ensures '\n' !in "    [Header(\"Settings\")]"
  {
    assert "    [Header(\"Settings\")]" == "    [Header(\"S" + "ettings\")]";
  }

  lemma NoNewlineInAttributeOpening()
    ensures '\n' !in "[CreateAssetMenu(fileName = \""
  {
    assert "[CreateAssetMenu(fileName = \"" == "[CreateAssetMe" + "nu(fileName = " + "\"";
  }

  lemma NoNewlineInBaseClass()
    ensures '\n' !in " : ScriptableObject"
  {
    assert " : ScriptableObject" == " : Scriptable" + "Object";
  }
}
