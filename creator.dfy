/**
 * The ScriptableObject creator window: its six settings, the folder it
 * writes into, and the "Create" action that validates the name, asks before
 * overwriting and writes the rendered script.
 *
 * The project's files are a `FileSystem` object holding a map from path to
 * text; `File.Exists` is membership and `File.WriteAllText` a map update.
 * The current asset selection is passed in as the list of the selected
 * assets' paths, and the answer to the "File exists" dialog as a boolean.
 */
module Creator {
  import opened Text
  import opened Paths
  import opened ScriptTemplate

  /** How a press of the Create button ends: the empty-name error dialog, the
      overwrite dialog answered "No", or the script written at `fullPath`. */
  datatype Outcome = EmptyName | OverwriteDeclined | Created(fullPath: string)

  /** What a press of the Create button leaves behind: its outcome, the
      window's script name afterwards, and the project's files. */
  datatype Effect = Effect(outcome: Outcome, scriptName: string, files: map<string, string>)

  const DefaultScriptName := "NewScriptableObject"
  const DefaultMenuPath := "ScriptableObjects"
  const DefaultFolder := "Assets"
  const ScriptExtension := ".cs"

  /** The project's files, by path. */
  class FileSystem {
    var files: map<string, string>

    constructor (files: map<string, string>)
      ensures this.files == files
    {
      this.files := files;
    }

    /** `File.WriteAllText`: creates the file or replaces its text. */
    method WriteAllText(path: string, text: string)
      modifies this
      ensures files == old(files)[path := text]
    {
      files := files[path := text];
    }
  }

  /** The folder the window writes into: "Assets" when nothing is selected;
      otherwise the first selected asset's path, or that path's folder when it
      names an existing file. */
  function SelectedFolder(selection: seq<string>, files: map<string, string>): string
  {
    if selection == [] then DefaultFolder
    else if selection[0] != "" && selection[0] in files then DirectoryName(selection[0])
    else selection[0]
  }

  /** The folder is "Assets" without a selection; otherwise it is a prefix of
      the first selected path: all of it when that path is not an existing
      file, and the part before its last '/' when it is one. */
  lemma SelectedFolderIsPrefix(selection: seq<string>, files: map<string, string>)
    ensures var folder := SelectedFolder(selection, files);
      && (selection == [] ==> folder == DefaultFolder)
      && (selection != [] ==> |folder| <= |selection[0]| && selection[0][..|folder|] == folder)
      && (selection != [] && selection[0] !in files ==> folder == selection[0])
      && (selection != [] && selection[0] in files && Separator in selection[0] ==>
            && |folder| < |selection[0]|
            && selection[0][|folder|] == Separator
            && Separator !in selection[0][|folder| + 1..])
  {
  }

  /** The whole Create action on the settings `c`, the files `files`, the
      selection and the answer to the overwrite dialog. */
  function Create(c: Config, files: map<string, string>, selection: seq<string>, overwrite: bool): (e: Effect)
    ensures e.outcome == EmptyName <==> IsNullOrWhiteSpace(c.scriptName)
    ensures e.outcome == EmptyName ==> e.scriptName == c.scriptName
    ensures e.outcome != EmptyName ==> e.scriptName == RemoveSpaces(c.scriptName) != ""
    ensures e.outcome == OverwriteDeclined <==>
      && !IsNullOrWhiteSpace(c.scriptName)
      && !overwrite
      && Combine(SelectedFolder(selection, files), RemoveSpaces(c.scriptName) + ScriptExtension) in files
    ensures !e.outcome.Created? ==> e.files == files
    ensures e.outcome.Created? ==>
      && e.outcome.fullPath == Combine(SelectedFolder(selection, files), e.scriptName + ScriptExtension)
      && e.files.Keys == files.Keys + {e.outcome.fullPath}
      && e.files[e.outcome.fullPath] == GenerateScriptContent(c.(scriptName := e.scriptName))
      && (forall p | p in files && p != e.outcome.fullPath :: e.files[p] == files[p])
  {
    if IsNullOrWhiteSpace(c.scriptName) then Effect(EmptyName, c.scriptName, files)
    else
      NonBlankNameSurvivesStripping(c.scriptName);
      var name := RemoveSpaces(c.scriptName);
      var fullPath := Combine(SelectedFolder(selection, files), name + ScriptExtension);
      if fullPath in files && !overwrite then Effect(OverwriteDeclined, name, files)
      else Effect(Created(fullPath), name, files[fullPath := GenerateScriptContent(c.(scriptName := name))])
  }

  /** The editor window and its settings. */
  class SOTemplateCreator {
    var scriptName: string
    var menuPath: string
    var addHeader: bool
    var addOnEnable: bool
    var addOnValidate: bool
    var addSampleFields: bool

    /** A new window starts with the default name and menu and every option on. */
    constructor ()
      ensures scriptName == DefaultScriptName && menuPath == DefaultMenuPath
      ensures addHeader && addOnEnable && addOnValidate && addSampleFields
    {
      scriptName := DefaultScriptName;
      menuPath := DefaultMenuPath;
      addHeader := true;
      addOnEnable := true;
      addOnValidate := true;
      addSampleFields := true;
    }

    /** The settings the template is rendered from. */
    function Settings(): Config
      reads this
    {
      Config(scriptName, menuPath, addHeader, addOnEnable, addOnValidate, addSampleFields)
    }

    /** The folder to write into. Only the first selected asset is looked at;
        an empty path is returned as it is. */
    method GetSelectedPath(fs: FileSystem, selection: seq<string>) returns (path: string)
      ensures selection == [] ==> path == DefaultFolder
      ensures selection != [] && selection[0] != "" && selection[0] in fs.files ==>
        path == DirectoryName(selection[0])
      ensures selection != [] && (selection[0] == "" || selection[0] !in fs.files) ==> path == selection[0]
      ensures path == SelectedFolder(selection, fs.files)
    {
      path := DefaultFolder;
      for i := 0 to |selection|
        invariant i == 0 && path == DefaultFolder
      {
        path := selection[i];
        if path != "" && path in fs.files {
          path := DirectoryName(path);
        }
        break;
      }
    }

    /** The Create button: a blank name is refused; otherwise the spaces are
        removed from the name for good, the target file is the name plus ".cs"
        in the selected folder, an existing file is replaced only when the
        dialog is answered "Yes", and the rendered script is written. */
    method CreateScript(fs: FileSystem, selection: seq<string>, overwrite: bool) returns (outcome: Outcome)
      modifies this, fs
      ensures var e := Create(old(Settings()), old(fs.files), selection, overwrite);
        outcome == e.outcome && scriptName == e.scriptName && fs.files == e.files
      ensures menuPath == old(menuPath) && addHeader == old(addHeader) && addOnEnable == old(addOnEnable)
      ensures addOnValidate == old(addOnValidate) && addSampleFields == old(addSampleFields)
    {
      if IsNullOrWhiteSpace(scriptName) {
        return EmptyName;
      }
      NonBlankNameSurvivesStripping(scriptName);
      scriptName := RemoveSpaces(scriptName);
      var path := GetSelectedPath(fs, selection);
      var fullPath := Combine(path, scriptName + ScriptExtension);
      if fullPath in fs.files {
        if !overwrite {
          return OverwriteDeclined;
        }
      }
      assert Settings() == old(Settings()).(scriptName := scriptName);
      var content := GenerateScriptContent(Settings());
      fs.WriteAllText(fullPath, content);
      outcome := Created(fullPath);
    }
  }

  // ---------------------------------------------------------------------
  // Properties of the Create action

  /** The overwrite dialog decides only when the target file exists. */
  lemma AnswerMattersOnlyForExistingFile(c: Config, files: map<string, string>, selection: seq<string>)
    requires !IsNullOrWhiteSpace(c.scriptName)
    ensures var target := Combine(SelectedFolder(selection, files), RemoveSpaces(c.scriptName) + ScriptExtension);
      Create(c, files, selection, true) != Create(c, files, selection, false) <==> target in files
  {
  }

  /** A stripped name still holds a character that is not white space. */
  lemma StrippedNameIsNotBlank(s: string)
    requires !IsNullOrWhiteSpace(s)
    ensures !IsNullOrWhiteSpace(RemoveSpaces(s))
  {
    var i :| 0 <= i < |s| && !IsWhiteSpace(s[i]);
    var r := RemoveSpaces(s);
    assert s[i] in multiset(s);
    assert multiset(r)[s[i]] == multiset(s)[s[i]] > 0;
    assert s[i] in r;
  }

  /** A name without '/' stays without '/' once its spaces are removed. */
  lemma StrippedNameHasNoSeparator(s: string)
    requires Separator !in s
    ensures Separator !in RemoveSpaces(s) + ScriptExtension
  {
    var r := RemoveSpaces(s);
    assert multiset(r)[Separator] == multiset(s)[Separator] == 0;
  }

  /** Unity needs a script's file name to match the class it declares: the
      written file is named after the (stripped) script name plus ".cs", and
      its class declaration, the fourth line, declares a class of that name. */
  lemma CreatedFileNamesItsClass(c: Config, files: map<string, string>, selection: seq<string>, overwrite: bool)
    requires Separator !in c.scriptName
    ensures var e := Create(c, files, selection, overwrite);
      e.outcome.Created? ==>
        && BaseName(e.outcome.fullPath) == e.scriptName + ScriptExtension
        && ' ' !in e.scriptName
        && ScriptLines(c.(scriptName := e.scriptName))[3] == "public class " + e.scriptName + " : ScriptableObject"
        && e.files[e.outcome.fullPath] == JoinLines(ScriptLines(c.(scriptName := e.scriptName)))
  {
    var e := Create(c, files, selection, overwrite);
    if e.outcome.Created? {
      StrippedNameHasNoSeparator(c.scriptName);
      CombineSplits(SelectedFolder(selection, files), e.scriptName + ScriptExtension);
      SingleDeclarations(c.(scriptName := e.scriptName));
      RenderIsJoinedLines(c.(scriptName := e.scriptName));
    }
  }

  /** Pressing Create a second time, with the name the first press left in the
      window and the overwrite answered "Yes", writes the same file with the
      same text: the project ends as it was after the first press. */
  lemma CreateAgainChangesNothing(c: Config, files: map<string, string>, selection: seq<string>, overwrite: bool)
    requires Create(c, files, selection, overwrite).outcome.Created?
    ensures var e1 := Create(c, files, selection, overwrite);
      var e2 := Create(c.(scriptName := e1.scriptName), e1.files, selection, true);
      e2 == e1
  {
    var e1 := Create(c, files, selection, overwrite);
    var name := e1.scriptName;
    var target := e1.outcome.fullPath;
    var text := GenerateScriptContent(c.(scriptName := name));
    StrippedNameIsNotBlank(c.scriptName);
    RemoveSpacesIdempotent(c.scriptName);
    SameFolderAfterWrite(selection, files, name + ScriptExtension, text);
    RewriteSameText(c.(scriptName := name), e1.files, selection, target);
  }

  /** Create on a name without spaces whose target already holds the text it
      would write leaves the files as they are. */
  lemma RewriteSameText(c: Config, files: map<string, string>, selection: seq<string>, target: string)
    requires !IsNullOrWhiteSpace(c.scriptName) && RemoveSpaces(c.scriptName) == c.scriptName
    requires Combine(SelectedFolder(selection, files), c.scriptName + ScriptExtension) == target
    requires target in files && files[target] == GenerateScriptContent(c)
    ensures Create(c, files, selection, true) == Effect(Created(target), c.scriptName, files)
  {
    assert c.(scriptName := RemoveSpaces(c.scriptName)) == c;
    assert files[target := files[target]] == files;
  }

  /** Writing the target file does not move the folder the selection points
      at, or moves it only so that the target stays the same. */
  lemma SameFolderAfterWrite(selection: seq<string>, files: map<string, string>, fileName: string, text: string)
    requires fileName != []
    ensures var target := Combine(SelectedFolder(selection, files), fileName);
      Combine(SelectedFolder(selection, files[target := text]), fileName) == target
  {
    var folder := SelectedFolder(selection, files);
    var target := Combine(folder, fileName);
    if selection != [] && selection[0] != "" && selection[0] !in files && selection[0] == target {
      // Only a rooted file name can be combined into its own folder.
      assert folder == selection[0];
      assert fileName[0] == Separator && target == fileName;
      var d := DirectoryName(fileName);
      assert Combine(d, fileName) == fileName;
    }
  }
}
