# SOTemplateCreator, modelled in Dafny

SOTemplateCreator is a Unity editor window that writes the C# source of a new
ScriptableObject class. The window keeps six settings: the script name, the
asset-menu path, and four toggles (a `[Header]` attribute, an `OnEnable`
stub, an `OnValidate` stub, sample fields). Pressing "Create" does four things:
- It refuses a blank name.
- It removes the spaces from the name.
- It picks the folder of the current asset selection.
- It writes `<name>.cs` there, asking first before it replaces an existing file.

This project models that behaviour and proves what the generated file
looks like and what the Create action does to the project's files.

- `text.dfy` (module `Text`): `string.IsNullOrWhiteSpace` (with
  `char.IsWhiteSpace`'s list of white-space characters) and
  `Replace(" ", "")`.
- `paths.dfy` (module `Paths`): `Path.Combine` and `Path.GetDirectoryName`
  over '/'-separated asset paths. `BaseName` (the part after the last '/',
  like `Path.GetFileName`) is not called by the window. It is there to state
  that `Combine` can be undone: splitting the combined path gives back the
  folder and the file name.
- `template.dfy` (module `ScriptTemplate`): `GenerateScriptContent`. It is a
  function of the six settings, built block by block from the same literals
  and in the same order as the window. The same script is also given as a
  list of lines, and the two are proved equal. The template's properties are
  stated on the lines: which blocks appear, where they appear, and which
  blank lines separate them. There, the user's name and menu path sit inside
  one line each and cannot be mistaken for a generated block. Splitting the
  rendered text at its newlines gives back exactly that list of lines,
  provided the name and the menu path hold no newline themselves.
- `literals.dfy` (module `TemplateLiterals`): the template's fixed lines
  hold no newline.
- `example.dfy` (module `TemplateExample`): the complete file for one
  concrete setting.
- `creator.dfy` (module `Creator`): the window as a class with the six
  fields. It has two methods:
  - `GetSelectedPath`: a loop over the selection that stops after the first
    element.
  - `CreateScript`: this changes the script-name field and the project's
    files.

  The project's files are a `FileSystem` object that holds a map from path to
  text. `File.Exists` is membership in the map, and `File.WriteAllText` is an
  update of the map. The selection is passed in as the list of the selected
  assets' paths. The answer to the "File exists" dialog is passed in as a
  boolean. `CreateScript` is proved against the function `Create`, and the
  lemmas about the Create action are stated on `Create`.

## Model

| member | source | states |
|---|---|---|
| Text.IsWhiteSpace | Editor/SOTemplateCreator.cs:66 | `char.IsWhiteSpace`: the space separators, U+2028, U+2029, the controls U+0009 to U+000D and U+0085 |
| Text.IsNullOrWhiteSpace | Editor/SOTemplateCreator.cs:66 | `string.IsNullOrWhiteSpace` on a non-null string: true exactly when every character is white space, so also for the empty string |
| Text.RemoveSpaces | Editor/SOTemplateCreator.cs:72 | the stripped name contains no space, is no longer than the original, and keeps every other character as often as the original has it |
| Text.RemoveSpacesAppend | Editor/SOTemplateCreator.cs:72 | removing spaces works character by character: it distributes over concatenation |
| Text.RemoveSpacesNoSpace | Editor/SOTemplateCreator.cs:72 | a name without spaces is left exactly as it is |
| Text.RemoveSpacesIdempotent | Editor/SOTemplateCreator.cs:72 | stripping an already stripped name changes nothing |
| Text.NonBlankNameSurvivesStripping | Editor/SOTemplateCreator.cs:66-72 | a name that passes the blank check is not empty after stripping, so the class name is never empty |
| Paths.LastSeparator | Editor/SOTemplateCreator.cs:157 | the index found is the last '/' of the path, or -1 exactly when the path has none |
| Paths.DirectoryName | Editor/SOTemplateCreator.cs:157 | the folder of a path is the part before its last '/' (the path holds no '/' after it), and it is empty when the path has no '/' |
| Paths.Combine | Editor/SOTemplateCreator.cs:75 | `Path.Combine` on '/' paths: the name alone when the folder is empty or the name starts with '/'; otherwise folder and name, with a '/' added between them unless the folder already ends with one |
| Paths.CombineJoins | Editor/SOTemplateCreator.cs:75 | the combined path always ends with the name; a rooted name or an empty folder gives the name itself; otherwise the path starts with the folder, has a '/' just before the name, and is one longer than folder plus name when the folder does not end with '/' |
| Paths.BaseName | Editor/SOTemplateCreator.cs:75 | a helper, not called by the window, used to undo `Combine`: the part after the last '/' contains no '/', and folder + '/' + that part gives the path back |
| Paths.LastSeparatorAfter | Editor/SOTemplateCreator.cs:75 | in folder + '/' + name, where name has no '/', the last separator is the one that was added |
| Paths.CombineSplits | Editor/SOTemplateCreator.cs:75 | combining a folder with a plain file name and splitting the result gives back the file name, and the folder when it has no trailing '/' |
| ScriptTemplate.GenerateScriptContent | Editor/SOTemplateCreator.cs:99-146 | the script text: the using directive and the class head, then the optional sample fields (with the optional header), the blank line before the stubs, the optional `OnEnable` and `OnValidate` stubs and "}", appended in the window's order |
| ScriptTemplate.ScriptLines | Editor/SOTemplateCreator.cs:99-146 | the same script as a list of lines without their newlines: the five head lines, the body lines the options select, and "}" |
| ScriptTemplate.JoinLinesAppend | Editor/SOTemplateCreator.cs:99-146 | joining lines distributes over concatenation of the line lists |
| ScriptTemplate.JoinHeadLines | Editor/SOTemplateCreator.cs:101-104 | the first block of text is the using directive, a blank line, the attribute, the class line and "{", each on its own line |
| ScriptTemplate.JoinFieldLines | Editor/SOTemplateCreator.cs:106-116 | the sample-field text is the optional header, the two fields, a blank line and the comment, each on its own line |
| ScriptTemplate.JoinSeparatorLines | Editor/SOTemplateCreator.cs:118-121 | the separator text is one empty line when either stub is emitted |
| ScriptTemplate.JoinOnEnableBlock | Editor/SOTemplateCreator.cs:123-129 | the `OnEnable` text is the four stub lines |
| ScriptTemplate.JoinOnValidateBlock | Editor/SOTemplateCreator.cs:131-141 | the `OnValidate` text is a blank line when `OnEnable` precedes it, then the four stub lines |
| ScriptTemplate.RenderIsJoinedLines | Editor/SOTemplateCreator.cs:99-146 | the rendered script is exactly its list of lines, each ended by a newline |
| ScriptTemplate.SplitJoinedLines | Editor/SOTemplateCreator.cs:99-146 | lines without newlines, each ended by a newline and joined, split back at the newlines into the same lines |
| ScriptTemplate.FixedLinesHaveNoNewline | Editor/SOTemplateCreator.cs:101-143 | no line of the template that does not depend on the settings holds a newline |
| ScriptTemplate.UserLinesHaveNoNewline | Editor/SOTemplateCreator.cs:102-103 | the attribute line and the class line hold no newline when the name and the menu path hold none |
| ScriptTemplate.ScriptLinesAreFileLines | Editor/SOTemplateCreator.cs:99-146 | when the name and the menu path hold no newline, the lines of the rendered text are exactly the script's list of lines, so every line property below is a property of the file |
| ScriptTemplate.RenderFraming | Editor/SOTemplateCreator.cs:99-146 | every script starts with "using UnityEngine;\n\n" and ends with "}\n" |
| ScriptTemplate.ScriptHead | Editor/SOTemplateCreator.cs:101-104 | the first five lines are the using directive, a blank line, the attribute with the name as file name and menu path + "/" + name as menu entry, the class declaration and "{"; the last line is "}" |
| ScriptTemplate.LineCount | Editor/SOTemplateCreator.cs:99-146 | the number of lines is six, plus the sample block's four (five with the header), one blank line before the stubs, four per stub and one between the two stubs |
| ScriptTemplate.UserLinesAreDistinct | Editor/SOTemplateCreator.cs:102-103 | no fixed line of the template equals the attribute line or the class line, whatever the name and menu path |
| ScriptTemplate.NotInHead | Editor/SOTemplateCreator.cs:101-104 | a fixed line of the template other than the using directive, the blank line and "{" (so every field, header, stub and closing-brace line) never occurs among the first five lines |
| ScriptTemplate.HeaderPresence | Editor/SOTemplateCreator.cs:106-111 | the `[Header("Settings")]` line is present exactly when both the sample fields and the header are on |
| ScriptTemplate.SampleFieldPresence | Editor/SOTemplateCreator.cs:106-116 | each line of the sample block (both fields, the comment) is present exactly when the sample fields are on |
| ScriptTemplate.SampleFieldsPresence | Editor/SOTemplateCreator.cs:106-116 | the two fields and the comment are present exactly when the sample fields are on |
| ScriptTemplate.OnEnablePresence | Editor/SOTemplateCreator.cs:123-129 | the `OnEnable` stub is present exactly when it is asked for |
| ScriptTemplate.OnValidatePresence | Editor/SOTemplateCreator.cs:131-141 | the `OnValidate` stub is present exactly when it is asked for |
| ScriptTemplate.FieldsLayout | Editor/SOTemplateCreator.cs:106-116 | with sample fields, the body opens right after "{" with the optional header, the two fields, a blank line and the comment |
| ScriptTemplate.BothStubsLayout | Editor/SOTemplateCreator.cs:118-143 | with both stubs, the script ends with a blank line, `OnEnable`, a blank line, `OnValidate` and "}" |
| ScriptTemplate.OnEnableOnlyLayout | Editor/SOTemplateCreator.cs:118-143 | with only `OnEnable`, the script ends with a blank line, the stub and "}" |
| ScriptTemplate.OnValidateOnlyLayout | Editor/SOTemplateCreator.cs:118-143 | with only `OnValidate`, the script ends with a single blank line, the stub and "}" |
| ScriptTemplate.NoStubLayout | Editor/SOTemplateCreator.cs:106-143 | with no stub, "}" follows the comment, or "{" when there are no sample fields, with no blank line between |
| ScriptTemplate.LifecycleLayout | Editor/SOTemplateCreator.cs:118-143 | the end of the script in all four stub combinations: one blank line before the first stub, `OnEnable` before `OnValidate`, one blank line between them |
| ScriptTemplate.EmptyBody | Editor/SOTemplateCreator.cs:99-146 | with no sample fields and neither stub, the class body is empty whatever the header option says: the text is the using directive, a blank line, the attribute, the class line, "{" and "}" |
| ScriptTemplate.BodyLinesAreFixed | Editor/SOTemplateCreator.cs:106-143 | every line after "{" is one of the template's fixed lines |
| ScriptTemplate.UserLinesNotInBody | Editor/SOTemplateCreator.cs:102-143 | neither the attribute line nor the class line occurs in the class body |
| ScriptTemplate.HeadLinesDistinct | Editor/SOTemplateCreator.cs:101-104 | the attribute and class lines occur only at their own positions among the first five lines |
| ScriptTemplate.SingleDeclarations | Editor/SOTemplateCreator.cs:99-146 | whatever the options, the attribute is the third line and the class declaration the fourth, and no other line is either of them |
| TemplateExample.PlayerStatsExample | Editor/SOTemplateCreator.cs:99-146 | the complete file for `PlayerStats` in the `Game/Data` menu with every option on, line by line |
| Creator.FileSystem.WriteAllText | Editor/SOTemplateCreator.cs:89 | writing creates the file or replaces its text, and leaves every other file as it was |
| Creator.SelectedFolder | Editor/SOTemplateCreator.cs:148-163 | the folder for a selection: "Assets" when nothing is selected; the folder of the first selected path when that path is not empty and names an existing file; otherwise the first selected path itself |
| Creator.SelectedFolderIsPrefix | Editor/SOTemplateCreator.cs:148-163 | the folder is "Assets" without a selection, and otherwise a prefix of the first selected path: all of it when the path is not an existing file, and the part before its last '/' when it is a file whose path holds a '/' |
| Creator.Create | Editor/SOTemplateCreator.cs:64-97 | a blank name and nothing else gives the error and changes no file; otherwise the name loses its spaces and is not empty; the outcome is a decline exactly when the name is not blank, the target exists and the dialog says no, and a decline leaves the files alone; a creation adds or replaces exactly the target `folder/name.cs` with the rendered script and keeps every other file |
| Creator.SOTemplateCreator.constructor | Editor/SOTemplateCreator.cs:12-17 | a new window has the name "NewScriptableObject", the menu "ScriptableObjects" and every option on |
| Creator.SOTemplateCreator.GetSelectedPath | Editor/SOTemplateCreator.cs:148-163 | "Assets" for an empty selection; the folder of the first selected asset when its path names an existing file; otherwise that path unchanged, including the empty path |
| Creator.SOTemplateCreator.CreateScript | Editor/SOTemplateCreator.cs:64-97 | the outcome, the new script name and the new files are those of `Create` on the old settings and files; the menu path and the four options are unchanged |
| Creator.AnswerMattersOnlyForExistingFile | Editor/SOTemplateCreator.cs:77-85 | the answer to the overwrite dialog changes the result exactly when the target file already exists |
| Creator.StrippedNameIsNotBlank | Editor/SOTemplateCreator.cs:66-72 | a name that passes the blank check still passes it after stripping |
| Creator.StrippedNameHasNoSeparator | Editor/SOTemplateCreator.cs:72-75 | stripping spaces adds no '/' to a name |
| Creator.CreatedFileNamesItsClass | Editor/SOTemplateCreator.cs:72-103 | for a name without '/', the written file's name is the stripped name plus ".cs", and the class declared in it (fourth line) has that same name |
| Creator.CreateAgainChangesNothing | Editor/SOTemplateCreator.cs:64-97 | pressing Create again with the stripped name and "Yes" to the overwrite dialog rewrites the same file with the same text: the files stay as the first press left them |
| Creator.RewriteSameText | Editor/SOTemplateCreator.cs:77-89 | Create on a name without spaces whose target already holds the text it would write leaves the files as they are |
| Creator.SameFolderAfterWrite | Editor/SOTemplateCreator.cs:74-75 | writing the target file does not change the target the selection leads to |

## Left out

- The window's drawing (`OnGUI`), `ShowWindow` and the two menu entry points are user interface only. The six settings are the class's fields, which the model sets directly.
- `AssetDatabase.Refresh`, `AssetDatabase.LoadAssetAtPath`, the assignment to `Selection.activeObject`, `EditorGUIUtility.PingObject` and `Debug.Log` run after the file is written. They are editor side effects and are not modelled. In particular, the model does not follow the selection moving to the new asset.
- `Selection.GetFiltered` and `AssetDatabase.GetAssetPath` are replaced by a parameter: the list of the selected assets' paths, in selection order.
- `EditorUtility.DisplayDialog` is not modelled as a dialog. The error dialog is the `EmptyName` outcome. The answer to the overwrite dialog is a boolean parameter that is looked at only when the file exists.
- The fields are never null in the window, so the null case of `string.IsNullOrWhiteSpace` is not modelled.
- Exceptions from `Path.Combine` (invalid path characters) and from `File.WriteAllText` (I/O errors, missing folder) are not modelled. A write always succeeds.
- The model does not check that the script name is a legal C# identifier, because the window does not check it either.
- ScriptTemplate.ScriptLinesAreFileLines: the lines of the written file match the script's list of lines only when neither the script name nor the menu path holds a newline. The window does not reject such names, and then the line-level properties (presence, layout, single declarations) describe the list of lines, not the file.
- Paths.DirectoryName: uses '/' only. It does not model .NET's handling of '\\', of drive and root paths (`GetDirectoryName` of a root gives null, and of "/x" gives "/"), or of separator normalisation.
- Paths.Combine: uses '/' only. A file name is rooted when it starts with '/'. Drive letters and '\\' are not modelled.
- Creator.SOTemplateCreator.GetSelectedPath: `File.Exists` is membership in the file map, so a selected folder counts as not existing, as it does for `File.Exists`.
