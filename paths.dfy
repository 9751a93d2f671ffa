/**
 * The two path helpers the creator uses, `Path.Combine` and
 * `Path.GetDirectoryName`, over '/'-separated paths (Unity asset paths such
 * as "Assets/Data/Stats.asset").
 */
module Paths {

  const Separator: char := '/'

  /** Index of the last separator in `p`, or -1 when there is none. */
  function LastSeparator(p: string): (i: int)
    ensures -1 <= i < |p|
    ensures 0 <= i ==> p[i] == Separator
    ensures forall j | i < j < |p| :: p[j] != Separator
    ensures i < 0 <==> Separator !in p
  {
    if p == [] then -1
    else if p[|p| - 1] == Separator then |p| - 1
    else
      assert p == p[..|p| - 1] + [p[|p| - 1]];
      LastSeparator(p[..|p| - 1])
  }

  /** `Path.GetDirectoryName`: everything before the last separator. */
  function DirectoryName(p: string): (d: string)
    ensures Separator !in p ==> d == ""
    ensures Separator in p ==> |d| < |p| && p[..|d|] == d && p[|d|] == Separator && Separator !in p[|d| + 1..]
  {
    var i := LastSeparator(p);
    if i < 0 then "" else p[..i]
  }

  /** `Path.GetFileName`: everything after the last separator. */
  function BaseName(p: string): (b: string)
    ensures Separator !in b
    ensures Separator in p ==> p == DirectoryName(p) + [Separator] + b
    ensures Separator !in p ==> b == p
  {
    var i := LastSeparator(p);
    p[i + 1..]
  }

  /** `Path.Combine(dir, name)`: `name` alone when `dir` is empty or `name` is
      rooted, otherwise the two joined by exactly one separator. */
  function Combine(dir: string, name: string): string
  {
    if dir == [] || (name != [] && name[0] == Separator) then name
    else if dir[|dir| - 1] == Separator then dir + name
    else dir + [Separator] + name
  }

  /** The combined path ends with the file name; unless the name is rooted
      or the folder empty, it starts with the folder and puts exactly one
      separator between the two. */
  lemma CombineJoins(dir: string, name: string)
    ensures var p := Combine(dir, name);
      && |p| >= |name| && p[|p| - |name|..] == name
      && (dir == [] || (name != [] && name[0] == Separator) ==> p == name)
      && (dir != [] && (name == [] || name[0] != Separator) ==>
            && |dir| + |name| <= |p| <= |dir| + 1 + |name|
            && p[..|dir|] == dir
            && p[|p| - |name| - 1] == Separator
            && (Separator !in dir[|dir| - 1..] ==> |p| == |dir| + 1 + |name|))
  {
  }

  lemma {:induction false} LastSeparatorAfter(a: string, b: string)
    requires Separator !in b
    ensures LastSeparator(a + [Separator] + b) == |a|
  {
    var p := a + [Separator] + b;
    if b == [] {
      assert p[|p| - 1] == Separator;
    } else {
      var q := a + [Separator] + b[..|b| - 1];
      assert p[..|p| - 1] == q;
      assert p[|p| - 1] == b[|b| - 1] != Separator;
      LastSeparatorAfter(a, b[..|b| - 1]);
    }
  }

  /** Combining a folder with a plain file name and splitting the result again
      gives back the file name and, when the folder has no trailing separator,
      the folder. */
  lemma CombineSplits(dir: string, name: string)
    requires Separator !in name
    ensures BaseName(Combine(dir, name)) == name
    ensures (dir == [] || dir[|dir| - 1] != Separator) ==> DirectoryName(Combine(dir, name)) == dir
  {
    if dir == [] {
    } else if dir[|dir| - 1] == Separator {
      var a := dir[..|dir| - 1];
      assert dir + name == a + [Separator] + name;
      LastSeparatorAfter(a, name);
    } else {
      LastSeparatorAfter(dir, name);
    }
  }
}
