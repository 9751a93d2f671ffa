/**
 * The two string operations the creator applies to the script name:
 * .NET's `string.IsNullOrWhiteSpace` (over `char.IsWhiteSpace`) and
 * `Replace(" ", "")`, which removes every ASCII space and nothing else.
 */
module Text {

  /** `char.IsWhiteSpace`: the Unicode separators (Zs, Zl, Zp), the controls
      U+0009..U+000D and U+0085. */
  predicate IsWhiteSpace(ch: char) {
    var n := ch as int;
    || n == 0x20
    || 0x09 <= n <= 0x0D
    || n == 0x85
    || n == 0xA0
    || n == 0x1680
    || 0x2000 <= n <= 0x200A
    || n == 0x2028
    || n == 0x2029
    || n == 0x202F
    || n == 0x205F
    || n == 0x3000
  }

  /** `string.IsNullOrWhiteSpace` on a non-null string: empty, or whitespace only. */
  predicate IsNullOrWhiteSpace(s: string) {
    forall i | 0 <= i < |s| :: IsWhiteSpace(s[i])
  }

  /** `s.Replace(" ", "")`: every U+0020 dropped, every other character kept in order. */
  function RemoveSpaces(s: string): (r: string)
    ensures ' ' !in r
    ensures |r| <= |s|
    ensures forall ch | ch != ' ' :: multiset(r)[ch] == multiset(s)[ch]
  {
    if s == [] then []
    else
      assert s == [s[0]] + s[1..];
      (if s[0] == ' ' then [] else [s[0]]) + RemoveSpaces(s[1..])
  }

  /** Removing spaces works character by character: it distributes over concatenation. */
  lemma {:induction false} RemoveSpacesAppend(a: string, b: string)
    ensures RemoveSpaces(a + b) == RemoveSpaces(a) + RemoveSpaces(b)
  {
    if a == [] {
      assert a + b == b;
    } else {
      assert (a + b)[1..] == a[1..] + b;
      RemoveSpacesAppend(a[1..], b);
    }
  }

  /** A string without spaces is left exactly as it is. */
  lemma {:induction false} RemoveSpacesNoSpace(s: string)
    requires ' ' !in s
    ensures RemoveSpaces(s) == s
  {
    if s != [] {
      assert s[0] != ' ';
      assert ' ' !in s[1..];
      RemoveSpacesNoSpace(s[1..]);
    }
  }

  /** Stripping an already stripped name changes nothing. */
  lemma RemoveSpacesIdempotent(s: string)
    ensures RemoveSpaces(RemoveSpaces(s)) == RemoveSpaces(s)
  {
    RemoveSpacesNoSpace(RemoveSpaces(s));
  }

  /** A name that passes the blank check keeps at least one character after
      stripping, so the generated type name is never empty. */
  lemma NonBlankNameSurvivesStripping(s: string)
    requires !IsNullOrWhiteSpace(s)
    ensures RemoveSpaces(s) != ""
  {
    var i :| 0 <= i < |s| && !IsWhiteSpace(s[i]);
    assert s[i] in multiset(s);
    assert multiset(RemoveSpaces(s))[s[i]] == multiset(s)[s[i]] > 0;
  }
}
