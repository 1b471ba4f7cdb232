/**
 * The two string services every core file leans on: `string.IsNullOrWhiteSpace`
 * and `string.Trim`, both defined over .NET's `char.IsWhiteSpace`.
 */
module Text {
  import opened Wrappers

  /**
   * The characters .NET's `char.IsWhiteSpace` accepts: the Unicode space separators
   * (category Zs), the line and paragraph separators, the controls U+0009 to U+000D
   * and U+0085.
   */
  predicate IsWhite(c: char) {
    if c <= ' ' then c == ' ' || '\t' <= c <= '\r'
    else if c < '\U{0085}' then false
    else
      || c == '\U{0085}' || c == '\U{00A0}' || c == '\U{1680}'
      || ('\U{2000}' <= c <= '\U{200A}')
      || c == '\U{2028}' || c == '\U{2029}' || c == '\U{202F}' || c == '\U{205F}' || c == '\U{3000}'
  }

  /** `string.IsNullOrWhiteSpace` on a non-null string: empty, or white space only. */
  predicate IsBlank(s: string) {
    forall i :: 0 <= i < |s| ==> IsWhite(s[i])
  }

  /** `string.IsNullOrWhiteSpace` on a string that may be null. */
  predicate IsNullOrWhiteSpace(s: Option<string>) {
    s.None? || IsBlank(s.value)
  }

  /** A string whose last character is not white space is not blank. */
  lemma NotBlank(s: string)
    requires |s| > 0 && !IsWhite(s[|s| - 1])
    ensures !IsBlank(s)
  {
  }

  /** Drops the leading white space (the first half of `string.Trim`). */
  function TrimStart(s: string): (r: string)
    ensures |r| <= |s| && r == s[|s| - |r|..]
    ensures forall i :: 0 <= i < |s| - |r| ==> IsWhite(s[i])
    ensures r == [] || !IsWhite(r[0])
  {
    if |s| > 0 && IsWhite(s[0]) then TrimStart(s[1..]) else s
  }

  /** Drops the trailing white space (the second half of `string.Trim`). */
  function TrimEnd(s: string): (r: string)
    ensures |r| <= |s| && r == s[..|r|]
    ensures forall i :: |r| <= i < |s| ==> IsWhite(s[i])
    ensures r == [] || !IsWhite(r[|r| - 1])
  {
    if |s| > 0 && IsWhite(s[|s| - 1]) then TrimEnd(s[..|s| - 1]) else s
  }

  /**
   * `string.Trim`: the string without its leading and trailing white space. It is
   * empty exactly for a blank string, and otherwise starts and ends with a
   * character that is not white space.
   */
  function Trim(s: string): (r: string)
    ensures r == [] <==> IsBlank(s)
    ensures r != [] ==> !IsWhite(r[0]) && !IsWhite(r[|r| - 1])
    ensures |r| <= |s|
  {
    var t := TrimStart(s);
    assert t != [] ==> TrimEnd(t) != [];
    TrimEnd(t)
  }

  /** What `TrimStart` drops is a blank prefix. */
  lemma TrimStartDropsBlankPrefix(s: string)
    ensures IsBlank(s[..|s| - |TrimStart(s)|])
  {
    var i := |s| - |TrimStart(s)|;
    forall k | 0 <= k < i ensures IsWhite(s[..i][k]) {
      assert s[..i][k] == s[k];
    }
  }

  /** What `TrimEnd` drops is a blank suffix. */
  lemma TrimEndDropsBlankSuffix(t: string)
    ensures IsBlank(t[|TrimEnd(t)|..])
  {
    var j := |TrimEnd(t)|;
    forall k | 0 <= k < |t| - j ensures IsWhite(t[j..][k]) {
      assert t[j..][k] == t[j + k];
    }
  }

  /** Trimming removes white space only: the input is blank + Trim(s) + blank. */
  lemma TrimRemovesOnlyWhiteSpace(s: string)
    ensures exists i, j :: 0 <= i <= j <= |s| && s[i..j] == Trim(s)
                           && IsBlank(s[..i]) && IsBlank(s[j..])
  {
    var t := TrimStart(s);
    var i := |s| - |t|;
    var r := TrimEnd(t);
    var j := i + |r|;
    TrimStartDropsBlankPrefix(s);
    TrimEndDropsBlankSuffix(t);
    assert s[i..j] == r;
    assert s[j..] == t[|r|..];
  }

  /** Trimming twice is trimming once. */
  lemma TrimIdempotent(s: string)
    ensures Trim(Trim(s)) == Trim(s)
  {
    var r := Trim(s);
    if r != [] {
      assert TrimStart(r) == r;
      assert TrimEnd(r) == r;
    }
  }
}
