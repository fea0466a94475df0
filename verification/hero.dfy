/**
 * The landing-page search box (components/layout/hero.tsx). Submitting the
 * form navigates once: to the bare browse page when the text is blank after
 * trimming, otherwise to the browse page with the untrimmed text, encoded,
 * as the `q` parameter.
 */
module Hero {

  /** The code points that JavaScript's `String.prototype.trim` removes:
      WhiteSpace and LineTerminator of ECMAScript (sections 12.2 and 12.3 of
      ECMA-262), with the space separators of Unicode category Zs. */
  predicate IsTrimmable(c: char)
  {
    var n := c as int;
    || 0x09 <= n <= 0x0D          // TAB, LF, VT, FF, CR
    || n == 0x20 || n == 0xA0 || n == 0x1680
    || 0x2000 <= n <= 0x200A
    || n == 0x2028 || n == 0x2029 // LS, PS
    || n == 0x202F || n == 0x205F || n == 0x3000
    || n == 0xFEFF                // ZWNBSP
  }

  /** Nothing but trimmable characters (the empty string included). */
  predicate IsBlank(s: string)
  {
    forall i :: 0 <= i < |s| ==> IsTrimmable(s[i])
  }

  /** `trimStart`: drops the leading trimmable characters. */
  function TrimStart(s: string): (r: string)
    ensures |r| <= |s| && r == s[|s| - |r|..]
    ensures IsBlank(s[..|s| - |r|])
    ensures r != [] ==> !IsTrimmable(r[0])
  {
    if s != [] && IsTrimmable(s[0]) then
      var r := TrimStart(s[1..]);
      assert s[..|s| - |r|] == [s[0]] + s[1..][..|s[1..]| - |r|];
      r
    else
      s
  }

  /** `trimEnd`: drops the trailing trimmable characters. */
  function TrimEnd(s: string): (r: string)
    ensures |r| <= |s| && r == s[..|r|]
    ensures IsBlank(s[|r|..])
    ensures r != [] ==> !IsTrimmable(r[|r| - 1])
  {
    if s != [] && IsTrimmable(s[|s| - 1]) then
      var r := TrimEnd(s[..|s| - 1]);
      assert s[|r|..] == s[..|s| - 1][|r|..] + [s[|s| - 1]];
      r
    else
      s
  }

  /** `String.prototype.trim`: the longest infix of `s` that neither starts
      nor ends with a trimmable character, everything around it trimmable. */
  function Trim(s: string): (r: string)
    ensures exists i, j :: 0 <= i <= j <= |s| && r == s[i..j] && IsBlank(s[..i]) && IsBlank(s[j..])
    ensures r != [] ==> !IsTrimmable(r[0]) && !IsTrimmable(r[|r| - 1])
  {
    var t := TrimStart(s);
    var r := TrimEnd(t);
    var i := |s| - |t|;
    assert r == s[i..i + |r|];
    assert s[i + |r|..] == t[|r|..];
    r
  }

  /** The trimmed text is empty exactly when the text is blank. */
  lemma TrimEmptyIffBlank(s: string)
    ensures Trim(s) == [] <==> IsBlank(s)
  {
  }

  /** `handleSearch`: the one destination a submission navigates to.
      `encode` stands for `encodeURIComponent`. */
  function HandleSearch(search: string, encode: string -> string): (target: string)
    ensures target == "/browse" <==> IsBlank(search)
    ensures !IsBlank(search) ==> target == "/browse?q=" + encode(search)
  {
    TrimEmptyIffBlank(search);
    if Trim(search) != [] then "/browse?q=" + encode(search) else "/browse"
  }
}
