/**
 * Python's `str.strip()` with no argument: removes leading and trailing
 * characters for which `str.isspace()` holds.
 */
module Text {

  /** The characters `str.isspace()` accepts. */
  predicate IsSpace(ch: char)
  {
    || ('\t' <= ch <= '\r')
    || ('\U{1C}' <= ch <= '\U{1F}')
    || ch == ' ' || ch == '\U{85}' || ch == '\U{A0}' || ch == '\U{1680}'
    || ('\U{2000}' <= ch <= '\U{200A}')
    || ch == '\U{2028}' || ch == '\U{2029}' || ch == '\U{202F}' || ch == '\U{205F}'
    || ch == '\U{3000}'
  }

  predicate AllSpace(s: string)
  {
    forall k :: 0 <= k < |s| ==> IsSpace(s[k])
  }

  /** Drops the leading whitespace: the result is the suffix of `s` that starts at its first non-space. */
  function StripStart(s: string): (r: string)
    ensures |r| <= |s| && r == s[|s| - |r|..]
    ensures forall k :: 0 <= k < |s| - |r| ==> IsSpace(s[k])
    ensures r != [] ==> !IsSpace(r[0])
  {
    if s != [] && IsSpace(s[0]) then StripStart(s[1..]) else s
  }

  /** Drops the trailing whitespace: the result is the prefix of `s` that ends at its last non-space. */
  function StripEnd(s: string): (r: string)
    ensures |r| <= |s| && r == s[..|r|]
    ensures forall k :: |r| <= k < |s| ==> IsSpace(s[k])
    ensures r != [] ==> !IsSpace(r[|r| - 1])
  {
    if s != [] && IsSpace(s[|s| - 1]) then StripEnd(s[..|s| - 1]) else s
  }

  /**
   * `s.strip()`: text that neither starts nor ends with whitespace, and is
   * empty exactly when `s` is all whitespace.
   */
  function Strip(s: string): (r: string)
    ensures r != [] ==> !IsSpace(r[0]) && !IsSpace(r[|r| - 1])
    ensures r == [] <==> AllSpace(s)
  {
    var t := StripStart(s);
    StripEndOfWord(t);
    assert t == [] ==> AllSpace(s);
    var r := StripEnd(t);
    assert r != [] ==> s[|s| - |t|] == r[0];
    r
  }

  /** Text that starts with a non-space keeps that character when trailing whitespace is dropped. */
  lemma StripEndOfWord(t: string)
    ensures t != [] && !IsSpace(t[0]) ==> StripEnd(t) != []
  {
  }

  /** Text that starts with a non-space has no leading whitespace to drop. */
  lemma StripStartKeeps(s: string)
    requires s != [] && !IsSpace(s[0])
    ensures StripStart(s) == s
  {
  }

  /** Text that ends with a non-space has no trailing whitespace to drop. */
  lemma StripEndKeeps(s: string)
    requires s != [] && !IsSpace(s[|s| - 1])
    ensures StripEnd(s) == s
  {
  }

  /** Stripping is idempotent. */
  lemma StripIdempotent(s: string)
    ensures Strip(Strip(s)) == Strip(s)
  {
    var r := Strip(s);
    if r != [] {
      StripStartKeeps(r);
      StripEndKeeps(r);
    }
  }
}
