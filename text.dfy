/** Python's str.strip() with no argument. */
module Text {

  /** str.isspace() for one character: the characters of Unicode
      category Zs or bidirectional class WS, B or S. */
  predicate IsSpace(c: char) {
    || c == ' '
    || ('\t' <= c <= '\r')
    || ('\U{1C}' <= c <= '\U{1F}')
    || c == '\U{85}'
    || c == '\U{A0}'
    || c == '\U{1680}'
    || ('\U{2000}' <= c <= '\U{200A}')
    || c == '\U{2028}'
    || c == '\U{2029}'
    || c == '\U{202F}'
    || c == '\U{205F}'
    || c == '\U{3000}'
  }

  predicate AllSpace(s: string) {
    forall i :: 0 <= i < |s| ==> IsSpace(s[i])
  }

  /** lstrip(): drops the leading run of whitespace. */
  function TrimStart(s: string): (r: string)
    ensures |r| <= |s|
  {
    if s != [] && IsSpace(s[0]) then TrimStart(s[1..]) else s
  }

  /** rstrip(): drops the trailing run of whitespace. */
  function TrimEnd(s: string): (r: string)
    ensures |r| <= |s|
  {
    if s != [] && IsSpace(s[|s| - 1]) then TrimEnd(s[..|s| - 1]) else s
  }

  /** strip(): both runs removed. */
  function Strip(s: string): string {
    TrimEnd(TrimStart(s))
  }

  /** lstrip() removes a prefix made of whitespace only, and all of it. */
  lemma {:induction false} TrimStartSpec(s: string)
    ensures var r := TrimStart(s);
      && |r| <= |s| && r == s[|s| - |r|..]
      && AllSpace(s[..|s| - |r|])
      && (r == [] || !IsSpace(r[0]))
  {
    if s != [] && IsSpace(s[0]) {
      TrimStartSpec(s[1..]);
      var r := TrimStart(s);
      assert s[..|s| - |r|] == [s[0]] + s[1..][..|s| - 1 - |r|];
    }
  }

  /** rstrip() removes a suffix made of whitespace only, and all of it. */
  lemma {:induction false} TrimEndSpec(s: string)
    ensures var r := TrimEnd(s);
      && |r| <= |s| && r == s[..|r|]
      && AllSpace(s[|r|..])
      && (r == [] || !IsSpace(r[|r| - 1]))
  {
    if s != [] && IsSpace(s[|s| - 1]) {
      var t := s[..|s| - 1];
      TrimEndSpec(t);
      var r := TrimEnd(s);
      assert s[|r|..] == t[|r|..] + [s[|s| - 1]];
    }
  }

  /** How many characters strip() removes from the front of s. */
  function StripOffset(s: string): nat {
    |s| - |TrimStart(s)|
  }

  /** strip() keeps a contiguous part of s that neither starts nor ends
      with whitespace, and what it removes on either side is whitespace only. */
  lemma StripSpec(s: string)
    ensures var r := Strip(s);
      && (r == [] || (!IsSpace(r[0]) && !IsSpace(r[|r| - 1])))
      && StripOffset(s) + |r| <= |s| && r == s[StripOffset(s)..StripOffset(s) + |r|]
      && AllSpace(s[..StripOffset(s)]) && AllSpace(s[StripOffset(s) + |r|..])
  {
    var t := TrimStart(s);
    TrimStartSpec(s);
    var o := StripOffset(s);
    assert t == s[o..];
    TrimEndSpec(t);
    var r := TrimEnd(t);
    assert r == t[..|r|];
    assert r == s[o..][..|r|] == s[o..o + |r|];
    assert s[o + |r|..] == t[|r|..];
    assert r != [] ==> r[0] == t[0];
    assert AllSpace(s[..o]);
    assert AllSpace(s[o + |r|..]);
  }

  /** A string that neither starts nor ends with whitespace is its own strip. */
  lemma StripUntrimmed(s: string)
    requires s == [] || (!IsSpace(s[0]) && !IsSpace(s[|s| - 1]))
    ensures Strip(s) == s
  {
  }

  /** strip() is idempotent. */
  lemma StripIdempotent(s: string)
    ensures Strip(Strip(s)) == Strip(s)
  {
    StripSpec(s);
    StripUntrimmed(Strip(s));
  }
}
