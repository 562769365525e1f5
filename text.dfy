/** Python's `str.strip()` with no argument: remove leading and trailing
    whitespace, where whitespace is what `str.isspace()` accepts. */
module Text {

  /** The code points `str.isspace()` accepts. */
  const SpaceCodes: set<int> :=
    {9, 10, 11, 12, 13, 28, 29, 30, 31, 32, 133, 160, 5760,
     8192, 8193, 8194, 8195, 8196, 8197, 8198, 8199, 8200, 8201, 8202,
     8232, 8233, 8239, 8287, 12288}

  predicate IsSpace(c: char) {
    c as int in SpaceCodes
  }

  predicate AllSpace(s: string) {
    forall i :: 0 <= i < |s| ==> IsSpace(s[i])
  }

  /** r is s with some whitespace removed from each end: a slice of s with
      only whitespace before and after it. */
  predicate SpaceTrimmed(s: string, r: string) {
    exists i, j :: 0 <= i <= j <= |s| && r == s[i..j] && AllSpace(s[..i]) && AllSpace(s[j..])
  }

  /** Drops leading whitespace. */
  function TrimStart(s: string): (r: string)
    ensures |r| <= |s| && r == s[|s| - |r|..]
    ensures AllSpace(s[..|s| - |r|])
    ensures r == [] || !IsSpace(r[0])
  {
    if s != [] && IsSpace(s[0]) then
      var r := TrimStart(s[1..]);
      assert s[..|s| - |r|] == [s[0]] + s[1..][..|s| - 1 - |r|];
      r
    else s
  }

  /** Drops trailing whitespace. */
  function TrimEnd(s: string): (r: string)
    ensures |r| <= |s| && r == s[..|r|]
    ensures AllSpace(s[|r|..])
    ensures r == [] || !IsSpace(r[|r| - 1])
  {
    if s != [] && IsSpace(s[|s| - 1]) then
      var r := TrimEnd(s[..|s| - 1]);
      assert s[|r|..] == s[..|s| - 1][|r|..] + [s[|s| - 1]];
      r
    else s
  }

  /** The stripped string is the slice of s between its leading and its
      trailing whitespace: it neither starts nor ends with whitespace, and
      it is empty exactly when s is all whitespace. */
  function Strip(s: string): (r: string)
    ensures SpaceTrimmed(s, r)
    ensures r == [] || (!IsSpace(r[0]) && !IsSpace(r[|r| - 1]))
    ensures r == [] <==> AllSpace(s)
  {
    StripSlice(s);
    StripEmptyIffAllSpace(s);
    TrimEnd(TrimStart(s))
  }

  /** TrimEnd after TrimStart leaves the slice between the leading and the
      trailing whitespace. */
  lemma StripSlice(s: string)
    ensures SpaceTrimmed(s, TrimEnd(TrimStart(s)))
  {
    var left := TrimStart(s);
    var r := TrimEnd(left);
    var i := |s| - |left|;
    var j := i + |r|;
    assert AllSpace(s[..i]);
    assert r == s[i..j] by {
      assert left == s[i..];
    }
    assert AllSpace(s[j..]) by {
      assert s[j..] == left[|r|..];
    }
  }

  lemma StripEmptyIffAllSpace(s: string)
    ensures TrimEnd(TrimStart(s)) == [] <==> AllSpace(s)
  {
    var left := TrimStart(s);
    if TrimEnd(left) == [] {
      assert AllSpace(left[0..]);
      assert left == [];
      assert s[..|s|] == s;
    }
  }

  /** Stripping twice is stripping once. */
  lemma StripIdempotent(s: string)
    ensures Strip(Strip(s)) == Strip(s)
  {
    var r := Strip(s);
    if r != [] {
      assert TrimStart(r) == r;
      assert TrimEnd(r) == r;
    }
  }
}
