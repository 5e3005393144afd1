/** The trimming functions of Go's `strings` package, on strings of code points. */
module strings {
  import opened unicode

  /** Where `strings.TrimLeftFunc(s, f)` starts: the number of leading code points satisfying f. */
  function TrimStart(s: string, f: char -> bool): (a: nat)
    ensures a <= |s|
    ensures forall i :: 0 <= i < a ==> f(s[i])
    ensures a == |s| || !f(s[a])
  {
    if |s| > 0 && f(s[0]) then
      var a := 1 + TrimStart(s[1..], f);
      assert forall i :: 1 <= i < a ==> s[i] == s[1..][i - 1];
      a
    else 0
  }

  /** Where `strings.TrimRightFunc(s, f)` ends: |s| minus the number of trailing code points satisfying f. */
  function TrimEnd(s: string, f: char -> bool): (b: nat)
    ensures b <= |s|
    ensures forall i :: b <= i < |s| ==> f(s[i])
    ensures b == 0 || !f(s[b - 1])
  {
    if |s| > 0 && f(s[|s| - 1]) then TrimEnd(s[..|s| - 1], f) else |s|
  }

  /**
   * `strings.TrimFunc`: trim the left end, then the right end of what is
   * left. The result is the slice of s from TrimStart(s, f) on, with only
   * code points satisfying f dropped at either end.
   */
  function TrimFunc(s: string, f: char -> bool): (r: string)
    ensures TrimStart(s, f) + |r| <= |s| && r == s[TrimStart(s, f)..TrimStart(s, f) + |r|]
    ensures forall i :: TrimStart(s, f) + |r| <= i < |s| ==> f(s[i])
    ensures r == [] || (!f(r[0]) && !f(r[|r| - 1]))
    ensures r == [] <==> forall i :: 0 <= i < |s| ==> f(s[i])
  {
    var a := TrimStart(s, f);
    var rest := s[a..];
    var e := TrimEnd(rest, f);
    assert forall i :: a + e <= i < |s| ==> s[i] == rest[i - a];
    assert a < |s| ==> rest[0] == s[a];
    assert e > 0 ==> s[a + e - 1] == rest[e - 1];
    s[a..a + e]
  }

  /**
   * `strings.TrimSpace`: s without leading and trailing whitespace. (Go
   * takes a byte-wise path for ASCII input, with the same result.)
   */
  function TrimSpace(s: string): (r: string)
    ensures TrimStart(s, IsSpace) + |r| <= |s| && r == s[TrimStart(s, IsSpace)..TrimStart(s, IsSpace) + |r|]
    ensures forall i :: 0 <= i < TrimStart(s, IsSpace) ==> IsSpace(s[i])
    ensures forall i :: TrimStart(s, IsSpace) + |r| <= i < |s| ==> IsSpace(s[i])
    ensures r == [] || (!IsSpace(r[0]) && !IsSpace(r[|r| - 1]))
    ensures r == [] <==> forall i :: 0 <= i < |s| ==> IsSpace(s[i])
  {
    TrimFunc(s, IsSpace)
  }
}
