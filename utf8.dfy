/** Go's `unicode/utf8` package, for strings of code points. */
module utf8 {

  /** `utf8.RuneCountInString`: the number of code points. */
  function RuneCount(s: string): (n: nat)
    ensures n == |s|
  {
    if s == [] then 0 else 1 + RuneCount(s[1..])
  }
}
