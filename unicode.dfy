/** The part of Go's `unicode` package the validator relies on: whitespace. */
module unicode {

  /**
   * Unicode's White_Space property, range by range as in Go's
   * `unicode.White_Space` table.
   */
  predicate WhiteSpace(c: char)
  {
    || ('\t' <= c <= '\r') || c == ' ' || c == '\U{0085}' || c == '\U{00A0}'
    || c == '\U{1680}' || ('\U{2000}' <= c <= '\U{200A}') || ('\U{2028}' <= c <= '\U{2029}')
    || c == '\U{202F}' || c == '\U{205F}' || c == '\U{3000}'
  }

  /** The Latin-1 spaces `unicode.IsSpace` lists for its fast path. */
  predicate Latin1Space(c: char)
  {
    || c == '\t' || c == '\n' || c == '\U{000B}' || c == '\U{000C}' || c == '\r'
    || c == ' ' || c == '\U{0085}' || c == '\U{00A0}'
  }

  /** `unicode.IsSpace`: the fixed list for Latin-1 code points, the White_Space table above them. */
  predicate IsSpace(c: char)
  {
    if c <= '\U{00FF}' then Latin1Space(c) else WhiteSpace(c)
  }

  /** The Latin-1 fast path agrees with the table: IsSpace is exactly the White_Space property. */
  lemma IsSpaceIsWhiteSpace(c: char)
    ensures IsSpace(c) <==> WhiteSpace(c)
  {
  }
}
