/** The part of Python's text handling that the audit chains rely on. */
module Text {

  /** The characters that `str.strip` removes. */
  predicate IsSpace(c: char) {
    || c in {' ', '\t', '\n', '\r', '\U{0B}', '\U{0C}', '\U{1C}', '\U{1D}', '\U{1E}', '\U{1F}', '\U{85}', '\U{A0}'}
    || c in {'\U{1680}', '\U{2028}', '\U{2029}', '\U{202F}', '\U{205F}', '\U{3000}'}
    || '\U{2000}' <= c <= '\U{200A}'
  }

  /** Nothing but white space. */
  predicate IsBlank(s: string) {
    forall i | 0 <= i < |s| :: IsSpace(s[i])
  }

  /** `str.strip`. */
  function Strip(s: string): string {
    if s == "" then ""
    else if IsSpace(s[0]) then Strip(s[1..])
    else if IsSpace(s[|s| - 1]) then Strip(s[..|s| - 1])
    else s
  }

  lemma {:induction false} BlankIffStripsEmpty(s: string)
    ensures IsBlank(s) <==> Strip(s) == ""
  {
    if s != "" {
      if IsSpace(s[0]) {
        BlankIffStripsEmpty(s[1..]);
        assert s == [s[0]] + s[1..];
      } else if IsSpace(s[|s| - 1]) {
        BlankIffStripsEmpty(s[..|s| - 1]);
        assert !IsSpace(s[..|s| - 1][0]);
      }
    }
  }
}
