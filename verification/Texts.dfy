/** White space and trimming, as the language's string library has them. */
module Texts {

  predicate IsSpace(c: char) {
    || '\t' <= c <= '\r' || c == ' ' || c == '\U{00A0}' || c == '\U{1680}' || '\U{2000}' <= c <= '\U{200A}'
    || c == '\U{2028}' || c == '\U{2029}' || c == '\U{202F}' || c == '\U{205F}' || c == '\U{3000}' || c == '\U{FEFF}'
  }

  function Trim(s: string): string {
    if s == "" then s
    else if IsSpace(s[0]) then Trim(s[1..])
    else if IsSpace(s[|s| - 1]) then Trim(s[..|s| - 1])
    else s
  }

  predicate AllSpace(s: string) { forall c <- s :: IsSpace(c) }

  /** Trimming takes white space from both ends, and all of it. */
  lemma {:induction false} TrimStrips(s: string) returns (left: string, right: string)
    ensures s == left + Trim(s) + right && AllSpace(left) && AllSpace(right)
    ensures Trim(s) != "" ==> !IsSpace(Trim(s)[0]) && !IsSpace(Trim(s)[|Trim(s)| - 1])
    decreases |s|
  {
    left, right := "", "";
    if s != "" {
      if IsSpace(s[0]) {
        assert s == [s[0]] + s[1..];
        left, right := TrimStrips(s[1..]);
        left := [s[0]] + left;
      } else if IsSpace(s[|s| - 1]) {
        assert s == s[..|s| - 1] + [s[|s| - 1]];
        left, right := TrimStrips(s[..|s| - 1]);
        right := right + [s[|s| - 1]];
      }
    }
  }
}
