/** How identifiers are trimmed, folded and recognised. */
module Text {
  import opened Tables

  /** Unicode white space, as the standard library trims it. */
  predicate IsSpace(c: char) {
    || '\t' <= c <= '\r' || c == ' ' || c == '\U{85}' || c == '\U{A0}' || c == '\U{1680}'
    || '\U{2000}' <= c <= '\U{200A}' || c == '\U{2028}' || c == '\U{2029}'
    || c == '\U{202F}' || c == '\U{205F}' || c == '\U{3000}'
  }

  /** Nothing is left after trimming. */
  predicate Blank(s: string) {
    forall c <- s :: IsSpace(c)
  }

  function Trim(s: string): string {
    if s == "" then ""
    else if IsSpace(s[0]) then Trim(s[1..])
    else if IsSpace(s[|s| - 1]) then Trim(s[..|s| - 1])
    else s
  }

  lemma {:induction false} TrimBlank(s: string)
    ensures Trim(s) == "" <==> Blank(s)
  {
    if s != "" {
      assert s == [s[0]] + s[1..] == s[..|s| - 1] + [s[|s| - 1]];
      if IsSpace(s[0]) {
        TrimBlank(s[1..]);
        assert forall c <- s :: c == s[0] || c in s[1..];
        assert forall c <- s[1..] :: c in s;
      } else {
        assert s[0] in s;
        if IsSpace(s[|s| - 1]) {
          TrimBlank(s[..|s| - 1]);
          assert |s| > 1 && s[..|s| - 1][0] == s[0];
          assert s[0] in s[..|s| - 1];
        }
      }
    }
  }

  /** The text is the core with white space around it. */
  ghost predicate Around(s: string, before: string, core: string, after: string) {
    s == before + core + after && Blank(before) && Blank(after)
  }

  lemma AroundLeft(s: string, before: string, core: string, after: string)
    requires s != "" && IsSpace(s[0]) && Around(s[1..], before, core, after)
    ensures Around(s, [s[0]] + before, core, after)
  {
    hide IsSpace;
    assert s == [s[0]] + s[1..] == [s[0]] + before + core + after;
  }

  lemma AroundRight(s: string, before: string, core: string, after: string)
    requires s != "" && IsSpace(s[|s| - 1]) && Around(s[..|s| - 1], before, core, after)
    ensures Around(s, before, core, after + [s[|s| - 1]])
  {
    hide IsSpace;
    assert s == s[..|s| - 1] + [s[|s| - 1]] == before + core + (after + [s[|s| - 1]]);
  }

  /** What is trimmed is white space at the two ends, and nothing else is. */
  lemma {:induction false} TrimExactly(s: string)
    ensures exists before, after :: Around(s, before, Trim(s), after)
    ensures Trim(s) != "" ==> !IsSpace(Trim(s)[0]) && !IsSpace(Trim(s)[|Trim(s)| - 1])
  {
    if s == "" || !(IsSpace(s[0]) || IsSpace(s[|s| - 1])) {
      hide IsSpace;
      assert Around(s, "", Trim(s), "");
    } else {
      hide IsSpace, Around;
      if IsSpace(s[0]) {
        TrimExactly(s[1..]);
        var before, after :| Around(s[1..], before, Trim(s), after);
        AroundLeft(s, before, Trim(s), after);
      } else {
        TrimExactly(s[..|s| - 1]);
        var before, after :| Around(s[..|s| - 1], before, Trim(s), after);
        AroundRight(s, before, Trim(s), after);
      }
    }
  }

  function NormalizeEmail(email: string): string { Lower(Trim(email)) }

  predicate IsDigit(c: char) { '0' <= c <= '9' }

  /** A plus sign, a digit that is not zero, and six to fourteen more. */
  predicate IsE164(s: string) {
    8 <= |s| <= 16 && s[0] == '+' && s[1] != '0' && forall i | 1 <= i < |s| :: IsDigit(s[i])
  }

  /** One at sign with something before it, and after it something, a dot and something; no spaces. */
  predicate IsEmail(s: string) {
    && (forall c <- s :: c !in "\t\n\U{0C}\r ")
    && exists i :: 0 < i < |s| && s[i] == '@' && '@' !in s[..i] && '@' !in s[i + 1..]
                   && exists j :: i + 1 < j < |s| - 1 && s[j] == '.'
  }
}
