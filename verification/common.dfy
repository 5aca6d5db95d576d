/** What several modules need: an optional value, and Unicode white space. */
module Options {
  datatype Option<+T> = None | Some(value: T)
}

module Spaces {

  /** unicode.IsSpace */
  predicate IsSpace(c: char) {
    || '\t' <= c <= '\r' || c == ' ' || c == '\U{85}' || c == '\U{A0}' || c == '\U{1680}'
    || '\U{2000}' <= c <= '\U{200A}' || c == '\U{2028}' || c == '\U{2029}' || c == '\U{202F}'
    || c == '\U{205F}' || c == '\U{3000}'
  }

  /** The white space characters of Unicode, one by one. */
  lemma SpacesAre(c: char)
    ensures IsSpace(c) <==>
              || c in "\t\n\U{B}\U{C}\r \U{85}\U{A0}\U{1680}"
              || c in "\U{2000}\U{2001}\U{2002}\U{2003}\U{2004}\U{2005}\U{2006}\U{2007}\U{2008}\U{2009}\U{200A}"
              || c in "\U{2028}\U{2029}\U{202F}\U{205F}\U{3000}"
  {
  }

  /** strings.TrimSpace */
  function TrimSpace(s: string): (t: string)
    ensures t == "" || (!IsSpace(t[0]) && !IsSpace(t[|t| - 1]))
    ensures forall c :: c in t ==> c in s
  {
    if s == "" then s
    else if IsSpace(s[0]) then TrimSpace(s[1..])
    else if IsSpace(s[|s| - 1]) then TrimSpace(s[..|s| - 1])
    else s
  }

  /** What is trimmed is white space, and at the ends. */
  lemma {:induction false} TrimCuts(s: string) returns (front: string, back: string)
    ensures s == front + TrimSpace(s) + back
    ensures forall c :: c in front + back ==> IsSpace(c)
    decreases |s|
  {
    hide IsSpace;
    front, back := "", "";
    if s == "" {
    } else if IsSpace(s[0]) {
      front, back := TrimCuts(s[1..]);
      front := [s[0]] + front;
    } else if IsSpace(s[|s| - 1]) {
      front, back := TrimCuts(s[..|s| - 1]);
      back := back + [s[|s| - 1]];
    }
  }
}
