/** The level mapping of a plan and the slugs its intermediate identities rest
    on (internal/config/azure_planning.go). */
module AzurePlanning {
  import opened Spaces

  /** `fields` are the reference names of the configured fields, in order. */
  datatype Level = Level(name: string, kinds: seq<string>, required: bool, fields: seq<string>)

  type Mapping = seq<Level>

  // ---------- slugs

  /** Lower case as far as a slug can tell: outside ASCII only the Kelvin sign
      and the dotted capital I have an ASCII lower case; whatever else happens to
      a character outside ASCII, it stays outside. */
  function Lower(c: char): char {
    if 'A' <= c <= 'Z' then (c as int + 32) as char
    else if c == '\U{212A}' then 'k'
    else if c == '\U{0130}' then 'i'
    else c
  }

  predicate SlugChar(c: char) {
    'a' <= c <= 'z' || '0' <= c <= '9'
  }

  /** The builder's content: letters and digits, and one dash for each run of
      anything else. */
  function Dashed(name: string): string {
    if name == "" then ""
    else
      var slug, c := Dashed(name[..|name| - 1]), Lower(name[|name| - 1]);
      if SlugChar(c) then slug + [c]
      else if slug != "" && slug[|slug| - 1] == '-' then slug
      else slug + ['-']
  }

  function TrimDashes(s: string): string {
    if s != "" && s[0] == '-' then TrimDashes(s[1..])
    else if s != "" && s[|s| - 1] == '-' then TrimDashes(s[..|s| - 1])
    else s
  }

  function SlugOf(name: string): string {
    TrimDashes(Dashed(name))
  }

  method Slug(name: string) returns (result: string)
    ensures result == SlugOf(name)
  {
    var slug := "";
    for i := 0 to |name|
      invariant slug == Dashed(name[..i])
    {
      assert name[..i + 1][..i] == name[..i];
      var c := Lower(name[i]);
      if SlugChar(c) {
        slug := slug + [c];
      } else if !(slug != "" && slug[|slug| - 1] == '-') {
        slug := slug + ['-'];
      }
    }
    assert name[..|name|] == name;
    result := TrimDashes(slug);
  }

  predicate SingleDashes(s: string) {
    && (forall i :: 0 <= i < |s| ==> SlugChar(s[i]) || s[i] == '-')
    && (forall i :: 0 < i < |s| ==> !(s[i - 1] == '-' && s[i] == '-'))
  }

  /** Letters and digits with single dashes between them. */
  predicate Canonical(s: string) {
    SingleDashes(s) && (s != "" ==> s[0] != '-' && s[|s| - 1] != '-')
  }

  lemma {:induction false} DashedIsSingle(name: string)
    ensures SingleDashes(Dashed(name))
  {
    if name != "" {
      DashedIsSingle(name[..|name| - 1]);
    }
  }

  lemma {:induction false} TrimmedIsCanonical(s: string)
    requires SingleDashes(s)
    ensures Canonical(TrimDashes(s))
    decreases |s|
  {
    if s != "" && s[0] == '-' {
      TrimmedIsCanonical(s[1..]);
    } else if s != "" && s[|s| - 1] == '-' {
      TrimmedIsCanonical(s[..|s| - 1]);
    }
  }

  /** Every slug is canonical. */
  lemma SlugIsCanonical(name: string)
    ensures Canonical(SlugOf(name))
  {
    DashedIsSingle(name);
    TrimmedIsCanonical(Dashed(name));
  }

  /** One more character onto a name that is its own dashed form. */
  lemma DashedStep(front: string, c: char)
    requires SlugChar(c) || c == '-'
    requires c == '-' ==> front == "" || front[|front| - 1] != '-'
    requires Dashed(front) == front
    ensures Dashed(front + [c]) == front + [c]
  {
    var s := front + [c];
    assert Lower(c) == c;
    hide Lower, SingleDashes;
    assert s[|s| - 1] == c && s[..|s| - 1] == front;
    assert (front + [c])[..|front|] == front;
  }

  lemma {:induction false} DashedFixed(s: string)
    requires SingleDashes(s)
    ensures Dashed(s) == s
  {
    hide Dashed;
    if s == "" {
      DashedEmpty();
    } else {
      var front := s[..|s| - 1];
      DashedFixed(front);
      DashedStep(front, s[|s| - 1]);
      assert s == front + [s[|s| - 1]];
    }
  }

  lemma DashedEmpty()
    ensures Dashed("") == ""
  {
  }

  /** And every canonical name is its own slug, so slugs are exactly the
      canonical names. */
  lemma CanonicalIsOwnSlug(s: string)
    requires Canonical(s)
    ensures SlugOf(s) == s
  {
    DashedFixed(s);
  }

  // ---------- a slug as words

  /** `c` is the letter or digit `d`, or the capital of the letter `d`, or one of the
      two letters outside ASCII that have an ASCII lower case. */
  predicate Spells(c: char, d: char) {
    || (c == d && ('a' <= d <= 'z' || '0' <= d <= '9'))
    || ('A' <= c <= 'Z' && 'a' <= d <= 'z' && d as int - 'a' as int == c as int - 'A' as int)
    || (c == '\U{212A}' && d == 'k')
    || (c == '\U{0130}' && d == 'i')
  }

  /** The characters that count for a slug are the ASCII letters and digits. */
  lemma LowerSpells(c: char, d: char)
    ensures Spells(c, d) <==> SlugChar(Lower(c)) && Lower(c) == d
  {
  }

  /** The words of a name: its runs of letters and digits, in lower case. */
  ghost function Words(name: string): (words: seq<string>)
    ensures name != "" && Counts(name[|name| - 1]) ==> words != []
  {
    if name == "" then []
    else
      var front, c := name[..|name| - 1], name[|name| - 1];
      var words := Words(front);
      if !Counts(c) then words
      else
        var d :| Spells(c, d);
        if front != "" && Counts(front[|front| - 1])
        then words[..|words| - 1] + [words[|words| - 1] + [d]]
        else words + [[d]]
  }

  ghost predicate Counts(c: char) {
    exists d :: Spells(c, d)
  }

  function Joined(words: seq<string>): string {
    if words == [] then ""
    else if |words| == 1 then words[0]
    else Joined(words[..|words| - 1]) + "-" + words[|words| - 1]
  }

  lemma JoinedLonger(words: seq<string>, d: char)
    requires words != []
    ensures Joined(words[..|words| - 1] + [words[|words| - 1] + [d]]) == Joined(words) + [d]
  {
    var longer := words[..|words| - 1] + [words[|words| - 1] + [d]];
    assert longer[..|longer| - 1] == words[..|words| - 1];
  }

  lemma JoinedMore(words: seq<string>, d: char)
    ensures Joined(words + [[d]]) == (if words == [] then "" else Joined(words) + "-") + [d]
  {
    assert (words + [[d]])[..|words|] == words;
  }

  lemma CountsIff(c: char)
    ensures Counts(c) <==> SlugChar(Lower(c))
    ensures forall d :: Spells(c, d) <==> Counts(c) && d == Lower(c)
  {
    forall d
      ensures Spells(c, d) <==> SlugChar(Lower(c)) && Lower(c) == d
    {
      LowerSpells(c, d);
    }
    hide Spells, Lower, SlugChar;
    if SlugChar(Lower(c)) {
      assert Spells(c, Lower(c));
    }
  }

  /** `s` is the joined words of `name` between a dash or nothing at either end,
      with nothing behind the last word exactly when it is not over. */
  ghost predicate Framed(name: string, s: string) {
    exists lead :: lead in ["", "-"] && FramedBy(name, s, lead)
  }

  ghost predicate FramedBy(name: string, s: string, lead: string) {
    if Words(name) == [] then s == if name == "" then "" else "-"
    else s == lead + Joined(Words(name)) + if Counts(name[|name| - 1]) then "" else "-"
  }

  /** The dashed form ends in a dash exactly when the name ends outside a word. */
  ghost predicate Follows(name: string, s: string) {
    name != "" ==> s != "" && (Counts(name[|name| - 1]) <==> s[|s| - 1] != '-')
  }

  lemma {:induction false} WordsOver(name: string)
    ensures Words(name) != [] ==> name != ""
  {
  }

  lemma {:induction false} DashedFrames(name: string)
    ensures Framed(name, Dashed(name))
    ensures Follows(name, Dashed(name))
  {
    if name == "" {
      assert FramedBy(name, "", "");
    } else {
      var front, c := name[..|name| - 1], name[|name| - 1];
      DashedFrames(front);
      DashedStepFrames(front, c);
      assert name == front + [c];
    }
  }

  /** What one more character does to the words, joined. */
  lemma WordsStep(front: string, c: char)
    ensures Words(front + [c]) == [] <==> Words(front) == [] && !Counts(c)
    ensures Joined(Words(front + [c])) ==
            if !Counts(c) then Joined(Words(front))
            else if front != "" && Counts(front[|front| - 1]) then Joined(Words(front)) + [Lower(c)]
            else (if Words(front) == [] then "" else Joined(Words(front)) + "-") + [Lower(c)]
  {
    CountsIff(c);
    hide Counts, Spells, Lower, Joined;
    var name := front + [c];
    assert name[..|name| - 1] == front && name[|name| - 1] == c;
    if Counts(c) && front != "" && Counts(front[|front| - 1]) {
      JoinedLonger(Words(front), Lower(c));
    } else if Counts(c) {
      JoinedMore(Words(front), Lower(c));
    }
  }

  lemma DashedOnce(front: string, c: char)
    ensures Dashed(front + [c]) ==
            if Counts(c) then Dashed(front) + [Lower(c)]
            else if Dashed(front) != "" && Dashed(front)[|Dashed(front)| - 1] == '-' then Dashed(front)
            else Dashed(front) + "-"
  {
    CountsIff(c);
    hide Counts, Spells, Lower;
    var name := front + [c];
    assert name[..|name| - 1] == front && name[|name| - 1] == c;
  }

  lemma DashedStepFrames(front: string, c: char)
    requires Framed(front, Dashed(front))
    requires Follows(front, Dashed(front))
    ensures Framed(front + [c], Dashed(front + [c]))
    ensures Follows(front + [c], Dashed(front + [c]))
  {
    CountsIff(c);
    WordsStep(front, c);
    DashedOnce(front, c);
    hide Counts, Spells, Lower, Words, Joined, Dashed;
    var name := front + [c];
    assert name[|name| - 1] == c;
    if Words(front) == [] {
      var lead := if Counts(c) then Dashed(front) else "";
      assert FramedBy(name, Dashed(name), lead);
    } else {
      WordsOver(front);
      var lead :| lead in ["", "-"] && FramedBy(front, Dashed(front), lead);
      FrameGrows(lead, Joined(Words(front)), Lower(c));
      assert FramedBy(name, Dashed(name), lead);
    }
  }

  lemma FrameGrows(lead: string, joined: string, d: char)
    ensures lead + joined + "" == lead + joined
    ensures lead + joined + [d] == lead + (joined + [d]) + ""
    ensures lead + joined + "-" + [d] == lead + (joined + "-" + [d]) + ""
  {
    assert lead + joined + [d] == lead + (joined + [d]);
  }

  lemma {:induction false} TrimFrame(lead: string, s: string, tail: string)
    requires lead in ["", "-"] && tail in ["", "-"] && Undashed(s)
    ensures TrimDashes(lead + s + tail) == s
  {
    assert TrimDashes(s) == s;
    if tail == "" {
      assert s + tail == s;
    } else {
      assert (s + tail)[..|s|] == s;
    }
    if lead == "" {
      assert lead + s + tail == s + tail;
    } else {
      assert (lead + s + tail)[1..] == s + tail;
    }
  }

  /** No dash at either end. */
  predicate Undashed(s: string) {
    s != "" && s[0] != '-' && s[|s| - 1] != '-'
  }

  lemma {:induction false} JoinedEnds(name: string)
    requires Words(name) != []
    ensures Undashed(Joined(Words(name)))
  {
    assert name != "" by {
      WordsOver(name);
    }
    var front, c := name[..|name| - 1], name[|name| - 1];
    assert name == front + [c];
    WordsStep(front, c);
    CountsIff(c);
    hide Counts, Spells, Lower, Words, Joined;
    var joined, d := Joined(Words(front)), Lower(c);
    if Words(front) != [] {
      JoinedEnds(front);
      assert Counts(c) ==> Undashed(joined + [d]) && Undashed(joined + "-" + [d]);
    } else {
      assert Counts(c) ==> Undashed([d]);
      assert "" + [d] == [d];
    }
  }

  /** The slug of any name is its words, in order, with one dash between two. */
  lemma SlugIsWords(name: string)
    ensures SlugOf(name) == Joined(Words(name))
  {
    DashedFrames(name);
    hide Dashed, Counts;
    if Words(name) != [] {
      JoinedEnds(name);
      var lead :| lead in ["", "-"] && FramedBy(name, Dashed(name), lead);
      TrimFrame(lead, Joined(Words(name)), if Counts(name[|name| - 1]) then "" else "-");
    }
  }

  // ---------- identities

  function IntermediateID(parent: string, slug: string): string {
    parent + "--" + slug
  }

  /** An identity names its parent and slug uniquely, whatever the parents are
      called. */
  lemma IdentitiesInjective(p: string, s: string, q: string, r: string)
    requires Canonical(s) && Canonical(r) && s != "" && r != ""
    requires IntermediateID(p, s) == IntermediateID(q, r)
    ensures p == q && s == r
  {
    var id := IntermediateID(p, s);
    if |s| < |r| {
      LongerSlugBreaks(p, s, q, r);
    } else if |r| < |s| {
      LongerSlugBreaks(q, r, p, s);
    } else {
      assert s == id[|id| - |s|..] == r;
      assert p == id[..|id| - |s| - 2] == q;
    }
  }

  /** The longer slug would contain the shorter identity's dashes. */
  lemma LongerSlugBreaks(p: string, s: string, q: string, r: string)
    requires Canonical(s) && Canonical(r) && s != "" && |s| < |r|
    ensures IntermediateID(p, s) != IntermediateID(q, r)
  {
    var a, b := IntermediateID(p, s), IntermediateID(q, r);
    var dash, k := |p| + 1, |r| - |s| - 1;
    assert a[dash] == '-' && a[dash - 1] == '-';
    assert |a| == |b| ==> b[dash] == r[k] && (k > 0 ==> b[dash - 1] == r[k - 1]);
  }

  // ---------- one level

  /** unicode.IsControl */
  predicate IsControl(c: char) {
    c < ' ' || '\U{7F}' <= c <= '\U{9F}'
  }

  /** A nonempty name without surrounding space or control characters. */
  predicate Named(name: string) {
    && name != "" && !IsSpace(name[0]) && !IsSpace(name[|name| - 1])
    && forall i :: 0 <= i < |name| ==> !IsControl(name[i])
  }

  /** Letters, digits, dots, underscores and dashes; `alnum` says which
      characters are Unicode letters or digits. */
  predicate Safe(kind: string, alnum: char -> bool) {
    kind != "" && forall i :: 0 <= i < |kind| ==> alnum(kind[i]) || kind[i] in "._-"
  }

  /** Simple case folding, as far as the owned field names can tell: outside
      ASCII only the long s and the Kelvin sign fold to an ASCII letter. */
  function Fold(c: char): char {
    if 'A' <= c <= 'Z' then (c as int + 32) as char
    else if c == '\U{17F}' then 's'
    else if c == '\U{212A}' then 'k'
    else c
  }

  predicate EqualFold(s: string, t: string) {
    |s| == |t| && forall i :: 0 <= i < |s| ==> Fold(s[i]) == Fold(t[i])
  }

  /** An ASCII letter equals its capital and its small form, and `s` and `k` their
      one relative outside ASCII each; anything else in ASCII equals itself alone. */
  lemma FoldIs(a: char, c: char)
    requires a < '\U{80}'
    ensures Fold(a) == Fold(c) <==> CaseOf(a, c)
  {
  }

  const OWNED: seq<string> := ["System.Title", "System.Description", "System.Tags"]

  /** `c` is `a` in either letter case, or a relative of `a` outside ASCII. */
  predicate CaseOf(a: char, c: char) {
    || c == a
    || ('a' <= a <= 'z' && c as int == a as int - 32)
    || ('A' <= a <= 'Z' && c as int == a as int + 32)
    || (a in "sS" && c == '\U{17F}')
    || (a in "kK" && c == '\U{212A}')
  }

  /** A field has the name of an owned one exactly when it spells it in any mixture
      of letter cases. */
  lemma OwnedInAnyCase(k: nat, field: string)
    requires k < |OWNED|
    ensures EqualFold(OWNED[k], field) <==>
            |field| == |OWNED[k]| && forall i :: 0 <= i < |field| ==> CaseOf(OWNED[k][i], field[i])
  {
    hide Fold, CaseOf;
    forall i | 0 <= i < |OWNED[k]| && i < |field|
      ensures Fold(OWNED[k][i]) == Fold(field[i]) <==> CaseOf(OWNED[k][i], field[i])
    {
      OwnedIsASCII(k, i);
      FoldIs(OWNED[k][i], field[i]);
    }
  }

  lemma OwnedIsASCII(k: nat, i: nat)
    requires k < |OWNED| && i < |OWNED[k]|
    ensures OWNED[k][i] < '\U{80}'
  {
  }

  /** A reference name of a field that the adapter does not render itself. */
  predicate Settable(field: string) {
    && (exists i :: 0 <= i < |field| && !IsSpace(field[i]))
    && (forall i :: 0 <= i < |field| ==> field[i] != '/' && field[i] != ' ')
    && (forall k :: 0 <= k < |OWNED| ==> !EqualFold(OWNED[k], field))
  }

  predicate WellFormed(level: Level, alnum: char -> bool) {
    && Named(level.name)
    && (forall k :: 0 <= k < |level.kinds| ==> Safe(level.kinds[k], alnum))
    && (forall k :: 0 <= k < |level.fields| ==> Settable(level.fields[k]))
  }

  method SafeKind(kind: string, alnum: char -> bool) returns (ok: bool)
    ensures ok <==> Safe(kind, alnum)
  {
    if kind == "" {
      return false;
    }
    for i := 0 to |kind|
      invariant forall j :: 0 <= j < i ==> alnum(kind[j]) || kind[j] in "._-"
    {
      if !alnum(kind[i]) && kind[i] !in "._-" {
        return false;
      }
    }
    return true;
  }

  /** Trimming takes nothing exactly from a text with no space at either end, and
      everything exactly from a blank one. */
  lemma {:induction false} TrimSpaceFixes(s: string)
    ensures s != "" ==> (TrimSpace(s) == s <==> !IsSpace(s[0]) && !IsSpace(s[|s| - 1]))
    ensures |TrimSpace(s)| <= |s|
    ensures TrimSpace(s) != "" <==> exists i :: 0 <= i < |s| && !IsSpace(s[i])
    decreases |s|
  {
    hide IsSpace;
    if s == "" {
    } else if IsSpace(s[0]) {
      TrimSpaceFixes(s[1..]);
      assert forall i :: 0 < i < |s| ==> s[i] == s[1..][i - 1];
    } else if IsSpace(s[|s| - 1]) {
      TrimSpaceFixes(s[..|s| - 1]);
    }
  }

  /** What a well-formed level is, character by character. */
  lemma WellFormedIff(level: Level, alnum: char -> bool)
    ensures WellFormed(level, alnum) <==>
              && level.name != "" && !IsSpace(level.name[0]) && !IsSpace(level.name[|level.name| - 1])
              && (forall c :: c in level.name ==> c >= ' ' && !('\U{7F}' <= c <= '\U{9F}'))
              && (forall kind :: kind in level.kinds ==>
                    kind != "" && forall c :: c in kind ==> alnum(c) || c == '.' || c == '_' || c == '-')
              && (forall field :: field in level.fields ==> Referable(field) && !Owned(field))
  {
    NamedIff(level.name);
    forall kind: string
      ensures Safe(kind, alnum) <==>
              kind != "" && forall c :: c in kind ==> alnum(c) || c == '.' || c == '_' || c == '-'
    {
      SafeIff(kind, alnum);
    }
    forall field: string
      ensures Settable(field) <==> Referable(field) && !Owned(field)
    {
      SettableIff(field);
    }
    hide Named, Safe, Settable, Referable, Owned, IsSpace;
    assert (forall kind :: kind in level.kinds ==> Safe(kind, alnum))
      <==> forall k :: 0 <= k < |level.kinds| ==> Safe(level.kinds[k], alnum);
    assert (forall field :: field in level.fields ==> Settable(field))
      <==> forall k :: 0 <= k < |level.fields| ==> Settable(level.fields[k]);
  }

  lemma NamedIff(name: string)
    ensures Named(name) <==>
              && name != "" && !IsSpace(name[0]) && !IsSpace(name[|name| - 1])
              && forall c :: c in name ==> c >= ' ' && !('\U{7F}' <= c <= '\U{9F}')
  {
    hide IsSpace;
    assert forall i :: 0 <= i < |name| ==> name[i] in name;
  }

  /** Some character other than space, and neither slashes nor blanks. */
  predicate Referable(field: string) {
    (exists c :: c in field && !IsSpace(c)) && '/' !in field && ' ' !in field
  }

  /** One of the fields the adapter renders, in any mixture of letter cases. */
  predicate Owned(field: string) {
    exists k :: 0 <= k < |OWNED| && Spelled(OWNED[k], field)
  }

  predicate Spelled(owned: string, field: string) {
    |field| == |owned| && forall i :: 0 <= i < |field| ==> CaseOf(owned[i], field[i])
  }

  lemma SafeIff(kind: string, alnum: char -> bool)
    ensures Safe(kind, alnum) <==>
            kind != "" && forall c :: c in kind ==> alnum(c) || c == '.' || c == '_' || c == '-'
  {
    assert forall c :: c in "._-" <==> c == '.' || c == '_' || c == '-';
  }

  lemma SettableIff(field: string)
    ensures Settable(field) <==> Referable(field) && !Owned(field)
  {
    hide IsSpace, EqualFold, CaseOf;
    forall k | 0 <= k < |OWNED|
      ensures EqualFold(OWNED[k], field) <==> Spelled(OWNED[k], field)
    {
      OwnedInAnyCase(k, field);
    }
  }

  method ValidateLevel(level: Level, alnum: char -> bool) returns (ok: bool)
    ensures ok <==> WellFormed(level, alnum)
  {
    hide TrimSpace, IsSpace, IsControl, Safe, EqualFold;
    var name := level.name;
    TrimSpaceFixes(name);
    if TrimSpace(name) == "" || name != TrimSpace(name) || exists i :: 0 <= i < |name| && IsControl(name[i]) {
      return false;
    }
    for k := 0 to |level.kinds|
      invariant forall j :: 0 <= j < k ==> Safe(level.kinds[j], alnum)
    {
      var safe := SafeKind(level.kinds[k], alnum);
      if !safe {
        return false;
      }
    }
    for k := 0 to |level.fields|
      invariant forall j :: 0 <= j < k ==> Settable(level.fields[j])
    {
      var field := level.fields[k];
      TrimSpaceFixes(field);
      if TrimSpace(field) == "" || '/' in field || ' ' in field {
        return false;
      }
      if exists j :: 0 <= j < |OWNED| && EqualFold(OWNED[j], field) {
        return false;
      }
    }
    return true;
  }

  // ---------- validation

  function LowerAll(s: string): string {
    seq(|s|, i requires 0 <= i < |s| => Lower(s[i]))
  }

  /** All kinds of the first `n` levels, in order. */
  function KindsOf(m: Mapping, n: nat): seq<string>
    requires n <= |m|
  {
    if n == 0 then [] else KindsOf(m, n - 1) + m[n - 1].kinds
  }

  predicate NoRepeats(s: seq<string>) {
    forall i, j :: 0 <= i < j < |s| ==> s[i] != s[j]
  }

  /** Every one of the first `n` levels is well formed and is told apart from the
      others by its type and by its slug. */
  predicate LevelsApart(m: Mapping, n: nat, alnum: char -> bool)
    requires n <= |m|
  {
    && (forall i :: 0 <= i < n ==> WellFormed(m[i], alnum) && SlugOf(m[i].name) != "")
    && (forall i, j :: 0 <= i < j < n ==> LowerAll(m[i].name) != LowerAll(m[j].name))
    && (forall i, j :: 0 <= i < j < n ==> SlugOf(m[i].name) != SlugOf(m[j].name))
  }

  predicate ValidMapping(m: Mapping, alnum: char -> bool) {
    && |m| > 0
    && LevelsApart(m, |m|, alnum)
    && NoRepeats(KindsOf(m, |m|))
    && KindsOf(m, |m|) != []
  }

  lemma LevelsApartStep(m: Mapping, n: nat, alnum: char -> bool)
    requires n < |m| && LevelsApart(m, n, alnum)
    ensures LevelsApart(m, n + 1, alnum) <==>
            && WellFormed(m[n], alnum)
            && LowerAll(m[n].name) !in TypesOf(m, n)
            && SlugOf(m[n].name) != ""
            && SlugOf(m[n].name) !in SlugsOf(m, n)
    ensures TypesOf(m, n + 1) == TypesOf(m, n) + {LowerAll(m[n].name)}
    ensures SlugsOf(m, n + 1) == SlugsOf(m, n) + {SlugOf(m[n].name)}
  {
    hide LowerAll, SlugOf;
  }

  method Validate(m: Mapping, alnum: char -> bool) returns (ok: bool)
    ensures ok <==> ValidMapping(m, alnum)
  {
    hide NoRepeats, Elements, LevelsApart, TypesOf, SlugsOf, KindsOf;
    if |m| == 0 {
      return false;
    }
    var types: set<string> := {};
    var slugs: map<string, string> := map[];
    var kinds: set<string> := {};
    NoLevels(m, alnum);
    for index := 0 to |m|
      invariant LevelsApart(m, index, alnum) && NoRepeats(KindsOf(m, index))
      invariant types == TypesOf(m, index) && slugs.Keys == SlugsOf(m, index) && kinds == Elements(KindsOf(m, index))
    {
      var good;
      good, types, slugs, kinds := AddLevel(m, index, alnum, types, slugs, kinds);
      if !good {
        ProblemSpreads(m, index + 1, alnum);
        return false;
      }
    }
    ElementsOfNone(KindsOf(m, |m|));
    return kinds != {};
  }

  /** One level more, checked against the levels before it. */
  method AddLevel(m: Mapping, index: nat, alnum: char -> bool,
                  types: set<string>, slugs: map<string, string>, kinds: set<string>)
    returns (good: bool, types': set<string>, slugs': map<string, string>, kinds': set<string>)
    requires index < |m| && LevelsApart(m, index, alnum) && NoRepeats(KindsOf(m, index))
    requires types == TypesOf(m, index) && slugs.Keys == SlugsOf(m, index) && kinds == Elements(KindsOf(m, index))
    ensures good <==> LevelsApart(m, index + 1, alnum) && NoRepeats(KindsOf(m, index + 1))
    ensures good ==> types' == TypesOf(m, index + 1) && slugs'.Keys == SlugsOf(m, index + 1)
                     && kinds' == Elements(KindsOf(m, index + 1))
  {
    LevelsApartStep(m, index, alnum);
    KindsStep(m, index);
    hide NoRepeats, Elements, LowerAll, SlugOf, LevelsApart, TypesOf, SlugsOf, KindsOf, WellFormed;
    good, types', slugs', kinds' := false, types, slugs, kinds;
    var level := m[index];
    var formed := ValidateLevel(level, alnum);
    if !formed {
      return;
    }
    var key := LowerAll(level.name);
    if key in types {
      return;
    }
    types' := types + {key};
    var slug := Slug(level.name);
    if slug == "" || slug in slugs {
      return;
    }
    slugs' := slugs[slug := level.name];
    good, kinds' := AddKinds(KindsOf(m, index), level.kinds, kinds);
  }

  /** What is wrong among the first levels is wrong with the whole mapping. */
  lemma ProblemSpreads(m: Mapping, n: nat, alnum: char -> bool)
    requires n <= |m| && !(LevelsApart(m, n, alnum) && NoRepeats(KindsOf(m, n)))
    ensures !ValidMapping(m, alnum)
  {
    hide NoRepeats, LevelsApart, KindsOf;
    if !LevelsApart(m, n, alnum) {
      ApartSpreads(m, n, alnum);
    } else {
      RepeatSpreads(m, n, |m|);
    }
  }

  lemma NoLevels(m: Mapping, alnum: char -> bool)
    ensures LevelsApart(m, 0, alnum) && TypesOf(m, 0) == {} && SlugsOf(m, 0) == {}
    ensures KindsOf(m, 0) == [] && NoRepeats([]) && Elements([]) == {}
  {
  }

  lemma KindsStep(m: Mapping, n: nat)
    requires n < |m|
    ensures KindsOf(m, n + 1) == KindsOf(m, n) + m[n].kinds
  {
  }

  lemma ElementsOfNone(s: seq<string>)
    ensures Elements(s) == {} <==> s == []
  {
    assert s != [] ==> s[0] in Elements(s);
  }

  lemma ApartSpreads(m: Mapping, n: nat, alnum: char -> bool)
    requires n <= |m| && !LevelsApart(m, n, alnum)
    ensures !LevelsApart(m, |m|, alnum)
  {
    hide LowerAll, SlugOf;
  }

  function Elements(s: seq<string>): set<string> {
    set k | k in s
  }

  function TypesOf(m: Mapping, n: nat): set<string>
    requires n <= |m|
  {
    set i | 0 <= i < n :: LowerAll(m[i].name)
  }

  function SlugsOf(m: Mapping, n: nat): set<string>
    requires n <= |m|
  {
    set i | 0 <= i < n :: SlugOf(m[i].name)
  }

  /** The kinds of one level, added to those of the levels above it. */
  method AddKinds(before: seq<string>, added: seq<string>, seen: set<string>)
    returns (distinct: bool, kinds: set<string>)
    requires NoRepeats(before) && seen == Elements(before)
    ensures distinct <==> NoRepeats(before + added)
    ensures distinct ==> kinds == Elements(before + added)
  {
    kinds := seen;
    for k := 0 to |added|
      invariant NoRepeats(before + added[..k])
      invariant kinds == Elements(before + added[..k])
    {
      var kind := added[k];
      ghost var all := before + added;
      assert before + added[..k] == all[..|before| + k];
      assert before + added[..k + 1] == before + added[..k] + [kind];
      if kind in kinds {
        ghost var i :| 0 <= i < |before| + k && all[i] == kind;
        assert all[|before| + k] == kind;
        return false, kinds;
      }
      kinds := kinds + {kind};
    }
    assert added[..|added|] == added;
    return true, kinds;
  }

  /** A kind that repeats within some levels repeats within all of them. */
  lemma {:induction false} RepeatSpreads(m: Mapping, n: nat, total: nat)
    requires n <= total <= |m| && !NoRepeats(KindsOf(m, n))
    ensures !NoRepeats(KindsOf(m, total))
    decreases total - n
  {
    if n < total {
      var i, j :| 0 <= i < j < |KindsOf(m, n)| && KindsOf(m, n)[i] == KindsOf(m, n)[j];
      assert KindsOf(m, n + 1)[i] == KindsOf(m, n + 1)[j];
      RepeatSpreads(m, n + 1, total);
    }
  }

  lemma {:induction false} KindsGrow(m: Mapping, n: nat, total: nat)
    requires n <= total <= |m|
    ensures KindsOf(m, n) <= KindsOf(m, total)
    decreases total - n
  {
    if n < total {
      KindsGrow(m, n + 1, total);
    }
  }

  /** A valid mapping lists every kind on one level at most. */
  lemma OneListing(m: Mapping, alnum: char -> bool, kind: string, a: nat, b: nat)
    requires ValidMapping(m, alnum) && a < |m| && b < |m|
    requires kind in m[a].kinds && kind in m[b].kinds
    ensures a == b
  {
    hide LevelsApart, KindsOf;
    if a < b {
      LaterListing(m, kind, a, b);
    } else if b < a {
      LaterListing(m, kind, b, a);
    }
  }

  lemma LaterListing(m: Mapping, kind: string, a: nat, b: nat)
    requires a < b < |m| && kind in m[a].kinds && kind in m[b].kinds
    ensures !NoRepeats(KindsOf(m, |m|))
  {
    hide KindsOf, NoRepeats;
    var i := ListedAt(m, kind, a);
    var j := ListedAt(m, kind, b);
    KindsGrow(m, a + 1, b);
    RepeatAt(KindsOf(m, |m|), i, j);
  }

  /** Where the kinds of level `n` stand among all kinds. */
  lemma ListedAt(m: Mapping, kind: string, n: nat) returns (i: nat)
    requires n < |m| && kind in m[n].kinds
    ensures |KindsOf(m, n)| <= i < |KindsOf(m, n + 1)| && i < |KindsOf(m, |m|)| && KindsOf(m, |m|)[i] == kind
  {
    KindsStep(m, n);
    hide KindsOf;
    KindsGrow(m, n + 1, |m|);
    var k: nat :| k < |m[n].kinds| && m[n].kinds[k] == kind;
    i := |KindsOf(m, n)| + k;
    assert KindsOf(m, n + 1)[i] == kind;
  }

  lemma RepeatAt(s: seq<string>, i: nat, j: nat)
    requires i < j < |s| && s[i] == s[j]
    ensures !NoRepeats(s)
  {
  }

  lemma {:induction false} SameLowerSameDashed(a: string, b: string)
    requires LowerAll(a) == LowerAll(b)
    ensures Dashed(a) == Dashed(b)
    decreases |a|
  {
    hide Lower;
    assert |LowerAll(a)| == |a| && |LowerAll(b)| == |b|;
    if a != "" {
      var n := |a| - 1;
      assert LowerAll(a[..n]) == LowerAll(a)[..n] == LowerAll(b[..n]);
      assert LowerAll(a)[n] == Lower(a[n]) && LowerAll(b)[n] == Lower(b[n]);
      SameLowerSameDashed(a[..n], b[..n]);
    }
  }

  predicate Disjoint(s: seq<string>, t: seq<string>) {
    forall kind :: kind in s ==> kind !in t
  }

  lemma RepeatsOfBoth(s: seq<string>, t: seq<string>)
    ensures NoRepeats(s + t) <==> NoRepeats(s) && NoRepeats(t) && Disjoint(s, t)
  {
    var both := s + t;
    assert both[..|s|] == s && both[|s|..] == t;
    if NoRepeats(both) {
      assert forall i :: 0 <= i < |s| ==> both[i] == s[i];
      assert forall i :: 0 <= i < |t| ==> both[|s| + i] == t[i];
      assert Disjoint(s, t);
    }
    if NoRepeats(s) && NoRepeats(t) && Disjoint(s, t) {
      forall i, j | 0 <= i < j < |both|
        ensures both[i] != both[j]
      {
        if i < |s| <= j {
          assert s[i] in s && t[j - |s|] in t;
        }
      }
    }
  }

  predicate ListedIn(m: Mapping, n: nat, kind: string)
    requires n <= |m|
  {
    exists i :: 0 <= i < n && kind in m[i].kinds
  }

  lemma {:induction false} KindFrom(m: Mapping, n: nat, kind: string)
    requires n <= |m|
    ensures kind in KindsOf(m, n) <==> ListedIn(m, n, kind)
  {
    if n > 0 {
      KindFrom(m, n - 1, kind);
    }
  }

  lemma DisjointFromAll(m: Mapping, n: nat, kinds: seq<string>)
    requires n <= |m|
    ensures Disjoint(KindsOf(m, n), kinds) <==> forall i :: 0 <= i < n ==> Disjoint(m[i].kinds, kinds)
  {
    hide KindsOf;
    forall kind | kind in kinds
      ensures kind in KindsOf(m, n) <==> ListedIn(m, n, kind)
    {
      KindFrom(m, n, kind);
    }
  }

  lemma {:induction false} KindsApart(m: Mapping, n: nat)
    requires n <= |m|
    ensures NoRepeats(KindsOf(m, n)) <==>
              && (forall i :: 0 <= i < n ==> NoRepeats(m[i].kinds))
              && (forall i, j :: 0 <= i < j < n ==> Disjoint(m[i].kinds, m[j].kinds))
  {
    if n > 0 {
      KindsApart(m, n - 1);
      RepeatsOfBoth(KindsOf(m, n - 1), m[n - 1].kinds);
      hide NoRepeats;
      DisjointFromAll(m, n - 1, m[n - 1].kinds);
    }
  }

  /** A mapping is valid exactly when its levels are well formed, no two of them have
      the same slug or an empty one, no kind is listed twice and some kind is listed.
      Types that differ in letter case alone have the same slug, so nothing remains
      for the check of the types to find. */
  lemma ValidIff(m: Mapping, alnum: char -> bool)
    ensures ValidMapping(m, alnum) <==>
              && (forall i :: 0 <= i < |m| ==> WellFormed(m[i], alnum) && SlugOf(m[i].name) != "")
              && (forall i, j :: 0 <= i < j < |m| ==> SlugOf(m[i].name) != SlugOf(m[j].name))
              && (forall i, a, b :: 0 <= i < |m| && 0 <= a < b < |m[i].kinds| ==> m[i].kinds[a] != m[i].kinds[b])
              && (forall i, j, kind :: 0 <= i < j < |m| && kind in m[i].kinds ==> kind !in m[j].kinds)
              && (exists i :: 0 <= i < |m| && m[i].kinds != [])
  {
    hide WellFormed, Dashed, KindsOf, LowerAll, TrimDashes;
    KindsApart(m, |m|);
    KindsListed(m);
    forall i, j | 0 <= i < j < |m| && LowerAll(m[i].name) == LowerAll(m[j].name)
      ensures SlugOf(m[i].name) == SlugOf(m[j].name)
    {
      SameLowerSameDashed(m[i].name, m[j].name);
    }
    hide SlugOf;
    assert (forall i :: 0 <= i < |m| ==> NoRepeats(m[i].kinds))
      <==> forall i, a, b :: 0 <= i < |m| && 0 <= a < b < |m[i].kinds| ==> m[i].kinds[a] != m[i].kinds[b];
  }

  lemma KindsListed(m: Mapping)
    ensures KindsOf(m, |m|) != [] <==> exists i :: 0 <= i < |m| && m[i].kinds != []
  {
    if KindsOf(m, |m|) != [] {
      KindFrom(m, |m|, KindsOf(m, |m|)[0]);
    }
    if i :| 0 <= i < |m| && m[i].kinds != [] {
      KindFrom(m, |m|, m[i].kinds[0]);
    }
  }
}
