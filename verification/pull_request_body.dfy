/** Replacing the marked section of a pull request body
    (internal/factory/draft_pr.go). */
module PullRequestBodies {
  import opened Spaces

  const START := "<!-- factory-generated:start -->"
  const END := "<!-- factory-generated:end -->"
  const REVIEW_START := "<!-- factory-generated:review:start -->"
  const REVIEW_END := "<!-- factory-generated:review:end -->"

  // ---------- searching

  predicate At(s: string, i: int, t: string) {
    0 <= i <= |s| - |t| && s[i..i + |t|] == t
  }

  /** The first occurrence at or after `from`, or -1. */
  function IndexFrom(s: string, t: string, from: nat): (index: int)
    requires from <= |s|
    ensures index == -1 || (from <= index && At(s, index, t))
    ensures forall i :: from <= i && (index < 0 || i < index) ==> !At(s, i, t)
    decreases |s| - from
  {
    if At(s, from, t) then from
    else if from == |s| then -1
    else IndexFrom(s, t, from + 1)
  }

  function Index(s: string, t: string): (index: int)
    ensures index == -1 || At(s, index, t)
    ensures forall i :: 0 <= i && (index < 0 || i < index) ==> !At(s, i, t)
  {
    IndexFrom(s, t, 0)
  }

  /** An occurrence with none before it is the one found. */
  lemma IndexIs(s: string, t: string, k: int)
    requires At(s, k, t) && forall i :: 0 <= i < k ==> !At(s, i, t)
    ensures Index(s, t) == k
  {
  }

  lemma IndexNone(s: string, t: string)
    requires forall i :: 0 <= i < |s| ==> !At(s, i, t)
    requires |t| > 0
    ensures Index(s, t) == -1
  {
  }

  predicate Blank(s: string) {
    forall i :: 0 <= i < |s| ==> IsSpace(s[i])
  }

  function TrimNewlines(s: string): (t: string)
    ensures t <= s
    ensures forall i :: |t| <= i < |s| ==> s[i] == '\n'
    ensures t == "" || t[|t| - 1] != '\n'
  {
    if s != "" && s[|s| - 1] == '\n' then TrimNewlines(s[..|s| - 1]) else s
  }

  // ---------- the merges

  function MergeBody(existing: string, generated: string): string {
    var start, end := Index(existing, START), Index(existing, END);
    if start >= 0 && end >= start then existing[..start] + generated + existing[end + |END|..]
    else if Blank(existing) then generated
    else TrimNewlines(existing) + "\n\n" + generated
  }

  function MergeReview(existing: string, generated: string): string {
    var start, end := Index(existing, REVIEW_START), Index(existing, REVIEW_END);
    if start >= 0 && end >= start then existing[..start] + generated + existing[end + |REVIEW_END|..]
    else
      var stop := Index(existing, END);
      if stop >= 0 then existing[..stop] + "\n\n" + generated + "\n" + existing[stop..]
      else MergeBody(existing, generated)
  }

  // ---------- markers do not overlap

  /** The shape of every marker: one angle bracket at each end and no newline. */
  predicate Marker(t: string) {
    && |t| >= 2 && t[0] == '<' && t[|t| - 1] == '>'
    && (forall i :: 0 < i < |t| ==> t[i] != '<')
    && (forall i :: 0 <= i < |t| - 1 ==> t[i] != '>')
    && '\n' !in t
  }

  lemma StartIsMarker()
    ensures Marker(START)
  {
  }

  lemma EndIsMarker()
    ensures Marker(END)
  {
  }

  lemma ReviewStartIsMarker()
    ensures Marker(REVIEW_START)
  {
  }

  lemma ReviewEndIsMarker()
    ensures Marker(REVIEW_END)
  {
  }

  /** No occurrence of a marker crosses a place that begins a marker, ends one, or
      is next to a newline. */
  predicate Cut(a: string, b: string) {
    a == "" || b == "" || b[0] == '<' || a[|a| - 1] == '>' || a[|a| - 1] == '\n' || b[0] == '\n'
  }

  lemma NotAcross(a: string, b: string, i: int, t: string)
    requires Marker(t) && Cut(a, b) && 0 <= i < |a| < i + |t|
    ensures !At(a + b, i, t)
  {
    var s := a + b;
    if i + |t| <= |s| {
      assert s[i..i + |t|][|a| - i] == b[0];
      assert s[i..i + |t|][|a| - 1 - i] == a[|a| - 1];
    }
  }

  lemma SliceLeft(a: string, b: string, i: nat, j: nat)
    requires i <= j <= |a|
    ensures (a + b)[i..j] == a[i..j]
  {
  }

  lemma SliceRight(a: string, b: string, i: nat, j: nat)
    requires |a| <= i <= j <= |a| + |b|
    ensures (a + b)[i..j] == b[i - |a|..j - |a|]
  {
  }

  lemma AtJoin(a: string, b: string, i: int, t: string)
    requires Marker(t) && Cut(a, b)
    ensures At(a + b, i, t) <==> At(a, i, t) || At(b, i - |a|, t)
  {
    if 0 <= i <= |a| + |b| - |t| {
      if i + |t| <= |a| {
        SliceLeft(a, b, i, i + |t|);
      } else if i >= |a| {
        SliceRight(a, b, i, i + |t|);
      } else {
        NotAcross(a, b, i, t);
      }
    }
  }

  /** Where the first occurrence in a joined text is. */
  lemma IndexJoin(a: string, b: string, t: string)
    requires Marker(t) && Cut(a, b)
    ensures Index(a + b, t) == if Index(a, t) >= 0 then Index(a, t)
                               else if Index(b, t) >= 0 then |a| + Index(b, t)
                               else -1
  {
    var k := if Index(a, t) >= 0 then Index(a, t) else if Index(b, t) >= 0 then |a| + Index(b, t) else |a| + |b|;
    forall i | 0 <= i < k
      ensures !At(a + b, i, t)
    {
      AtJoin(a, b, i, t);
      NotBefore(a, t, i);
      NotBefore(b, t, i - |a|);
    }
    AtJoin(a, b, k, t);
    if Index(a, t) >= 0 || Index(b, t) >= 0 {
      IndexIs(a + b, t, k);
    } else {
      IndexNone(a + b, t);
    }
  }

  lemma NotBefore(s: string, t: string, i: int)
    ensures At(s, i, t) ==> 0 <= Index(s, t) <= i
  {
  }

  /** What stands before an occurrence of a marker has that marker nowhere, and
      another marker only where the whole text has it. */
  lemma IndexBefore(s: string, k: nat, t: string)
    requires Marker(t) && k <= |s| && Cut(s[..k], s[k..])
    ensures Index(s[..k], t) == if 0 <= Index(s, t) < k then Index(s, t) else -1
  {
    assert s == s[..k] + s[k..];
    IndexJoin(s[..k], s[k..], t);
  }

  lemma CutAtMarker(s: string, k: nat, t: string)
    requires Marker(t) && At(s, k, t)
    ensures k + |t| <= |s|
    ensures Cut(s[..k], s[k..])
    ensures Cut(s[..k + |t|], s[k + |t|..])
  {
    assert s[k..k + |t|][0] == s[k] && s[k..k + |t|][|t| - 1] == s[k + |t| - 1];
  }

  // ---------- the body merge is a lens

  /** Text a run generates: its markers stand at its two ends and nowhere else. */
  predicate Generated(g: string, start: string, end: string) {
    |g| >= |start| + |end| && Index(g, start) == 0 && Index(g, end) == |g| - |end|
  }

  /** The first end marker follows the first start marker. */
  predicate InOrder(s: string, start: string, end: string) {
    0 <= Index(s, start) <= Index(s, end)
  }

  function Before(s: string, start: string): string
    requires Index(s, start) >= 0
  {
    s[..Index(s, start)]
  }

  function Section(s: string, start: string, end: string): string
    requires InOrder(s, start, end)
  {
    s[Index(s, start)..Index(s, end) + |end|]
  }

  function After(s: string, end: string): string
    requires Index(s, end) >= 0
  {
    s[Index(s, end) + |end|..]
  }

  predicate Unmarked(s: string, start: string, end: string) {
    Index(s, start) < 0 && Index(s, end) < 0
  }

  /** A generated text between texts without its markers before it. */
  lemma Placed(p: string, g: string, q: string, start: string, end: string)
    requires Marker(start) && Marker(end) && Generated(g, start, end)
    requires Unmarked(p, start, end)
    ensures var s := p + g + q;
            && Index(s, start) == |p| && Index(s, end) == |p| + |g| - |end|
            && Before(s, start) == p && Section(s, start, end) == g && After(s, end) == q
  {
    var s := p + g + q;
    assert At(g, 0, start) && At(g, |g| - |end|, end);
    assert g[0..|start|][0] == '<';
    assert g[|g| - |end|..|g|][|end| - 1] == '>';
    assert s == p + (g + q);
    assert g + q != "" && (g + q)[0] == '<';
    IndexJoin(g, q, start);
    IndexJoin(g, q, end);
    IndexJoin(p, g + q, start);
    IndexJoin(p, g + q, end);
  }

  /** What stands before a section in order has neither marker. */
  lemma BeforeUnmarked(e: string, start: string, end: string)
    requires Marker(start) && Marker(end) && InOrder(e, start, end)
    ensures Unmarked(Before(e, start), start, end)
  {
    CutAtMarker(e, Index(e, start), start);
    IndexBefore(e, Index(e, start), start);
    IndexBefore(e, Index(e, start), end);
  }

  lemma TrimKeepsMarkers(e: string, t: string)
    requires Marker(t)
    ensures Index(TrimNewlines(e) + "\n\n", t) == Index(e, t) == Index(TrimNewlines(e), t)
    ensures Index(e, t) >= 0 ==> !Blank(e)
  {
    var trimmed := TrimNewlines(e);
    var rest := e[|trimmed|..];
    assert e == trimmed + rest;
    assert rest != "" ==> rest[0] == '\n';
    IndexJoin(trimmed, rest, t);
    NoMarkerInNewlines(rest, t);
    IndexJoin(trimmed, "\n\n", t);
    NoMarkerInNewlines("\n\n", t);
    if Index(e, t) >= 0 {
      assert e[Index(e, t)..Index(e, t) + |t|][0] == '<';
      assert !IsSpace(e[Index(e, t)]);
    }
  }

  lemma NoMarkerInNewlines(s: string, t: string)
    requires Marker(t) && forall i :: 0 <= i < |s| ==> s[i] == '\n'
    ensures Index(s, t) == -1
  {
    forall i | 0 <= i < |s|
      ensures !At(s, i, t)
    {
      if i + |t| <= |s| {
        assert s[i..i + |t|][0] == '\n';
      }
    }
    IndexNone(s, t);
  }

  /** The text a merge puts before the generated text. */
  function Lead(e: string): string {
    var start, end := Index(e, START), Index(e, END);
    if start >= 0 && end >= start then e[..start]
    else if Blank(e) then ""
    else TrimNewlines(e) + "\n\n"
  }

  function Tail(e: string): string {
    var start, end := Index(e, START), Index(e, END);
    if start >= 0 && end >= start then e[end + |END|..] else ""
  }

  lemma MergeIs(e: string, g: string)
    ensures MergeBody(e, g) == Lead(e) + g + Tail(e)
  {
  }

  predicate Mergeable(e: string) {
    InOrder(e, START, END) || Unmarked(e, START, END)
  }

  lemma LeadUnmarked(e: string)
    requires Mergeable(e)
    ensures Unmarked(Lead(e), START, END)
  {
    StartIsMarker();
    EndIsMarker();
    hide Marker;
    if InOrder(e, START, END) {
      BeforeUnmarked(e, START, END);
    } else {
      TrimKeepsMarkers(e, START);
      TrimKeepsMarkers(e, END);
      IndexNone("", START);
      IndexNone("", END);
    }
  }

  /** The section read back is the generated text, and the text around it is the
      text that was there. */
  lemma MergeReadsBack(e: string, g: string)
    requires Generated(g, START, END) && Mergeable(e)
    ensures InOrder(MergeBody(e, g), START, END)
    ensures Section(MergeBody(e, g), START, END) == g
    ensures Before(MergeBody(e, g), START) == Lead(e) && After(MergeBody(e, g), END) == Tail(e)
  {
    StartIsMarker();
    EndIsMarker();
    hide Marker, MergeBody, Lead, Tail;
    LeadUnmarked(e);
    MergeIs(e, g);
    Placed(Lead(e), g, Tail(e), START, END);
  }

  /** Merging what is already there changes nothing. */
  lemma MergeOwnSection(e: string)
    requires InOrder(e, START, END)
    ensures MergeBody(e, Section(e, START, END)) == e
  {
    hide IndexFrom;
    var from, to := Index(e, START), Index(e, END) + |END|;
    assert MergeBody(e, Section(e, START, END)) == e[..from] + e[from..to] + e[to..];
  }

  /** In any other body the next merge does not replace the section. Behind an end
      marker in front of the first start marker it appends another section, and so
      does every later merge; a lone start marker costs the text behind it once, and
      from then on merges replace. */
  lemma UnmergeableMerge(e: string, g: string, g': string)
    requires Generated(g, START, END) && Generated(g', START, END) && !Mergeable(e)
    ensures Index(e, END) >= 0 ==>
              && MergeBody(MergeBody(e, g), g') == MergeBody(e, g) + "\n\n" + g'
              && !Mergeable(MergeBody(e, g))
    ensures Index(e, END) < 0 ==>
              && 0 <= Index(e, START) < |e|
              && MergeBody(MergeBody(e, g), g') == e[..Index(e, START)] + g'
              && Mergeable(MergeBody(e, g))
    ensures MergeBody(MergeBody(e, g), g') != MergeBody(e, g')
  {
    hide Marker, IndexFrom, Generated, MergeBody, Lead;
    UnmergeableLead(e, g);
    UnmergeableLead(e, g');
    var m := MergeBody(e, g);
    if Index(e, END) >= 0 {
      AppendedWhole(m, g');
    } else {
      CutOnce(m, g');
    }
  }

  /** A merge that replaces up to the end of the body. */
  lemma CutOnce(m: string, g: string)
    requires InOrder(m, START, END) && Index(m, END) == |m| - |END|
    ensures MergeBody(m, g) == m[..Index(m, START)] + g
  {
    hide IndexFrom;
    var head := m[..Index(m, START)];
    assert m[|m|..] == "" && head + g + "" == head + g;
  }

  /** The first merge into such a body appends. */
  lemma UnmergeableLead(e: string, g: string)
    requires Generated(g, START, END) && !Mergeable(e)
    ensures MergeBody(e, g) == Lead(e) + g && g != "" && g[|g| - 1] == '>'
    ensures var m, k := MergeBody(e, g), Index(e, START);
            && Index(m, START) == (if k >= 0 then k else |Lead(e)|)
            && Index(m, END) == (if Index(e, END) >= 0 then Index(e, END) else |m| - |END|)
            && k < |Lead(e)| && Index(e, END) < |Lead(e)|
            && (k >= 0 ==> k < |e| && m[..k] == e[..k])
  {
    StartIsMarker();
    EndIsMarker();
    GeneratedEnds(g, START, END);
    hide Marker, IndexFrom;
    TrimKeepsMarkers(e, START);
    TrimKeepsMarkers(e, END);
    MergeIs(e, g);
    IndexJoin(Lead(e), g, START);
    IndexJoin(Lead(e), g, END);
    var t := TrimNewlines(e);
    assert Index(e, START) >= 0 ==> (t + "\n\n" + g)[..Index(e, START)] == t[..Index(e, START)] == e[..Index(e, START)];
  }

  /** A marker alone, and one with text behind it. */
  lemma LoneMarkers()
    ensures Index(END, END) == 0 && Index(END, START) == -1
    ensures Index(START + "text", START) == 0 && Index(START + "text", END) == -1
  {
    StartIsMarker();
    EndIsMarker();
    assert END[0..|END|] == END && START[0..|START|] == START;
    LoneMarker(END, START);
    LoneMarker(START, END);
    NoMarkerWithoutBracket("text", START);
    NoMarkerWithoutBracket("text", END);
    hide Marker, IndexFrom;
    IndexIs(END, END, 0);
    IndexIs(START, START, 0);
    IndexJoin(START, "text", START);
    IndexJoin(START, "text", END);
  }

  /** No marker holds another one. */
  lemma LoneMarker(s: string, t: string)
    requires Marker(s) && Marker(t) && !(|s| == |t| && s == t)
    ensures Index(s, t) == -1
  {
    forall i | 0 <= i < |s|
      ensures !At(s, i, t)
    {
      if i + |t| <= |s| {
        assert s[i..i + |t|][0] == s[i] && s[i..i + |t|][|t| - 1] == s[i + |t| - 1];
        assert i == 0 && |t| == |s| ==> s[i..i + |t|] == s;
      }
    }
    IndexNone(s, t);
  }

  lemma NoMarkerWithoutBracket(s: string, t: string)
    requires Marker(t) && '<' !in s
    ensures Index(s, t) == -1
  {
    forall i | 0 <= i < |s|
      ensures !At(s, i, t)
    {
      if i + |t| <= |s| {
        assert s[i..i + |t|][0] == s[i];
      }
    }
    IndexNone(s, t);
  }

  lemma GeneratedEnds(g: string, start: string, end: string)
    requires Marker(start) && Marker(end) && Generated(g, start, end)
    ensures g != "" && g[0] == '<' && g[|g| - 1] == '>'
  {
    assert At(g, 0, start) && At(g, |g| - |end|, end);
    assert g[0..|start|][0] == '<';
    assert g[|g| - |end|..|g|][|end| - 1] == '>';
  }

  lemma AppendedWhole(m: string, g: string)
    requires m != "" && m[|m| - 1] == '>' && !InOrder(m, START, END)
    ensures MergeBody(m, g) == m + "\n\n" + g
  {
    assert !IsSpace(m[|m| - 1]);
  }

  /** Only the last of several merges counts, exactly when the body has no markers or
      its first end marker follows its first start marker. */
  lemma LastMergeCountsIff(e: string, g: string, g': string)
    requires Generated(g, START, END) && Generated(g', START, END)
    ensures MergeBody(MergeBody(e, g), g') == MergeBody(e, g') <==> Mergeable(e)
  {
    hide MergeBody, Lead, Tail, Mergeable, Generated;
    if Mergeable(e) {
      MergeReadsBack(e, g);
      MergeIs(MergeBody(e, g), g');
      LeadOfOrdered(MergeBody(e, g));
      MergeIs(e, g');
    } else {
      UnmergeableMerge(e, g, g');
    }
  }

  lemma LeadOfOrdered(m: string)
    requires InOrder(m, START, END)
    ensures Lead(m) == Before(m, START) && Tail(m) == After(m, END)
  {
  }

  // ---------- the nested review section

  /** The part of a body that a new review section goes behind. */
  function Front(e: string): string {
    if Index(e, END) >= 0 then e[..Index(e, END)] else e
  }

  predicate ReviewMergeable(e: string) {
    InOrder(e, REVIEW_START, REVIEW_END) || Unmarked(Front(e), REVIEW_START, REVIEW_END)
  }

  function ReviewLead(e: string): string {
    if InOrder(e, REVIEW_START, REVIEW_END) then Before(e, REVIEW_START)
    else if Index(e, END) >= 0 then e[..Index(e, END)] + "\n\n"
    else Lead(e)
  }

  function ReviewTail(e: string): string {
    if InOrder(e, REVIEW_START, REVIEW_END) then After(e, REVIEW_END)
    else if Index(e, END) >= 0 then "\n" + e[Index(e, END)..]
    else ""
  }

  lemma ReviewMergeIs(e: string, g: string)
    ensures MergeReview(e, g) == ReviewLead(e) + g + ReviewTail(e)
  {
    if !InOrder(e, REVIEW_START, REVIEW_END) && Index(e, END) < 0 {
      MergeIs(e, g);
    }
  }

  lemma FrontThenNewlines(e: string, t: string)
    requires Marker(t)
    ensures !InOrder(e, REVIEW_START, REVIEW_END) && !Blank(e) ==> Index(ReviewLead(e), t) == Index(Front(e), t)
    ensures Blank(e) ==> Index(Front(e), t) == -1 && Index(e, t) == -1
  {
    EndIsMarker();
    hide Marker, IndexFrom;
    TrimKeepsMarkers(e, t);
    if Index(e, END) >= 0 {
      IndexJoin(Front(e), "\n\n", t);
      TwoNewlines(t);
      TrimKeepsMarkers(e, END);
    }
  }

  lemma TwoNewlines(t: string)
    requires Marker(t)
    ensures Index("\n\n", t) == -1 && Index("\n", t) == -1 && Index("", t) == -1
  {
    NoMarkerInNewlines("\n\n", t);
    NoMarkerInNewlines("\n", t);
    NoMarkerInNewlines("", t);
  }

  lemma ReviewLeadUnmarked(e: string)
    requires ReviewMergeable(e)
    ensures Unmarked(ReviewLead(e), REVIEW_START, REVIEW_END)
  {
    ReviewStartIsMarker();
    ReviewEndIsMarker();
    hide Marker, IndexFrom;
    if InOrder(e, REVIEW_START, REVIEW_END) {
      BeforeUnmarked(e, REVIEW_START, REVIEW_END);
    } else if Blank(e) {
      TwoNewlines(REVIEW_START);
      TwoNewlines(REVIEW_END);
      EndIsMarker();
      TrimKeepsMarkers(e, END);
    } else {
      FrontThenNewlines(e, REVIEW_START);
      FrontThenNewlines(e, REVIEW_END);
    }
  }

  /** The review section read back is the generated one. */
  lemma ReviewReadsBack(e: string, g: string)
    requires Generated(g, REVIEW_START, REVIEW_END) && ReviewMergeable(e)
    ensures InOrder(MergeReview(e, g), REVIEW_START, REVIEW_END)
    ensures Section(MergeReview(e, g), REVIEW_START, REVIEW_END) == g
    ensures Before(MergeReview(e, g), REVIEW_START) == ReviewLead(e)
    ensures After(MergeReview(e, g), REVIEW_END) == ReviewTail(e)
  {
    ReviewStartIsMarker();
    ReviewEndIsMarker();
    hide Marker, IndexFrom, MergeReview, ReviewLead, ReviewTail;
    ReviewLeadUnmarked(e);
    ReviewMergeIs(e, g);
    Placed(ReviewLead(e), g, ReviewTail(e), REVIEW_START, REVIEW_END);
  }

  /** Where the next merge finds the review markers of a body that has been merged
      into. */
  lemma ReviewFound(e: string, g: string)
    requires Generated(g, REVIEW_START, REVIEW_END) && !InOrder(e, REVIEW_START, REVIEW_END) && !Blank(e)
    ensures var m, front := MergeReview(e, g), Front(e);
            && Index(m, REVIEW_START)
               == (if Index(front, REVIEW_START) >= 0 then Index(front, REVIEW_START) else |ReviewLead(e)|)
            && Index(m, REVIEW_END) == (if Index(front, REVIEW_END) >= 0 then Index(front, REVIEW_END)
                                        else |ReviewLead(e)| + |g| - |REVIEW_END|)
            && Index(front, REVIEW_START) < |ReviewLead(e)| && |g| >= |REVIEW_END|
            && m == ReviewLead(e) + g + ReviewTail(e)
  {
    hide *;
    ReviewBounds(g);
    var lead, tail := ReviewLead(e), ReviewTail(e);
    ReviewMergeIs(e, g);
    ReviewMarkersOfLead(e);
    Associative(lead, g, tail);
    CutBefore(lead, g + tail);
    GeneratedThen(g, tail);
    ReviewJoin(lead, g + tail);
  }

  lemma Associative(a: string, b: string, c: string)
    ensures a + b + c == a + (b + c)
  {
  }

  lemma CutBefore(a: string, b: string)
    requires b != "" && b[0] == '<'
    ensures Cut(a, b)
  {
  }

  lemma ReviewMarkersOfLead(e: string)
    requires !InOrder(e, REVIEW_START, REVIEW_END) && !Blank(e)
    ensures Index(ReviewLead(e), REVIEW_START) == Index(Front(e), REVIEW_START) < |ReviewLead(e)|
    ensures Index(ReviewLead(e), REVIEW_END) == Index(Front(e), REVIEW_END)
  {
    ReviewStartIsMarker();
    ReviewEndIsMarker();
    hide Marker, IndexFrom, ReviewLead, Front;
    FrontThenNewlines(e, REVIEW_START);
    FrontThenNewlines(e, REVIEW_END);
    IndexWithin(ReviewLead(e));
  }

  lemma IndexWithin(s: string)
    ensures Index(s, REVIEW_START) < |s| || s == ""
    ensures s == "" ==> Index(s, REVIEW_START) == -1
  {
    hide IndexFrom;
  }

  lemma ReviewJoin(a: string, b: string)
    requires Cut(a, b)
    ensures Index(a + b, REVIEW_START) == if Index(a, REVIEW_START) >= 0 then Index(a, REVIEW_START)
                                          else if Index(b, REVIEW_START) >= 0 then |a| + Index(b, REVIEW_START)
                                          else -1
    ensures Index(a + b, REVIEW_END) == if Index(a, REVIEW_END) >= 0 then Index(a, REVIEW_END)
                                        else if Index(b, REVIEW_END) >= 0 then |a| + Index(b, REVIEW_END)
                                        else -1
  {
    ReviewStartIsMarker();
    ReviewEndIsMarker();
    hide Marker, IndexFrom, Index;
    IndexJoin(a, b, REVIEW_START);
    IndexJoin(a, b, REVIEW_END);
  }

  lemma GeneratedThen(g: string, tail: string)
    requires Generated(g, REVIEW_START, REVIEW_END)
    ensures g + tail != "" && (g + tail)[0] == '<'
    ensures Index(g + tail, REVIEW_START) == 0 && Index(g + tail, REVIEW_END) == |g| - |REVIEW_END|
  {
    ReviewStartIsMarker();
    ReviewEndIsMarker();
    GeneratedEnds(g, REVIEW_START, REVIEW_END);
    hide Marker, IndexFrom;
    IndexJoin(g, tail, REVIEW_START);
    IndexJoin(g, tail, REVIEW_END);
  }

  /** The markers in front of the insertion are the first of the whole body. */
  lemma FrontIsFirst(e: string, t: string)
    requires Marker(t)
    ensures Index(Front(e), t) >= 0 ==> Index(e, t) == Index(Front(e), t)
    ensures Index(Front(e), t) < 0 && Index(e, t) >= 0 ==> 0 <= Index(e, END) <= Index(e, t)
  {
    EndIsMarker();
    hide Marker, IndexFrom;
    if Index(e, END) >= 0 {
      CutAtMarker(e, Index(e, END), END);
      IndexBefore(e, Index(e, END), t);
    }
  }

  /** In any other body the next merge does not replace the review section. With a
      stray end marker in front it inserts another section, and so does every later
      merge; a lone start marker in front costs the text up to the section once, and
      from then on merges replace. */
  lemma UnmergeableReview(e: string, g: string, g': string)
    requires Generated(g, REVIEW_START, REVIEW_END) && Generated(g', REVIEW_START, REVIEW_END) && !ReviewMergeable(e)
    ensures var m := MergeReview(e, g);
            Index(Front(e), REVIEW_END) >= 0 ==>
              && MergeReview(m, g') == Inserting(m, g')
              && !ReviewMergeable(m)
    ensures Index(Front(e), REVIEW_END) < 0 ==>
              && 0 <= Index(e, REVIEW_START) < |e|
              && MergeReview(MergeReview(e, g), g') == e[..Index(e, REVIEW_START)] + g' + ReviewTail(e)
              && ReviewMergeable(MergeReview(e, g))
    ensures MergeReview(MergeReview(e, g), g') != MergeReview(e, g')
  {
    ReviewStartIsMarker();
    ReviewEndIsMarker();
    hide Marker, IndexFrom, MergeReview, Generated, ReviewLead, ReviewTail, Front;
    FrontIsFirst(e, REVIEW_START);
    FrontIsFirst(e, REVIEW_END);
    FrontThenNewlines(e, REVIEW_START);
    FrontThenNewlines(e, REVIEW_END);
    ReviewFound(e, g);
    ReviewMergeIs(e, g');
    var m := MergeReview(e, g);
    ReviewMergeIs(m, g');
    if Index(Front(e), REVIEW_END) < 0 {
      ReviewCuts(e, g, m);
      assert MergeReview(m, g') == e[..Index(e, REVIEW_START)] + g' + ReviewTail(e);
    } else {
      ReviewGrows(e, g, m);
      ReviewStaysBad(e, g, m);
      ReviewInserted(m, g, g');
    }
  }

  /** Another section in front of the outer end marker, or at the end. */
  function Inserting(m: string, g: string): string {
    if Index(m, END) >= 0 then m[..Index(m, END)] + "\n\n" + g + "\n" + m[Index(m, END)..]
    else TrimNewlines(m) + "\n\n" + g
  }

  lemma ReviewInserted(m: string, g: string, g': string)
    requires !InOrder(m, REVIEW_START, REVIEW_END) && Index(m, REVIEW_END) >= 0
    ensures MergeReview(m, g') == Inserting(m, g')
  {
    ReviewEndIsMarker();
    hide Marker, IndexFrom;
    TrimKeepsMarkers(m, REVIEW_END);
  }

  /** A lone start marker: everything from it to the end of the section is replaced. */
  lemma ReviewCuts(e: string, g: string, m: string)
    requires m == ReviewLead(e) + g + ReviewTail(e) && !InOrder(e, REVIEW_START, REVIEW_END)
    requires 0 <= Index(m, REVIEW_START) < |ReviewLead(e)|
    requires Index(m, REVIEW_START) == Index(e, REVIEW_START) == Index(Front(e), REVIEW_START)
    requires |g| >= |REVIEW_END| && Index(m, REVIEW_END) == |ReviewLead(e)| + |g| - |REVIEW_END|
    ensures ReviewLead(m) == e[..Index(e, REVIEW_START)] && ReviewTail(m) == ReviewTail(e)
    ensures |ReviewLead(m)| + |ReviewTail(m)| < |ReviewLead(e)| + |ReviewTail(e)|
  {
    hide IndexFrom;
    var lead, tail, k := ReviewLead(e), ReviewTail(e), Index(e, REVIEW_START);
    assert ReviewLead(m) == m[..k] && ReviewTail(m) == m[|lead| + |g|..] == tail;
    LeadStartsAsFront(e, k);
    assert (lead + g + tail)[..k] == lead[..k];
  }

  lemma LeadStartsAsFront(e: string, k: nat)
    requires !InOrder(e, REVIEW_START, REVIEW_END) && At(Front(e), k, REVIEW_START)
    ensures k < |e| && k <= |ReviewLead(e)| && ReviewLead(e)[..k] == e[..k]
  {
    hide IndexFrom;
    assert Front(e)[k..k + |REVIEW_START|][0] == '<';
    if Index(e, END) < 0 {
      assert !IsSpace(e[k]);
      assert k < |TrimNewlines(e)|;
      assert TrimNewlines(e)[..k] == e[..k];
      assert (TrimNewlines(e) + "\n\n")[..k] == TrimNewlines(e)[..k];
    } else {
      assert (e[..Index(e, END)] + "\n\n")[..k] == e[..k];
    }
  }

  /** The stray end marker stays in front. */
  lemma ReviewStaysBad(e: string, g: string, m: string)
    requires m == ReviewLead(e) + g + ReviewTail(e) && Generated(g, REVIEW_START, REVIEW_END)
    requires !InOrder(e, REVIEW_START, REVIEW_END) && !InOrder(m, REVIEW_START, REVIEW_END) && !Blank(e)
    requires 0 <= Index(m, REVIEW_END) == Index(Front(e), REVIEW_END)
    ensures !ReviewMergeable(m)
  {
    hide IndexFrom, Generated, InOrder, ReviewTail, ReviewLead, Front, Index;
    LeadHasNoEnd(e);
    EndBehind(ReviewLead(e), g, ReviewTail(e));
    ReviewEndInLead(e);
    ReviewEndFirst(m);
  }

  lemma EndBehind(lead: string, g: string, tail: string)
    requires Generated(g, REVIEW_START, REVIEW_END) && Index(lead, END) < 0
    ensures var k := Index(lead + g + tail, END); k < 0 || k >= |lead|
  {
    ReviewBounds(g);
    EndIsMarker();
    hide Marker, IndexFrom, Generated;
    assert lead + g + tail == lead + (g + tail);
    IndexJoin(lead, g + tail, END);
  }

  lemma LeadHasNoEnd(e: string)
    requires !InOrder(e, REVIEW_START, REVIEW_END) && !Blank(e)
    ensures Index(ReviewLead(e), END) < 0
  {
    EndIsMarker();
    hide Marker, IndexFrom, ReviewLead;
    FrontThenNewlines(e, END);
    FrontHasNoEnd(e);
  }

  lemma ReviewEndInLead(e: string)
    requires !InOrder(e, REVIEW_START, REVIEW_END) && !Blank(e)
    ensures Index(Front(e), REVIEW_END) < |ReviewLead(e)|
  {
    ReviewEndIsMarker();
    hide Marker, IndexFrom, ReviewLead, Front;
    FrontThenNewlines(e, REVIEW_END);
  }

  lemma ReviewEndFirst(m: string)
    requires Index(m, REVIEW_END) >= 0 && (Index(m, END) < 0 || Index(m, END) > Index(m, REVIEW_END))
    ensures Index(Front(m), REVIEW_END) >= 0
  {
    ReviewEndIsMarker();
    hide Marker, IndexFrom, Front;
    FrontIsFirst(m, REVIEW_END);
  }

  lemma FrontHasNoEnd(e: string)
    ensures Index(Front(e), END) < 0
  {
    EndIsMarker();
    hide Marker, IndexFrom;
    if Index(e, END) >= 0 {
      CutAtMarker(e, Index(e, END), END);
      IndexBefore(e, Index(e, END), END);
    }
  }

  lemma ReviewGrows(e: string, g: string, m: string)
    requires m == ReviewLead(e) + g + ReviewTail(e) && Generated(g, REVIEW_START, REVIEW_END)
    requires !InOrder(e, REVIEW_START, REVIEW_END) && !InOrder(m, REVIEW_START, REVIEW_END)
    ensures |ReviewLead(m)| + |ReviewTail(m)| > |ReviewLead(e)| + |ReviewTail(e)|
  {
    hide *;
    ReviewBounds(g);
    ReviewSizes(e);
    ReviewSizes(m);
    var lead, tail := ReviewLead(e), ReviewTail(e);
    if Index(e, END) >= 0 {
      EndFollows(lead + g, tail, e);
    } else {
      NothingFollows(lead, g, tail);
      AppendedLead(m);
    }
  }

  lemma ReviewBounds(g: string)
    requires Generated(g, REVIEW_START, REVIEW_END)
    ensures |g| >= |REVIEW_END| && g != "" && g[0] == '<' && g[|g| - 1] == '>'
  {
    ReviewStartIsMarker();
    ReviewEndIsMarker();
    GeneratedEnds(g, REVIEW_START, REVIEW_END);
  }

  lemma ReviewSizes(e: string)
    requires !InOrder(e, REVIEW_START, REVIEW_END)
    ensures Index(e, END) >= 0 ==>
              && ReviewTail(e) == "\n" + e[Index(e, END)..]
              && |ReviewLead(e)| + |ReviewTail(e)| == |e| + 3
    ensures Index(e, END) < 0 ==> ReviewTail(e) == "" && ReviewLead(e) == Lead(e) && !InOrder(e, START, END)
  {
    hide IndexFrom, Lead;
  }

  lemma EndStays(a: string, e: string)
    requires Index(e, END) >= 0
    ensures Index(a + e[Index(e, END)..], END) >= 0
  {
    hide IndexFrom;
    var rest := e[Index(e, END)..];
    assert rest[..|END|] == END;
    assert (a + rest)[|a|..|a| + |END|] == rest[..|END|];
    assert At(a + rest, |a|, END);
  }

  lemma EndFollows(x: string, tail: string, e: string)
    requires Index(e, END) >= 0 && tail == "\n" + e[Index(e, END)..]
    ensures Index(x + tail, END) >= 0
  {
    hide Index;
    EndStays(x + "\n", e);
    assert x + tail == x + "\n" + e[Index(e, END)..];
  }

  lemma NothingFollows(lead: string, g: string, tail: string)
    requires g != "" && tail == ""
    ensures var m := lead + g + tail; m != "" && m[|m| - 1] == g[|g| - 1]
  {
  }

  lemma AppendedLead(m: string)
    requires m != "" && m[|m| - 1] == '>'
    ensures !InOrder(m, START, END) ==> Lead(m) == m + "\n\n"
  {
    hide IndexFrom;
    assert !IsSpace(m[|m| - 1]);
  }

  /** Only the last of several review merges counts, exactly when the review section
      is in order or no review marker stands in front of the place of insertion. */
  lemma LastReviewCountsIff(e: string, g: string, g': string)
    requires Generated(g, REVIEW_START, REVIEW_END) && Generated(g', REVIEW_START, REVIEW_END)
    ensures MergeReview(MergeReview(e, g), g') == MergeReview(e, g') <==> ReviewMergeable(e)
  {
    hide MergeReview, ReviewMergeable, Generated, IndexFrom;
    if ReviewMergeable(e) {
      ReviewReadsBack(e, g);
      ReviewMergeIs(MergeReview(e, g), g');
      ReviewMergeIs(e, g');
    } else {
      UnmergeableReview(e, g, g');
    }
  }

  // ---------- the review section inside the generated section

  /** A body whose review section, if any, lies within the generated section. */
  predicate Nested(e: string) {
    && InOrder(e, START, END)
    && (InOrder(e, REVIEW_START, REVIEW_END) ==>
          Index(e, START) < Index(e, REVIEW_START) && Index(e, REVIEW_END) + |REVIEW_END| <= Index(e, END))
  }

  /** What surrounds the generated section does not depend on what is in the middle
      of it. */
  lemma AroundMiddle(a: string, x: string, b: string)
    requires Cut(a, x + b) && Cut(x, b)
    requires Index(a, START) >= 0 && Index(a, END) < 0 && Index(x, END) < 0 && Index(b, END) >= 0
    ensures InOrder(a + x + b, START, END)
    ensures Before(a + x + b, START) == Before(a, START) && After(a + x + b, END) == After(b, END)
  {
    StartIsMarker();
    EndIsMarker();
    hide Marker, IndexFrom;
    assert a + x + b == a + (x + b);
    IndexJoin(x, b, END);
    IndexJoin(a, x + b, START);
    IndexJoin(a, x + b, END);
    var from := Index(b, END) + |END|;
    assert (a + x + b)[|a| + |x| + from..] == b[from..];
  }

  /** Replacing the middle of the generated section keeps what is around it. */
  lemma MiddleReplaced(e: string, from: nat, to: nat, y: string)
    requires from <= to <= |e|
    requires Cut(e[..from], e[from..]) && Cut(e[..to], e[to..])
    requires 0 <= Index(e, START) < from && to <= Index(e, END) && Index(y, END) < 0
    requires Cut(e[..from], y + e[to..]) && Cut(y, e[to..])
    ensures InOrder(e[..from] + y + e[to..], START, END)
    ensures Before(e[..from] + y + e[to..], START) == Before(e, START)
    ensures After(e[..from] + y + e[to..], END) == After(e, END)
  {
    StartIsMarker();
    EndIsMarker();
    hide Marker, IndexFrom, Before, After;
    var a, x, b := e[..from], e[from..to], e[to..];
    assert e[..to] == a + x && x + b == e[from..] && a + x + b == e && e == e[..to] + b;
    IndexBefore(e, from, START);
    IndexBefore(e, from, END);
    IndexBefore(e, to, END);
    CutInside(e, from, to);
    IndexJoin(a, x, END);
    IndexJoin(e[..to], b, END);
    AroundMiddle(a, x, b);
    AroundMiddle(a, y, b);
  }

  lemma CutInside(e: string, from: nat, to: nat)
    requires from <= to <= |e| && Cut(e[..from], e[from..]) && Cut(e[..to], e[to..])
    ensures Cut(e[..from], e[from..to]) && Cut(e[from..to], e[to..])
  {
  }

  lemma StartBeforeEnd(e: string)
    requires InOrder(e, START, END)
    ensures Index(e, START) < Index(e, END)
  {
    hide IndexFrom;
    var k := Index(e, START);
    assert e[k..k + |START|][23] == e[k + 23] == 's';
    assert k + |END| <= |e| ==> e[k..k + |END|][23] == e[k + 23];
  }

  /** Inserting a first review section leaves the text around the generated section
      as it is. */
  lemma InsertionKeepsAround(e: string, g: string)
    requires Generated(g, REVIEW_START, REVIEW_END) && Index(g, END) < 0
    requires InOrder(e, START, END) && !InOrder(e, REVIEW_START, REVIEW_END)
    ensures InOrder(MergeReview(e, g), START, END)
    ensures Before(MergeReview(e, g), START) == Before(e, START) && After(MergeReview(e, g), END) == After(e, END)
  {
    var stop := Index(e, END);
    var y := "\n\n" + g + "\n";
    StartBeforeEnd(e);
    MarkerCuts(e, stop, END);
    MiddleUnmarked(g);
    Inserted(e, g);
    hide MergeReview, Generated, IndexFrom, Before, After, InOrder;
    assert y[0] == '\n' && y[|y| - 1] == '\n' && (y + e[stop..])[0] == '\n';
    MiddleReplaced(e, stop, stop, y);
  }

  lemma Inserted(e: string, g: string)
    requires Index(e, END) >= 0 && !InOrder(e, REVIEW_START, REVIEW_END)
    ensures MergeReview(e, g) == e[..Index(e, END)] + ("\n\n" + g + "\n") + e[Index(e, END)..]
  {
    hide IndexFrom;
  }

  lemma Replaced(e: string, g: string)
    requires InOrder(e, REVIEW_START, REVIEW_END)
    ensures MergeReview(e, g) == e[..Index(e, REVIEW_START)] + g + e[Index(e, REVIEW_END) + |REVIEW_END|..]
  {
    hide IndexFrom;
  }

  lemma MarkerCuts(e: string, k: nat, t: string)
    requires At(e, k, t) && (t == END || t == REVIEW_START || t == REVIEW_END)
    ensures k + |t| <= |e| && Cut(e[..k], e[k..]) && Cut(e[..k + |t|], e[k + |t|..])
  {
    EndIsMarker();
    ReviewStartIsMarker();
    ReviewEndIsMarker();
    hide Marker;
    CutAtMarker(e, k, t);
  }

  lemma MiddleUnmarked(g: string)
    requires Generated(g, REVIEW_START, REVIEW_END) && Index(g, END) < 0
    ensures g != "" && g[0] == '<' && g[|g| - 1] == '>'
    ensures Index("\n\n" + g + "\n", END) < 0
  {
    ReviewStartIsMarker();
    ReviewEndIsMarker();
    EndIsMarker();
    GeneratedEnds(g, REVIEW_START, REVIEW_END);
    TwoNewlines(END);
    hide Marker, IndexFrom, Generated;
    IndexJoin("\n\n", g, END);
    IndexJoin("\n\n" + g, "\n", END);
  }

  /** Replacing the review section does so too. */
  lemma ReplacementKeepsAround(e: string, g: string)
    requires Generated(g, REVIEW_START, REVIEW_END) && Index(g, END) < 0
    requires Nested(e) && InOrder(e, REVIEW_START, REVIEW_END)
    ensures InOrder(MergeReview(e, g), START, END)
    ensures Before(MergeReview(e, g), START) == Before(e, START) && After(MergeReview(e, g), END) == After(e, END)
  {
    var from, to := Index(e, REVIEW_START), Index(e, REVIEW_END) + |REVIEW_END|;
    MarkerCuts(e, from, REVIEW_START);
    MarkerCuts(e, to - |REVIEW_END|, REVIEW_END);
    MiddleUnmarked(g);
    Replaced(e, g);
    hide MergeReview, Generated, IndexFrom, Before, After, InOrder;
    MiddleReplaced(e, from, to, g);
  }
}
