/** What a resolved plan guarantees: distinct identities, a forest whose links
    respect the ranked and the required levels, and nothing superfluous in it. */
module PlanProperties {
  import opened Options
  import opened AzurePlanning
  import opened PlanResolution

  /** A plan the resolver does not refuse. */
  predicate Resolvable(m: Mapping, g: Plan) {
    Placeable(m, g) && FirstProblem(m, g, |g|) == None
  }

  function Items(m: Mapping, g: Plan): seq<PlanNode>
    requires Resolvable(m, g)
  {
    Sections(m, g, |g|)
  }

  function LevelOfItem(m: Mapping, g: Plan, i: nat): (level: nat)
    requires i < |g| && Placeable(m, g)
    ensures level < |m|
  {
    LevelOf(m, |m|, g[i].kind)
  }

  lemma OnItemLevel(m: Mapping, g: Plan, i: nat, level: nat)
    requires i < |g| && Placeable(m, g)
    ensures OnLevel(m, g[i].kind, level) <==> level == LevelOfItem(m, g, i)
  {
    hide UniqueIDs, LevelOf, OnLevel;
    LevelIsLast(m, g[i].kind, level);
  }

  // ---------- when a plan resolves

  /** `p` is the item that item `i` names as its parent. */
  predicate ParentAt(g: Plan, i: nat, p: nat)
    requires i < |g| && p < |g|
  {
    g[i].parentID != "" && g[p].id == g[i].parentID
  }

  /** A required level strictly between an item and its parent. */
  predicate Skips(m: Mapping, g: Plan, i: nat, p: nat, level: nat)
    requires i < |g| && p < |g| && Placeable(m, g)
  {
    LevelOfItem(m, g, p) < level < LevelOfItem(m, g, i) && m[level].required
  }

  predicate UsableIdentity(g: Plan, id: string) {
    |id| <= MAX_IDENTITY && forall j :: 0 <= j < |g| ==> g[j].id != id
  }

  /** Item `i` is a root, or its parent is a plan item on a strictly higher level
      with a usable identity for each required level between the two. */
  ghost predicate ItemFits(m: Mapping, g: Plan, i: nat)
    requires i < |g|
  {
    g[i].parentID == ""
    || exists p: nat, top: nat, bottom: nat :: Fits(m, g, i, p, top, bottom)
  }

  predicate Fits(m: Mapping, g: Plan, i: nat, p: nat, top: nat, bottom: nat)
    requires i < |g|
  {
    && p < |g| && ParentAt(g, i, p)
    && OnLevel(m, g[p].kind, top) && OnLevel(m, g[i].kind, bottom) && top < bottom
    && forall level | top < level < bottom ::
         m[level].required ==> UsableIdentity(g, g[p].id + "--" + SlugOf(m[level].name))
  }

  lemma {:induction false} FirstUnavailableNone(m: Mapping, g: Plan, parent: PlanNode, bottom: nat)
    requires bottom <= |m| && Placeable(m, g)
    ensures FirstUnavailable(m, g, parent, bottom) == None <==>
            forall level: nat | parent.level < level < bottom ::
              m[level].required ==> !Unavailable(m, g, LevelID(m, parent.id, level))
  {
    hide Placeable, Unavailable, LevelID;
    if bottom > parent.level + 1 {
      FirstUnavailableNone(m, g, parent, bottom - 1);
    }
  }

  lemma UsableIsAvailable(m: Mapping, g: Plan, id: string)
    requires Placeable(m, g)
    ensures Unavailable(m, g, id) <==> !UsableIdentity(g, id)
  {
    hide UniqueIDs;
  }

  lemma ParentIndex(m: Mapping, g: Plan, i: nat) returns (p: nat)
    requires i < |g| && Placeable(m, g) && g[i].parentID != "" && g[i].parentID in Placed(m, g)
    ensures p < |g| && ParentAt(g, i, p)
    ensures Placed(m, g)[g[i].parentID] == PlacedNode(m, g[p])
  {
    hide UniqueIDs;
    p :| 0 <= p < |g| && g[p].id == g[i].parentID;
  }

  lemma SameIndex(g: Plan, p: nat, q: nat)
    requires UniqueIDs(g) && p < |g| && q < |g| && g[p].id == g[q].id
    ensures p == q
  {
  }

  /** Fitting, in terms of the placed levels. */
  lemma FitsAt(m: Mapping, g: Plan, i: nat, p: nat)
    requires i < |g| && p < |g| && Placeable(m, g) && ParentAt(g, i, p)
    ensures Fits(m, g, i, p, LevelOfItem(m, g, p), LevelOfItem(m, g, i)) <==>
              && LevelOfItem(m, g, p) < LevelOfItem(m, g, i)
              && forall level: nat | level < |m| ::
                   Skips(m, g, i, p, level) ==> UsableIdentity(g, LevelID(m, g[p].id, level))
  {
    hide Placeable, UsableIdentity, SlugOf, LevelOf, OnLevel;
    var top, bottom := LevelOfItem(m, g, p), LevelOfItem(m, g, i);
    OnItemLevel(m, g, p, top);
    OnItemLevel(m, g, i, bottom);
    forall level: nat | level < |m|
      ensures LevelID(m, g[p].id, level) == g[p].id + "--" + SlugOf(m[level].name)
    {
    }
  }

  lemma FitsOnce(m: Mapping, g: Plan, i: nat, p: nat)
    requires i < |g| && p < |g| && Placeable(m, g) && ParentAt(g, i, p) && ItemFits(m, g, i)
    ensures Fits(m, g, i, p, LevelOfItem(m, g, p), LevelOfItem(m, g, i))
  {
    hide Mapped, UsableIdentity, SlugOf, LevelOf, OnLevel;
    var q: nat, a: nat, b: nat :| Fits(m, g, i, q, a, b);
    SameIndex(g, p, q);
    OnItemLevel(m, g, p, a);
    OnItemLevel(m, g, i, b);
  }

  /** A child that fits has its parent in the plan. */
  lemma FittingParent(m: Mapping, g: Plan, i: nat) returns (p: nat)
    requires i < |g| && Placeable(m, g) && ItemFits(m, g, i) && g[i].parentID != ""
    ensures p < |g| && ParentAt(g, i, p) && LevelOfItem(m, g, p) < LevelOfItem(m, g, i)
    ensures forall level: nat | level < |m| ::
              Skips(m, g, i, p, level) ==> UsableIdentity(g, LevelID(m, g[p].id, level))
  {
    hide UniqueIDs, UsableIdentity, SlugOf, LevelOf, OnLevel, LevelID, Skips;
    var a: nat, b: nat;
    p, a, b :| Fits(m, g, i, p, a, b);
    FitsOnce(m, g, i, p);
    FitsAt(m, g, i, p);
  }

  lemma FitsIff(m: Mapping, g: Plan, i: nat)
    requires i < |g| && Placeable(m, g)
    ensures ItemProblem(m, g, i) == None <==> ItemFits(m, g, i)
  {
    hide UniqueIDs, LevelID, Unavailable, UsableIdentity, FirstUnavailable, LevelOf, Fits;
    if g[i].parentID != "" && g[i].parentID in Placed(m, g) {
      var p := ParentIndex(m, g, i);
      FirstUnavailableNone(m, g, PlacedNode(m, g[p]), LevelOfItem(m, g, i));
      forall level: nat | level < |m|
        ensures Unavailable(m, g, LevelID(m, g[p].id, level)) <==> !UsableIdentity(g, LevelID(m, g[p].id, level))
      {
        UsableIsAvailable(m, g, LevelID(m, g[p].id, level));
      }
      FitsAt(m, g, i, p);
      if ItemFits(m, g, i) {
        FitsOnce(m, g, i, p);
      }
    } else if g[i].parentID != "" && ItemFits(m, g, i) {
      var p := FittingParent(m, g, i);
      assert false;
    }
  }

  predicate Listed(m: Mapping, kind: string) {
    exists l :: 0 <= l < |m| && kind in m[l].kinds
  }

  lemma ListedIff(m: Mapping, kind: string)
    ensures Listed(m, kind) <==> LevelOf(m, |m|, kind) >= 0
  {
    hide LevelOf;
    LevelIsLast(m, kind, 0);
  }

  /** A plan resolves exactly when every kind is on a level and every child names a
      plan item on a strictly higher level, with a usable identity for each
      required level between them. */
  lemma ResolvesIff(m: Mapping, g: Plan)
    requires UniqueIDs(g)
    ensures Resolution(m, g).Resolved? <==>
            forall i: nat | i < |g| :: Listed(m, g[i].kind) && ItemFits(m, g, i)
  {
    hide UniqueIDs, ItemFits, ItemProblem, LevelOf, Sections, AllLinks, Listed;
    forall i: nat | i < |g|
      ensures Listed(m, g[i].kind) <==> LevelOf(m, |m|, g[i].kind) >= 0
    {
      ListedIff(m, g[i].kind);
    }
    if Mapped(m, g) {
      forall i: nat | i < |g|
        ensures ItemProblem(m, g, i) == None <==> ItemFits(m, g, i)
      {
        FitsIff(m, g, i);
      }
    }
  }

  /** Item `i` cannot be placed below its parent, for the reason `problem` gives. */
  ghost predicate Misfit(m: Mapping, g: Plan, i: nat, problem: Problem)
    requires i < |g|
  {
    match problem
    case Unmapped(_) => false
    case MissingParent(node) =>
      node == g[i].id && g[i].parentID != "" && forall p :: 0 <= p < |g| ==> g[p].id != g[i].parentID
    case NotDeeper(node) =>
      && node == g[i].id
      && exists p: nat, top: nat, bottom: nat ::
           && p < |g| && ParentAt(g, i, p)
           && OnLevel(m, g[p].kind, top) && OnLevel(m, g[i].kind, bottom) && bottom <= top
    case IdentityShared(_, _) => false
    case IdentityUnavailable(node, level) =>
      exists p: nat, top: nat, bottom: nat ::
        && p < |g| && ParentAt(g, i, p) && node == g[p].id
        && OnLevel(m, g[p].kind, top) && OnLevel(m, g[i].kind, bottom) && top < level < bottom
        && FirstBlocked(m, g, node, top, level)
  }

  /** `level` is required and its identity below `node` unusable, and it is the
      first such level below `top`. */
  predicate FirstBlocked(m: Mapping, g: Plan, node: string, top: nat, level: nat) {
    && level < |m| && m[level].required && !UsableIdentity(g, node + "--" + SlugOf(m[level].name))
    && forall l | top < l < level :: m[l].required ==> UsableIdentity(g, node + "--" + SlugOf(m[l].name))
  }

  lemma {:induction false} FirstUnavailableIs(m: Mapping, g: Plan, parent: PlanNode, bottom: nat)
    requires bottom <= |m| && Placeable(m, g)
    ensures FirstUnavailable(m, g, parent, bottom) != None ==>
              exists level: nat ::
                && FirstUnavailable(m, g, parent, bottom) == Some(IdentityUnavailable(parent.id, level))
                && parent.level < level < bottom && FirstBlocked(m, g, parent.id, parent.level, level)
    decreases bottom
  {
    hide Placeable, Unavailable, UsableIdentity, SlugOf, Placed;
    if bottom > parent.level + 1 {
      FirstUnavailableIs(m, g, parent, bottom - 1);
      if FirstUnavailable(m, g, parent, bottom - 1) == None && FirstUnavailable(m, g, parent, bottom) != None {
        FirstUnavailableNone(m, g, parent, bottom - 1);
        BlockedAt(m, g, parent, bottom - 1);
      }
    }
  }

  lemma BlockedAt(m: Mapping, g: Plan, parent: PlanNode, level: nat)
    requires level < |m| && Placeable(m, g) && m[level].required && Unavailable(m, g, LevelID(m, parent.id, level))
    requires forall l: nat | parent.level < l < level ::
               m[l].required ==> !Unavailable(m, g, LevelID(m, parent.id, l))
    ensures FirstBlocked(m, g, parent.id, parent.level, level)
  {
    hide Placeable, Unavailable, UsableIdentity, SlugOf;
    forall l: nat | l < |m|
      ensures Unavailable(m, g, LevelID(m, parent.id, l))
         <==> !UsableIdentity(g, parent.id + "--" + SlugOf(m[l].name))
    {
      UsableIsAvailable(m, g, LevelID(m, parent.id, l));
    }
  }

  lemma ProblemIsMisfit(m: Mapping, g: Plan, i: nat)
    requires i < |g| && Placeable(m, g) && ItemProblem(m, g, i) != None
    ensures Misfit(m, g, i, ItemProblem(m, g, i).value)
  {
    hide UniqueIDs, LevelOf, OnLevel, FirstUnavailable, FirstBlocked, Mapped;
    if g[i].parentID in Placed(m, g) {
      var p := ParentIndex(m, g, i);
      var top, bottom := LevelOfItem(m, g, p), LevelOfItem(m, g, i);
      OnItemLevel(m, g, p, top);
      OnItemLevel(m, g, i, bottom);
      FirstUnavailableIs(m, g, PlacedNode(m, g[p]), bottom);
    } else {
      assert forall p :: 0 <= p < |g| ==> g[p].id in Placed(m, g);
    }
  }

  lemma {:induction false} FirstMisfit(m: Mapping, g: Plan, n: nat) returns (i: nat)
    requires n <= |g| && Placeable(m, g) && FirstProblem(m, g, n) != None
    ensures i < n && Misfit(m, g, i, FirstProblem(m, g, n).value) && forall j: nat | j < i :: ItemFits(m, g, j)
  {
    hide Placeable, ItemProblem, ItemFits, Misfit;
    if FirstProblem(m, g, n - 1) != None {
      i := FirstMisfit(m, g, n - 1);
    } else {
      i := n - 1;
      ProblemIsMisfit(m, g, i);
      forall j: nat | j < i
        ensures ItemFits(m, g, j)
      {
        FitsIff(m, g, j);
      }
    }
  }

  lemma {:induction false} FirstUnlisted(m: Mapping, g: Plan, n: nat) returns (i: nat)
    requires n <= |g| && FirstUnmapped(m, g, n) != None
    ensures i < n && FirstUnmapped(m, g, n) == Some(Unmapped(g[i].id)) && !Listed(m, g[i].kind)
    ensures forall j: nat | j < i :: Listed(m, g[j].kind)
  {
    hide LevelOf, Listed;
    if FirstUnmapped(m, g, n - 1) != None {
      i := FirstUnlisted(m, g, n - 1);
    } else {
      i := n - 1;
      forall j: nat | j < n
        ensures Listed(m, g[j].kind) <==> LevelOf(m, |m|, g[j].kind) >= 0
      {
        ListedIff(m, g[j].kind);
      }
    }
  }

  /** A refusal names the first item whose kind no level lists, or else the first
      item that does not fit, and why. */
  lemma RefusalNames(m: Mapping, g: Plan) returns (i: nat)
    requires UniqueIDs(g) && Resolution(m, g).Refused?
    ensures i < |g|
    ensures var problem := Resolution(m, g).problem;
            || (problem == Unmapped(g[i].id) && !Listed(m, g[i].kind) && forall j: nat | j < i :: Listed(m, g[j].kind))
            || ((forall j: nat | j < |g| :: Listed(m, g[j].kind)) && Misfit(m, g, i, problem)
                && forall j: nat | j < i :: ItemFits(m, g, j))
  {
    hide UniqueIDs, LevelOf, Listed, Misfit, ItemFits, ItemProblem, Sections, AllLinks;
    if FirstUnmapped(m, g, |g|) != None {
      i := FirstUnlisted(m, g, |g|);
    } else {
      i := FirstMisfit(m, g, |g|);
      forall j: nat | j < |g|
        ensures Listed(m, g[j].kind)
      {
        ListedIff(m, g[j].kind);
      }
    }
  }

  // ---------- where an item of the preview comes from

  /** The items of the preview are its sections, one behind the other. */
  lemma {:induction false} SectionAt(m: Mapping, g: Plan, total: nat, n: nat, k: nat)
    requires n < total <= |g| && Placeable(m, g) && k < |Section(m, g, n)|
    ensures |Sections(m, g, n)| + k < |Sections(m, g, total)|
    ensures Sections(m, g, total)[|Sections(m, g, n)| + k] == Section(m, g, n)[k]
    decreases total
  {
    hide Placeable, Section;
    if n < total - 1 {
      SectionAt(m, g, total - 1, n, k);
    }
  }

  lemma {:induction false} SectionOf(m: Mapping, g: Plan, total: nat, q: nat) returns (n: nat, k: nat)
    requires total <= |g| && Placeable(m, g) && q < |Sections(m, g, total)|
    ensures n < total && k < |Section(m, g, n)| && q == |Sections(m, g, n)| + k
    ensures Sections(m, g, total)[q] == Section(m, g, n)[k]
    decreases total
  {
    hide Placeable, Section;
    var before := |Sections(m, g, total - 1)|;
    if q < before {
      n, k := SectionOf(m, g, total - 1, q);
    } else {
      n, k := total - 1, q - before;
    }
  }

  lemma {:induction false} SectionsGrow(m: Mapping, g: Plan, n: nat, total: nat)
    requires n <= total <= |g| && Placeable(m, g)
    ensures |Sections(m, g, n)| <= |Sections(m, g, total)|
    ensures n < total ==> |Sections(m, g, n)| + |Section(m, g, n)| <= |Sections(m, g, total)|
    decreases total
  {
    hide Placeable, Section;
    if n < total {
      SectionsGrow(m, g, n, total - 1);
    }
  }

  /** The levels of the intermediate items below item `n`. */
  function LevelsBelow(m: Mapping, g: Plan, n: nat): (levels: seq<nat>)
    requires n < |g| && Placeable(m, g)
    ensures forall k :: 0 <= k < |levels| ==> LevelOfItem(m, g, n) < levels[k] < |m| && m[levels[k]].required
    ensures forall j, k :: 0 <= j < k < |levels| ==> levels[j] < levels[k]
  {
    var top := LevelOfItem(m, g, n);
    ReachesBounded(m, g, g[n].id, |g|);
    var deepest := Deepest(Reaches(m, g, g[n].id, |g|), top);
    Gaps(m, top, deepest)
  }

  lemma SectionHead(m: Mapping, g: Plan, n: nat)
    requires n < |g| && Placeable(m, g)
    ensures |Section(m, g, n)| == 1 + |LevelsBelow(m, g, n)|
    ensures Section(m, g, n)[0] == LinkedNode(m, g, n)
  {
    hide UniqueIDs, Reaches, Gaps, Link;
  }

  lemma SectionRest(m: Mapping, g: Plan, n: nat, k: nat)
    requires n < |g| && Placeable(m, g) && k < |LevelsBelow(m, g, n)|
    ensures |Section(m, g, n)| == 1 + |LevelsBelow(m, g, n)|
    ensures Section(m, g, n)[k + 1]
            == Link(m, PlacedNode(m, g[n]), Reaches(m, g, g[n].id, |g|), LevelsBelow(m, g, n)[k])
  {
    hide UniqueIDs, Reaches, Gaps, Link;
  }

  lemma {:induction false} ReachFrom(m: Mapping, g: Plan, id: string, n: nat, r: Reach) returns (i: nat)
    requires n <= |g| && Mapped(m, g) && r in Reaches(m, g, id, n)
    ensures i < n && id != "" && g[i].parentID == id
    ensures r == Reach(Member(g[i].title, g[i].id), LevelOf(m, |m|, g[i].kind))
  {
    if r in Reaches(m, g, id, n - 1) {
      i := ReachFrom(m, g, id, n - 1, r);
    } else {
      i := n - 1;
    }
  }

  lemma {:induction false} ReachTo(m: Mapping, g: Plan, id: string, n: nat, i: nat)
    requires i < n <= |g| && Mapped(m, g) && id != "" && g[i].parentID == id
    ensures Reach(Member(g[i].title, g[i].id), LevelOf(m, |m|, g[i].kind)) in Reaches(m, g, id, n)
  {
    if i < n - 1 {
      ReachTo(m, g, id, n - 1, i);
    }
  }

  /** Below every intermediate item there is a child that passes through it. */
  lemma ChildThrough(m: Mapping, g: Plan, n: nat, k: nat) returns (i: nat)
    requires n < |g| && Placeable(m, g) && k < |LevelsBelow(m, g, n)|
    ensures i < |g| && ParentAt(g, i, n) && Skips(m, g, i, n, LevelsBelow(m, g, n)[k])
  {
    hide UniqueIDs, Reaches;
    var top := LevelOfItem(m, g, n);
    var rs := Reaches(m, g, g[n].id, |g|);
    ReachesBounded(m, g, g[n].id, |g|);
    var r :| r in rs && r.level == Deepest(rs, top);
    i := ReachFrom(m, g, g[n].id, |g|, r);
  }

  /** And every required level a link skips has its item. */
  lemma LevelBelow(m: Mapping, g: Plan, i: nat, n: nat, level: nat) returns (k: nat)
    requires i < |g| && n < |g| && Placeable(m, g) && ParentAt(g, i, n) && Skips(m, g, i, n, level)
    ensures k < |LevelsBelow(m, g, n)| && LevelsBelow(m, g, n)[k] == level
    ensures k == |Gaps(m, LevelOfItem(m, g, n), level)|
  {
    hide UniqueIDs, Reaches, Gaps;
    var top := LevelOfItem(m, g, n);
    var rs := Reaches(m, g, g[n].id, |g|);
    ReachesBounded(m, g, g[n].id, |g|);
    ReachTo(m, g, g[n].id, |g|, i);
    GapsPrefix(m, top, level, Deepest(rs, top));
    k := |Gaps(m, top, level)|;
  }

  // ---------- identities

  lemma IntermediateIs(m: Mapping, g: Plan, n: nat, k: nat)
    requires n < |g| && Placeable(m, g) && 0 < k < |Section(m, g, n)|
    ensures k - 1 < |LevelsBelow(m, g, n)|
    ensures Section(m, g, n)[k].level == LevelsBelow(m, g, n)[k - 1]
    ensures Section(m, g, n)[k].id == LevelID(m, g[n].id, LevelsBelow(m, g, n)[k - 1])
    ensures Section(m, g, n)[k].parentOf == g[n].id
    ensures Section(m, g, n)[k].dependsOn == []
  {
    hide UniqueIDs, Section, LevelID, LevelsBelow;
    SectionHead(m, g, n);
    SectionRest(m, g, n, k - 1);
  }

  /** A level some link skips has a usable identity. */
  lemma SkippedUsable(m: Mapping, g: Plan, i: nat, n: nat, level: nat)
    requires Resolvable(m, g) && i < |g| && n < |g| && ParentAt(g, i, n) && Skips(m, g, i, n, level)
    ensures UsableIdentity(g, LevelID(m, g[n].id, level))
  {
    hide UniqueIDs, ItemProblem, LevelID, LevelOf, Mapped;
    FitsIff(m, g, i);
    assert ItemProblem(m, g, i) == None;
    var p := FittingParent(m, g, i);
    SameIndex(g, n, p);
  }

  /** An intermediate item never takes the identity of a plan item. */
  lemma IntermediateAvoidsPlan(m: Mapping, g: Plan, n: nat, k: nat, j: nat)
    requires Resolvable(m, g) && n < |g| && j < |g| && 0 < k < |Section(m, g, n)|
    ensures Section(m, g, n)[k].id != g[j].id
    ensures |Section(m, g, n)[k].id| <= MAX_IDENTITY
  {
    hide UniqueIDs, FirstProblem, Section, LevelID, LevelsBelow, Mapped, Skips;
    IntermediateIs(m, g, n, k);
    var i := ChildThrough(m, g, n, k - 1);
    SkippedUsable(m, g, i, n, LevelsBelow(m, g, n)[k - 1]);
  }

  /** Within a section and across sections, intermediate identities differ. */
  lemma IntermediatesDiffer(m: Mapping, g: Plan, alnum: char -> bool, n: nat, k: nat, n': nat, k': nat)
    requires ValidMapping(m, alnum) && Placeable(m, g) && n < |g| && n' < |g|
    requires 0 < k < |Section(m, g, n)| && 0 < k' < |Section(m, g, n')|
    requires Section(m, g, n)[k].id == Section(m, g, n')[k'].id
    ensures n == n' && k == k'
  {
    hide UniqueIDs, Section, LevelsBelow, ValidMapping, SlugOf, Mapped;
    IntermediateIs(m, g, n, k);
    IntermediateIs(m, g, n', k');
    var a, b := LevelsBelow(m, g, n)[k - 1], LevelsBelow(m, g, n')[k' - 1];
    SlugsUsable(m, alnum, a);
    SlugsUsable(m, alnum, b);
    IdentitiesInjective(g[n].id, SlugOf(m[a].name), g[n'].id, SlugOf(m[b].name));
    SameIndex(g, n, n');
    LevelIDsDistinct(m, alnum, g[n].id, a, b);
  }

  lemma SlugsUsable(m: Mapping, alnum: char -> bool, level: nat)
    requires ValidMapping(m, alnum) && level < |m|
    ensures SlugOf(m[level].name) != "" && Canonical(SlugOf(m[level].name))
  {
    hide SlugOf;
    SlugIsCanonical(m[level].name);
  }

  /** No two items of a preview share an identity. */
  lemma IdentitiesDistinct(m: Mapping, g: Plan, alnum: char -> bool, q: nat, q': nat)
    requires ValidMapping(m, alnum) && Resolvable(m, g)
    requires q < |Items(m, g)| && q' < |Items(m, g)| && Items(m, g)[q].id == Items(m, g)[q'].id
    ensures q == q'
  {
    hide UniqueIDs, Section, Sections, ValidMapping, FirstProblem, LevelsBelow, Mapped;
    var n, k := SectionOf(m, g, |g|, q);
    var n', k' := SectionOf(m, g, |g|, q');
    SectionHead(m, g, n);
    SectionHead(m, g, n');
    if k == 0 && k' == 0 {
      SameIndex(g, n, n');
    } else if k == 0 {
      IntermediateAvoidsPlan(m, g, n', k', n);
    } else if k' == 0 {
      IntermediateAvoidsPlan(m, g, n, k, n');
    } else {
      IntermediatesDiffer(m, g, alnum, n, k, n', k');
    }
  }

  // ---------- parent links

  lemma {:induction false} GapsComplete(m: Mapping, top: nat, bottom: nat, level: nat)
    requires top < level < bottom <= |m| && m[level].required
    ensures level in Gaps(m, top, bottom)
  {
    if level < bottom - 1 {
      GapsComplete(m, top, bottom - 1, level);
    }
  }

  /** What hangs on `level` below plan item `p` hangs from the lowest item above
      that level, and skips no required level. */
  lemma AboveIs(m: Mapping, g: Plan, p: nat, level: nat) returns (k: nat)
    requires p < |g| && Placeable(m, g) && LevelOfItem(m, g, p) < level <= |m|
    requires Gaps(m, LevelOfItem(m, g, p), level) <= LevelsBelow(m, g, p)
    ensures k == |Gaps(m, LevelOfItem(m, g, p), level)| < |Section(m, g, p)|
    ensures Section(m, g, p)[k].id == Above(m, PlacedNode(m, g[p]), level)
    ensures Section(m, g, p)[k].level < level
    ensures forall l: nat :: Section(m, g, p)[k].level < l < level ==> !m[l].required
  {
    hide UniqueIDs, Section, LevelsBelow, LevelID, LevelOf, Mapped, Gaps;
    var gaps := Gaps(m, LevelOfItem(m, g, p), level);
    k := |gaps|;
    SectionHead(m, g, p);
    if k > 0 {
      IntermediateIs(m, g, p, k);
      assert LevelsBelow(m, g, p)[k - 1] == gaps[k - 1];
    }
    var from := Section(m, g, p)[k].level;
    forall l: nat | from < l < level
      ensures !m[l].required
    {
      if m[l].required {
        GapsComplete(m, LevelOfItem(m, g, p), level, l);
      }
    }
  }

  /** The levels a child's link skips are the first of those below its parent. */
  lemma ChildGaps(m: Mapping, g: Plan, i: nat, p: nat)
    requires i < |g| && p < |g| && Placeable(m, g) && ParentAt(g, i, p)
    requires LevelOfItem(m, g, p) < LevelOfItem(m, g, i)
    ensures Gaps(m, LevelOfItem(m, g, p), LevelOfItem(m, g, i)) <= LevelsBelow(m, g, p)
  {
    hide UniqueIDs, Reaches, Gaps;
    var top := LevelOfItem(m, g, p);
    var rs := Reaches(m, g, g[p].id, |g|);
    ReachesBounded(m, g, g[p].id, |g|);
    ReachTo(m, g, g[p].id, |g|, i);
    GapsPrefix(m, top, LevelOfItem(m, g, i), Deepest(rs, top));
  }

  /** And so are the levels above any of the intermediate items. */
  lemma RestGaps(m: Mapping, g: Plan, n: nat, k: nat)
    requires n < |g| && Placeable(m, g) && k < |LevelsBelow(m, g, n)|
    ensures Gaps(m, LevelOfItem(m, g, n), LevelsBelow(m, g, n)[k]) == LevelsBelow(m, g, n)[..k]
  {
    hide UniqueIDs, Reaches, Gaps;
    var top := LevelOfItem(m, g, n);
    var rs := Reaches(m, g, g[n].id, |g|);
    ReachesBounded(m, g, g[n].id, |g|);
    var level := LevelsBelow(m, g, n)[k];
    GapsPrefix(m, top, level, Deepest(rs, top));
    var j := |Gaps(m, top, level)|;
    assert LevelsBelow(m, g, n)[j] == level;
    assert j == k;
  }

  /** Where a child of plan item `p` is linked. */
  lemma ChildLinked(m: Mapping, g: Plan, i: nat) returns (p: nat, k: nat)
    requires Resolvable(m, g) && i < |g| && g[i].parentID != ""
    ensures p < |g| && ParentAt(g, i, p) && LevelOfItem(m, g, p) < LevelOfItem(m, g, i)
    ensures k == |Gaps(m, LevelOfItem(m, g, p), LevelOfItem(m, g, i))| < |Section(m, g, p)|
    ensures Section(m, g, p)[k].id == LinkedNode(m, g, i).parent
    ensures Section(m, g, p)[k].level < LevelOfItem(m, g, i)
    ensures forall l: nat :: Section(m, g, p)[k].level < l < LevelOfItem(m, g, i) ==> !m[l].required
  {
    hide UniqueIDs, ItemProblem, Section, LevelsBelow, LevelOf, Mapped, Gaps, Above;
    FitsIff(m, g, i);
    assert ItemProblem(m, g, i) == None;
    p := FittingParent(m, g, i);
    ChildGaps(m, g, i, p);
    k := AboveIs(m, g, p, LevelOfItem(m, g, i));
  }

  /** Every plan item follows its parent. */
  predicate ParentsFirst(g: Plan) {
    forall i, p :: 0 <= i < |g| && 0 <= p < |g| && ParentAt(g, i, p) ==> p < i
  }

  /** Every parent link ends at an item of the preview on a strictly higher level,
      with no required level between them; in a plan that lists parents first,
      so does the preview. */
  lemma ParentIsHigher(m: Mapping, g: Plan, q: nat) returns (q': nat)
    requires Resolvable(m, g) && q < |Items(m, g)| && Items(m, g)[q].parent != ""
    ensures q' < |Items(m, g)|
    ensures Items(m, g)[q'].id == Items(m, g)[q].parent
    ensures Items(m, g)[q'].level < Items(m, g)[q].level < |m|
    ensures forall l: nat :: Items(m, g)[q'].level < l < Items(m, g)[q].level ==> !m[l].required
    ensures ParentsFirst(g) ==> q' < q
  {
    hide UniqueIDs, Section, Sections, FirstProblem, LevelsBelow, Mapped, Gaps, LevelOf, Above, ParentsFirst;
    var n, k := SectionOf(m, g, |g|, q);
    SectionHead(m, g, n);
    if k == 0 {
      q' := ChildParent(m, g, n);
    } else {
      q' := IntermediateParent(m, g, n, k);
    }
  }

  lemma ChildParent(m: Mapping, g: Plan, n: nat) returns (q': nat)
    requires Resolvable(m, g) && n < |g| && LinkedNode(m, g, n).parent != ""
    ensures |Section(m, g, n)| > 0 && Section(m, g, n)[0].level < |m|
    ensures q' < |Items(m, g)| && Items(m, g)[q'].id == Section(m, g, n)[0].parent
    ensures Items(m, g)[q'].level < Section(m, g, n)[0].level
    ensures forall l: nat :: Items(m, g)[q'].level < l < Section(m, g, n)[0].level ==> !m[l].required
    ensures ParentsFirst(g) ==> q' < |Sections(m, g, n)|
  {
    hide UniqueIDs, Section, Sections, FirstProblem, LevelsBelow, Mapped, Gaps, LevelOf, Above;
    SectionHead(m, g, n);
    var p, k := ChildLinked(m, g, n);
    SectionAt(m, g, |g|, p, k);
    q' := |Sections(m, g, p)| + k;
    if p < n {
      SectionsGrow(m, g, p, n);
    }
  }

  lemma IntermediateParent(m: Mapping, g: Plan, n: nat, k: nat) returns (q': nat)
    requires Resolvable(m, g) && n < |g| && 0 < k < |Section(m, g, n)|
    ensures Section(m, g, n)[k].level < |m|
    ensures q' < |Items(m, g)| && Items(m, g)[q'].id == Section(m, g, n)[k].parent
    ensures Items(m, g)[q'].level < Section(m, g, n)[k].level
    ensures forall l: nat :: Items(m, g)[q'].level < l < Section(m, g, n)[k].level ==> !m[l].required
    ensures q' < |Sections(m, g, n)| + k
  {
    hide UniqueIDs, Section, Sections, FirstProblem, LevelsBelow, Mapped, Gaps, LevelOf, Above;
    IntermediateIs(m, g, n, k);
    RestGaps(m, g, n, k - 1);
    SectionRest(m, g, n, k - 1);
    var up := AboveIs(m, g, n, LevelsBelow(m, g, n)[k - 1]);
    SectionAt(m, g, |g|, n, up);
    q' := |Sections(m, g, n)| + up;
  }

  /** Climbing parent links from `id` passes through `steps` intermediate items,
      all of them inserted below `target`, and then arrives at `target`. */
  predicate ClimbsTo(items: seq<PlanNode>, id: string, target: string, steps: nat)
    decreases steps
  {
    if steps == 0 then id == target
    else exists q :: 0 <= q < |items| && items[q].id == id && items[q].parentOf == target
                     && ClimbsTo(items, items[q].parent, target, steps - 1)
  }

  lemma {:induction false} ClimbFrom(m: Mapping, g: Plan, n: nat, k: nat)
    requires n < |g| && Resolvable(m, g) && k < |Section(m, g, n)|
    ensures ClimbsTo(Items(m, g), Section(m, g, n)[k].id, g[n].id, k)
    decreases k
  {
    hide UniqueIDs, Section, Sections, FirstProblem, LevelsBelow, Mapped, Gaps, LevelOf, Above;
    SectionHead(m, g, n);
    if k > 0 {
      IntermediateIs(m, g, n, k);
      RestGaps(m, g, n, k - 1);
      SectionRest(m, g, n, k - 1);
      var up := AboveIs(m, g, n, LevelsBelow(m, g, n)[k - 1]);
      SectionAt(m, g, |g|, n, k);
      ClimbFrom(m, g, n, k - 1);
      var q := |Sections(m, g, n)| + k;
      assert Items(m, g)[q].id == Section(m, g, n)[k].id && Items(m, g)[q].parent == Section(m, g, n)[k - 1].id;
    }
  }

  /** Climbing from a plan item leads to the parent its plan names, through one
      intermediate item for each required level between the two and nothing else. */
  lemma ClimbReachesParent(m: Mapping, g: Plan, i: nat, p: nat)
    requires Resolvable(m, g) && i < |g| && p < |g| && ParentAt(g, i, p)
    ensures |Sections(m, g, i)| < |Items(m, g)|
    ensures var x := Items(m, g)[|Sections(m, g, i)|];
            && x.id == g[i].id
            && ClimbsTo(Items(m, g), x.parent, g[p].id, |Gaps(m, LevelOfItem(m, g, p), LevelOfItem(m, g, i))|)
  {
    hide UniqueIDs, Section, Sections, FirstProblem, LevelsBelow, Mapped, Gaps, Above;
    SectionHead(m, g, i);
    SectionAt(m, g, |g|, i, 0);
    var p', k := ChildLinked(m, g, i);
    SameIndex(g, p, p');
    ClimbFrom(m, g, p, k);
  }

  // ---------- nothing superfluous, nothing missing

  /** The children of plan item `n` that lie deeper than `level`, in plan order. */
  function DeeperChildren(m: Mapping, g: Plan, n: nat, level: nat, total: nat): seq<Member>
    requires total <= |g| && n < |g| && Placeable(m, g)
  {
    if total == 0 then []
    else DeeperChildren(m, g, n, level, total - 1)
         + if ParentAt(g, total - 1, n) && LevelOfItem(m, g, total - 1) > level
           then [Member(g[total - 1].title, g[total - 1].id)] else []
  }

  lemma {:induction false} ThroughIsDeeper(m: Mapping, g: Plan, n: nat, level: nat, total: nat)
    requires total <= |g| && n < |g| && Placeable(m, g)
    ensures Through(Reaches(m, g, g[n].id, total), level) == DeeperChildren(m, g, n, level, total)
  {
    hide UniqueIDs, Mapped;
    if total > 0 {
      ThroughIsDeeper(m, g, n, level, total - 1);
      var item := g[total - 1];
      var rs := Reaches(m, g, g[n].id, total - 1);
      ThroughAppend(rs, Reach(Member(item.title, item.id), LevelOfItem(m, g, total - 1)), level);
      assert rs + [] == rs;
    }
  }

  /** The item a preview inserts on `level` below plan item `n`. */
  predicate InsertedAt(m: Mapping, g: Plan, q: nat, n: nat, level: nat)
    requires Resolvable(m, g) && q < |Items(m, g)| && n < |g|
  {
    Items(m, g)[q].parentOf == g[n].id && g[n].id != "" && Items(m, g)[q].level == level
  }

  /** An item is inserted on a level below a plan item exactly when some child's
      link skips that required level, and then only once. */
  lemma InsertedIff(m: Mapping, g: Plan, alnum: char -> bool, n: nat, level: nat)
    requires ValidMapping(m, alnum) && Resolvable(m, g) && n < |g|
    ensures (exists q :: 0 <= q < |Items(m, g)| && InsertedAt(m, g, q, n, level))
       <==> (exists i :: 0 <= i < |g| && ParentAt(g, i, n) && Skips(m, g, i, n, level))
    ensures forall q, q' | 0 <= q < |Items(m, g)| && 0 <= q' < |Items(m, g)| ::
              InsertedAt(m, g, q, n, level) && InsertedAt(m, g, q', n, level) ==> q == q'
  {
    hide UniqueIDs, Sections, Section, FirstProblem, LevelsBelow, Mapped, LevelOf, ValidMapping, ParentAt, Skips;
    hide LevelID;
    forall q: nat | q < |Items(m, g)| && InsertedAt(m, g, q, n, level)
      ensures exists i :: 0 <= i < |g| && ParentAt(g, i, n) && Skips(m, g, i, n, level)
      ensures level < |m| && Items(m, g)[q].id == LevelID(m, g[n].id, level)
    {
      var k := InsertedFrom(m, g, q, n, level);
      var i := ChildThrough(m, g, n, k);
    }
    forall q: nat, q': nat | q < |Items(m, g)| && q' < |Items(m, g)|
                             && InsertedAt(m, g, q, n, level) && InsertedAt(m, g, q', n, level)
      ensures q == q'
    {
      IdentitiesDistinct(m, g, alnum, q, q');
    }
    if i: nat :| i < |g| && ParentAt(g, i, n) && Skips(m, g, i, n, level) {
      var q := SkippedInserted(m, g, i, n, level);
    }
  }

  lemma InsertedFrom(m: Mapping, g: Plan, q: nat, n: nat, level: nat) returns (k: nat)
    requires Resolvable(m, g) && n < |g| && q < |Items(m, g)| && InsertedAt(m, g, q, n, level)
    ensures k < |LevelsBelow(m, g, n)| && LevelsBelow(m, g, n)[k] == level < |m|
    ensures Items(m, g)[q].id == LevelID(m, g[n].id, level)
    ensures Items(m, g)[q].members == Through(Reaches(m, g, g[n].id, |g|), level)
  {
    hide UniqueIDs, Sections, Section, FirstProblem, LevelsBelow, Mapped, LevelOf, LevelID, Above, Through, Reaches;
    var n', k' := SectionOf(m, g, |g|, q);
    SectionHead(m, g, n');
    assert k' > 0;
    IntermediateIs(m, g, n', k');
    SectionRest(m, g, n', k' - 1);
    SameIndex(g, n, n');
    k := k' - 1;
  }

  /** What an inserted item carries: the identity of its parent and its level, and
      the title of its parent. */
  lemma InsertedItem(m: Mapping, g: Plan, q: nat, n: nat, level: nat)
    requires Resolvable(m, g) && n < |g| && q < |Items(m, g)| && InsertedAt(m, g, q, n, level)
    ensures level < |m| && m[level].required
    ensures Items(m, g)[q].id == g[n].id + "--" + SlugOf(m[level].name)
    ensures Items(m, g)[q].title == g[n].title && Items(m, g)[q].dependsOn == []
  {
    hide UniqueIDs, Sections, Section, FirstProblem, LevelsBelow, Mapped, LevelOf, SlugOf, Above, Through, Reaches;
    var n', k' := SectionOf(m, g, |g|, q);
    SectionHead(m, g, n');
    assert k' > 0;
    IntermediateIs(m, g, n', k');
    SectionRest(m, g, n', k' - 1);
    SameIndex(g, n, n');
  }

  lemma SkippedInserted(m: Mapping, g: Plan, i: nat, n: nat, level: nat) returns (q: nat)
    requires Resolvable(m, g) && n < |g| && i < |g| && ParentAt(g, i, n) && Skips(m, g, i, n, level)
    ensures q < |Items(m, g)| && InsertedAt(m, g, q, n, level)
  {
    hide UniqueIDs, Sections, Section, FirstProblem, LevelsBelow, Mapped, LevelOf, LevelID;
    var k := LevelBelow(m, g, i, n, level);
    SectionHead(m, g, n);
    IntermediateIs(m, g, n, k + 1);
    SectionAt(m, g, |g|, n, k + 1);
    q := |Sections(m, g, n)| + k + 1;
  }

  /** An inserted item lists exactly the deeper children it stands above. */
  lemma MembersAreDeeperChildren(m: Mapping, g: Plan, q: nat, n: nat, level: nat)
    requires Resolvable(m, g) && n < |g| && q < |Items(m, g)| && InsertedAt(m, g, q, n, level)
    ensures Items(m, g)[q].members == DeeperChildren(m, g, n, level, |g|)
    ensures Items(m, g)[q].members != []
  {
    hide UniqueIDs, Sections, FirstProblem, LevelsBelow, Mapped, LevelOf, LevelID;
    var k := InsertedFrom(m, g, q, n, level);
    ThroughIsDeeper(m, g, n, level, |g|);
    var i := ChildThrough(m, g, n, k);
    DeeperChildIn(m, g, n, level, |g|, i);
  }

  lemma {:induction false} DeeperChildIn(m: Mapping, g: Plan, n: nat, level: nat, total: nat, i: nat)
    requires i < total <= |g| && n < |g| && Placeable(m, g)
    requires ParentAt(g, i, n) && LevelOfItem(m, g, i) > level
    ensures Member(g[i].title, g[i].id) in DeeperChildren(m, g, n, level, total)
  {
    if i < total - 1 {
      DeeperChildIn(m, g, n, level, total - 1, i);
    }
  }

  // ---------- relationships

  function ParentLinks(links: seq<Relationship>): seq<Relationship>
    decreases |links|
  {
    if links == [] then []
    else ParentLinks(links[..|links| - 1])
         + if links[|links| - 1].ParentLink? then [links[|links| - 1]] else []
  }

  /** One link for each item that has a parent, in order. */
  function OneEach(nodes: seq<PlanNode>): seq<Relationship>
    decreases |nodes|
  {
    if nodes == [] then []
    else
      var last := nodes[|nodes| - 1];
      OneEach(nodes[..|nodes| - 1]) + if last.parent != "" then [ParentLink(last.id, last.parent)] else []
  }

  lemma {:induction false} ParentLinksSplit(a: seq<Relationship>, b: seq<Relationship>)
    ensures ParentLinks(a + b) == ParentLinks(a) + ParentLinks(b)
    decreases |b|
  {
    if b == [] {
      assert a + b == a;
    } else {
      assert (a + b)[..|a + b| - 1] == a + b[..|b| - 1];
      ParentLinksSplit(a, b[..|b| - 1]);
    }
  }

  lemma {:induction false} NoParentsAmongDependencies(node: PlanNode, n: nat)
    requires n <= |node.dependsOn|
    ensures ParentLinks(Dependencies(node, n)) == []
  {
    if n > 0 {
      NoParentsAmongDependencies(node, n - 1);
      assert Dependencies(node, n)[..n - 1] == Dependencies(node, n - 1) by {
        DependenciesLength(node, n - 1);
      }
    }
  }

  lemma {:induction false} DependenciesLength(node: PlanNode, n: nat)
    requires n <= |node.dependsOn|
    ensures |Dependencies(node, n)| == n
  {
    if n > 0 {
      DependenciesLength(node, n - 1);
    }
  }

  /** A preview carries exactly one parent link for every item that has a parent. */
  lemma {:induction false} OneParentLinkEach(nodes: seq<PlanNode>)
    ensures ParentLinks(AllLinks(nodes)) == OneEach(nodes)
    decreases |nodes|
  {
    hide LinksOf;
    if nodes != [] {
      var front, last := nodes[..|nodes| - 1], nodes[|nodes| - 1];
      OneParentLinkEach(front);
      ParentLinksSplit(AllLinks(front), LinksOf(last));
      LinksOfOne(last);
    }
  }

  lemma LinksOfOne(node: PlanNode)
    ensures ParentLinks(LinksOf(node)) == if node.parent != "" then [ParentLink(node.id, node.parent)] else []
  {
    var up := if node.parent != "" then [ParentLink(node.id, node.parent)] else [];
    ParentLinksSplit(up, Dependencies(node, |node.dependsOn|));
    NoParentsAmongDependencies(node, |node.dependsOn|);
    assert up[..0] == [];
  }

  lemma {:induction false} DependenciesAre(node: PlanNode, n: nat, k: nat)
    requires k < n <= |node.dependsOn|
    ensures |Dependencies(node, n)| == n && Dependencies(node, n)[k] == DependencyLink(node.id, node.dependsOn[k])
  {
    DependenciesLength(node, n);
    DependenciesLength(node, n - 1);
    if k < n - 1 {
      DependenciesAre(node, n - 1, k);
    }
  }

  /** The relationships of one item: its parent link if it has a parent, and then one
      link for each dependency, in the order of the plan. */
  lemma LinksAre(node: PlanNode)
    ensures var links, up := LinksOf(node), if node.parent != "" then 1 else 0;
            && |links| == up + |node.dependsOn|
            && (up == 1 ==> links[0] == ParentLink(node.id, node.parent))
            && forall k :: 0 <= k < |node.dependsOn| ==>
                 links[up + k] == DependencyLink(node.id, node.dependsOn[k])
  {
    var n := |node.dependsOn|;
    DependenciesLength(node, n);
    forall k | 0 <= k < n
      ensures Dependencies(node, n)[k] == DependencyLink(node.id, node.dependsOn[k])
    {
      DependenciesAre(node, n, k);
    }
    hide Dependencies;
  }

  lemma NamedBelow(m: Mapping, g: Plan, n: nat, k: nat)
    requires Placeable(m, g) && n < |g| && k < |Section(m, g, n)| && g[n].id != ""
    ensures Section(m, g, n)[k].id != ""
  {
    hide UniqueIDs, Section, LevelsBelow, Mapped, SlugOf;
    SectionHead(m, g, n);
    if k > 0 {
      IntermediateIs(m, g, n, k);
    }
  }

  /** An item of the preview is a root exactly when it is a plan item without a
      parent. */
  lemma RootsAreRoots(m: Mapping, g: Plan, q: nat) returns (n: nat, k: nat)
    requires Resolvable(m, g) && q < |Items(m, g)|
    ensures n < |g| && k < |Section(m, g, n)| && q == |Sections(m, g, n)| + k
    ensures Items(m, g)[q].parent == "" <==> k == 0 && g[n].parentID == ""
  {
    hide UniqueIDs, Sections, Section, FirstProblem, LevelsBelow, Mapped, LevelOf, Above;
    n, k := SectionOf(m, g, |g|, q);
    SectionHead(m, g, n);
    if k == 0 {
      if g[n].parentID != "" {
        var p, k' := ChildLinked(m, g, n);
        NamedBelow(m, g, p, k');
      }
    } else {
      var i := ChildThrough(m, g, n, k - 1);
      SectionRest(m, g, n, k - 1);
      RestGaps(m, g, n, k - 1);
      var up := AboveIs(m, g, n, LevelsBelow(m, g, n)[k - 1]);
      NamedBelow(m, g, n, up);
    }
  }

  /** Every plan item is in the preview as the plan has it, on the level that
      lists its kind. */
  lemma PlanItemKept(m: Mapping, g: Plan, i: nat)
    requires Resolvable(m, g) && i < |g|
    ensures |Sections(m, g, i)| < |Items(m, g)|
    ensures var x := Items(m, g)[|Sections(m, g, i)|];
            && x.id == g[i].id && x.title == g[i].title && x.dependsOn == g[i].dependsOn
            && OnLevel(m, g[i].kind, x.level) && x.parentOf == "" && x.members == []
  {
    hide UniqueIDs, Sections, Section, FirstProblem, LevelsBelow, LevelOf, Above, OnLevel;
    SectionHead(m, g, i);
    SectionAt(m, g, |g|, i, 0);
    OnItemLevel(m, g, i, LevelOfItem(m, g, i));
  }

  lemma {:induction false} DependencyIn(node: PlanNode, n: nat, from: string, to: string)
    requires n <= |node.dependsOn|
    ensures DependencyLink(from, to) in Dependencies(node, n) <==> node.id == from && to in node.dependsOn[..n]
  {
    if n > 0 {
      DependencyIn(node, n - 1, from, to);
      assert node.dependsOn[..n] == node.dependsOn[..n - 1] + [node.dependsOn[n - 1]];
    }
  }

  lemma DependencyInLinks(node: PlanNode, from: string, to: string)
    ensures DependencyLink(from, to) in LinksOf(node) <==> node.id == from && to in node.dependsOn
  {
    DependencyIn(node, |node.dependsOn|, from, to);
    assert node.dependsOn[..|node.dependsOn|] == node.dependsOn;
  }

  lemma {:induction false} LinkIn(nodes: seq<PlanNode>, link: Relationship)
    ensures link in AllLinks(nodes) <==> exists q :: 0 <= q < |nodes| && link in LinksOf(nodes[q])
    decreases |nodes|
  {
    hide LinksOf;
    if nodes != [] {
      var front := nodes[..|nodes| - 1];
      LinkIn(front, link);
      assert forall q :: 0 <= q < |front| ==> front[q] == nodes[q];
    }
  }

  /** The dependency links of a preview are exactly those of its plan. */
  lemma DependenciesKept(m: Mapping, g: Plan, from: string, to: string)
    requires Resolvable(m, g)
    ensures DependencyLink(from, to) in AllLinks(Items(m, g))
            <==> exists i :: 0 <= i < |g| && g[i].id == from && to in g[i].dependsOn
  {
    hide UniqueIDs, Sections, Section, FirstProblem, LevelsBelow, Mapped, LevelOf, AllLinks, LinksOf, Placeable;
    var items, link := Items(m, g), DependencyLink(from, to);
    LinkIn(items, link);
    if link in AllLinks(items) {
      var q: nat :| q < |items| && link in LinksOf(items[q]);
      DependencyInLinks(items[q], from, to);
      var n, k := SectionOf(m, g, |g|, q);
      PlanItemKept(m, g, n);
      SectionAt(m, g, |g|, n, 0);
      if k > 0 {
        IntermediateIs(m, g, n, k);
      }
    }
    if i: nat :| i < |g| && g[i].id == from && to in g[i].dependsOn {
      PlanItemKept(m, g, i);
      DependencyInLinks(items[|Sections(m, g, i)|], from, to);
    }
  }
}
