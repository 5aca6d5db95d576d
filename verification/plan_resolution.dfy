/** The plan resolver: every item on its configured level, and one shared
    intermediate item per parent and required level that a parent link skips
    (internal/azuredevops/plan.go). */
module PlanResolution {
  import opened Options
  import opened AzurePlanning

  datatype PlanItem = PlanItem(id: string, title: string, kind: string, parentID: string, dependsOn: seq<string>)

  type Plan = seq<PlanItem>

  /** A child an intermediate item stands above, as its description names it. */
  datatype Member = Member(title: string, id: string)

  datatype PlanNode = PlanNode(id: string, title: string, level: nat, parent: string, members: seq<Member>,
                               parentOf: string, dependsOn: seq<string>)

  datatype Relationship = ParentLink(from: string, to: string) | DependencyLink(from: string, to: string)

  datatype Preview = Preview(items: seq<PlanNode>, links: seq<Relationship>)

  datatype Problem =
    | Unmapped(node: string)
    | MissingParent(node: string)
    | NotDeeper(node: string)
    | IdentityShared(node: string, level: nat)
    | IdentityUnavailable(node: string, level: nat)

  datatype Outcome = Resolved(preview: Preview) | Refused(problem: Problem)

  const MAX_IDENTITY: nat := 128

  // ---------- levels

  /** `level` lists `kind`, and no level below it does. */
  predicate OnLevel(m: Mapping, kind: string, level: nat) {
    && level < |m| && kind in m[level].kinds
    && forall l :: level < l < |m| ==> kind !in m[l].kinds
  }

  /** The level that maps a kind among the first `n` levels, or -1. */
  function LevelOf(m: Mapping, n: nat, kind: string): (level: int)
    requires n <= |m|
    ensures -1 <= level < n
  {
    if n == 0 then -1 else if kind in m[n - 1].kinds then n - 1 else LevelOf(m, n - 1, kind)
  }

  lemma {:induction false} LastListing(m: Mapping, n: nat, kind: string)
    requires n <= |m|
    ensures LevelOf(m, n, kind) >= 0 ==> kind in m[LevelOf(m, n, kind)].kinds
    ensures forall l :: LevelOf(m, n, kind) < l < n ==> kind !in m[l].kinds
  {
    if n > 0 && kind !in m[n - 1].kinds {
      LastListing(m, n - 1, kind);
    }
  }

  /** The level of a kind is the last one that lists it, and -1 exactly when none
      does. */
  lemma LevelIsLast(m: Mapping, kind: string, level: nat)
    ensures LevelOf(m, |m|, kind) == level <==> OnLevel(m, kind, level)
    ensures LevelOf(m, |m|, kind) < 0 <==> forall l :: 0 <= l < |m| ==> kind !in m[l].kinds
  {
    hide LevelOf;
    LastListing(m, |m|, kind);
  }

  /** The required levels strictly between two levels, from the top down. */
  function Gaps(m: Mapping, top: nat, bottom: nat): (levels: seq<nat>)
    requires bottom <= |m|
    ensures forall k :: 0 <= k < |levels| ==> top < levels[k] < bottom && m[levels[k]].required
    ensures forall j, k :: 0 <= j < k < |levels| ==> levels[j] < levels[k]
  {
    if bottom <= top + 1 then []
    else Gaps(m, top, bottom - 1) + if m[bottom - 1].required then [bottom - 1] else []
  }

  // ---------- what a successful resolution consists of

  predicate UniqueIDs(g: Plan) {
    forall i, j :: 0 <= i < j < |g| ==> g[i].id != g[j].id
  }

  predicate Mapped(m: Mapping, g: Plan) {
    forall i :: 0 <= i < |g| ==> LevelOf(m, |m|, g[i].kind) >= 0
  }

  /** A plan the resolver places: unique identities, every kind on a level. */
  predicate Placeable(m: Mapping, g: Plan) {
    UniqueIDs(g) && Mapped(m, g)
  }

  function PlacedNode(m: Mapping, item: PlanItem): PlanNode
    requires LevelOf(m, |m|, item.kind) >= 0
  {
    PlanNode(item.id, item.title, LevelOf(m, |m|, item.kind), item.parentID, [], "", item.dependsOn)
  }

  /** The plan items by identity, before any parent link is resolved. */
  function Placed(m: Mapping, g: Plan): (nodes: map<string, PlanNode>)
    requires Placeable(m, g)
    ensures forall i :: 0 <= i < |g| ==> g[i].id in nodes && nodes[g[i].id] == PlacedNode(m, g[i])
    ensures forall id :: id in nodes ==> nodes[id].level < |m| && nodes[id].id == id
    ensures forall id :: id in nodes ==> exists i :: 0 <= i < |g| && g[i].id == id
  {
    map i | 0 <= i < |g| :: g[i].id := PlacedNode(m, g[i])
  }

  /** One child below a parent, and the level its parent link ends at. */
  datatype Reach = Reach(member: Member, level: nat)

  /** The children of `parent` among the first `n` items, in plan order. */
  function Reaches(m: Mapping, g: Plan, parent: string, n: nat): seq<Reach>
    requires n <= |g| && Mapped(m, g)
  {
    if n == 0 then []
    else
      var item := g[n - 1];
      Reaches(m, g, parent, n - 1)
      + if parent != "" && item.parentID == parent
        then [Reach(Member(item.title, item.id), LevelOf(m, |m|, item.kind))] else []
  }

  function Deepest(rs: seq<Reach>, top: nat): (level: nat)
    ensures level >= top
    ensures forall r :: r in rs ==> r.level <= level
    ensures level == top || exists r :: r in rs && r.level == level
    decreases |rs|
  {
    if rs == [] then top
    else
      var rest := Deepest(rs[..|rs| - 1], top);
      assert rs == rs[..|rs| - 1] + [rs[|rs| - 1]];
      if rs[|rs| - 1].level > rest then rs[|rs| - 1].level else rest
  }

  /** The children that pass through `level` on the way to their own. */
  function Through(rs: seq<Reach>, level: nat): seq<Member>
    decreases |rs|
  {
    if rs == [] then []
    else Through(rs[..|rs| - 1], level)
         + if rs[|rs| - 1].level > level then [rs[|rs| - 1].member] else []
  }

  function LevelID(m: Mapping, parent: string, level: nat): string
    requires level < |m|
  {
    IntermediateID(parent, SlugOf(m[level].name))
  }

  /** What an item on `level` below `parent` hangs from: the intermediate item of
      the last required level above it, or the parent itself. */
  function Above(m: Mapping, parent: PlanNode, level: nat): string
    requires level <= |m|
  {
    var gaps := Gaps(m, parent.level, level);
    if gaps == [] then parent.id else LevelID(m, parent.id, gaps[|gaps| - 1])
  }

  function Link(m: Mapping, parent: PlanNode, rs: seq<Reach>, level: nat): PlanNode
    requires level < |m|
  {
    PlanNode(LevelID(m, parent.id, level), parent.title, level, Above(m, parent, level), Through(rs, level),
             parent.id, [])
  }

  predicate Bounded(m: Mapping, rs: seq<Reach>) {
    forall r :: r in rs ==> r.level <= |m|
  }

  /** The intermediate items below one parent. */
  function Chain(m: Mapping, parent: PlanNode, rs: seq<Reach>): (chain: seq<PlanNode>)
    requires parent.level < |m| && Bounded(m, rs)
  {
    var gaps := Gaps(m, parent.level, Deepest(rs, parent.level));
    seq(|gaps|, k requires 0 <= k < |gaps| => Link(m, parent, rs, gaps[k]))
  }

  lemma ReachesBounded(m: Mapping, g: Plan, parent: string, n: nat)
    requires n <= |g| && Mapped(m, g)
    ensures Bounded(m, Reaches(m, g, parent, n))
  {
    if n > 0 {
      ReachesBounded(m, g, parent, n - 1);
    }
  }

  function ChainBelow(m: Mapping, g: Plan, id: string, n: nat): seq<PlanNode>
    requires n <= |g| && Placeable(m, g) && id in Placed(m, g)
  {
    ReachesBounded(m, g, id, n);
    Chain(m, Placed(m, g)[id], Reaches(m, g, id, n))
  }

  // ---------- what makes a plan unresolvable

  function FirstUnmapped(m: Mapping, g: Plan, n: nat): (problem: Option<Problem>)
    requires n <= |g|
    ensures problem == None <==> forall i :: 0 <= i < n ==> LevelOf(m, |m|, g[i].kind) >= 0
  {
    if n == 0 then None
    else if FirstUnmapped(m, g, n - 1) != None then FirstUnmapped(m, g, n - 1)
    else if LevelOf(m, |m|, g[n - 1].kind) < 0 then Some(Unmapped(g[n - 1].id))
    else None
  }

  predicate Unavailable(m: Mapping, g: Plan, id: string)
    requires Placeable(m, g)
  {
    id in Placed(m, g) || |id| > MAX_IDENTITY
  }

  /** The first required level above `bottom` whose identity cannot be used. */
  function FirstUnavailable(m: Mapping, g: Plan, parent: PlanNode, bottom: nat): (problem: Option<Problem>)
    requires bottom <= |m| && Placeable(m, g)
  {
    if bottom <= parent.level + 1 then None
    else if FirstUnavailable(m, g, parent, bottom - 1) != None then FirstUnavailable(m, g, parent, bottom - 1)
    else if m[bottom - 1].required && Unavailable(m, g, LevelID(m, parent.id, bottom - 1))
    then Some(IdentityUnavailable(parent.id, bottom - 1))
    else None
  }

  function ItemProblem(m: Mapping, g: Plan, i: nat): Option<Problem>
    requires i < |g| && Placeable(m, g)
  {
    var nodes := Placed(m, g);
    if g[i].parentID == "" then None
    else if g[i].parentID !in nodes then Some(MissingParent(g[i].id))
    else if nodes[g[i].id].level <= nodes[g[i].parentID].level then Some(NotDeeper(g[i].id))
    else FirstUnavailable(m, g, nodes[g[i].parentID], nodes[g[i].id].level)
  }

  function FirstProblem(m: Mapping, g: Plan, n: nat): (problem: Option<Problem>)
    requires n <= |g| && Placeable(m, g)
    ensures problem == None <==> forall i :: 0 <= i < n ==> ItemProblem(m, g, i) == None
  {
    if n == 0 then None
    else if FirstProblem(m, g, n - 1) != None then FirstProblem(m, g, n - 1)
    else ItemProblem(m, g, n - 1)
  }

  // ---------- the resolution as a whole

  /** A plan item with its parent link resolved. */
  function LinkedNode(m: Mapping, g: Plan, i: nat): PlanNode
    requires i < |g| && Placeable(m, g)
  {
    var nodes := Placed(m, g);
    var node := nodes[g[i].id];
    if g[i].parentID != "" && g[i].parentID in nodes
    then node.(parent := Above(m, nodes[g[i].parentID], node.level))
    else node
  }

  /** One plan item with the intermediate items below it. */
  function Section(m: Mapping, g: Plan, i: nat): seq<PlanNode>
    requires i < |g| && Placeable(m, g)
  {
    [LinkedNode(m, g, i)] + ChainBelow(m, g, g[i].id, |g|)
  }

  function Sections(m: Mapping, g: Plan, n: nat): seq<PlanNode>
    requires n <= |g| && Placeable(m, g)
  {
    if n == 0 then [] else Sections(m, g, n - 1) + Section(m, g, n - 1)
  }

  function Dependencies(node: PlanNode, n: nat): seq<Relationship>
    requires n <= |node.dependsOn|
  {
    if n == 0 then [] else Dependencies(node, n - 1) + [DependencyLink(node.id, node.dependsOn[n - 1])]
  }

  function LinksOf(node: PlanNode): seq<Relationship> {
    (if node.parent != "" then [ParentLink(node.id, node.parent)] else [])
    + Dependencies(node, |node.dependsOn|)
  }

  function AllLinks(nodes: seq<PlanNode>): seq<Relationship>
    decreases |nodes|
  {
    if nodes == [] then [] else AllLinks(nodes[..|nodes| - 1]) + LinksOf(nodes[|nodes| - 1])
  }

  function Resolution(m: Mapping, g: Plan): Outcome
    requires UniqueIDs(g)
  {
    if FirstUnmapped(m, g, |g|) != None then Refused(FirstUnmapped(m, g, |g|).value)
    else if FirstProblem(m, g, |g|) != None then Refused(FirstProblem(m, g, |g|).value)
    else
      var items := Sections(m, g, |g|);
      Resolved(Preview(items, AllLinks(items)))
  }

  // ---------- facts the resolver rests on

  /** The gaps above a level are the first of the gaps above a deeper one. */
  lemma {:induction false} GapsPrefix(m: Mapping, top: nat, level: nat, bottom: nat)
    requires top <= level <= bottom <= |m|
    ensures Gaps(m, top, level) <= Gaps(m, top, bottom)
    ensures top < level < bottom && m[level].required ==>
              && |Gaps(m, top, level)| < |Gaps(m, top, bottom)|
              && Gaps(m, top, bottom)[|Gaps(m, top, level)|] == level
    decreases bottom - level
  {
    if level < bottom {
      GapsPrefix(m, top, level, bottom - 1);
    }
  }

  lemma ThroughAppend(rs: seq<Reach>, r: Reach, level: nat)
    ensures Through(rs + [r], level) == Through(rs, level) + if r.level > level then [r.member] else []
    ensures forall top: nat ::
              Deepest(rs + [r], top) == if r.level > Deepest(rs, top) then r.level else Deepest(rs, top)
  {
    assert (rs + [r])[..|rs|] == rs;
  }

  lemma {:induction false} NoneThrough(rs: seq<Reach>, level: nat)
    requires forall r :: r in rs ==> r.level <= level
    ensures Through(rs, level) == []
    decreases |rs|
  {
    if rs != [] {
      NoneThrough(rs[..|rs| - 1], level);
    }
  }

  /** Levels tell the identities below one parent apart. */
  lemma LevelIDsDistinct(m: Mapping, alnum: char -> bool, parent: string, a: nat, b: nat)
    requires ValidMapping(m, alnum) && a < |m| && b < |m|
    requires LevelID(m, parent, a) == LevelID(m, parent, b)
    ensures a == b
  {
    hide SlugOf;
    SlugIsCanonical(m[a].name);
    SlugIsCanonical(m[b].name);
    IdentitiesInjective(parent, SlugOf(m[a].name), parent, SlugOf(m[b].name));
  }
}
