/** The resolver's loops over its node and intermediate maps
    (internal/azuredevops/plan.go:97-187). */
module PlanResolver {
  import opened Options
  import opened AzurePlanning
  import opened PlanResolution

  // ---------- what one child adds below its parent, level by level

  /** `rs` and a further child whose link has come down to `level`. */
  function Reaching(rs: seq<Reach>, member: Member, level: nat): seq<Reach> {
    rs + [Reach(member, level)]
  }

  lemma ReachingDeeper(rs: seq<Reach>, member: Member, level: nat, top: nat)
    ensures forall l: nat :: l != level ==>
              Through(Reaching(rs, member, level + 1), l) == Through(Reaching(rs, member, level), l)
    ensures Through(Reaching(rs, member, level + 1), level) == Through(Reaching(rs, member, level), level) + [member]
    ensures Through(Reaching(rs, member, level), level) == Through(rs, level)
    ensures level < Deepest(rs, top) ==>
              && Deepest(Reaching(rs, member, level), top) == Deepest(rs, top)
              && Deepest(Reaching(rs, member, level + 1), top) == Deepest(rs, top)
    ensures level >= Deepest(rs, top) ==>
              && Deepest(Reaching(rs, member, level), top) == level
              && Deepest(Reaching(rs, member, level + 1), top) == level + 1
  {
    hide Through, Deepest;
    ThroughAppend(rs, Reach(member, level), level);
    ThroughAppend(rs, Reach(member, level + 1), level);
    forall l: nat | l != level
      ensures Through(Reaching(rs, member, level + 1), l) == Through(Reaching(rs, member, level), l)
    {
      ThroughAppend(rs, Reach(member, level), l);
      ThroughAppend(rs, Reach(member, level + 1), l);
    }
  }

  /** A level the chain already has: its item gains the member. */
  lemma ChainMeets(m: Mapping, parent: PlanNode, rs: seq<Reach>, member: Member, level: nat)
    requires parent.level < level < |m| && Bounded(m, rs) && m[level].required
    requires level < Deepest(rs, parent.level)
    ensures Bounded(m, Reaching(rs, member, level)) && Bounded(m, Reaching(rs, member, level + 1))
    ensures var was := Chain(m, parent, Reaching(rs, member, level));
            var k := |Gaps(m, parent.level, level)|;
            && k < |was| && was[k].level == level && was[k].id == LevelID(m, parent.id, level)
            && Chain(m, parent, Reaching(rs, member, level + 1))
               == was[k := was[k].(members := was[k].members + [member])]
  {
    hide LevelID, Above, Through, Deepest, Gaps;
    ReachingDeeper(rs, member, level, parent.level);
    GapsPrefix(m, parent.level, level, Deepest(rs, parent.level));
  }

  lemma GapsStep(m: Mapping, top: nat, level: nat)
    requires top < level < |m| && m[level].required
    ensures Gaps(m, top, level + 1) == Gaps(m, top, level) + [level]
  {
  }

  /** A level below every other child: the chain gains an item. */
  lemma ChainExtends(m: Mapping, parent: PlanNode, rs: seq<Reach>, member: Member, level: nat)
    requires parent.level < level < |m| && Bounded(m, rs) && m[level].required
    requires level >= Deepest(rs, parent.level)
    ensures Bounded(m, Reaching(rs, member, level)) && Bounded(m, Reaching(rs, member, level + 1))
    ensures var was := Chain(m, parent, Reaching(rs, member, level));
            && |was| == |Gaps(m, parent.level, level)|
            && Chain(m, parent, Reaching(rs, member, level + 1))
               == was + [Link(m, parent, [], level).(members := [member])]
  {
    hide LevelID, Above, Through, Deepest, Gaps;
    ReachingDeeper(rs, member, level, parent.level);
    NoneThrough(rs, level);
    GapsStep(m, parent.level, level);
    assert Through(rs, level) + [member] == [member];
  }

  /** A level no parent link needs an item on. */
  lemma ChainSkips(m: Mapping, parent: PlanNode, rs: seq<Reach>, member: Member, level: nat)
    requires parent.level < level < |m| && Bounded(m, rs) && !m[level].required
    ensures Bounded(m, Reaching(rs, member, level)) && Bounded(m, Reaching(rs, member, level + 1))
    ensures Chain(m, parent, Reaching(rs, member, level + 1)) == Chain(m, parent, Reaching(rs, member, level))
  {
    hide LevelID, Above, Through, Deepest;
    ReachingDeeper(rs, member, level, parent.level);
  }

  /** A child whose link has not come down yet changes nothing. */
  lemma ChainStarts(m: Mapping, parent: PlanNode, rs: seq<Reach>, member: Member)
    requires parent.level + 1 < |m| + 1 && Bounded(m, rs)
    ensures Bounded(m, Reaching(rs, member, parent.level + 1))
    ensures Chain(m, parent, Reaching(rs, member, parent.level + 1)) == Chain(m, parent, rs)
  {
    hide LevelID, Above, Through, Deepest;
    var top := parent.level;
    ThroughAppend(rs, Reach(member, top + 1), top);
    assert Deepest(Reaching(rs, member, top + 1), top) == Deepest(rs, top) || Deepest(rs, top) == top;
    forall l: nat | l > top ensures Through(Reaching(rs, member, top + 1), l) == Through(rs, l) {
      ThroughAppend(rs, Reach(member, top + 1), l);
    }
  }

  /** An item that is no child of `id` leaves the chain below `id` alone; a child
      extends its reaches by one. */
  lemma ReachesStep(m: Mapping, g: Plan, id: string, n: nat)
    requires n < |g| && Mapped(m, g)
    ensures id == "" || g[n].parentID != id ==> Reaches(m, g, id, n + 1) == Reaches(m, g, id, n)
    ensures id != "" && g[n].parentID == id ==>
              Reaches(m, g, id, n + 1)
              == Reaching(Reaches(m, g, id, n), Member(g[n].title, g[n].id), LevelOf(m, |m|, g[n].kind))
  {
  }

  function ItemsBelow(intermediates: map<string, seq<PlanNode>>, id: string): seq<PlanNode> {
    if id in intermediates then intermediates[id] else []
  }

  /** Two states agree below everything but `parent`. */
  ghost predicate OthersKept(before: map<string, seq<PlanNode>>, after: map<string, seq<PlanNode>>, parent: string) {
    forall id :: id != parent ==> ItemsBelow(after, id) == ItemsBelow(before, id)
  }

  lemma NoneChanged(intermediates: map<string, seq<PlanNode>>, parent: string)
    ensures OthersKept(intermediates, intermediates, parent)
  {
  }

  lemma StillKept(first: map<string, seq<PlanNode>>, was: map<string, seq<PlanNode>>, now: map<string, seq<PlanNode>>,
                  parent: string, list: seq<PlanNode>)
    requires OthersKept(first, was, parent) && OthersKept(was, now, parent)
    ensures OthersKept(first, now[parent := list], parent)
  {
  }

  /** The first `n` items have their parents resolved. */
  ghost predicate NodesLinked(m: Mapping, g: Plan, nodes: map<string, PlanNode>, n: nat)
    requires n <= |g| && Placeable(m, g)
  {
    && nodes.Keys == Placed(m, g).Keys
    && (forall i :: 0 <= i < n ==> nodes[g[i].id] == LinkedNode(m, g, i))
    && (forall i :: n <= i < |g| ==> nodes[g[i].id] == PlacedNode(m, g[i]))
  }

  ghost predicate ChainsLinked(m: Mapping, g: Plan, intermediates: map<string, seq<PlanNode>>, n: nat)
    requires n <= |g| && Placeable(m, g)
  {
    forall id :: id in Placed(m, g) ==>
      && ItemsBelow(intermediates, id) == ChainBelow(m, g, id, n)
      && Available(m, g, ItemsBelow(intermediates, id))
  }

  ghost predicate Linked(m: Mapping, g: Plan, nodes: map<string, PlanNode>, intermediates: map<string, seq<PlanNode>>,
                         n: nat)
    requires n <= |g| && Placeable(m, g)
  {
    NodesLinked(m, g, nodes, n) && ChainsLinked(m, g, intermediates, n)
  }

  /** Every kind that one of the first `n` levels lists, with the last of these. */
  ghost predicate TableUpTo(m: Mapping, n: nat, levelOf: map<string, nat>)
    requires n <= |m|
  {
    && (forall kind :: kind in levelOf <==> exists l :: 0 <= l < n && kind in m[l].kinds)
    && (forall kind :: kind in levelOf ==>
          && levelOf[kind] < n && kind in m[levelOf[kind]].kinds
          && forall l :: levelOf[kind] < l < n ==> kind !in m[l].kinds)
  }

  ghost predicate LevelTable(m: Mapping, levelOf: map<string, nat>) {
    TableUpTo(m, |m|, levelOf)
  }

  /** `kinds` entered on `level` over what was there. */
  ghost predicate Overlaid(above: map<string, nat>, kinds: seq<string>, level: nat, levelOf: map<string, nat>) {
    && (forall kind :: kind in levelOf <==> kind in above || kind in kinds)
    && (forall kind :: kind in levelOf ==> levelOf[kind] == if kind in kinds then level else above[kind])
  }

  lemma OverlayStep(above: map<string, nat>, kinds: seq<string>, level: nat, levelOf: map<string, nat>, kind: string)
    requires Overlaid(above, kinds, level, levelOf)
    ensures Overlaid(above, kinds + [kind], level, levelOf[kind := level])
  {
  }

  lemma NothingListed(m: Mapping)
    ensures TableUpTo(m, 0, map[])
  {
  }

  lemma NothingOverlaid(above: map<string, nat>, level: nat)
    ensures Overlaid(above, [], level, above)
  {
  }

  lemma TableStep(m: Mapping, n: nat, above: map<string, nat>, levelOf: map<string, nat>)
    requires n < |m| && TableUpTo(m, n, above) && Overlaid(above, m[n].kinds, n, levelOf)
    ensures TableUpTo(m, n + 1, levelOf)
  {
    forall kind
      ensures kind in levelOf <==> exists l :: 0 <= l < n + 1 && kind in m[l].kinds
    {
    }
  }

  lemma LooksUp(m: Mapping, levelOf: map<string, nat>, kind: string)
    requires LevelTable(m, levelOf)
    ensures kind in levelOf <==> LevelOf(m, |m|, kind) >= 0
    ensures kind in levelOf ==> levelOf[kind] == LevelOf(m, |m|, kind)
  {
    hide LevelOf;
    LevelIsLast(m, kind, if kind in levelOf then levelOf[kind] else 0);
  }

  // ---------- the resolver

  class Resolver {
    const m: Mapping
    const g: Plan
    var nodes: map<string, PlanNode>
    var intermediates: map<string, seq<PlanNode>>

    constructor (m: Mapping, g: Plan)
      ensures this.m == m && this.g == g && nodes == map[] && intermediates == map[]
    {
      this.m, this.g, nodes, intermediates := m, g, map[], map[];
    }

    function Below(id: string): seq<PlanNode>
      reads this
    {
      ItemsBelow(intermediates, id)
    }

    /** levelOf of the source: a later level overrides an earlier one. */
    method Levels() returns (levelOf: map<string, nat>)
      ensures LevelTable(m, levelOf)
    {
      hide TableUpTo, Overlaid;
      levelOf := map[];
      NothingListed(m);
      for index := 0 to |m|
        invariant TableUpTo(m, index, levelOf)
      {
        ghost var above, kinds := levelOf, m[index].kinds;
        NothingOverlaid(above, index);
        for k := 0 to |m[index].kinds|
          invariant Overlaid(above, kinds[..k], index, levelOf)
        {
          OverlayStep(above, kinds[..k], index, levelOf, kinds[k]);
          assert kinds[..k + 1] == kinds[..k] + [kinds[k]];
          levelOf := levelOf[m[index].kinds[k] := index];
        }
        assert kinds[..|kinds|] == kinds;
        TableStep(m, index, above, levelOf);
      }
    }

    /** Places every item on its level, or reports the first kind no level maps. */
    method Place() returns (problem: Option<Problem>)
      requires UniqueIDs(g) && nodes == map[] && intermediates == map[]
      modifies this`nodes
      ensures problem == FirstUnmapped(m, g, |g|)
      ensures problem == None ==> Linked(m, g, nodes, intermediates, 0)
    {
      hide UniqueIDs, Linked, Placed, LevelTable;
      var levelOf := Levels();
      for n := 0 to |g|
        invariant FirstUnmapped(m, g, n) == None
        invariant PlacedUpTo(m, g, nodes, n)
      {
        hide LevelOf, PlacedUpTo;
        var item := g[n];
        LooksUp(m, levelOf, item.kind);
        if item.kind !in levelOf {
          FirstUnmappedStays(m, g, n + 1, |g|);
          return Some(Unmapped(item.id));
        }
        var node := PlanNode(item.id, item.title, levelOf[item.kind], item.parentID, [], "", item.dependsOn);
        PlaceStep(m, g, nodes, n);
        nodes := nodes[item.id := node];
      }
      AllPlaced(m, g, nodes);
      return None;
    }

    /** The position, below `parent`, of the intermediate item of `level`, which is
        created on first use. Two levels never share an identity here. */
    method IntermediateNode(parent: PlanNode, level: nat, above: string, ghost rs: seq<Reach>, ghost member: Member,
                            ghost alnum: char -> bool)
      returns (problem: Option<Problem>, k: nat)
      requires ValidMapping(m, alnum) && Placeable(m, g) && nodes.Keys == Placed(m, g).Keys
      requires parent.level < level < |m| && m[level].required && Bounded(m, rs)
      requires above == Above(m, parent, level)
      requires Bounded(m, Reaching(rs, member, level)) && Bounded(m, Reaching(rs, member, level + 1))
      requires Below(parent.id) == Chain(m, parent, Reaching(rs, member, level))
      requires Available(m, g, Below(parent.id))
      modifies this`intermediates
      ensures problem == if Unavailable(m, g, LevelID(m, parent.id, level))
                         then Some(IdentityUnavailable(parent.id, level)) else None
      ensures problem == None ==>
                && k < |Below(parent.id)|
                && Below(parent.id)[k].id == LevelID(m, parent.id, level)
                && Below(parent.id)[k := Below(parent.id)[k].(members := Below(parent.id)[k].members + [member])]
                   == Chain(m, parent, Reaching(rs, member, level + 1))
                && Available(m, g, Below(parent.id))
                && parent.id in intermediates
                && OthersKept(old(intermediates), intermediates, parent.id)
    {
      hide Placed, Placeable, Above, Gaps, Deepest, Through, SlugOf, ValidMapping;
      var id := LevelID(m, parent.id, level);
      var list := Below(parent.id);
      problem, k := None, 0;
      for i := 0 to |list|
        invariant forall j :: 0 <= j < i ==> list[j].id != id
        invariant intermediates == old(intermediates)
      {
        if list[i].id == id {
          SoughtAt(m, parent, rs, member, level, i, alnum);
          if list[i].level != level {
            assert false;
            problem := Some(IdentityShared(parent.id, level));
            return;
          }
          return None, i;
        }
      }
      SoughtMissing(m, parent, rs, member, level);
      if id in nodes || |id| > MAX_IDENTITY {
        return Some(IdentityUnavailable(parent.id, level)), 0;
      }
      var node := PlanNode(id, parent.title, level, above, [], parent.id, []);
      intermediates := intermediates[parent.id := list + [node]];
      assert node.members + [member] == [member];
      assert (list + [node])[|list| := node.(members := [member])] == list + [node.(members := [member])];
      return None, |list|;
    }

    /** Hangs one item below its parent, through an intermediate item for every
        required level the link skips. */
    method LinkItem(n: nat, ghost alnum: char -> bool) returns (problem: Option<Problem>)
      requires ValidMapping(m, alnum) && Placeable(m, g) && n < |g|
      requires Linked(m, g, nodes, intermediates, n)
      modifies this
      ensures problem == ItemProblem(m, g, n)
      ensures problem == None ==> Linked(m, g, nodes, intermediates, n + 1)
    {
      hide OthersKept, Linked, NodesLinked, ChainsLinked, Placeable, Mapped, ValidMapping, Chain, FirstUnavailable;
      hide Above, Available, Bounded, Unavailable, LevelID;
      hide Placed, PlacedNode, Gaps, LevelOf;
      var item := g[n];
      LinkedFacts(m, g, nodes, intermediates, n);
      BothLinked(m, g, nodes, intermediates, n);
      if item.parentID == "" {
        RootLinked(m, g, nodes, intermediates, n);
        return None;
      }
      var node := nodes[item.id];
      if item.parentID !in nodes {
        return Some(MissingParent(item.id));
      }
      var parent := nodes[item.parentID];
      ParentFacts(m, g, nodes, intermediates, n);
      if node.level <= parent.level {
        return Some(NotDeeper(item.id));
      }
      ghost var rs, member := Reaches(m, g, parent.id, n), Member(item.title, item.id);
      var above := parent.id;
      StartLink(m, g, parent, rs, member);
      NoneChanged(intermediates, parent.id);
      for level := parent.level + 1 to node.level
        invariant nodes == old(nodes)
        invariant Bounded(m, Reaching(rs, member, level))
        invariant Below(parent.id) == Chain(m, parent, Reaching(rs, member, level))
        invariant Available(m, g, Below(parent.id))
        invariant above == Above(m, parent, level)
        invariant FirstUnavailable(m, g, parent, level) == None
        invariant OthersKept(old(intermediates), intermediates, parent.id)
      {
        StepLink(m, g, parent, rs, member, level);
        if m[level].required {
          var k;
          ghost var was := intermediates;
          problem, k := IntermediateNode(parent, level, above, rs, member, alnum);
          if problem != None {
            UnavailableStays(m, g, parent, level + 1, node.level);
            return;
          }
          ghost var placed := intermediates;
          var list := intermediates[parent.id];
          var members := list[k].members + [Member(item.title, item.id)];
          intermediates := intermediates[parent.id := list[k := list[k].(members := members)]];
          MembersAvailable(m, g, list, Below(parent.id));
          StillKept(old(intermediates), was, placed, parent.id, intermediates[parent.id]);
          above := list[k].id;
        }
      }
      nodes := nodes[item.id := node.(parent := above)];
      NodeLinked(m, g, old(nodes), n);
      ChainLinked(m, g, parent, old(intermediates), intermediates, n);
      BothLinked(m, g, nodes, intermediates, n + 1);
      return None;
    }

    /** The whole plan, resolved or refused with the first problem there is. */
    method Resolve(ghost alnum: char -> bool) returns (outcome: Outcome)
      requires ValidMapping(m, alnum) && UniqueIDs(g) && nodes == map[] && intermediates == map[]
      modifies this
      ensures outcome == Resolution(m, g)
    {
      hide ValidMapping, UniqueIDs, Linked, ItemProblem, Sections, AllLinks;
      var problem := Place();
      if problem != None {
        return Refused(problem.value);
      }
      for n := 0 to |g|
        invariant Linked(m, g, nodes, intermediates, n)
        invariant FirstProblem(m, g, n) == None
      {
        problem := LinkItem(n, alnum);
        if problem != None {
          ProblemStays(m, g, n + 1, |g|);
          return Refused(problem.value);
        }
      }
      var preview := Render();
      return Resolved(preview);
    }

    /** Every item with the intermediate items below it, in plan order. */
    method Render() returns (preview: Preview)
      requires Placeable(m, g) && Linked(m, g, nodes, intermediates, |g|)
      ensures preview == Preview(Sections(m, g, |g|), AllLinks(Sections(m, g, |g|)))
    {
      hide Placeable, Linked, Section, AllLinks;
      NoLinks();
      var items: seq<PlanNode> := [];
      var links: seq<Relationship> := [];
      for n := 0 to |g|
        invariant items == Sections(m, g, n)
        invariant links == AllLinks(items)
      {
        SectionLinked(m, g, nodes, intermediates, n);
        var section := [nodes[g[n].id]] + Below(g[n].id);
        ghost var before := items;
        for k := 0 to |section|
          invariant items == before + section[..k]
          invariant links == AllLinks(items)
        {
          assert before + section[..k + 1] == (before + section[..k]) + [section[k]];
          var more := NodeRelationships(section[k]);
          OneMoreLinked(items, section[k]);
          items := items + [section[k]];
          links := links + more;
        }
        assert section[..|section|] == section;
      }
      return Preview(items, links);
    }

    method NodeRelationships(node: PlanNode) returns (links: seq<Relationship>)
      ensures links == LinksOf(node)
    {
      links := [];
      if node.parent != "" {
        links := [ParentLink(node.id, node.parent)];
      }
      ghost var parents := links;
      for n := 0 to |node.dependsOn|
        invariant links == parents + Dependencies(node, n)
      {
        links := links + [DependencyLink(node.id, node.dependsOn[n])];
      }
    }
  }

  // ---------- the resolver's steps

  lemma NoLinks()
    ensures AllLinks([]) == []
  {
  }

  lemma OneMoreLinked(nodes: seq<PlanNode>, node: PlanNode)
    ensures AllLinks(nodes + [node]) == AllLinks(nodes) + LinksOf(node)
  {
    assert (nodes + [node])[..|nodes|] == nodes;
  }

  lemma LinkedFacts(m: Mapping, g: Plan, nodes: map<string, PlanNode>, intermediates: map<string, seq<PlanNode>>,
                    n: nat)
    requires n < |g| && Placeable(m, g) && Linked(m, g, nodes, intermediates, n)
    ensures nodes.Keys == Placed(m, g).Keys
    ensures Mapped(m, g)
    ensures g[n].id in nodes && nodes[g[n].id] == PlacedNode(m, g[n]) == Placed(m, g)[g[n].id]
    ensures nodes[g[n].id].level == LevelOf(m, |m|, g[n].kind)
  {
    hide UniqueIDs, ChainBelow, ChainsLinked;
  }

  /** A parent is known by its identity, title and level, linked or not. */
  lemma ParentFacts(m: Mapping, g: Plan, nodes: map<string, PlanNode>, intermediates: map<string, seq<PlanNode>>,
                    n: nat)
    requires n < |g| && Placeable(m, g) && Linked(m, g, nodes, intermediates, n)
    requires g[n].parentID != "" && g[n].parentID in nodes
    ensures g[n].parentID in Placed(m, g)
    ensures var p, q := nodes[g[n].parentID], Placed(m, g)[g[n].parentID];
            && p.id == q.id == g[n].parentID && p.title == q.title && p.level == q.level < |m|
            && nodes[g[n].id].level < |m|
            && Bounded(m, Reaches(m, g, p.id, n))
            && ItemsBelow(intermediates, p.id) == Chain(m, p, Reaches(m, g, p.id, n))
            && Available(m, g, ItemsBelow(intermediates, p.id))
            && (forall bottom: nat :: bottom <= |m| ==>
                  && FirstUnavailable(m, g, p, bottom) == FirstUnavailable(m, g, q, bottom)
                  && Above(m, p, bottom) == Above(m, q, bottom))
  {
    hide NodesLinked, ChainsLinked, Placeable, Available, FirstUnavailable, Above, Chain, Placed, Reaches, Bounded;
    KnownParent(m, g, nodes, n);
    var p, q := nodes[g[n].parentID], Placed(m, g)[g[n].parentID];
    ParentAbove(m, g, p, q);
    ParentChain(m, g, intermediates, p, n);
  }

  lemma ParentAbove(m: Mapping, g: Plan, p: PlanNode, q: PlanNode)
    requires Placeable(m, g) && p.level < |m| && p.id == q.id && p.title == q.title && p.level == q.level
    ensures forall bottom: nat :: bottom <= |m| ==>
              && FirstUnavailable(m, g, p, bottom) == FirstUnavailable(m, g, q, bottom)
              && Above(m, p, bottom) == Above(m, q, bottom)
  {
    hide Placeable, FirstUnavailable, Above;
    forall bottom: nat | bottom <= |m|
      ensures FirstUnavailable(m, g, p, bottom) == FirstUnavailable(m, g, q, bottom)
      ensures Above(m, p, bottom) == Above(m, q, bottom)
    {
      SameParent(m, g, p, q, bottom);
    }
  }

  lemma ParentChain(m: Mapping, g: Plan, intermediates: map<string, seq<PlanNode>>, p: PlanNode, n: nat)
    requires n <= |g| && Placeable(m, g) && ChainsLinked(m, g, intermediates, n) && p.id in Placed(m, g)
    requires var q := Placed(m, g)[p.id]; p.id == q.id && p.title == q.title && p.level == q.level
    ensures Bounded(m, Reaches(m, g, p.id, n)) && p.level < |m|
    ensures ItemsBelow(intermediates, p.id) == Chain(m, p, Reaches(m, g, p.id, n))
    ensures Available(m, g, ItemsBelow(intermediates, p.id))
  {
    hide UniqueIDs, Mapped, Available, Chain, Reaches, Bounded, PlacedNode, ItemsBelow;
    ReachesBounded(m, g, p.id, n);
    assert ItemsBelow(intermediates, p.id) == ChainBelow(m, g, p.id, n)
           && Available(m, g, ItemsBelow(intermediates, p.id));
    SameParent(m, g, p, Placed(m, g)[p.id], 0);
  }

  lemma KnownParent(m: Mapping, g: Plan, nodes: map<string, PlanNode>, n: nat)
    requires n < |g| && Placeable(m, g) && NodesLinked(m, g, nodes, n) && g[n].parentID in nodes
    ensures g[n].parentID in Placed(m, g) && g[n].id in nodes
    ensures var p, q := nodes[g[n].parentID], Placed(m, g)[g[n].parentID];
            && p.id == q.id == g[n].parentID && p.title == q.title && p.level == q.level < |m|
            && nodes[g[n].id].level < |m|
  {
    hide UniqueIDs, LevelOf, Above;
    var i :| 0 <= i < |g| && g[i].id == g[n].parentID;
  }

  lemma StartLink(m: Mapping, g: Plan, parent: PlanNode, rs: seq<Reach>, member: Member)
    requires Placeable(m, g) && parent.level < |m| && Bounded(m, rs)
    ensures Bounded(m, Reaching(rs, member, parent.level + 1))
    ensures Chain(m, parent, Reaching(rs, member, parent.level + 1)) == Chain(m, parent, rs)
    ensures Above(m, parent, parent.level + 1) == parent.id
    ensures FirstUnavailable(m, g, parent, parent.level + 1) == None
  {
    ChainStarts(m, parent, rs, member);
  }

  lemma StepLink(m: Mapping, g: Plan, parent: PlanNode, rs: seq<Reach>, member: Member, level: nat)
    requires Placeable(m, g) && parent.level < level < |m| && Bounded(m, rs)
    requires FirstUnavailable(m, g, parent, level) == None
    ensures Bounded(m, Reaching(rs, member, level + 1))
    ensures !m[level].required ==>
              && Chain(m, parent, Reaching(rs, member, level + 1)) == Chain(m, parent, Reaching(rs, member, level))
              && Above(m, parent, level + 1) == Above(m, parent, level)
              && FirstUnavailable(m, g, parent, level + 1) == None
    ensures m[level].required ==>
              && Above(m, parent, level + 1) == LevelID(m, parent.id, level)
              && FirstUnavailable(m, g, parent, level + 1)
                 == if Unavailable(m, g, LevelID(m, parent.id, level))
                    then Some(IdentityUnavailable(parent.id, level)) else None
  {
    hide Chain, LevelID, Placeable, Unavailable;
    if !m[level].required {
      ChainSkips(m, parent, rs, member, level);
    } else {
      GapsStep(m, parent.level, level);
    }
  }

  lemma MembersAvailable(m: Mapping, g: Plan, before: seq<PlanNode>, after: seq<PlanNode>)
    requires Placeable(m, g) && Available(m, g, before)
    requires |after| == |before| && forall j :: 0 <= j < |after| ==> after[j].id == before[j].id
    ensures Available(m, g, after)
  {
    hide Placeable, Unavailable;
  }

  lemma RootLinked(m: Mapping, g: Plan, nodes: map<string, PlanNode>, intermediates: map<string, seq<PlanNode>>, n: nat)
    requires n < |g| && Placeable(m, g) && Linked(m, g, nodes, intermediates, n) && g[n].parentID == ""
    ensures ItemProblem(m, g, n) == None
    ensures Linked(m, g, nodes, intermediates, n + 1)
  {
    hide NodesLinked, ChainsLinked, Placeable;
    RootNodes(m, g, nodes, n);
    RootChains(m, g, intermediates, n);
  }

  lemma RootNodes(m: Mapping, g: Plan, nodes: map<string, PlanNode>, n: nat)
    requires n < |g| && Placeable(m, g) && NodesLinked(m, g, nodes, n) && g[n].parentID == ""
    ensures NodesLinked(m, g, nodes, n + 1)
  {
    hide UniqueIDs, Mapped, Placed, PlacedNode, LinkedNode;
    RootStays(m, g, n);
  }

  lemma RootChains(m: Mapping, g: Plan, intermediates: map<string, seq<PlanNode>>, n: nat)
    requires n < |g| && Placeable(m, g) && ChainsLinked(m, g, intermediates, n) && g[n].parentID == ""
    ensures ChainsLinked(m, g, intermediates, n + 1)
  {
    hide UniqueIDs, Mapped, Available, Chain, Reaches;
    forall id | id in Placed(m, g)
      ensures ChainBelow(m, g, id, n + 1) == ChainBelow(m, g, id, n)
    {
      ReachesStep(m, g, id, n);
    }
  }

  lemma RootStays(m: Mapping, g: Plan, n: nat)
    requires n < |g| && Placeable(m, g) && g[n].parentID == ""
    ensures LinkedNode(m, g, n) == PlacedNode(m, g[n])
  {
  }

  lemma NodeLinked(m: Mapping, g: Plan, nodes: map<string, PlanNode>, n: nat)
    requires n < |g| && Placeable(m, g) && NodesLinked(m, g, nodes, n)
    ensures NodesLinked(m, g, nodes[g[n].id := LinkedNode(m, g, n)], n + 1)
  {
    hide UniqueIDs, LevelOf, PlacedNode, LinkedNode;
    var now := nodes[g[n].id := LinkedNode(m, g, n)];
    assert g[n].id in Placed(m, g);
    forall i | 0 <= i < |g| && i != n
      ensures now[g[i].id] == nodes[g[i].id]
    {
      Different(g, i, n);
    }
  }

  /** The chains once the `n`-th item's link has come down to its own level. */
  lemma ChainLinked(m: Mapping, g: Plan, p: PlanNode, before: map<string, seq<PlanNode>>,
                    after: map<string, seq<PlanNode>>, n: nat)
    requires n < |g| && Placeable(m, g) && ChainsLinked(m, g, before, n)
    requires p.id != "" && p.id == g[n].parentID && p.id in Placed(m, g)
    requires p.title == Placed(m, g)[p.id].title && p.level == Placed(m, g)[p.id].level
    requires var rs := Reaching(Reaches(m, g, p.id, n), Member(g[n].title, g[n].id), LevelOf(m, |m|, g[n].kind));
             Bounded(m, rs) && ItemsBelow(after, p.id) == Chain(m, p, rs) && Available(m, g, ItemsBelow(after, p.id))
    requires OthersKept(before, after, p.id)
    ensures ChainsLinked(m, g, after, n + 1)
  {
    hide UniqueIDs, Available, LevelOf, Chain, PlacedNode, Bounded, Reaches, ItemsBelow;
    SameParent(m, g, p, Placed(m, g)[p.id], 0);
    forall id | id in Placed(m, g)
      ensures ItemsBelow(after, id) == ChainBelow(m, g, id, n + 1) && Available(m, g, ItemsBelow(after, id))
    {
      ReachesStep(m, g, id, n);
      assert ItemsBelow(before, id) == ChainBelow(m, g, id, n) && Available(m, g, ItemsBelow(before, id));
    }
  }

  lemma BothLinked(m: Mapping, g: Plan, nodes: map<string, PlanNode>, intermediates: map<string, seq<PlanNode>>, n: nat)
    requires n <= |g| && Placeable(m, g)
    ensures Linked(m, g, nodes, intermediates, n) <==>
            NodesLinked(m, g, nodes, n) && ChainsLinked(m, g, intermediates, n)
  {
    hide NodesLinked, ChainsLinked;
  }

  lemma SectionLinked(m: Mapping, g: Plan, nodes: map<string, PlanNode>, intermediates: map<string, seq<PlanNode>>,
                      n: nat)
    requires n < |g| && Placeable(m, g) && Linked(m, g, nodes, intermediates, |g|)
    ensures g[n].id in nodes
    ensures [nodes[g[n].id]] + ItemsBelow(intermediates, g[n].id) == Section(m, g, n)
  {
    hide UniqueIDs, Available, LevelOf, Chain, LinkedNode;
  }

  lemma {:induction false} ProblemStays(m: Mapping, g: Plan, n: nat, total: nat)
    requires n <= total <= |g| && Placeable(m, g) && FirstProblem(m, g, n) != None
    ensures FirstProblem(m, g, total) == FirstProblem(m, g, n)
    decreases total - n
  {
    hide Placeable, ItemProblem;
    if n < total {
      ProblemStays(m, g, n + 1, total);
    }
  }

  /** No identity in the list is too long or a plan item's. */
  ghost predicate Available(m: Mapping, g: Plan, list: seq<PlanNode>)
    requires Placeable(m, g)
  {
    forall j :: 0 <= j < |list| ==> !Unavailable(m, g, list[j].id)
  }

  /** An item with the sought identity is the item of the sought level. */
  lemma SoughtAt(m: Mapping, parent: PlanNode, rs: seq<Reach>, member: Member, level: nat, i: nat,
                 alnum: char -> bool)
    requires ValidMapping(m, alnum) && parent.level < level < |m| && m[level].required && Bounded(m, rs)
    requires Bounded(m, Reaching(rs, member, level)) && Bounded(m, Reaching(rs, member, level + 1))
    requires i < |Chain(m, parent, Reaching(rs, member, level))|
    requires Chain(m, parent, Reaching(rs, member, level))[i].id == LevelID(m, parent.id, level)
    ensures var was := Chain(m, parent, Reaching(rs, member, level));
            && was[i].level == level
            && Chain(m, parent, Reaching(rs, member, level + 1))
               == was[i := was[i].(members := was[i].members + [member])]
  {
    hide LevelID, Above, Through, Deepest, ValidMapping;
    var was := Chain(m, parent, Reaching(rs, member, level));
    LevelIDsDistinct(m, alnum, parent.id, was[i].level, level);
    ReachingDeeper(rs, member, level, parent.level);
    if level < Deepest(rs, parent.level) {
      ChainMeets(m, parent, rs, member, level);
    }
  }

  /** Without such an item the chain ends above the sought level. */
  lemma SoughtMissing(m: Mapping, parent: PlanNode, rs: seq<Reach>, member: Member, level: nat)
    requires parent.level < level < |m| && m[level].required && Bounded(m, rs)
    requires Bounded(m, Reaching(rs, member, level)) && Bounded(m, Reaching(rs, member, level + 1))
    requires forall j :: 0 <= j < |Chain(m, parent, Reaching(rs, member, level))| ==>
               Chain(m, parent, Reaching(rs, member, level))[j].id != LevelID(m, parent.id, level)
    ensures var was := Chain(m, parent, Reaching(rs, member, level));
            && Chain(m, parent, Reaching(rs, member, level + 1))
               == was + [PlanNode(LevelID(m, parent.id, level), parent.title, level, Above(m, parent, level),
                                  [member], parent.id, [])]
  {
    hide LevelID, Above, Through, Deepest, Gaps;
    if level < Deepest(rs, parent.level) {
      ChainMeets(m, parent, rs, member, level);
    } else {
      ChainExtends(m, parent, rs, member, level);
    }
  }

  ghost predicate PlacedUpTo(m: Mapping, g: Plan, nodes: map<string, PlanNode>, n: nat)
    requires n <= |g|
  {
    && nodes.Keys == IDs(g, n)
    && (forall i :: 0 <= i < n ==> LevelOf(m, |m|, g[i].kind) >= 0)
    && (forall i :: 0 <= i < n ==> g[i].id in nodes && nodes[g[i].id] == PlacedNode(m, g[i]))
  }

  lemma PlaceStep(m: Mapping, g: Plan, nodes: map<string, PlanNode>, n: nat)
    requires n < |g| && UniqueIDs(g) && PlacedUpTo(m, g, nodes, n) && LevelOf(m, |m|, g[n].kind) >= 0
    ensures PlacedUpTo(m, g, nodes[g[n].id := PlacedNode(m, g[n])], n + 1)
  {
    hide LevelOf, IDs, PlacedNode, UniqueIDs;
    IDsStep(g, n);
    var now := nodes[g[n].id := PlacedNode(m, g[n])];
    assert forall i :: 0 <= i < n ==> LevelOf(m, |m|, g[i].kind) >= 0;
    forall i | 0 <= i < n
      ensures g[i].id in now && now[g[i].id] == PlacedNode(m, g[i])
    {
      Different(g, i, n);
    }
  }

  lemma Different(g: Plan, i: nat, j: nat)
    requires i < |g| && j < |g| && i != j && UniqueIDs(g)
    ensures g[i].id != g[j].id
  {
  }

  lemma IDsStep(g: Plan, n: nat)
    requires n < |g|
    ensures IDs(g, n + 1) == IDs(g, n) + {g[n].id}
  {
  }

  /** Only a parent's identity, title and level matter below it. */
  lemma {:induction false} SameParent(m: Mapping, g: Plan, p: PlanNode, q: PlanNode, bottom: nat)
    requires bottom <= |m| && Placeable(m, g) && p.level < |m|
    requires p.id == q.id && p.title == q.title && p.level == q.level
    ensures FirstUnavailable(m, g, p, bottom) == FirstUnavailable(m, g, q, bottom)
    ensures Above(m, p, bottom) == Above(m, q, bottom)
    ensures forall rs :: Bounded(m, rs) ==> Chain(m, p, rs) == Chain(m, q, rs)
  {
    hide Placeable, Placed, UniqueIDs, LevelID, Through, Deepest;
    if bottom > p.level + 1 {
      SameParent(m, g, p, q, bottom - 1);
    }
  }

  lemma {:induction false} UnavailableStays(m: Mapping, g: Plan, parent: PlanNode, level: nat, bottom: nat)
    requires level <= bottom <= |m| && Placeable(m, g) && FirstUnavailable(m, g, parent, level) != None
    ensures FirstUnavailable(m, g, parent, bottom) == FirstUnavailable(m, g, parent, level)
    decreases bottom - level
  {
    hide Placeable, Unavailable;
    if level < bottom {
      UnavailableStays(m, g, parent, level + 1, bottom);
    }
  }

  function IDs(g: Plan, n: nat): set<string>
    requires n <= |g|
  {
    set i | 0 <= i < n :: g[i].id
  }

  lemma AllPlaced(m: Mapping, g: Plan, nodes: map<string, PlanNode>)
    requires UniqueIDs(g) && PlacedUpTo(m, g, nodes, |g|)
    ensures Mapped(m, g)
    ensures Linked(m, g, nodes, map[], 0)
  {
    assert Placeable(m, g);
    hide UniqueIDs, LevelOf;
    NothingBelow(m, g);
    assert Placed(m, g).Keys == IDs(g, |g|);
  }

  lemma NothingBelow(m: Mapping, g: Plan)
    requires Placeable(m, g)
    ensures Placed(m, g).Keys == IDs(g, |g|)
    ensures forall id :: id in Placed(m, g) ==> ChainBelow(m, g, id, 0) == []
  {
  }

  lemma {:induction false} FirstUnmappedStays(m: Mapping, g: Plan, n: nat, total: nat)
    requires n <= total <= |g| && FirstUnmapped(m, g, n) != None
    ensures FirstUnmapped(m, g, total) == FirstUnmapped(m, g, n)
    decreases total - n
  {
    if n < total {
      FirstUnmappedStays(m, g, n + 1, total);
    }
  }
}
