/** A checkpoint commit and the run revision that records it as one effect
    (internal/effect/checkpoint.go, internal/git/worktree.go). */
module Checkpoints {
  import opened Options
  import opened EffectWorld
  import opened Labels
  import opened IssueProjection
  import opened RunProjection

  predicate Dirty(g: Git) {
    g.changed || g.outside
  }

  predicate MarkedFor(g: Git, c: CheckpointRequest) {
    g.marker == Some((c.kind, c.run))
  }

  /** A moved head is accepted only as this checkpoint with a clean worktree; at
      the parent, changes are committed and a clean worktree must show the
      marker. A scoped commit needs a change below its paths. */
  function CreateCheckpoint(p: Proc, c: CheckpointRequest): Proc {
    var g := p.world.git;
    if g.head != c.parent then (if MarkedFor(g, c) && !Dirty(g) then p else Refuse(p))
    else if !Dirty(g) then (if MarkedFor(g, c) then p else Refuse(p))
    else if !c.allPaths && !g.changed then Refuse(p)
    else Mutate(p, p.world.(git := Git(g.head + 1, Some((c.kind, c.run)), false, !c.allPaths && g.outside)))
  }

  /** The head a successful checkpoint reports. */
  function CheckpointHead(g: Git, c: CheckpointRequest): nat {
    if g.head == c.parent && Dirty(g) then g.head + 1 else g.head
  }

  function Recorded(next: Run, c: CheckpointRequest, head: nat): Run {
    next.(content := next.content.(
      acceptedCheckpoint := 0, checkpoint := head,
      testCheckpoint := if c.kind.TestCheckpoint? then head else next.content.testCheckpoint))
  }

  function Commit(env: Adapters, p: Proc, c: CheckpointRequest, previous: Run, template: Run): Proc {
    var e := Checkpoint(c.run, c, previous, template);
    var r := Reserve(p, e);
    var next := Recorded(template, c, CheckpointHead(r.world.git, c));
    var k := CreateCheckpoint(r, c);
    Clear(SaveRun(ApplyStateTransition(env, k, next, false), Identified(k.world, next, false)), e)
  }

  function Replay(env: Adapters, p: Proc, e: Effect): Proc
    requires e.Checkpoint?
  {
    if !Admits(p.world.run, e.run, e.previous, e.next) then Refuse(p)
    else
      var next := Recorded(e.next, e.commit, CheckpointHead(p.world.git, e.commit));
      Conclude(env, CreateCheckpoint(p, e.commit), p.world.run, e, next, false, RetainResults, e.previous.revision)
  }

  // ---------- where a replay ends

  /** The checkpoint exists already or can be made. */
  predicate Creatable(g: Git, c: CheckpointRequest) {
    if g.head == c.parent && Dirty(g) then c.allPaths || g.changed else MarkedFor(g, c) && !Dirty(g)
  }

  function Committed(w: World, c: CheckpointRequest): World {
    if w.git.head == c.parent && Dirty(w.git)
    then w.(git := Git(w.git.head + 1, Some((c.kind, c.run)), false, !c.allPaths && w.git.outside))
    else w
  }

  predicate Replayable(w: World, e: Effect)
    requires e.Checkpoint?
  {
    && w.slot == Some(e)
    && e.next.id == e.run
    && Admits(w.run, e.run, e.previous, e.next)
    && Creatable(w.git, e.commit)
    && Recoverable(w.comments, e.next, false)
  }

  /** No change is left in the worktree once the checkpoint exists. */
  predicate LeavesClean(g: Git, c: CheckpointRequest) {
    g.head == c.parent ==> c.allPaths || !g.outside
  }

  lemma Reaches(env: Adapters, p: Proc, b: Budget, e: Effect)
    requires e.Checkpoint? && Replayable(p.world, e)
    ensures var q := Replay(env, Restart(p, b), e);
            var w := Committed(p.world, e.commit);
            var n := Recorded(e.next, e.commit, CheckpointHead(p.world.git, e.commit));
            var labelled, commented := Labelled(w, n), Commented(env, Labelled(w, n), n, false);
            && (q.progress == Going ==> q.world == Concluded(env, w, w.run, n, false, RetainResults))
            && (q.progress != Going ==>
                q.world in {p.world, w, labelled, commented,
                            Saved(commented, w.run, Identified(w, n, false), RetainResults)})
            && (b == Unbounded ==> q.progress == Going)
            && (b == Cut(1) && w != p.world ==> q.world == w && q.progress == Stopped)
  {
    hide FindComment, StateLabels, Decide, StatusIdentity, Projected;
    var n := Recorded(e.next, e.commit, CheckpointHead(p.world.git, e.commit));
    var k := CreateCheckpoint(Restart(p, b), e.commit);
    if k.progress == Going {
      assert Recoverable(p.world.comments, n, false) by { SameIdentity(p.world.comments, e.next, n); }
      ConclusionLands(env, k, p.world.run, e, n, false, RetainResults, e.previous.revision);
      if b == Cut(1) && k.world != p.world {
        SpentConcludes(env, k, p.world.run, e, n, false, RetainResults, e.previous.revision);
      }
    } else {
      ConclusionIdle(env, k, p.world.run, e, n, false, RetainResults, e.previous.revision);
    }
  }

  /** The checkpoint effect resumes wherever it is cut, provided that the commit
      takes every change with it. */
  lemma ReplayResumes(env: Adapters, p: Proc, b: Budget, e: Effect)
    requires e.Checkpoint? && Replayable(p.world, e) && LeavesClean(p.world.git, e.commit)
    ensures var full, q := Replay(env, Restart(p, Unbounded), e), Replay(env, Restart(p, b), e);
            && Resumes(full, q, Replay(env, Restart(q, Unbounded), e), e)
            && (q.progress != Going ==> Replayable(q.world, e) && LeavesClean(q.world.git, e.commit))
  {
    hide Replay, FindComment, StateLabels, Decide, StatusIdentity, Projected;
    var w := Committed(p.world, e.commit);
    var n := Recorded(e.next, e.commit, CheckpointHead(p.world.git, e.commit));
    Reaches(env, p, Unbounded, e);
    Reaches(env, p, b, e);
    var q := Replay(env, Restart(p, b), e);
    SameIdentity(p.world.comments, e.next, n);
    if q.progress != Going && q.world != p.world {
      ConclusionResumes(env, w, q.world, e, n, false, false, RetainResults, e.previous.revision);
      assert Recorded(e.next, e.commit, CheckpointHead(q.world.git, e.commit)) == n;
      SameIdentity(q.world.comments, e.next, n);
      Reaches(env, q, Unbounded, e);
    } else if q.progress != Going {
      Reaches(env, q, Unbounded, e);
    }
  }

  /** Otherwise a replay cut right after the commit is never completed: the
      leftover changes make every later replay refuse. */
  lemma ReplayResumesIff(env: Adapters, p: Proc, e: Effect)
    requires e.Checkpoint? && Replayable(p.world, e)
    ensures (forall b :: var q := Replay(env, Restart(p, b), e);
                         Resumes(Replay(env, Restart(p, Unbounded), e), q, Replay(env, Restart(q, Unbounded), e), e))
            <==> LeavesClean(p.world.git, e.commit)
  {
    hide Replay, FindComment, StateLabels, Decide, StatusIdentity, Projected, Resumes;
    if LeavesClean(p.world.git, e.commit) {
      forall b ensures var q := Replay(env, Restart(p, b), e);
                       Resumes(Replay(env, Restart(p, Unbounded), e), q, Replay(env, Restart(q, Unbounded), e), e) {
        ReplayResumes(env, p, b, e);
      }
    } else {
      LeftoverBlocks(env, p, e);
    }
  }

  lemma LeftoverBlocks(env: Adapters, p: Proc, e: Effect)
    requires e.Checkpoint? && Replayable(p.world, e) && !LeavesClean(p.world.git, e.commit)
    ensures var q := Replay(env, Restart(p, Cut(1)), e);
            !Resumes(Replay(env, Restart(p, Unbounded), e), q, Replay(env, Restart(q, Unbounded), e), e)
  {
    hide FindComment, StateLabels, Decide, StatusIdentity, Projected, Conclude;
    Reaches(env, p, Cut(1), e);
    var q := Replay(env, Restart(p, Cut(1)), e);
    assert q.world == Committed(p.world, e.commit);
    var n := Recorded(e.next, e.commit, CheckpointHead(q.world.git, e.commit));
    var k := CreateCheckpoint(Restart(q, Unbounded), e.commit);
    if Admits(q.world.run, e.run, e.previous, e.next) {
      ConclusionIdle(env, k, q.world.run, e, n, false, RetainResults, e.previous.revision);
    }
  }

  /** Committing is replaying its reservation. */
  lemma CommitIsReplay(env: Adapters, p: Proc, c: CheckpointRequest, previous: Run, template: Run)
    requires p.progress == Going
    requires p.world.run.Some? ==> p.world.run.value.id == c.run && p.world.run.value.revision == previous.revision
    requires previous.revision < template.revision
    ensures var e := Checkpoint(c.run, c, previous, template);
            var r := Reserve(p, e);
            Commit(env, p, c, previous, template) == if r.progress == Going then Replay(env, r, e) else r
  {
    hide FindComment, StateLabels, Decide, StatusIdentity, Key;
    var e := Checkpoint(c.run, c, previous, template);
    var r := Reserve(p, e);
    var next := Recorded(template, c, CheckpointHead(r.world.git, c));
    if r.progress != Going {
      Idle(env, r, next, false, e, RetainResults, previous.revision, Identified(r.world, next, false));
    }
  }
}
