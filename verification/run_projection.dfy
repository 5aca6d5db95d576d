/** What the replays of all run-advancing effects share
    (internal/effect/projection.go, internal/effect/state_transition.go): the
    revision guard in front, and behind the kind's own action the issue
    projection, the save of the run, and the acknowledgement. */
module RunProjection {
  import opened Options
  import opened EffectWorld
  import opened Labels
  import opened IssueProjection

  /** The stored run is absent, already at the payload's revision, or exactly
      where the reservation found it. */
  predicate Admits(run: Option<Run>, owner: string, previous: Run, next: Run) {
    run.Some? ==>
      && run.value.id == owner
      && run.value.revision <= next.revision
      && (run.value.revision < next.revision ==> run.value.revision == previous.revision)
  }

  predicate Behind(run: Option<Run>, next: Run) {
    run.None? || run.value.revision < next.revision
  }

  /** A comment identity that was stored after the reservation wins. */
  function Adopted(run: Option<Run>, next: Run): Run {
    if run.Some? && run.value.revision == next.revision && run.value.statusComment > 0
    then next.(statusComment := run.value.statusComment)
    else next
  }

  /** Saves the run and discards what its revision supersedes, in one
      transaction where the store has one. */
  function Persist(env: Adapters, p: Proc, scope: Scope, expected: int, next: Run): Proc {
    match scope
    case RetainResults => SaveRun(p, next)
    case _ =>
      if env.atomicSeam then SaveRunDiscarding(p, expected, next, scope.InvalidateAllResults?)
      else DiscardResults(SaveRunAt(p, expected, next), scope.InvalidateAllResults?)
  }

  /** Everything after a kind's own action. `before` is the run the replay read
      at its start. */
  function Conclude(env: Adapters, p: Proc, before: Option<Run>, e: Effect, next: Run, create: bool, scope: Scope,
                    expected: int): Proc
  {
    var saved := Identified(p.world, next, create);
    var q := ApplyStateTransition(env, p, next, create);
    Clear(if Behind(before, next) then Persist(env, q, scope, expected, saved) else q, e)
  }

  function Discarding(w: World, scope: Scope): World {
    if scope.RetainResults? then w else Discarded(w, scope.InvalidateAllResults?)
  }

  /** Which comment a replay shows a run under when it may not create one: the one
      stored at the run's own revision since the reservation, else the one of the
      payload, else the marked one; the run is otherwise the payload's. */
  lemma AdoptedIdentity(comments: seq<Comment>, run: Option<Run>, next: Run)
    ensures var id := StatusIdentity(comments, Adopted(run, next), false);
            && (run.Some? && run.value.revision == next.revision && run.value.statusComment != 0 ==>
                  id == run.value.statusComment)
            && (run.None? || run.value.revision != next.revision || run.value.statusComment == 0 ==>
                  if next.statusComment != 0 then id == next.statusComment
                  else id == FindComment(comments, StatusMarker(next.id)))
            && Adopted(run, next).(statusComment := 0) == next.(statusComment := 0)
  {
    hide FindComment;
  }

  // ---------- what a conclusion does to the world, step by step

  function Labelled(w: World, next: Run): World {
    w.(labels := StateLabels(w.labels, next.content.status))
  }

  function Commented(env: Adapters, w: World, next: Run, create: bool): World {
    w.(comments := Projected(w.comments, next, create, StatusComment(env, next)))
  }

  function Saved(w: World, before: Option<Run>, next: Run, scope: Scope): World {
    if Behind(before, next) then Discarding(w, scope).(run := Some(next)) else w
  }

  function Concluded(env: Adapters, w: World, before: Option<Run>, next: Run, create: bool, scope: Scope): World {
    Saved(Commented(env, Labelled(w, next), next, create), before, Identified(w, next, create), scope).(slot := None)
  }

  predicate Conclusive(env: Adapters, w: World, before: Option<Run>, e: Effect, next: Run, create: bool, scope: Scope,
                       expected: int)
  {
    && w.slot == Some(e)
    && Recoverable(w.comments, next, create)
    && (Behind(before, next) && !scope.RetainResults? ==>
          AtRevision(w, expected, next) && (env.atomicSeam || Discarding(w, scope) == w))
  }

  /** The step happens and the process goes on, or the process ends before it
      or right after it. */
  predicate Lands(p: Proc, q: Proc, w: World) {
    && (q.progress == Going ==> q.world == w)
    && (q.progress != Going ==> q.world in {p.world, w})
    && (p.budget == Unbounded ==> q.progress == Going && q.budget == Unbounded)
  }

  lemma LabelsLand(p: Proc, next: Run)
    requires p.progress == Going
    ensures Lands(p, ProjectLabels(p, next), Labelled(p.world, next))
  {
    hide StateLabels;
  }

  lemma CommentLands(env: Adapters, p: Proc, next: Run, create: bool)
    requires p.progress == Going && Recoverable(p.world.comments, next, create)
    ensures Lands(p, ProjectComment(env, p, next, create), Commented(env, p.world, next, create))
  {
    hide FindComment, StatusIdentity;
  }

  lemma PersistLands(env: Adapters, p: Proc, before: Option<Run>, scope: Scope, expected: int, next: Run)
    requires p.progress == Going
    requires Behind(before, next) && !scope.RetainResults? ==>
               AtRevision(p.world, expected, next) && (env.atomicSeam || Discarding(p.world, scope) == p.world)
    ensures Lands(p, if Behind(before, next) then Persist(env, p, scope, expected, next) else p,
                  Saved(p.world, before, next, scope))
  {
    hide Supersede;
  }

  lemma ClearLands(p: Proc, e: Effect)
    requires p.progress == Going && p.world.slot == Some(e)
    ensures Lands(p, Clear(p, e), p.world.(slot := None))
    ensures Clear(p, e).progress != Going ==> Clear(p, e).world == p.world
  {
    hide Key;
  }

  /** A process that has ended does nothing more. */
  lemma Idle(env: Adapters, p: Proc, next: Run, create: bool, e: Effect, scope: Scope, expected: int, saved: Run)
    requires p.progress != Going
    ensures ProjectComment(env, p, next, create) == Clear(p, e) == Persist(env, p, scope, expected, saved) == p
  {
    hide FindComment, Key, Supersede, Decide;
  }

  lemma ConclusionIdle(env: Adapters, p: Proc, before: Option<Run>, e: Effect, next: Run, create: bool, scope: Scope,
                       expected: int)
    requires p.progress != Going
    ensures Conclude(env, p, before, e, next, create, scope, expected) == p
  {
    hide StateLabels;
    Idle(env, p, next, create, e, scope, expected, Identified(p.world, next, create));
  }

  /** A conclusion reaches its end, or it is interrupted after the labels, after
      the comment, after the save, or before all of them. */
  lemma ConclusionLands(env: Adapters, p: Proc, before: Option<Run>, e: Effect, next: Run, create: bool, scope: Scope,
                        expected: int)
    requires p.progress == Going
    requires Conclusive(env, p.world, before, e, next, create, scope, expected)
    ensures var q := Conclude(env, p, before, e, next, create, scope, expected);
            var w := p.world;
            var labelled, commented := Labelled(w, next), Commented(env, Labelled(w, next), next, create);
            && (q.progress == Going ==> q.world == Concluded(env, w, before, next, create, scope))
            && (q.progress != Going ==>
                q.world in {w, labelled, commented,
                            Saved(commented, before, Identified(w, next, create), scope)})
            && (p.budget == Unbounded ==> q.progress == Going && q.budget == Unbounded)
  {
    hide ProjectLabels, ProjectComment, Persist, Clear, Projected, StateLabels, Recoverable, StatusIdentity;
    hide Supersede, StatusComment;
    var n := Identified(p.world, next, create);
    var l := ProjectLabels(p, next);
    LabelsLand(p, next);
    if l.progress != Going {
      Idle(env, l, next, create, e, scope, expected, n);
      return;
    }
    var c := ProjectComment(env, l, next, create);
    CommentLands(env, l, next, create);
    if c.progress != Going {
      Idle(env, c, next, create, e, scope, expected, n);
      return;
    }
    var s := if Behind(before, next) then Persist(env, c, scope, expected, n) else c;
    PersistLands(env, c, before, scope, expected, n);
    if s.progress != Going {
      Idle(env, s, next, create, e, scope, expected, n);
      return;
    }
    SavedKeepsSlot(c.world, before, n, scope);
    ClearLands(s, e);
  }

  /** With the budget spent, a conclusion that has anything left to do does not
      do it. */
  lemma SpentConcludes(env: Adapters, p: Proc, before: Option<Run>, e: Effect, next: Run, create: bool, scope: Scope,
                       expected: int)
    requires p.progress == Going && p.budget == Cut(0)
    requires Conclusive(env, p.world, before, e, next, create, scope, expected)
    ensures var q := Conclude(env, p, before, e, next, create, scope, expected);
            q.world == p.world && q.progress == Stopped
  {
    hide ProjectLabels, ProjectComment, Persist, Clear, Projected, StateLabels, StatusIdentity, Supersede;
    hide StatusComment;
    var saved := Identified(p.world, next, create);
    var l := ProjectLabels(p, next);
    LabelsSpent(p, next);
    if l.progress != Going {
      Idle(env, l, next, create, e, scope, expected, saved);
      return;
    }
    var c := ProjectComment(env, l, next, create);
    CommentSpent(env, l, next, create);
    if c.progress != Going {
      Idle(env, c, next, create, e, scope, expected, saved);
      return;
    }
    PersistSpent(env, c, before, scope, expected, saved, e);
  }

  lemma LabelsSpent(p: Proc, next: Run)
    requires p.budget == Cut(0) && p.progress == Going
    ensures var q := ProjectLabels(p, next);
            q == p || q == p.(progress := Stopped)
  {
    hide StateLabels;
  }

  lemma PersistSpent(env: Adapters, p: Proc, before: Option<Run>, scope: Scope, expected: int, next: Run, e: Effect)
    requires p.budget == Cut(0) && p.progress == Going && p.world.slot == Some(e)
    requires Behind(before, next) && !scope.RetainResults? ==> AtRevision(p.world, expected, next)
    ensures var q := Clear(if Behind(before, next) then Persist(env, p, scope, expected, next) else p, e);
            q.world == p.world && q.progress == Stopped
  {
    hide Supersede, Key;
  }

  lemma CommentSpent(env: Adapters, p: Proc, next: Run, create: bool)
    requires p.budget == Cut(0) && p.progress in {Going, Stopped} && Recoverable(p.world.comments, next, create)
    ensures var q := ProjectComment(env, p, next, create);
            q == p || q == p.(progress := Stopped)
  {
    hide FindComment;
  }

  lemma LabelsFrame(p: Proc, next: Run)
    ensures var q := ProjectLabels(p, next);
            && q.world == p.world.(labels := q.world.labels)
            && q.tally == p.tally.(writes := q.tally.writes)
            && (p.progress != Going ==> q == p)
  {
    hide StateLabels;
  }

  lemma CommentFrame(env: Adapters, p: Proc, next: Run, create: bool)
    ensures var q := ProjectComment(env, p, next, create);
            && q.world == p.world.(comments := q.world.comments)
            && q.tally == p.tally.(writes := q.tally.writes, posted := q.tally.posted)
            && (p.progress != Going ==> q == p)
  {
    hide FindComment, Decide;
  }

  lemma ProjectionFrame(env: Adapters, p: Proc, next: Run, create: bool)
    ensures var q := ApplyStateTransition(env, p, next, create);
            && q.world == p.world.(labels := q.world.labels, comments := q.world.comments)
            && q.tally == p.tally.(writes := q.tally.writes, posted := q.tally.posted)
            && (p.progress != Going ==> q == p)
  {
    hide ProjectLabels, ProjectComment;
    LabelsFrame(p, next);
    CommentFrame(env, ProjectLabels(p, next), next, create);
  }

  lemma SaveFrame(p: Proc, next: Run)
    ensures var q := SaveRun(p, next);
            && q.world == p.world.(run := q.world.run) && q.world.run in {p.world.run, Some(next)}
            && q.tally == p.tally
            && (p.progress != Going ==> q == p)
  {
  }

  lemma ClearFrame(p: Proc, e: Effect)
    ensures var q := Clear(p, e);
            && q.world == p.world.(slot := q.world.slot) && q.world.slot in {p.world.slot, None}
            && q.tally == p.tally
            && (p.progress != Going ==> q == p)
  {
    hide Key;
  }

  /** A conclusion that keeps results touches labels, comments, run and slot
      only, creates no pull request and starts or finishes no session. */
  lemma ConclusionFrame(env: Adapters, p: Proc, before: Option<Run>, e: Effect, next: Run, create: bool, expected: int)
    ensures var q := Conclude(env, p, before, e, next, create, RetainResults, expected);
            && q.world == p.world.(labels := q.world.labels, comments := q.world.comments, run := q.world.run,
                                   slot := q.world.slot)
            && q.tally == p.tally.(writes := q.tally.writes, posted := q.tally.posted)
            && (p.progress != Going ==> q == p)
            && (q.world.run == p.world.run
                || (Behind(before, next) && q.world.run.Some? && q.world.run.value.revision == next.revision
                                               && q.world.run.value.id == next.id))
            && q.world.slot in {p.world.slot, None}
  {
    hide ApplyStateTransition, StatusIdentity, SaveRun, Clear;
    ProjectionFrame(env, p, next, create);
    var q, saved := ApplyStateTransition(env, p, next, create), Identified(p.world, next, create);
    SaveFrame(q, saved);
    ClearFrame(if Behind(before, next) then SaveRun(q, saved) else q, e);
  }

  lemma SavedKeepsSlot(w: World, before: Option<Run>, next: Run, scope: Scope)
    ensures Saved(w, before, next, scope).slot == w.slot
  {}

  // ---------- resuming a conclusion

  /** The run a replay concludes with: three of the four kinds take the payload
      as it is, the state transition and the acceptance adopt. */
  function Chosen(adopt: bool, run: Option<Run>, next: Run): Run {
    if adopt then Adopted(run, next) else next
  }

  /** The hard case of the lemma below: the run is saved and may be adopted. */
  lemma SavedResumes(env: Adapters, w: World, v: World, e: Effect, next: Run, adopt: bool, create: bool, scope: Scope,
                     expected: int)
    requires var n := Chosen(adopt, w.run, next);
             && Conclusive(env, w, w.run, e, n, create, scope, expected)
             && v == Saved(Commented(env, Labelled(w, n), n, create), w.run, Identified(w, n, create), scope)
    ensures var n, m := Chosen(adopt, w.run, next), Chosen(adopt, v.run, next);
            && Conclusive(env, v, v.run, e, m, create, scope, expected)
            && Concluded(env, v, v.run, m, create, scope) == Concluded(env, w, w.run, n, create, scope)
  {
    hide FindComment, StateLabels, Decide, Supersede, StatusIdentity;
    var n := Chosen(adopt, w.run, next);
    StateLabelsIdempotent(w.labels, n.content.status);
    CommentSettles(w.comments, n, create, StatusComment(env, n));
  }

  /** Concluding again from any world an interrupted conclusion leaves gives the
      world of an uninterrupted one. */
  lemma ConclusionResumes(env: Adapters, w: World, v: World, e: Effect, next: Run, adopt: bool, create: bool,
                          scope: Scope, expected: int)
    requires var n := Chosen(adopt, w.run, next);
             && Conclusive(env, w, w.run, e, n, create, scope, expected)
             && v in {w, Labelled(w, n), Commented(env, Labelled(w, n), n, create),
                      Saved(Commented(env, Labelled(w, n), n, create), w.run, Identified(w, n, create), scope)}
    ensures var n, m := Chosen(adopt, w.run, next), Chosen(adopt, v.run, next);
            && Conclusive(env, v, v.run, e, m, create, scope, expected)
            && Concluded(env, v, v.run, m, create, scope) == Concluded(env, w, w.run, n, create, scope)
  {
    hide FindComment, StateLabels, Decide, Supersede, StatusIdentity;
    var n := Chosen(adopt, w.run, next);
    StateLabelsIdempotent(w.labels, n.content.status);
    CommentSettles(w.comments, n, create, StatusComment(env, n));
    var commented := Commented(env, Labelled(w, n), n, create);
    if v == Saved(commented, w.run, Identified(w, n, create), scope) {
      SavedResumes(env, w, v, e, next, adopt, create, scope, expected);
    }
  }

  /** An attempt `q` either gets as far as a full one, or keeps the reservation
      and leaves a world from which a full attempt `again` gets there. */
  predicate Resumes(full: Proc, q: Proc, again: Proc, e: Effect) {
    && full.progress == Going && full.world.slot == None
    && (q.progress == Going ==> q.world == full.world)
    && (q.progress != Going ==> q.world.slot == Some(e) && again.progress == Going && again.world == full.world)
  }
}
