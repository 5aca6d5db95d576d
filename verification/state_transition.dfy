/** The paired label and comment transition of one run revision
    (internal/effect/state_transition.go). */
module StateTransitions {
  import opened Options
  import opened EffectWorld
  import opened Labels
  import opened IssueProjection
  import opened RunProjection

  datatype Transition = Transition(
    previous: Run, next: Run, create: bool, stopWorker: bool, persistBefore: bool,
    invalidate: bool, invalidateAll: bool)

  function ScopeFor(invalidateAll: bool, invalidate: bool): Scope {
    if invalidateAll then InvalidateAllResults else if invalidate then InvalidateResults else RetainResults
  }

  predicate AllSuperseded(was: map<string, Invocation>, now: map<string, Invocation>) {
    now.Keys == was.Keys && forall id :: id in was ==> now[id] == was[id].(status := Superseded)
  }

  /** `after` has what the flags of a transition leave of the results in `before`: a
      full invalidation takes the baseline too, any invalidation takes the other
      results, every invocation and the unit results, and without one all stay. */
  predicate Discards(before: World, after: World, t: Transition) {
    && (t.invalidateAll ==> after.results == Results({}, {}))
    && (!t.invalidateAll && t.invalidate ==> after.results == Results({}, before.results.baseline))
    && (t.invalidateAll || t.invalidate ==>
          after.unitResults == {} && AllSuperseded(before.invocations, after.invocations))
    && (!t.invalidateAll && !t.invalidate ==>
          after.results == before.results && after.invocations == before.invocations
          && after.unitResults == before.unitResults)
  }

  /** The scope of a transition discards what its flags ask for, and nothing else. */
  lemma ScopeDiscards(before: World, after: World, t: Transition)
    ensures Discards(before, after, t) <==> Outcomes(after) == Outcomes(Discarding(before, ScopeOf(t)))
  {
    var d := Discarding(before, ScopeOf(t));
    assert AllSuperseded(before.invocations, after.invocations) ==> after.invocations == Supersede(before.invocations);
  }

  /** Nothing is there for the transition to discard. */
  predicate NothingToDiscard(w: World, t: Transition) {
    Discards(w, w, t)
  }

  lemma NothingDiscarded(w: World, t: Transition)
    ensures NothingToDiscard(w, t) <==> Discarding(w, ScopeOf(t)) == w
  {
    hide Discards, Supersede;
    ScopeDiscards(w, w, t);
  }

  /** What a new revision can supersede. */
  function Outcomes(w: World): (Results, map<string, Invocation>, set<string>) {
    (w.results, w.invocations, w.unitResults)
  }

  /** The payload: everything but the persist-before flag. */
  function EffectOf(t: Transition): Effect {
    StateTransition(t.next.id, t.previous, t.next, t.create, t.stopWorker, t.invalidate, t.invalidateAll)
  }

  function StopIfAsked(p: Proc, stop: bool): Proc {
    if stop then StopActiveWorkers(p) else p
  }

  function Apply(env: Adapters, p: Proc, t: Transition): Proc {
    var e := EffectOf(t);
    var s := StopIfAsked(Reserve(p, e), t.stopWorker);
    if t.persistBefore then
      if t.create then Refuse(s)
      else Clear(ApplyStateTransition(env, SaveRunAt(s, t.previous.revision, t.next), t.next, false), e)
    else
      var saved := Identified(s.world, t.next, t.create);
      var c := ApplyStateTransition(env, s, t.next, t.create);
      Clear(Persist(env, c, ScopeFor(t.invalidateAll, t.invalidate), t.previous.revision, saved), e)
  }

  function Replay(env: Adapters, p: Proc, e: Effect): Proc
    requires e.StateTransition?
  {
    var run := p.world.run;
    if e.next.id != e.run || !Admits(run, e.next.id, e.previous, e.next) then Refuse(p)
    else
      Conclude(env, StopIfAsked(p, e.stopWorker), run, e, Adopted(run, e.next), e.create,
               ScopeFor(e.invalidateAll, e.invalidate), e.previous.revision)
  }

  /** The rest of an apply does nothing once the process has ended. */
  lemma ApplyIdle(env: Adapters, p: Proc, t: Transition)
    requires p.progress != Going
    ensures StopIfAsked(p, t.stopWorker) == ApplyStateTransition(env, p, t.next, t.create) == Clear(p, EffectOf(t)) == p
    ensures SaveRunAt(p, t.previous.revision, t.next) == Refuse(p) == p
    ensures forall next :: Persist(env, p, ScopeFor(t.invalidateAll, t.invalidate), t.previous.revision, next) == p
  {
    hide Key, Supersede;
    ProjectionIdle(env, p, t.next, t.create);
  }

  function Halted(w: World, stop: bool): World {
    if stop then w.(workers := {}) else w
  }

  /** A replay of the reservation can be carried through. */
  predicate Replayable(env: Adapters, w: World, e: Effect)
    requires e.StateTransition?
  {
    && e.next.id == e.run
    && Admits(w.run, e.next.id, e.previous, e.next)
    && Conclusive(env, w, w.run, e, Adopted(w.run, e.next), e.create, ScopeFor(e.invalidateAll, e.invalidate),
                  e.previous.revision)
  }

  lemma ReplayResumes(env: Adapters, p: Proc, b: Budget, e: Effect)
    requires e.StateTransition? && Replayable(env, p.world, e)
    ensures var full, q := Replay(env, Restart(p, Unbounded), e), Replay(env, Restart(p, b), e);
            && Resumes(full, q, Replay(env, Restart(q, Unbounded), e), e)
            && (q.progress != Going ==> Replayable(env, q.world, e))
  {
    hide Conclude, FindComment, StateLabels, Decide, Supersede, StatusIdentity, Projected;
    var scope, w := ScopeFor(e.invalidateAll, e.invalidate), p.world;
    var n := Adopted(w.run, e.next);
    var halted := Halted(w, e.stopWorker);
    Reaches(env, p, Unbounded, e);
    Reaches(env, p, b, e);
    var q := Replay(env, Restart(p, b), e);
    if q.progress != Going {
      var v := Halted(q.world, e.stopWorker);
      assert v in {halted, Labelled(halted, n), Commented(env, Labelled(halted, n), n, e.create),
                   Saved(Commented(env, Labelled(halted, n), n, e.create), w.run, Identified(halted, n, e.create),
                         scope)};
      ConclusionResumes(env, halted, v, e, e.next, true, e.create, scope, e.previous.revision);
      Reaches(env, q, Unbounded, e);
    }
  }

  /** Where a replay ends, and where it can be cut. */
  lemma Reaches(env: Adapters, p: Proc, b: Budget, e: Effect)
    requires e.StateTransition? && Replayable(env, p.world, e)
    ensures var q := Replay(env, Restart(p, b), e);
            var w, n := Halted(p.world, e.stopWorker), Adopted(p.world.run, e.next);
            var scope := ScopeFor(e.invalidateAll, e.invalidate);
            var labelled, commented := Labelled(w, n), Commented(env, Labelled(w, n), n, e.create);
            && (q.progress == Going ==> q.world == Concluded(env, w, w.run, n, e.create, scope))
            && (q.progress != Going ==>
                q.world in {p.world, w, labelled, commented,
                            Saved(commented, w.run, Identified(w, n, e.create), scope)})
            && (b == Unbounded ==> q.progress == Going)
  {
    hide FindComment, StateLabels, Decide, Supersede, StatusIdentity, Recoverable, Projected;
    var s := StopIfAsked(Restart(p, b), e.stopWorker);
    if s.progress == Going {
      ConclusionLands(env, s, p.world.run, e, Adopted(p.world.run, e.next), e.create,
                      ScopeFor(e.invalidateAll, e.invalidate), e.previous.revision);
    } else {
      ConclusionIdle(env, s, p.world.run, e, Adopted(p.world.run, e.next), e.create,
                     ScopeFor(e.invalidateAll, e.invalidate), e.previous.revision);
    }
  }

  // ---------- the first attempt

  /** What an apply is called with: a free slot, the run where the transition
      starts (or no run yet), and a status comment that can be recovered. */
  predicate Ready(w: World, t: Transition) {
    && w.slot.None?
    && t.previous.revision < t.next.revision
    && !(t.persistBefore && t.create)
    && (w.run.Some? ==> AtRevision(w, t.previous.revision, t.next))
    && (w.run.None? ==> !t.persistBefore && ScopeOf(t).RetainResults?)
    && Recoverable(w.comments, t.next, t.create)
  }

  function ScopeOf(t: Transition): Scope {
    ScopeFor(t.invalidateAll, t.invalidate)
  }

  /** Unless the run is persisted first, an apply is a replay of its own
      reservation. */
  lemma ApplyIsReplay(env: Adapters, p: Proc, t: Transition)
    requires p.progress == Going && Ready(p.world, t) && !t.persistBefore
    ensures var e := EffectOf(t);
            var r := Reserve(p, e);
            Apply(env, p, t) == if r.progress == Going then Replay(env, r, e) else r
  {
    hide FindComment, StateLabels, Decide, Supersede, StatusIdentity, Recoverable;
    var e := EffectOf(t);
    var r := Reserve(p, e);
    if r.progress != Going {
      var saved := Identified(r.world, t.next, t.create);
      Idle(env, r, t.next, t.create, e, ScopeOf(t), t.previous.revision, saved);
    }
  }

  /** The cases in which no cut can be told from an uninterrupted apply. */
  predicate Lossless(env: Adapters, w: World, t: Transition) {
    if t.persistBefore then t.next.statusComment > 0 && NothingToDiscard(w, t)
    else env.atomicSeam || NothingToDiscard(w, t)
  }

  /** One cut of the apply, followed by one full replay. */
  predicate CutConverges(env: Adapters, p: Proc, t: Transition, n: nat) {
    var q := Apply(env, Restart(p, Cut(n)), t);
    q.progress != Going && q.world.slot.Some? ==>
      var r := Replay(env, Restart(q, Unbounded), EffectOf(t));
      r.progress == Going && r.world == Apply(env, Restart(p, Unbounded), t).world
  }

  /** Where an apply that persists first ends, and where it can be cut. */
  lemma PersistFirstReaches(env: Adapters, p: Proc, b: Budget, t: Transition)
    requires Ready(p.world, t) && t.persistBefore
    ensures var q := Apply(env, Restart(p, b), t);
            var reserved := p.world.(slot := Some(EffectOf(t)));
            var saved := Halted(reserved, t.stopWorker).(run := Some(t.next));
            var done := Commented(env, Labelled(saved, t.next), t.next, false);
            && (q.progress == Going ==> q.world == done.(slot := None))
            && (q.progress != Going ==>
                  q.world in {p.world, reserved, Halted(reserved, t.stopWorker), saved, Labelled(saved, t.next), done})
            && (b == Unbounded ==> q.progress == Going)
            && (b == Cut(0) ==> q.world == p.world && q.progress == Stopped)
            && (b != Cut(0) && q.progress != Going ==> q.world.slot == reserved.slot)
            && (b == Cut(1) ==> q.progress != Going && q.world == reserved)
  {
    hide FindComment, StateLabels, Decide, Supersede, StatusIdentity, Recoverable, Projected;
    var e := EffectOf(t);
    var a := SaveRunAt(StopIfAsked(Reserve(Restart(p, b), e), t.stopWorker), t.previous.revision, t.next);
    if a.progress != Going {
      Idle(env, a, t.next, false, e, RetainResults, 0, t.next);
    } else {
      var l := ProjectLabels(a, t.next);
      LabelsLand(a, t.next);
      if l.progress != Going {
        Idle(env, l, t.next, false, e, RetainResults, 0, t.next);
      } else {
        var c := ProjectComment(env, l, t.next, false);
        CommentLands(env, l, t.next, false);
        if c.progress != Going {
          Idle(env, c, t.next, false, e, RetainResults, 0, t.next);
        } else {
          ClearLands(c, e);
        }
      }
    }
  }

  function Atomically(env: Adapters): Adapters {
    env.(atomicSeam := true)
  }

  /** Uncut, the two-step persistence ends like the transaction. */
  lemma UncutSeamless(env: Adapters, p: Proc, e: Effect)
    requires e.StateTransition? && p.budget == Unbounded
    ensures Replay(env, p, e) == Replay(Atomically(env), p, e)
  {
    hide FindComment, StateLabels, Supersede, StatusIdentity, Clear;
    var run, s := p.world.run, StopIfAsked(p, e.stopWorker);
    var n := Adopted(run, e.next);
    var c := ApplyStateTransition(env, s, n, e.create);
    assert c == ApplyStateTransition(Atomically(env), s, n, e.create);
    BudgetKept(env, s, n, e.create);
  }

  lemma BudgetKept(env: Adapters, p: Proc, next: Run, create: bool)
    requires p.budget == Unbounded
    ensures ApplyStateTransition(env, p, next, create).budget == Unbounded
  {
    hide FindComment, StateLabels;
  }

  /** The number of mutations up to the first half of a two-step persistence. */
  function UpToSave(env: Adapters, w: World, t: Transition): nat {
    1 + (if t.stopWorker then 1 else 0)
    + (if w.labels == StateLabels(w.labels, t.next.content.status) then 0 else 1)
    + (if Decide(w.comments, t.next, t.create, StatusComment(env, t.next).body).Keep? then 0 else 1)
    + 1
  }

  lemma CutBetweenTheTwoSteps(env: Adapters, p: Proc, t: Transition)
    requires Ready(p.world, t) && !t.persistBefore && !env.atomicSeam && !ScopeOf(t).RetainResults?
    ensures var q := Apply(env, Restart(p, Cut(UpToSave(env, p.world, t))), t);
            var w := Halted(p.world.(slot := Some(EffectOf(t))), t.stopWorker);
            && q.progress == Stopped
            && q.world == Commented(env, Labelled(w, t.next), t.next, t.create).(
                            run := Some(Identified(p.world, t.next, t.create)))
  {
    hide FindComment, StateLabels, Supersede, StatusIdentity;
    var e := EffectOf(t);
    var budget := UpToSave(env, p.world, t);
    var r := Restart(p, Cut(budget));
    var s := StopIfAsked(Reserve(r, e), t.stopWorker);
    ReservedExactly(r, t);
    var l := ProjectLabels(s, t.next);
    LabelsExactly(s, t.next);
    var c := ProjectComment(env, l, t.next, t.create);
    CommentExactly(env, l, t.next, t.create);
    HalvedPersist(env, c, t.previous.revision, Identified(s.world, t.next, t.create), ScopeOf(t));
  }

  lemma ReservedExactly(r: Proc, t: Transition)
    requires r.progress == Going && r.world.slot.None? && r.budget.Cut? && r.budget.mutations > 1
    ensures var s := StopIfAsked(Reserve(r, EffectOf(t)), t.stopWorker);
            && s.progress == Going && s.budget == Cut(r.budget.mutations - 1 - if t.stopWorker then 1 else 0)
            && s.world == Halted(r.world.(slot := Some(EffectOf(t))), t.stopWorker)
  {
  }

  lemma LabelsExactly(p: Proc, next: Run)
    requires p.progress == Going && p.budget.Cut? && p.budget.mutations > 0
    ensures var q := ProjectLabels(p, next);
            && q.progress == Going && q.world == Labelled(p.world, next)
            && var same := p.world.labels == StateLabels(p.world.labels, next.content.status);
               q.budget == Cut(p.budget.mutations - if same then 0 else 1)
  {
    hide StateLabels;
  }

  lemma CommentExactly(env: Adapters, p: Proc, next: Run, create: bool)
    requires p.progress == Going && p.budget.Cut? && p.budget.mutations > 0
             && Recoverable(p.world.comments, next, create)
    ensures var q := ProjectComment(env, p, next, create);
            && q.progress == Going && q.world == Commented(env, p.world, next, create)
            && var kept := Decide(p.world.comments, next, create, StatusComment(env, next).body).Keep?;
               q.budget == Cut(p.budget.mutations - if kept then 0 else 1)
  {
    hide FindComment, StatusIdentity;
  }

  lemma HalvedPersist(env: Adapters, c: Proc, expected: int, saved: Run, scope: Scope)
    requires c.progress == Going && c.budget == Cut(1) && !env.atomicSeam && !scope.RetainResults?
    requires AtRevision(c.world, expected, saved)
    ensures var d := Persist(env, c, scope, expected, saved);
            d.progress == Stopped && d.world == c.world.(run := Some(saved))
  {
    hide Supersede;
  }

  lemma ReservedIsReplayable(env: Adapters, w: World, t: Transition)
    requires Ready(w, t)
    requires env.atomicSeam || Discarding(w, ScopeOf(t)) == w
    ensures Replayable(env, w.(slot := Some(EffectOf(t))), EffectOf(t))
    ensures Replayable(env, Halted(w.(slot := Some(EffectOf(t))), t.stopWorker), EffectOf(t))
  {
    hide FindComment, StateLabels, Supersede, StatusIdentity, Recoverable;
  }

  lemma PlainCutConverges(env: Adapters, p: Proc, t: Transition, n: nat)
    requires Ready(p.world, t) && !t.persistBefore && Lossless(env, p.world, t)
    ensures CutConverges(env, p, t, n)
  {
    hide Replay, Apply, Replayable, Key, FindComment, StateLabels, Supersede, StatusIdentity, Recoverable;
    hide NothingToDiscard;
    NothingDiscarded(p.world, t);
    var e := EffectOf(t);
    ApplyIsReplay(env, Restart(p, Cut(n)), t);
    ApplyIsReplay(env, Restart(p, Unbounded), t);
    if n > 0 {
      var r := Reserve(Restart(p, Cut(n)), e);
      ReservedIsReplayable(env, p.world, t);
      ReplayResumes(env, r, Cut(n - 1), e);
    }
  }

  lemma PersistFirstCutConverges(env: Adapters, p: Proc, t: Transition, n: nat)
    requires Ready(p.world, t) && t.persistBefore && Lossless(env, p.world, t)
    ensures CutConverges(env, p, t, n)
    ensures var q := Apply(env, Restart(p, Cut(n)), t);
            q.progress != Going && q.world.slot.Some? ==>
              q.world.slot == Some(EffectOf(t)) && Replayable(env, q.world, EffectOf(t))
  {
    hide Replay, Apply, FindComment, StateLabels, Supersede, Decide, Projected, ApplyStateTransition;
    hide NothingToDiscard;
    NothingDiscarded(p.world, t);
    var e := EffectOf(t);
    var q := Apply(env, Restart(p, Cut(n)), t);
    PersistFirstReaches(env, p, Cut(n), t);
    PersistFirstReaches(env, p, Unbounded, t);
    if q.progress != Going && q.world.slot.Some? {
      var reserved := p.world.(slot := Some(e));
      var halted := Halted(reserved, t.stopWorker);
      if q.world == reserved || q.world == halted {
        ReservedIsReplayable(env, p.world, t);
        Reaches(env, q, Unbounded, e);
      } else {
        SavedFirstResumes(env, p, t, n);
      }
    }
  }

  /** The cut lies behind the save. */
  lemma SavedFirstResumes(env: Adapters, p: Proc, t: Transition, n: nat)
    requires Ready(p.world, t) && t.persistBefore && Lossless(env, p.world, t)
    requires var q, halted := Apply(env, Restart(p, Cut(n)), t).world,
                              Halted(p.world.(slot := Some(EffectOf(t))), t.stopWorker);
             q.slot.Some? && q !in {p.world.(slot := Some(EffectOf(t))), halted}
    requires Apply(env, Restart(p, Cut(n)), t).progress != Going
    ensures CutConverges(env, p, t, n)
    ensures var q := Apply(env, Restart(p, Cut(n)), t);
            q.world.slot == Some(EffectOf(t)) && Replayable(env, q.world, EffectOf(t))
  {
    hide Replay, Apply, FindComment, StateLabels, Supersede, Decide, Projected, ApplyStateTransition;
    hide NothingToDiscard;
    NothingDiscarded(p.world, t);
    var e, scope := EffectOf(t), ScopeOf(t);
    var q := Apply(env, Restart(p, Cut(n)), t);
    PersistFirstReaches(env, p, Cut(n), t);
    PersistFirstReaches(env, p, Unbounded, t);
    var saved := Halted(p.world.(slot := Some(e)), t.stopWorker).(run := Some(t.next));
    assert Conclusive(env, saved, saved.run, e, Chosen(true, saved.run, t.next), false, scope, t.previous.revision);
    ConclusionResumes(env, saved, q.world, e, t.next, true, false, scope, t.previous.revision);
    Reaches(env, q, Unbounded, e);
  }

  lemma PersistFirstDiverges(env: Adapters, p: Proc, t: Transition)
    requires Ready(p.world, t) && t.persistBefore && !Lossless(env, p.world, t)
    ensures !CutConverges(env, p, t, 1)
  {
    hide Replay, Apply, FindComment, StateLabels, Supersede, Decide, Projected, ApplyStateTransition;
    hide NothingToDiscard;
    NothingDiscarded(p.world, t);
    var e := EffectOf(t);
    var q := Apply(env, Restart(p, Cut(1)), t);
    PersistFirstReaches(env, p, Cut(1), t);
    PersistFirstReaches(env, p, Unbounded, t);
    ReservedIsReplayable(Atomically(env), p.world, t);
    Reaches(Atomically(env), q, Unbounded, e);
    UncutSeamless(env, Restart(q, Unbounded), e);
    var r := Replay(env, Restart(q, Unbounded), e).world;
    var f := Apply(env, Restart(p, Unbounded), t).world;
    assert f.run == Some(t.next);
    assert f.results == p.world.results && f.invocations == p.world.invocations && f.unitResults == p.world.unitResults;
    assert r.run.value.statusComment > 0;
    assert Discarding(r, ScopeOf(t)).results == r.results;
  }

  lemma TwoStepDiverges(env: Adapters, p: Proc, t: Transition)
    requires Ready(p.world, t) && !t.persistBefore && !Lossless(env, p.world, t)
    ensures !CutConverges(env, p, t, UpToSave(env, p.world, t))
  {
    hide Replay, Apply, FindComment, StateLabels, Supersede, Decide, Projected, ApplyStateTransition, Recoverable;
    hide NothingToDiscard;
    NothingDiscarded(p.world, t);
    var e := EffectOf(t);
    CutBetweenTheTwoSteps(env, p, t);
    var q := Apply(env, Restart(p, Cut(UpToSave(env, p.world, t))), t);
    UncutApplySeamless(env, Restart(p, Unbounded), t);
    ReservedIsReplayable(Atomically(env), p.world, t);
    var reserved := p.world.(slot := Some(e));
    Reaches(Atomically(env), Restart(p, Unbounded).(world := reserved), Unbounded, e);
    CommentSettles(p.world.comments, t.next, t.create, StatusComment(env, t.next));
    Reaches(env, q, Unbounded, e);
    var r := Replay(env, Restart(q, Unbounded), e).world;
    var f := Apply(env, Restart(p, Unbounded), t).world;
    assert r.results == p.world.results && r.invocations == p.world.invocations && r.unitResults == p.world.unitResults;
    assert Discarding(f, ScopeOf(t)).results == f.results;
  }

  lemma UncutApplySeamless(env: Adapters, p: Proc, t: Transition)
    requires p.progress == Going && p.budget == Unbounded && Ready(p.world, t) && !t.persistBefore
    ensures Apply(env, p, t) == Replay(Atomically(env), p.(world := p.world.(slot := Some(EffectOf(t)))), EffectOf(t))
  {
    hide Replay, Apply, FindComment, StateLabels, Recoverable;
    ApplyIsReplay(env, p, t);
    UncutSeamless(env, Reserve(p, EffectOf(t)), EffectOf(t));
  }

  /** The crash law of a transition, exactly: whatever mutation an apply is cut
      after, one replay reaches the world of an uninterrupted apply, if and only
      if nothing is lost by persisting the run first or in two steps. */
  lemma ConvergesIff(env: Adapters, p: Proc, t: Transition)
    requires Ready(p.world, t)
    ensures (forall n: nat :: CutConverges(env, p, t, n)) <==> Lossless(env, p.world, t)
  {
    hide CutConverges, Lossless, Ready;
    if Lossless(env, p.world, t) {
      forall n: nat ensures CutConverges(env, p, t, n) {
        if t.persistBefore {
          PersistFirstCutConverges(env, p, t, n);
        } else {
          PlainCutConverges(env, p, t, n);
        }
      }
    } else if t.persistBefore {
      PersistFirstDiverges(env, p, t);
    } else {
      TwoStepDiverges(env, p, t);
    }
  }

  // ---------- superseded results go with the run

  /** The superseded results are discarded exactly when the run is at the new
      revision. */
  predicate Paired(before: World, after: World, t: Transition) {
    || (after.run == before.run && Outcomes(after) == Outcomes(before))
    || (after.run.Some? && after.run.value.revision == t.next.revision
        && Discards(before, after, t))
  }

  /** Saving the new run discards with it; anything else leaves both alone. */
  lemma SavedPairs(before: World, v: World, x: World, n: Run, t: Transition)
    requires Ready(before, t) && Paired(before, v, t)
    requires x.run == v.run && Outcomes(x) == Outcomes(v) && n.revision == t.next.revision
    ensures Paired(before, x, t)
    ensures var s := Saved(x, v.run, n, ScopeOf(t)); Paired(before, s, t) && s.slot == x.slot
    ensures Paired(before, Saved(x, v.run, n, ScopeOf(t)).(slot := None), t)
  {
    hide Recoverable, Supersede, Discards;
    var s := Saved(x, v.run, n, ScopeOf(t));
    ScopeDiscards(before, v, t);
    ScopeDiscards(before, x, t);
    ScopeDiscards(before, s, t);
    ScopeDiscards(before, s.(slot := None), t);
  }

  lemma ReplayPairs(env: Adapters, p: Proc, b: Budget, before: World, t: Transition)
    requires Ready(before, t) && Replayable(env, p.world, EffectOf(t)) && Paired(before, p.world, t)
    ensures var q := Replay(env, Restart(p, b), EffectOf(t));
            Paired(before, q.world, t) && q.world.slot in {p.world.slot, None}
  {
    hide Replay, Replayable, Ready, Paired, Saved, FindComment, StateLabels, StatusIdentity, Projected;
    var v, n := p.world, Adopted(p.world.run, t.next);
    var w := Halted(v, t.stopWorker);
    var labelled, commented := Labelled(w, n), Commented(env, Labelled(w, n), n, t.create);
    Reaches(env, p, b, EffectOf(t));
    SavedPairs(before, v, w, n, t);
    SavedPairs(before, v, labelled, n, t);
    SavedPairs(before, v, commented, Identified(w, n, t.create), t);
  }

  lemma ApplyPairs(env: Adapters, p: Proc, b: Budget, t: Transition)
    requires Ready(p.world, t) && !t.persistBefore && (env.atomicSeam || Discarding(p.world, ScopeOf(t)) == p.world)
    ensures var q, e := Apply(env, Restart(p, b), t), EffectOf(t);
            && Paired(p.world, q.world, t)
            && (q.world.slot.None? || (q.world.slot == Some(e) && Replayable(env, q.world, e)))
  {
    hide Apply, Replay, Replayable, Ready, Paired, Key;
    var e := EffectOf(t);
    var r := Reserve(Restart(p, b), e);
    ApplyIsReplay(env, Restart(p, b), t);
    ReservedIsReplayable(env, p.world, t);
    ReservedPairs(p, b, t);
    if r.progress == Going {
      assert Restart(r, r.budget) == r;
      ReplayPairs(env, r, r.budget, p.world, t);
      ReplayResumes(env, r, r.budget, e);
    }
  }

  lemma ReservedPairs(p: Proc, b: Budget, t: Transition)
    requires Ready(p.world, t)
    ensures var r, reserved := Reserve(Restart(p, b), EffectOf(t)), p.world.(slot := Some(EffectOf(t)));
            && (r.progress == Going ==> r.world == reserved)
            && (r.progress != Going ==> r.world == p.world)
            && Paired(p.world, p.world, t) && Paired(p.world, reserved, t) && p.world.slot.None?
  {
    hide Key, Recoverable;
  }

  /** Results and run move together at every cut exactly when nothing is to be
      discarded, or the store has the transaction and the run is not saved first. */
  lemma PairedIff(env: Adapters, p: Proc, t: Transition)
    requires Ready(p.world, t)
    ensures (forall b :: Paired(p.world, Apply(env, Restart(p, b), t).world, t))
            <==> NothingToDiscard(p.world, t) || (env.atomicSeam && !t.persistBefore)
  {
    hide Apply, FindComment, StateLabels, Supersede, StatusIdentity, Recoverable, Projected, UpToSave;
    hide AllSuperseded;
    NothingDiscarded(p.world, t);
    if t.persistBefore {
      PersistFirstReaches(env, p, Unbounded, t);
      if NothingToDiscard(p.world, t) {
        forall b ensures Paired(p.world, Apply(env, Restart(p, b), t).world, t) {
          PersistFirstReaches(env, p, b, t);
        }
      } else {
        assert !Paired(p.world, Apply(env, Restart(p, Unbounded), t).world, t);
      }
    } else if env.atomicSeam || NothingToDiscard(p.world, t) {
      forall b ensures Paired(p.world, Apply(env, Restart(p, b), t).world, t) {
        ApplyPairs(env, p, b, t);
      }
    } else {
      CutBetweenTheTwoSteps(env, p, t);
      assert !Paired(p.world, Apply(env, Restart(p, Cut(UpToSave(env, p.world, t))), t).world, t);
    }
  }
}
