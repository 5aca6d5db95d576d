/** Acceptances that keep the run's revision, as those of a review and of the test
    stage do (internal/factory/report_acceptance.go:694-699), as far as the journal
    goes. The first attempt saves the run whatever its revision; a replay saves it
    only when it is behind, and returns it either way. What the caller does with the
    returned run is the subject of `AcceptedReports`. */
module SameRevisions {
  import opened Options
  import opened EffectWorld
  import opened Labels
  import opened IssueProjection
  import opened RunProjection
  import opened ResultAcceptances

  /** A live invocation's report is accepted without a new revision. */
  predicate Ready(w: World, a: Request) {
    && w.slot.None? && LiveIn(w, a.invocation.id) && !a.invocation.status.Live?
    && a.previous.id == a.next.id && a.previous.revision == a.next.revision
    && w.run.Some? && w.run.value.id == a.next.id && w.run.value.revision == a.next.revision
    && Recoverable(w.comments, a.next, false)
  }

  function Reserved(w: World, a: Request): World {
    w.(slot := Some(EffectOf(a)))
  }

  /** The world of an uninterrupted acceptance, before its acknowledgement. */
  function Accepted(env: Adapters, w: World, a: Request): World {
    var f := Fronted(Reserved(w, a), EffectOf(a));
    Commented(env, Labelled(f, a.next), a.next, false).(run := Some(Identified(w, a.next, false)))
  }

  // ---------- where an acceptance ends

  lemma DeliveryLands(p: Proc, e: Effect)
    requires e.Acceptance? && p.progress == Going && LiveIn(p.world, e.invocation.id)
    ensures var d := DeliverAlways(p, e.invocation);
            && (d.progress == Going ==> d.world == Terminated(p.world, e))
            && (d.progress != Going ==> d.world in {p.world, Terminated(p.world, e)})
            && (p.budget == Unbounded ==> d.progress == Going && d.budget == Unbounded)
  {
  }

  lemma ReleaseLands(p: Proc, e: Effect)
    requires e.Acceptance? && p.progress == Going
    ensures var u := SaveUnitIfAny(StopIfAsked(p, e.stopWorker, e.worker, e.run), e.unitResult);
            && (u.progress == Going ==> u.world == Recorded(Released(p.world, e), e))
            && (u.progress != Going ==> u.world in {p.world, Released(p.world, e), Recorded(Released(p.world, e), e)})
            && (p.budget == Unbounded ==> u.progress == Going && u.budget == Unbounded)
  {
  }

  lemma Ended(env: Adapters, p: Proc, a: Request, saved: Run)
    requires p.progress != Going
    ensures SaveUnitIfAny(StopIfAsked(p, a.stopWorker, a.worker, a.previous.id), a.unitResult) == p
    ensures ApplyStateTransition(env, p, a.next, false) == SaveRun(p, saved) == Clear(p, EffectOf(a)) == p
  {
    hide Key;
    ProjectionIdle(env, p, a.next, false);
  }

  /** The end of the acceptance, behind its front. */
  lemma TailReaches(env: Adapters, u: Proc, a: Request)
    requires u.progress == Going && u.world.slot == Some(EffectOf(a)) && Recoverable(u.world.comments, a.next, false)
    ensures var n := Identified(u.world, a.next, false);
            var q := Clear(SaveRun(ApplyStateTransition(env, u, a.next, false), n), EffectOf(a));
            var labelled := Labelled(u.world, a.next);
            var commented := Commented(env, labelled, a.next, false);
            && (q.progress == Going ==> q.world == commented.(run := Some(n), slot := None))
            && (q.progress != Going ==> q.world in {u.world, labelled, commented, commented.(run := Some(n))})
            && (u.budget == Unbounded ==> q.progress == Going && q.budget == Unbounded)
  {
    hide ProjectLabels, ProjectComment, SaveRun, Clear, Projected, StateLabels, StatusIdentity, StatusComment;
    hide Recoverable;
    var e, n := EffectOf(a), Identified(u.world, a.next, false);
    var l := ProjectLabels(u, a.next);
    LabelsLand(u, a.next);
    if l.progress != Going {
      Idle(env, l, a.next, false, e, RetainResults, 0, n);
      return;
    }
    var c := ProjectComment(env, l, a.next, false);
    CommentLands(env, l, a.next, false);
    if c.progress != Going {
      Idle(env, c, a.next, false, e, RetainResults, 0, n);
      return;
    }
    SaveLands(c, n);
    var s := SaveRun(c, n);
    if s.progress != Going {
      Idle(env, s, a.next, false, e, RetainResults, 0, n);
      return;
    }
    ClearLands(s, e);
  }

  lemma SaveLands(p: Proc, next: Run)
    requires p.progress == Going
    ensures Lands(p, SaveRun(p, next), p.world.(run := Some(next)))
  {
  }

  lemma AcceptReaches(env: Adapters, p: Proc, b: Budget, a: Request)
    requires Ready(p.world, a)
    ensures var q, e := Accept(env, Restart(p, b), a), EffectOf(a);
            var w := Reserved(p.world, a);
            var t, f := Terminated(w, e), Fronted(w, e);
            var labelled, commented := Labelled(f, a.next), Commented(env, Labelled(f, a.next), a.next, false);
            && (q.progress == Going ==> q.world == Accepted(env, p.world, a).(slot := None))
            && (q.progress != Going ==>
                  q.world == p.world
                  || q.world in {w, t, Released(t, e), f}
                  || q.world in {labelled, commented, Accepted(env, p.world, a)})
            && (b == Unbounded ==> q.progress == Going && q.budget == Unbounded)
            && (b == Cut(1) ==> q.progress == Stopped && q.world == w)
            && (b != Cut(0) && q.progress != Going ==> q.world.slot == w.slot)
  {
    hide DeliverAlways, SaveUnitIfAny, StopIfAsked, SaveRun, Clear, ApplyStateTransition, Reserve;
    hide Terminated, Released, Recorded, Projected, StateLabels, StatusIdentity, LiveIn, Acceptable, Recoverable;
    var e, w := EffectOf(a), Reserved(p.world, a);
    var r := Reserve(Restart(p, b), e);
    ReservedLands(p, b, a);
    FrontKeeps(w, e);
    if r.progress != Going {
      AcceptEnded(r, a);
      Ended(env, r, a, Identified(r.world, a.next, false));
      return;
    }
    LiveAcceptable(p.world, a);
    var d := DeliverAlways(r, a.invocation);
    DeliveryLands(r, e);
    SpentDelivery(r, a);
    if d.progress != Going {
      Ended(env, d, a, Identified(d.world, a.next, false));
      return;
    }
    var u := SaveUnitIfAny(StopIfAsked(d, a.stopWorker, a.worker, a.previous.id), a.unitResult);
    ReleaseLands(d, e);
    if u.progress != Going {
      Ended(env, u, a, Identified(u.world, a.next, false));
      return;
    }
    TailReaches(env, u, a);
  }

  lemma LiveAcceptable(w: World, a: Request)
    requires LiveIn(w, a.invocation.id)
    ensures LiveIn(Reserved(w, a), a.invocation.id) && Acceptable(Reserved(w, a), a.invocation)
  {
  }

  lemma ReservedLands(p: Proc, b: Budget, a: Request)
    requires p.world.slot.None?
    ensures var r := Reserve(Restart(p, b), EffectOf(a));
            && (r.progress == Going ==> r.world == Reserved(p.world, a))
            && (r.progress != Going ==> r.world == p.world)
            && (b == Unbounded ==> r.progress == Going && r.budget == Unbounded)
            && (b != Cut(0) ==> r.progress == Going)
            && (b == Cut(1) ==> r.progress == Going && r.budget == Cut(0))
  {
  }

  lemma SpentDelivery(p: Proc, a: Request)
    requires p.progress == Going && LiveIn(p.world, a.invocation.id)
    ensures p.budget == Cut(0) ==>
              DeliverAlways(p, a.invocation).progress == Stopped && DeliverAlways(p, a.invocation).world == p.world
  {
  }

  lemma AcceptEnded(r: Proc, a: Request)
    requires r.progress != Going
    ensures DeliverAlways(r, a.invocation) == r == EffectWorld.Refuse(r)
  {
  }

  /** The front touches invocations, workers and unit results only. */
  lemma FrontKeeps(w: World, e: Effect)
    requires e.Acceptance?
    ensures forall v :: v in {Terminated(w, e), Released(Terminated(w, e), e), Fronted(w, e)} ==>
              && v.slot == w.slot && v.comments == w.comments && v.labels == w.labels && v.run == w.run
    ensures Recorded(Released(Terminated(w, e), e), e) == Fronted(w, e)
  {
    FrontFrame(w, e);
  }

  // ---------- the crash law

  predicate CutConverges(env: Adapters, p: Proc, a: Request, n: nat) {
    var q := Accept(env, Restart(p, Cut(n)), a);
    q.progress != Going && q.world.slot.Some? ==>
      var r := Replay(env, Restart(q, Unbounded), EffectOf(a));
      r.progress == Going && r.world == Accept(env, Restart(p, Unbounded), a).world
  }

  /** The acceptance changes nothing about the run that is stored. */
  predicate KeepsRun(w: World, a: Request) {
    w.run == Some(Identified(w, a.next, false))
  }

  /** A replay of a changed run completes and leaves the stored run as it was. */
  lemma ReplayLeavesRun(env: Adapters, p: Proc, a: Request)
    requires Ready(p.world, a) && !KeepsRun(p.world, a)
    ensures !CutConverges(env, p, a, 1)
    ensures var q := Accept(env, Restart(p, Cut(1)), a);
            Replay(env, Restart(q, Unbounded), EffectOf(a)).world.run == p.world.run
  {
    hide Conclude, Front, Acceptable, LiveIn, StatusIdentity, Accept, Replay, StateLabels, Projected, Recoverable;
    var e := EffectOf(a);
    AcceptReaches(env, p, Unbounded, a);
    AcceptReaches(env, p, Cut(1), a);
    var q := Accept(env, Restart(p, Cut(1)), a);
    ReplayKeepsRun(env, Restart(q, Unbounded), a);
  }

  /** A replay never saves a run that is stored at its revision. */
  lemma ReplayKeepsRun(env: Adapters, p: Proc, a: Request)
    requires p.world.run.Some? && p.world.run.value.revision == a.next.revision
    ensures Replay(env, p, EffectOf(a)).world.run == p.world.run
  {
    hide Conclude, Acceptable, LiveIn;
    var e := EffectOf(a);
    FrontRun(p, e);
    ConclusionFrame(env, Front(p, e), p.world.run, e, Adopted(p.world.run, e.next), false, e.previous.revision);
  }

  lemma FrontRun(p: Proc, e: Effect)
    requires e.Acceptance?
    ensures Front(p, e).world.run == p.world.run
  {
  }

  /** With the run unchanged, first attempt and replay project alike. */
  lemma SameProjection(env: Adapters, w: World, f: World, a: Request)
    requires w.run.Some? && w.run.value.revision == a.next.revision && KeepsRun(w, a)
             && Recoverable(w.comments, a.next, false)
    requires f.comments == w.comments && f.run == w.run
    ensures var n := Adopted(w.run, a.next);
            && n == Identified(w, a.next, false) == Identified(f, n, false)
            && Recoverable(w.comments, n, false)
            && Labelled(f, n) == Labelled(f, a.next)
            && Commented(env, Labelled(f, n), n, false) == Commented(env, Labelled(f, a.next), a.next, false)
            && Concluded(env, f, f.run, n, false, RetainResults)
               == Commented(env, Labelled(f, a.next), a.next, false).(
                    run := Some(Identified(w, a.next, false)), slot := None)
  {
    hide FindComment, StateLabels;
  }

  lemma FromFront(env: Adapters, q: Proc, w: World, a: Request)
    requires Ready(w, a) && KeepsRun(w, a)
    requires var e, v := EffectOf(a), Reserved(w, a);
             q.world in {v, Terminated(v, e), Released(Terminated(v, e), e), Fronted(v, e)}
    ensures var r := Replay(env, Restart(q, Unbounded), EffectOf(a));
            r.progress == Going && r.world == Accepted(env, w, a).(slot := None)
  {
    hide Replay, StateLabels, Projected, StatusIdentity, Fronted, Terminated, Released, Concluded, Commented, Labelled;
    var e, v := EffectOf(a), Reserved(w, a);
    LiveAcceptable(w, a);
    FrontKeeps(v, e);
    SameProjection(env, w, Fronted(v, e), a);
    hide Recoverable, Acceptable, LiveIn;
    FrontSettles(v, q.world, e);
    Reaches(env, q, Unbounded, e);
  }

  lemma FromTail(env: Adapters, q: Proc, w: World, a: Request)
    requires Ready(w, a) && KeepsRun(w, a)
    requires var f := Fronted(Reserved(w, a), EffectOf(a));
             var labelled, commented := Labelled(f, a.next), Commented(env, Labelled(f, a.next), a.next, false);
             q.world in {labelled, commented, Accepted(env, w, a)}
    ensures var r := Replay(env, Restart(q, Unbounded), EffectOf(a));
            r.progress == Going && r.world == Accepted(env, w, a).(slot := None)
  {
    hide Replay, StateLabels, Projected, StatusIdentity, Fronted, Terminated, Released;
    var e, v := EffectOf(a), Reserved(w, a);
    var f := Fronted(v, e);
    LiveAcceptable(w, a);
    FrontKeeps(v, e);
    SameProjection(env, w, f, a);
    hide Recoverable, Acceptable, LiveIn;
    FrontSettles(v, f, e);
    ConclusionResumes(env, f, q.world, e, a.next, true, false, RetainResults, e.previous.revision);
    SameFront(f, q.world, e);
    Reaches(env, q, Unbounded, e);
  }

  /** With the run unchanged, a replay finds every interrupted attempt's world on its
      own way to the same end. */
  lemma UnchangedConverges(env: Adapters, p: Proc, a: Request, n: nat)
    requires Ready(p.world, a) && KeepsRun(p.world, a)
    ensures CutConverges(env, p, a, n)
  {
    hide Accept, Replay, Recoverable, LiveIn, KeepsRun, Fronted, Terminated, Released, Labelled, Commented, Accepted;
    AcceptReaches(env, p, Unbounded, a);
    AcceptReaches(env, p, Cut(n), a);
    var e, w := EffectOf(a), Reserved(p.world, a);
    var q := Accept(env, Restart(p, Cut(n)), a);
    if q.progress != Going && q.world.slot.Some? {
      if q.world in {w, Terminated(w, e), Released(Terminated(w, e), e), Fronted(w, e)} {
        FromFront(env, q, p.world, a);
      } else {
        FromTail(env, q, p.world, a);
      }
    }
  }

  /** The crash law of the journal's part: one replay, without what its caller goes
      on to do, reaches the world of the uninterrupted acceptance for every cut if and
      only if the stored run is already what the acceptance would save. */
  lemma ConvergesIff(env: Adapters, p: Proc, a: Request)
    requires Ready(p.world, a)
    ensures (forall n: nat :: CutConverges(env, p, a, n)) <==> KeepsRun(p.world, a)
  {
    hide CutConverges, KeepsRun, Ready;
    if KeepsRun(p.world, a) {
      forall n: nat ensures CutConverges(env, p, a, n) {
        UnchangedConverges(env, p, a, n);
      }
    } else {
      ReplayLeavesRun(env, p, a);
    }
  }

  // ---------- the exit is still delivered once

  predicate DeliveredOnce(p: Proc, id: string, delivered: nat) {
    var count := p.tally.finishes[id];
    delivered <= count <= delivered + 1 && (LiveIn(p.world, id) ==> count == delivered)
  }

  lemma AcceptDelivers(env: Adapters, p: Proc, a: Request)
    requires p.world.slot.None? && LiveIn(p.world, a.invocation.id) && !a.invocation.status.Live? && p.progress == Going
    ensures DeliveredOnce(Accept(env, p, a), a.invocation.id, p.tally.finishes[a.invocation.id])
  {
    hide DeliverAlways, SaveUnitIfAny, StopIfAsked, SaveRun, Clear, Identified, ApplyStateTransition, Reserve;
    hide Acceptable;
    var r := Reserve(p, EffectOf(a));
    ReservationKept(p, a);
    LiveKept(p, a);
    var d := DeliverAlways(r, a.invocation);
    LiveDelivery(r, a);
    ReleaseFrame(d, a);
    AcceptTail(env, SaveUnitIfAny(StopIfAsked(d, a.stopWorker, a.worker, a.previous.id), a.unitResult), a);
  }

  lemma LiveDelivery(r: Proc, a: Request)
    requires LiveIn(r.world, a.invocation.id) && !a.invocation.status.Live?
    ensures DeliveredOnce(DeliverAlways(r, a.invocation), a.invocation.id, r.tally.finishes[a.invocation.id])
  {
  }

  lemma ReplayDelivers(env: Adapters, p: Proc, e: Effect, delivered: nat)
    requires e.Acceptance? && !e.invocation.status.Live? && DeliveredOnce(p, e.invocation.id, delivered)
    ensures DeliveredOnce(Replay(env, p, e), e.invocation.id, delivered)
  {
    hide Conclude, Front, Acceptable;
    if Admits(p.world.run, e.run, e.previous, e.next) && Acceptable(p.world, e.invocation) {
      FrontDelivers(p, e, delivered);
      ConclusionFrame(env, Front(p, e), p.world.run, e, Adopted(p.world.run, e.next), false, e.previous.revision);
    }
  }

  lemma FrontDelivers(p: Proc, e: Effect, delivered: nat)
    requires e.Acceptance? && !e.invocation.status.Live? && DeliveredOnce(p, e.invocation.id, delivered)
    ensures DeliveredOnce(Front(p, e), e.invocation.id, delivered)
  {
  }

  lemma {:induction false} ReplaysDeliver(env: Adapters, p: Proc, e: Effect, cuts: seq<Budget>, delivered: nat)
    requires e.Acceptance? && !e.invocation.status.Live? && DeliveredOnce(p, e.invocation.id, delivered)
    ensures DeliveredOnce(Replays(env, p, e, cuts), e.invocation.id, delivered)
    decreases |cuts|
  {
    hide Replay;
    if cuts != [] && p.world.slot == Some(e) {
      ReplayDelivers(env, Restart(p, cuts[0]), e, delivered);
      ReplaysDeliver(env, Replay(env, Restart(p, cuts[0]), e), e, cuts[1..], delivered);
    }
  }

  /** Whatever its revisions, one acceptance of a live invocation followed by any
      replays, all cut anywhere, delivers the native exit at most once. */
  lemma ExitAtMostOnce(env: Adapters, p: Proc, a: Request, b: Budget, cuts: seq<Budget>)
    requires p.world.slot.None? && LiveIn(p.world, a.invocation.id) && !a.invocation.status.Live?
    ensures var q := Replays(env, Accept(env, Restart(p, b), a), EffectOf(a), cuts);
            q.tally.finishes[a.invocation.id] <= p.tally.finishes[a.invocation.id] + 1
  {
    hide Replay, Accept;
    AcceptDelivers(env, Restart(p, b), a);
    ReplaysDeliver(env, Accept(env, Restart(p, b), a), EffectOf(a), cuts, p.tally.finishes[a.invocation.id]);
  }
}
