/** Acceptance of one validated report: invocation, native exit, worker and run
    as one effect (internal/effect/result_acceptance.go). */
module ResultAcceptances {
  import opened Options
  import opened EffectWorld
  import opened Labels
  import opened IssueProjection
  import opened RunProjection

  datatype Request = Request(
    invocation: Invocation, worker: string, previous: Run, next: Run, stopWorker: bool, unitResult: Option<string>)

  function EffectOf(a: Request): Effect {
    Acceptance(a.next.id, a.invocation, a.worker, a.previous, a.next, a.stopWorker, a.unitResult)
  }

  /** The stored invocation is live, or already what the report makes it. */
  predicate Acceptable(w: World, invocation: Invocation) {
    && invocation.id in w.invocations
    && var stored := w.invocations[invocation.id];
       stored.status.Live? || (stored.status == invocation.status && stored.session == invocation.session)
  }

  predicate LiveIn(w: World, id: string) {
    id in w.invocations && w.invocations[id].status.Live?
  }

  function StopIfAsked(p: Proc, stop: bool, worker: string, fallback: string): Proc {
    if stop then StopWorker(p, if worker == "" then fallback else worker) else p
  }

  function SaveUnitIfAny(p: Proc, result: Option<string>): Proc {
    if result.Some? then SaveUnitResult(p, result.value) else p
  }

  function DeliverAlways(p: Proc, invocation: Invocation): Proc {
    FinishSession(if LiveIn(p.world, invocation.id) then SaveInvocation(p, invocation) else p, invocation.id)
  }

  /** The terminal status is stored before the exit is delivered, which happens
      whether or not the invocation was live. */
  function Accept(env: Adapters, p: Proc, a: Request): Proc {
    var e := EffectOf(a);
    var r := Reserve(p, e);
    if !Acceptable(r.world, a.invocation) then Refuse(r)
    else
      var f := StopIfAsked(DeliverAlways(r, a.invocation), a.stopWorker, a.worker, a.previous.id);
      var u := SaveUnitIfAny(f, a.unitResult);
      Clear(SaveRun(ApplyStateTransition(env, u, a.next, false), Identified(u.world, a.next, false)), e)
  }

  function DeliverIfLive(p: Proc, invocation: Invocation): Proc {
    if LiveIn(p.world, invocation.id) then FinishSession(SaveInvocation(p, invocation), invocation.id) else p
  }

  /** A replay delivers the exit only for an invocation it finds live. */
  function Front(p: Proc, e: Effect): Proc
    requires e.Acceptance?
  {
    SaveUnitIfAny(StopIfAsked(DeliverIfLive(p, e.invocation), e.stopWorker, e.worker, e.run), e.unitResult)
  }

  function Replay(env: Adapters, p: Proc, e: Effect): Proc
    requires e.Acceptance?
  {
    var w := p.world;
    if !Admits(w.run, e.run, e.previous, e.next) || !Acceptable(w, e.invocation) then Refuse(p)
    else Conclude(env, Front(p, e), w.run, e, Adopted(w.run, e.next), false, RetainResults, e.previous.revision)
  }

  /** The run a replay returns, stored or not: its caller goes on with it. */
  function Returned(w: World, e: Effect): Run
    requires e.Acceptance?
  {
    Identified(w, Adopted(w.run, e.next), false)
  }

  /** A report is taken exactly when its invocation is stored and live, or stored
      with the outcome and the session that the report gives it; otherwise an accept
      stops behind its reservation and a replay changes nothing. */
  lemma ReportTakenIff(env: Adapters, p: Proc, a: Request)
    requires p.progress == Going && p.budget == Unbounded && p.world.slot.None?
    requires Recoverable(p.world.comments, a.next, false)
    ensures var stored := p.world.invocations;
            var fits := a.invocation.id in stored
                        && (stored[a.invocation.id].status == Live
                            || (stored[a.invocation.id].status == a.invocation.status
                                && stored[a.invocation.id].session == a.invocation.session));
            var q, e := Accept(env, p, a), EffectOf(a);
            var held := p.(world := p.world.(slot := Some(e)));
            && (fits <==> q.progress == Going)
            && (!fits ==> q == held.(progress := Refused))
            && (!fits ==> Replay(env, held, e) == held.(progress := Refused))
  {
    hide FindComment, StateLabels, StatusIdentity, Key;
    var e := EffectOf(a);
    var r := Reserve(p, e);
    assert r == p.(world := p.world.(slot := Some(e)));
    if Acceptable(r.world, a.invocation) {
      var f := StopIfAsked(DeliverAlways(r, a.invocation), a.stopWorker, a.worker, a.previous.id);
      var u := SaveUnitIfAny(f, a.unitResult);
      assert u.progress == Going && u.budget == Unbounded && u.world.comments == p.world.comments;
      assert u.world.slot == Some(e);
      LabelsLand(u, a.next);
      CommentLands(env, ProjectLabels(u, a.next), a.next, false);
    }
  }

  // ---------- where a replay ends

  function Terminated(w: World, e: Effect): World
    requires e.Acceptance?
  {
    if LiveIn(w, e.invocation.id) then w.(invocations := w.invocations[e.invocation.id := e.invocation]) else w
  }

  function WorkerOf(e: Effect): string
    requires e.Acceptance?
  {
    if e.worker == "" then e.run else e.worker
  }

  function Released(w: World, e: Effect): World
    requires e.Acceptance?
  {
    if e.stopWorker then w.(workers := w.workers - {WorkerOf(e)}) else w
  }

  function Recorded(w: World, e: Effect): World
    requires e.Acceptance?
  {
    if e.unitResult.Some? then w.(unitResults := w.unitResults + {e.unitResult.value}) else w
  }

  function Fronted(w: World, e: Effect): World
    requires e.Acceptance?
  {
    Recorded(Released(Terminated(w, e), e), e)
  }

  predicate Replayable(w: World, e: Effect)
    requires e.Acceptance?
  {
    && w.slot == Some(e)
    && e.next.id == e.run && !e.invocation.status.Live?
    && Admits(w.run, e.run, e.previous, e.next)
    && Acceptable(w, e.invocation)
    && Recoverable(w.comments, Adopted(w.run, e.next), false)
  }

  lemma FrontLands(p: Proc, e: Effect)
    requires e.Acceptance? && p.progress == Going
    ensures var q, w, t := Front(p, e), p.world, Terminated(p.world, e);
            && (q.progress == Going ==> q.world == Fronted(w, e))
            && (q.progress != Going ==> q.world in {w, t, Released(t, e), Fronted(w, e)})
            && (p.budget == Unbounded ==> q.progress == Going && q.budget == Unbounded)
  {}

  lemma Reaches(env: Adapters, p: Proc, b: Budget, e: Effect)
    requires e.Acceptance? && Replayable(p.world, e)
    ensures var q := Replay(env, Restart(p, b), e);
            var t, w, n := Terminated(p.world, e), Fronted(p.world, e), Adopted(p.world.run, e.next);
            var labelled, commented := Labelled(w, n), Commented(env, Labelled(w, n), n, false);
            && (q.progress == Going ==> q.world == Concluded(env, w, w.run, n, false, RetainResults))
            && (q.progress != Going ==>
                  || q.world in {p.world, t, Released(t, e), w}
                  || q.world in {labelled, commented, Saved(commented, w.run, Identified(w, n, false), RetainResults)})
            && (b == Unbounded ==> q.progress == Going && q.budget == Unbounded)
  {
    hide FindComment, StateLabels, Decide, StatusIdentity, Projected, Front, LiveIn, Acceptable;
    var f, n := Front(Restart(p, b), e), Adopted(p.world.run, e.next);
    FrontLands(Restart(p, b), e);
    if f.progress == Going {
      ConclusionLands(env, f, p.world.run, e, n, false, RetainResults, e.previous.revision);
    } else {
      ConclusionIdle(env, f, p.world.run, e, n, false, RetainResults, e.previous.revision);
    }
  }

  /** Once the front's steps are behind, repeating it changes nothing. */
  lemma FrontSettles(w: World, v: World, e: Effect)
    requires e.Acceptance? && Acceptable(w, e.invocation) && !e.invocation.status.Live?
    requires var t := Terminated(w, e); v in {w, t, Released(t, e), Fronted(w, e)}
    ensures Acceptable(v, e.invocation) && Fronted(v, e) == Fronted(w, e)
  {
    var t := Terminated(w, e);
    if v == w || v == t {
    } else if v == Released(t, e) {
    } else {
    }
  }

  lemma ReplayResumes(env: Adapters, p: Proc, b: Budget, e: Effect)
    requires e.Acceptance? && Replayable(p.world, e)
    ensures var full, q := Replay(env, Restart(p, Unbounded), e), Replay(env, Restart(p, b), e);
            && Resumes(full, q, Replay(env, Restart(q, Unbounded), e), e)
            && (q.progress != Going ==> Replayable(q.world, e))
  {
    hide Replay, FindComment, StateLabels, Decide, StatusIdentity, Projected, Acceptable, Fronted, Terminated;
    var t, w, n := Terminated(p.world, e), Fronted(p.world, e), Adopted(p.world.run, e.next);
    Reaches(env, p, Unbounded, e);
    Reaches(env, p, b, e);
    FrontFrame(p.world, e);
    FrontSettles(p.world, w, e);
    var q := Replay(env, Restart(p, b), e);
    if q.progress != Going {
      if q.world in {p.world, t, Released(t, e), w} {
        FrontSettles(p.world, q.world, e);
        Reaches(env, q, Unbounded, e);
      } else {
        ConclusionResumes(env, w, q.world, e, e.next, true, false, RetainResults, e.previous.revision);
        SameFront(w, q.world, e);
        Reaches(env, q, Unbounded, e);
      }
    }
  }

  lemma FrontFrame(w: World, e: Effect)
    requires e.Acceptance?
    ensures forall v :: v in {Terminated(w, e), Released(Terminated(w, e), e), Fronted(w, e)} ==>
              v == w.(invocations := v.invocations, workers := v.workers, unitResults := v.unitResults)
  {
    hide LiveIn;
  }

  /** The front depends on three parts of the world only. */
  lemma SameFront(w: World, v: World, e: Effect)
    requires e.Acceptance? && Acceptable(w, e.invocation) && Fronted(w, e) == w
    requires w.invocations == v.invocations && w.workers == v.workers && w.unitResults == v.unitResults
    ensures Acceptable(v, e.invocation) && Fronted(v, e) == v
  {}

  /** Accepting a live invocation is replaying its reservation. */
  lemma AcceptIsReplay(env: Adapters, p: Proc, a: Request)
    requires p.progress == Going && LiveIn(p.world, a.invocation.id) && Startable(p.world, a)
    ensures var e := EffectOf(a);
            var r := Reserve(p, e);
            Accept(env, p, a) == if r.progress == Going then Replay(env, r, e) else r
  {
    hide FindComment, StateLabels, Decide, StatusIdentity, Key;
    var e := EffectOf(a);
    var r := Reserve(p, e);
    if r.progress != Going {
      Idle(env, r, a.next, false, e, RetainResults, a.previous.revision, Identified(r.world, a.next, false));
    }
  }

  // ---------- safety of an acceptance

  /** The run is where the acceptance starts, and the report ends the
      invocation. */
  predicate Startable(w: World, a: Request) {
    && a.previous.id == a.next.id && a.previous.revision < a.next.revision
    && !a.invocation.status.Live?
    && (w.run.Some? ==> w.run.value.id == a.next.id && w.run.value.revision == a.previous.revision)
  }

  /** The run is never stored at the accepted revision while its invocation is
      live or its worker is still to be stopped. */
  predicate Ordered(w: World, e: Effect)
    requires e.Acceptance?
  {
    w.run.Some? && w.run.value.revision >= e.next.revision ==>
      !LiveIn(w, e.invocation.id) && (e.stopWorker ==> WorkerOf(e) !in w.workers)
  }

  /** The exit was delivered at most once since `delivered`, and not at all
      while the invocation is live. */
  predicate InStep(p: Proc, e: Effect, delivered: nat)
    requires e.Acceptance?
  {
    var count := p.tally.finishes[e.invocation.id];
    && delivered <= count <= delivered + 1
    && (LiveIn(p.world, e.invocation.id) ==> count == delivered)
    && Ordered(p.world, e)
  }

  lemma DeliveryKeepsStep(p: Proc, e: Effect, delivered: nat)
    requires e.Acceptance? && !e.invocation.status.Live? && InStep(p, e, delivered)
    ensures var s := DeliverIfLive(p, e.invocation);
            && InStep(s, e, delivered)
            && s.world.run == p.world.run && s.world.slot == p.world.slot
            && (s.progress == Going ==> !LiveIn(s.world, e.invocation.id))
  {}

  lemma ReleaseKeepsStep(p: Proc, e: Effect, delivered: nat)
    requires e.Acceptance? && InStep(p, e, delivered)
    ensures var s := SaveUnitIfAny(StopIfAsked(p, e.stopWorker, e.worker, e.run), e.unitResult);
            && InStep(s, e, delivered)
            && s.world.run == p.world.run && s.world.slot == p.world.slot && s.world.invocations == p.world.invocations
            && (s.progress == Going ==> p.progress == Going && (e.stopWorker ==> WorkerOf(e) !in s.world.workers))
  {}

  /** The front keeps the order, and past it the run may advance. */
  lemma FrontKeepsStep(p: Proc, e: Effect, delivered: nat)
    requires e.Acceptance? && !e.invocation.status.Live? && InStep(p, e, delivered)
    ensures var f := Front(p, e);
            && InStep(f, e, delivered)
            && f.world.run == p.world.run && f.world.slot == p.world.slot
            && (f.progress == Going ==>
                && !LiveIn(f.world, e.invocation.id)
                && (e.stopWorker ==> WorkerOf(e) !in f.world.workers))
  {
    hide DeliverIfLive, SaveUnitIfAny, StopIfAsked, InStep;
    DeliveryKeepsStep(p, e, delivered);
    ReleaseKeepsStep(DeliverIfLive(p, e.invocation), e, delivered);
  }

  lemma ReplayKeepsStep(env: Adapters, p: Proc, e: Effect, delivered: nat)
    requires e.Acceptance? && !e.invocation.status.Live?
    requires InStep(p, e, delivered)
    ensures InStep(Replay(env, p, e), e, delivered)
    ensures Replay(env, p, e).world.slot in {p.world.slot, None}
  {
    hide Conclude, Front, FindComment;
    if Admits(p.world.run, e.run, e.previous, e.next) && Acceptable(p.world, e.invocation) {
      FrontKeepsStep(p, e, delivered);
      ConclusionFrame(env, Front(p, e), p.world.run, e, Adopted(p.world.run, e.next), false, e.previous.revision);
    }
  }

  /** Any number of replays, each cut anywhere, as long as the slot is taken. */
  function Replays(env: Adapters, p: Proc, e: Effect, cuts: seq<Budget>): Proc
    requires e.Acceptance?
    decreases |cuts|
  {
    if cuts == [] || p.world.slot != Some(e) then p
    else Replays(env, Replay(env, Restart(p, cuts[0]), e), e, cuts[1..])
  }

  lemma {:induction false} ReplaysKeepStep(env: Adapters, p: Proc, e: Effect, cuts: seq<Budget>, delivered: nat)
    requires e.Acceptance? && !e.invocation.status.Live?
    requires InStep(p, e, delivered)
    ensures InStep(Replays(env, p, e, cuts), e, delivered)
    decreases |cuts|
  {
    hide Replay, InStep;
    if cuts != [] && p.world.slot == Some(e) {
      assert InStep(Restart(p, cuts[0]), e, delivered) by { Restarted(p, cuts[0], e, delivered); }
      ReplayKeepsStep(env, Restart(p, cuts[0]), e, delivered);
      ReplaysKeepStep(env, Replay(env, Restart(p, cuts[0]), e), e, cuts[1..], delivered);
    }
  }

  lemma Restarted(p: Proc, b: Budget, e: Effect, delivered: nat)
    requires e.Acceptance? && InStep(p, e, delivered)
    ensures InStep(Restart(p, b), e, delivered)
  {}

  /** One acceptance of a live invocation and any replays of it, cut anywhere:
      the native exit is delivered at most once, and the run advances only after
      the invocation has ended and the worker is stopped. */
  lemma AcceptanceSafety(env: Adapters, p: Proc, a: Request, b: Budget, cuts: seq<Budget>)
    requires p.world.slot.None? && LiveIn(p.world, a.invocation.id) && Startable(p.world, a)
    ensures var e := EffectOf(a);
            var q := Replays(env, Accept(env, Restart(p, b), a), e, cuts);
            && q.tally.finishes[a.invocation.id] <= p.tally.finishes[a.invocation.id] + 1
            && Ordered(q.world, e)
  {
    hide Replay, Accept;
    var e := EffectOf(a);
    var delivered := p.tally.finishes[a.invocation.id];
    AcceptIsReplay(env, Restart(p, b), a);
    var r := Reserve(Restart(p, b), e);
    ReplayKeepsStep(env, r, e, delivered);
    ReplaysKeepStep(env, Accept(env, Restart(p, b), a), e, cuts, delivered);
  }

  /** A second acceptance of the same report, instead of a replay, delivers the
      exit again: twice in all exactly when the first one got as far as the
      delivery, its third mutation. */
  lemma AcceptingAgainFinishesAgain(env: Adapters, p: Proc, a: Request, n: nat)
    requires p.world.slot.None? && LiveIn(p.world, a.invocation.id) && Startable(p.world, a)
    requires Accept(env, Restart(p, Cut(n)), a).progress != Going
    ensures var q := Accept(env, Restart(Accept(env, Restart(p, Cut(n)), a), Unbounded), a);
            q.tally.finishes[a.invocation.id] == p.tally.finishes[a.invocation.id] + if n >= 3 then 2 else 1
  {
    hide ApplyStateTransition, FindComment, Key;
    var q := Accept(env, Restart(p, Cut(n)), a);
    FinishesOf(env, Restart(p, Cut(n)), a);
    FinishesOf(env, Restart(q, Unbounded), a);
  }

  lemma FinishesOf(env: Adapters, p: Proc, a: Request)
    requires p.progress == Going
    requires p.world.slot.Some? ==> p.world.slot == Some(EffectOf(a))
    requires Acceptable(p.world, a.invocation)
    ensures var q := Accept(env, p, a);
            var delivered := if LiveIn(p.world, a.invocation.id) then 3 else 2;
            var far := match p.budget { case Unbounded => true case Cut(n) => n >= delivered };
            && q.tally.finishes == p.tally.finishes + (if far then multiset{a.invocation.id} else multiset{})
            && Acceptable(q.world, a.invocation)
            && q.world.slot in {p.world.slot, Some(EffectOf(a)), None}
  {
    hide DeliverAlways, Acceptable, SaveUnitIfAny, StopIfAsked, Clear, SaveRun, Identified, ApplyStateTransition;
    hide Reserve, LiveIn;
    var r := Reserve(p, EffectOf(a));
    ReservationKept(p, a);
    var f := DeliverAlways(r, a.invocation);
    DeliveryCount(p, a);
    ReleaseFrame(f, a);
    AcceptTail(env, SaveUnitIfAny(StopIfAsked(f, a.stopWorker, a.worker, a.previous.id), a.unitResult), a);
    SameAcceptable(f.world, Accept(env, p, a).world, a.invocation);
  }

  lemma SameAcceptable(w: World, v: World, invocation: Invocation)
    requires w.invocations == v.invocations
    ensures Acceptable(w, invocation) <==> Acceptable(v, invocation)
  {}

  lemma ReservationKept(p: Proc, a: Request)
    requires p.world.slot.Some? ==> p.world.slot == Some(EffectOf(a))
    ensures var r := Reserve(p, EffectOf(a));
            r.world.invocations == p.world.invocations && r.tally == p.tally
              && r.world.slot in {p.world.slot, Some(EffectOf(a))}
    ensures Acceptable(Reserve(p, EffectOf(a)).world, a.invocation) <==> Acceptable(p.world, a.invocation)
  {
    hide Key;
  }

  lemma DeliveryCount(p: Proc, a: Request)
    requires p.progress == Going
    requires p.world.slot.Some? ==> p.world.slot == Some(EffectOf(a))
    requires Acceptable(p.world, a.invocation)
    ensures var f := DeliverAlways(Reserve(p, EffectOf(a)), a.invocation);
            var delivered := if LiveIn(p.world, a.invocation.id) then 3 else 2;
            var far := match p.budget { case Unbounded => true case Cut(n) => n >= delivered };
            && f.tally.finishes == p.tally.finishes + (if far then multiset{a.invocation.id} else multiset{})
            && f.world.slot in {p.world.slot, Some(EffectOf(a))}
            && Acceptable(f.world, a.invocation)
  {
    hide Acceptable, LiveIn;
    ReservationKept(p, a);
    LiveKept(p, a);
    hide Key;
    var r := Reserve(p, EffectOf(a));
    DeliveredCount(r, a.invocation);
  }

  lemma LiveKept(p: Proc, a: Request)
    ensures LiveIn(Reserve(p, EffectOf(a)).world, a.invocation.id) <==> LiveIn(p.world, a.invocation.id)
  {
    hide Key;
  }

  lemma DeliveredCount(p: Proc, invocation: Invocation)
    requires Acceptable(p.world, invocation)
    ensures var f := DeliverAlways(p, invocation);
            var far := p.progress == Going && match p.budget {
                         case Unbounded => true
                         case Cut(n) => n >= if LiveIn(p.world, invocation.id) then 2 else 1 };
            && f.tally.finishes == p.tally.finishes + (if far then multiset{invocation.id} else multiset{})
            && f.world.slot == p.world.slot
            && Acceptable(f.world, invocation)
  {
  }

  lemma ReleaseFrame(p: Proc, a: Request)
    ensures var u := SaveUnitIfAny(StopIfAsked(p, a.stopWorker, a.worker, a.previous.id), a.unitResult);
            u.tally == p.tally && u.world.slot == p.world.slot && u.world.invocations == p.world.invocations
  {}

  lemma AcceptTail(env: Adapters, u: Proc, a: Request)
    ensures var q := Clear(SaveRun(ApplyStateTransition(env, u, a.next, false), Identified(u.world, a.next, false)),
                           EffectOf(a));
            && q.tally.finishes == u.tally.finishes && q.world.invocations == u.world.invocations
            && q.world.slot in {u.world.slot, None}
  {
    hide ApplyStateTransition, StatusIdentity, Key;
    ProjectionFrame(env, u, a.next, false);
  }
}
