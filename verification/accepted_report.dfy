/** An accepted review report and what its acceptor goes on with
    (internal/factory/report_acceptance.go, internal/factory/recovery.go). The
    acceptance keeps the revision of the run; the acceptor then publishes the review
    status and saves the run it was returned at the next revision. A recovery that
    replays the acceptance goes on in the same way. */
module AcceptedReports {
  import opened Options
  import opened EffectWorld
  import opened Labels
  import opened IssueProjection
  import opened RunProjection
  import ST = StateTransitions
  import RA = ResultAcceptances
  import SR = SameRevisions
  import HR = HarnessResumes
  import CS = CommitStatuses
  import EJ = EffectJournal

  /** What the review stage makes of the accepted content: the status it publishes
      and the content it saves. */
  datatype Policy = Policy(status: Content -> CommitStatus, project: Content -> Content)

  /** `persistAgentRunState` behind `acceptReviewReport`. */
  function Advance(run: Run, policy: Policy): ST.Transition {
    ST.Transition(run, run.(revision := run.revision + 1, content := policy.project(run.content)),
                  false, false, false, false, false)
  }

  function Continue(env: Adapters, p: Proc, run: Run, policy: Policy): Proc {
    ST.Apply(env, CS.Publish(env, p, run.id, policy.status(run.content)), Advance(run, policy))
  }

  /** The run an acceptance returns. */
  function AcceptedRun(w: World, a: RA.Request): Run {
    Identified(w, a.next, false)
  }

  function AcceptAndContinue(env: Adapters, p: Proc, a: RA.Request, policy: Policy): Proc {
    var q := RA.Accept(env, p, a);
    if q.progress == Going then Continue(env, q, AcceptedRun(p.world, a), policy) else q
  }

  /** A restarted coordinator replays what is pending, and goes on with the run that
      the replay of an accepted review returns. */
  function Recover(env: Adapters, p: Proc, policy: Policy): Proc {
    if p.world.slot.Some? && p.world.slot.value.Acceptance? then
      var e := p.world.slot.value;
      var q := RA.Replay(env, p, e);
      if q.progress == Going then Continue(env, q, RA.Returned(p.world, e), policy) else q
    else EJ.ReplayPending(env, p, HR.Waiting)
  }

  /** Recoveries that are cut in turn, and a last one that is not. */
  function Recoveries(env: Adapters, p: Proc, policy: Policy, cuts: seq<nat>): Proc
    decreases |cuts|
  {
    if cuts == [] then Recover(env, Restart(p, Unbounded), policy)
    else Recoveries(env, Recover(env, Restart(p, Cut(cuts[0])), policy), policy, cuts[1..])
  }

  // ---------- the window

  /** The continuation up to its own reservation. */
  function Taken(env: Adapters, p: Proc, run: Run, policy: Policy): Proc {
    Reserve(CS.Publish(env, p, run.id, policy.status(run.content)), ST.EffectOf(Advance(run, policy)))
  }

  /** The first process ends behind the acknowledgement of the acceptance and in front
      of the reservation of its continuation. */
  predicate StopsBetween(env: Adapters, p: Proc, a: RA.Request, policy: Policy) {
    var q := RA.Accept(env, p, a);
    q.progress == Going && Taken(env, q, AcceptedRun(p.world, a), policy).progress != Going
  }

  /** A recovery ends behind the acknowledgement of its replay and in front of that
      reservation. */
  predicate DropsBetween(env: Adapters, p: Proc, policy: Policy)
    requires p.world.slot.Some? && p.world.slot.value.Acceptance?
  {
    var e := p.world.slot.value;
    var q := RA.Replay(env, p, e);
    q.progress == Going && Taken(env, q, RA.Returned(p.world, e), policy).progress != Going
  }

  /** One of the recoveries does. */
  predicate Dropped(env: Adapters, p: Proc, policy: Policy, cuts: seq<nat>)
    decreases |cuts|
  {
    && cuts != [] && p.world.slot.Some? && p.world.slot.value.Acceptance?
    && var r := Restart(p, Cut(cuts[0]));
       DropsBetween(env, r, policy) || Dropped(env, Recover(env, r, policy), policy, cuts[1..])
  }

  // ---------- the worlds on the way

  /** A live review is accepted over the run as it is stored. */
  predicate Starts(w: World, a: RA.Request) {
    && SR.Ready(w, a) && w.run == Some(a.previous)
    && a.next.statusComment == a.previous.statusComment
  }

  /** The world of an uninterrupted acceptance. */
  function Answered(env: Adapters, w: World, a: RA.Request): World {
    SR.Accepted(env, w, a).(slot := None)
  }

  /** The world a full replay ends in. */
  function Replayed(env: Adapters, v: World, e: Effect): World
    requires e.Acceptance?
  {
    Concluded(env, RA.Fronted(v, e), v.run, Adopted(v.run, e.next), false, RetainResults)
  }

  /** The acceptance that began in `w` is pending in `v`. */
  predicate Pending(env: Adapters, w: World, a: RA.Request, v: World) {
    var e := RA.EffectOf(a);
    && RA.Replayable(v, e)
    && v.run in {w.run, Some(AcceptedRun(w, a))}
    && RA.Returned(v, e) == AcceptedRun(w, a)
    && Replayed(env, v, e) == Answered(env, w, a).(run := v.run)
  }

  function Posted(env: Adapters, statuses: seq<CommitStatus>, status: CommitStatus): seq<CommitStatus> {
    if env.readsStatuses && status in statuses then statuses else statuses + [status]
  }

  /** The world of an uninterrupted continuation from `w`. */
  function Continued(env: Adapters, w: World, run: Run, policy: Policy): World {
    var t := Advance(run, policy);
    var s := w.(statuses := Posted(env, w.statuses, policy.status(run.content)), slot := Some(ST.EffectOf(t)));
    Concluded(env, s, s.run, t.next, false, RetainResults)
  }

  /** The continuation is pending in `v` and will end in `end`. */
  predicate Moving(env: Adapters, run: Run, policy: Policy, end: World, v: World) {
    var e := ST.EffectOf(Advance(run, policy));
    && v.slot == Some(e) && ST.Replayable(env, v, e)
    && Concluded(env, v, v.run, Adopted(v.run, e.next), false, RetainResults) == end
  }

  /** Nothing is pending that knows the accepted report. */
  predicate Idle(v: World) {
    v.slot.None? || v.slot.value.StatusPublication?
  }

  // ---------- the acceptance leaves itself pending

  lemma IdentityKept(env: Adapters, w: World, v: World, a: RA.Request)
    requires Starts(w, a)
    requires v.comments in {w.comments, Commented(env, w, a.next, false).comments}
    requires v.run in {w.run, Some(AcceptedRun(w, a))}
    ensures var n := Adopted(v.run, a.next);
            && RA.Returned(v, RA.EffectOf(a)) == AcceptedRun(w, a)
            && Recoverable(v.comments, n, false)
            && n in {a.next, AcceptedRun(w, a)}
            && Commented(env, v, n, false).comments == Commented(env, w, a.next, false).comments
  {
    hide FindComment;
    CommentSettles(w.comments, a.next, false, StatusComment(env, a.next));
  }

  /** The end of a replay, from a world in which the front is behind or to come. */
  lemma ReplayedIs(env: Adapters, w: World, v: World, a: RA.Request)
    requires Starts(w, a)
    requires var e, f := RA.EffectOf(a), RA.Fronted(SR.Reserved(w, a), RA.EffectOf(a));
             && RA.Fronted(v, e) == f.(labels := v.labels, comments := v.comments, run := v.run)
             && f.comments == w.comments && f.labels == w.labels
    requires v.labels in {w.labels, StateLabels(w.labels, a.next.content.status)}
    requires v.comments in {w.comments, Commented(env, w, a.next, false).comments}
    requires v.run in {w.run, Some(AcceptedRun(w, a))}
    ensures Replayed(env, v, RA.EffectOf(a)) == Answered(env, w, a).(run := v.run)
  {
    hide FindComment, StateLabels, RA.Fronted, Projected, StatusIdentity, Recoverable;
    IdentityKept(env, w, v, a);
    StateLabelsIdempotent(w.labels, a.next.content.status);
    var e := RA.EffectOf(a);
    var f, g, n := RA.Fronted(SR.Reserved(w, a), e), RA.Fronted(v, e), Adopted(v.run, a.next);
    assert Labelled(g, n).labels == StateLabels(w.labels, a.next.content.status);
    assert Commented(env, g, n, false).comments == Commented(env, w, a.next, false).comments;
  }

  /** Where an acceptance that is cut behind its reservation leaves itself. */
  lemma AcceptLeavesPending(env: Adapters, p: Proc, b: Budget, a: RA.Request)
    requires Starts(p.world, a) && b != Cut(0)
    requires RA.Accept(env, Restart(p, b), a).progress != Going
    ensures Pending(env, p.world, a, RA.Accept(env, Restart(p, b), a).world)
  {
    hide RA.Accept, FindComment, StateLabels, Projected, StatusIdentity, Recoverable, RA.LiveIn, RA.Acceptable;
    hide Replayed, Answered, RA.Fronted, RA.Terminated, RA.Released;
    var q, e, r := RA.Accept(env, Restart(p, b), a), RA.EffectOf(a), SR.Reserved(p.world, a);
    var f := RA.Fronted(r, e);
    SR.AcceptReaches(env, p, b, a);
    SR.LiveAcceptable(p.world, a);
    SR.FrontKeeps(r, e);
    RA.FrontSettles(r, f, e);
    if q.world in {r, RA.Terminated(r, e), RA.Released(RA.Terminated(r, e), e), f} {
      RA.FrontSettles(r, q.world, e);
    } else {
      RA.SameFront(f, q.world, e);
    }
    IdentityKept(env, p.world, q.world, a);
    ReplayedIs(env, p.world, q.world, a);
  }

  // ---------- a replay of the acceptance

  lemma ReplaySteps(env: Adapters, w: World, a: RA.Request, p: Proc, b: Budget)
    requires Starts(w, a) && Pending(env, w, a, p.world)
    ensures var q := RA.Replay(env, Restart(p, b), RA.EffectOf(a));
            && (q.progress == Going ==> q.world == Answered(env, w, a).(run := p.world.run))
            && (q.progress != Going ==> Pending(env, w, a, q.world) && q.world.run == p.world.run)
            && (b == Unbounded ==> q.progress == Going && q.budget == Unbounded)
  {
    hide RA.Replay, RA.Replayable, FindComment, StateLabels, Projected, StatusIdentity, RA.Fronted, RA.Terminated;
    hide Answered, Concluded, Adopted, Starts;
    var e := RA.EffectOf(a);
    StoredAlike(env, w, a, p.world);
    RA.Reaches(env, p, b, e);
    RA.FrontFrame(p.world, e);
    var q := RA.Replay(env, Restart(p, b), e);
    if q.progress != Going {
      SR.ReplayKeepsRun(env, Restart(p, b), a);
      RA.ReplayResumes(env, p, b, e);
      RA.Reaches(env, p, Unbounded, e);
      RA.Reaches(env, q, Unbounded, e);
      RA.FrontFrame(q.world, e);
      ReturnedStays(env, p, b, e);
    }
  }

  lemma StoredAlike(env: Adapters, w: World, a: RA.Request, v: World)
    requires Starts(w, a) && Pending(env, w, a, v)
    ensures v.run.Some? && v.run.value.revision == a.next.revision && v.run.value.id == a.next.id
    ensures RA.Replayable(v, RA.EffectOf(a)) && v.slot == Some(RA.EffectOf(a))
  {
    hide FindComment, Replayed, Answered, Adopted;
  }

  /** An interrupted replay leaves the next one the same run to return. */
  lemma ReturnedStays(env: Adapters, p: Proc, b: Budget, e: Effect)
    requires e.Acceptance? && RA.Replayable(p.world, e)
    requires p.world.run.Some? && p.world.run.value.revision == e.next.revision
    requires RA.Replay(env, Restart(p, b), e).progress != Going
    ensures RA.Returned(RA.Replay(env, Restart(p, b), e).world, e) == RA.Returned(p.world, e)
  {
    hide RA.Replay, FindComment, StateLabels, Decide, RA.Fronted, RA.Terminated, RA.Acceptable;
    RA.Reaches(env, p, b, e);
    RA.FrontFrame(p.world, e);
    var n := Adopted(p.world.run, e.next);
    CommentSettles(p.world.comments, n, false, StatusComment(env, n));
  }

  // ---------- the continuation

  lemma PublishSteps(env: Adapters, p: Proc, run: string, status: CommitStatus)
    requires p.progress == Going && p.world.slot.None?
    ensures var q := CS.Publish(env, p, run, status);
            && q.world == p.world.(slot := q.world.slot, statuses := q.world.statuses)
            && Idle(q.world)
            && (q.progress == Going ==> q.world == p.world.(statuses := Posted(env, p.world.statuses, status)))
            && (p.budget == Unbounded ==> q.progress == Going && q.budget == Unbounded)
  {
    hide Key, Clear, Reserve;
    var e := StatusPublication(run, status);
    var r := Reserve(p, e);
    ReservedFirst(p, e);
    if r.progress == Going {
      var c := CS.CreateFirst(env, r, status);
      CreatedFirst(env, r, status);
      if c.progress == Going {
        ClearLands(c, e);
      }
    }
    if CS.CreateFirst(env, r, status).progress != Going {
      NotCleared(env, r, e);
    }
  }

  lemma CreatedFirst(env: Adapters, p: Proc, status: CommitStatus)
    requires p.progress == Going
    ensures Lands(p, CS.CreateFirst(env, p, status),
                  p.world.(statuses := Posted(env, p.world.statuses, status)))
  {
  }

  lemma NotCleared(env: Adapters, p: Proc, e: Effect)
    requires e.StatusPublication? && CS.CreateFirst(env, p, e.status).progress != Going
    ensures Clear(CS.CreateFirst(env, p, e.status), e) == CS.CreateFirst(env, p, e.status)
    ensures p.progress != Going ==> CS.CreateFirst(env, p, e.status) == p
  {
    hide Key;
  }

  /** A transition with its slot free: its reservation first, then a replay of it. */
  lemma AdvanceSteps(env: Adapters, s: Proc, run: Run, policy: Policy)
    requires s.progress == Going && ST.Ready(s.world, Advance(run, policy))
    ensures var t := Advance(run, policy);
            var q, r := ST.Apply(env, s, t), Reserve(s, ST.EffectOf(t));
            var reserved := s.world.(slot := Some(ST.EffectOf(t)));
            var end := Concluded(env, reserved, s.world.run, t.next, false, RetainResults);
            && (r.progress != Going ==> q == r && q.world == s.world)
            && (r.progress == Going && q.progress == Going ==> q.world == end)
            && (r.progress == Going && q.progress != Going ==> Moving(env, run, policy, end, q.world))
            && (s.budget == Unbounded ==> r.progress == Going && q.progress == Going)
  {
    hide ST.Apply, ST.Replay, ST.Replayable, FindComment, StateLabels, Recoverable, StatusIdentity, Projected;
    var t := Advance(run, policy);
    var e := ST.EffectOf(t);
    var r := Reserve(s, e);
    ST.ApplyIsReplay(env, s, t);
    ST.ReservedIsReplayable(env, s.world, t);
    ReservedFirst(s, e);
    if r.progress == Going {
      assert Restart(r, r.budget) == r;
      MovingSteps(env, run, policy, r, r.budget);
    }
  }

  lemma ReservedFirst(p: Proc, e: Effect)
    requires p.progress == Going && p.world.slot.None?
    ensures var r := Reserve(p, e);
            && (r.progress == Going ==> r.world == p.world.(slot := Some(e)))
            && (r.progress != Going ==> r.world == p.world)
            && (p.budget == Unbounded ==> r.progress == Going && r.budget == Unbounded)
  {
  }

  /** A replay of the continuation gets through or leaves it pending. */
  lemma MovingSteps(env: Adapters, run: Run, policy: Policy, p: Proc, b: Budget)
    requires var e := ST.EffectOf(Advance(run, policy));
             p.world.slot == Some(e) && ST.Replayable(env, p.world, e)
    ensures var e := ST.EffectOf(Advance(run, policy));
            var end := Concluded(env, p.world, p.world.run, Adopted(p.world.run, e.next), false, RetainResults);
            var q := ST.Replay(env, Restart(p, b), e);
            && (q.progress == Going ==> q.world == end)
            && (q.progress != Going ==> Moving(env, run, policy, end, q.world))
            && (b == Unbounded ==> q.progress == Going)
  {
    hide ST.Replay, ST.Replayable, FindComment, StateLabels, StatusIdentity, Projected, Concluded, Adopted;
    var e := ST.EffectOf(Advance(run, policy));
    var q := ST.Replay(env, Restart(p, b), e);
    ST.Reaches(env, p, b, e);
    ST.Reaches(env, p, Unbounded, e);
    ST.ReplayResumes(env, p, b, e);
    if q.progress != Going {
      ST.Reaches(env, q, Unbounded, e);
    }
  }

  lemma ContinueSteps(env: Adapters, p: Proc, run: Run, policy: Policy)
    requires p.progress == Going && ST.Ready(p.world, Advance(run, policy))
    ensures var q, t := Continue(env, p, run, policy), Taken(env, p, run, policy);
            var end := Continued(env, p.world, run, policy);
            && (t.progress != Going ==>
                  && q.progress != Going && Idle(q.world)
                  && q.world == p.world.(slot := q.world.slot, statuses := q.world.statuses))
            && (t.progress == Going && q.progress == Going ==> q.world == end)
            && (t.progress == Going && q.progress != Going ==> Moving(env, run, policy, end, q.world))
            && (p.budget == Unbounded ==> t.progress == Going && q.progress == Going)
  {
    hide ST.Apply, CS.Publish, FindComment, StateLabels, Recoverable, StatusIdentity, Projected, Moving, Reserve;
    var t, status := Advance(run, policy), policy.status(run.content);
    var s := CS.Publish(env, p, run.id, status);
    PublishSteps(env, p, run.id, status);
    if s.progress == Going {
      AdvanceSteps(env, s, run, policy);
    } else {
      Ended(env, s, t);
    }
  }

  lemma SpentTaken(env: Adapters, p: Proc, run: Run, policy: Policy)
    requires p.progress == Going && p.budget == Cut(0) && p.world.slot.None?
    ensures Taken(env, p, run, policy).progress != Going
  {
    hide Key;
  }

  lemma Ended(env: Adapters, p: Proc, t: ST.Transition)
    requires p.progress != Going
    ensures Reserve(p, ST.EffectOf(t)) == ST.Apply(env, p, t) == p
  {
    hide Key, ApplyStateTransition, Clear, Persist, SaveRunAt, StatusIdentity;
    ST.ApplyIdle(env, p, t);
  }

  // ---------- recoveries

  /** The world of an uninterrupted acceptance with its continuation. */
  function End(env: Adapters, w: World, a: RA.Request, policy: Policy): World {
    Continued(env, Answered(env, w, a), AcceptedRun(w, a), policy)
  }

  /** The continuation can start behind the acceptance or its replay, and ends
      alike. */
  lemma EndsAlike(env: Adapters, w: World, a: RA.Request, policy: Policy, stored: Option<Run>)
    requires Starts(w, a) && stored in {w.run, Some(AcceptedRun(w, a))}
    ensures var v, run := Answered(env, w, a).(run := stored), AcceptedRun(w, a);
            && ST.Ready(v, Advance(run, policy))
            && Continued(env, v, run, policy) == End(env, w, a, policy)
  {
    hide FindComment, StateLabels;
    CommentSettles(w.comments, a.next, false, StatusComment(env, a.next));
    hide Projected, Decide;
    SR.FrontKeeps(SR.Reserved(w, a), RA.EffectOf(a));
    hide RA.Fronted;
  }

  /** Cut or not, the run and the results of the acceptance stay as a replay left
      them, and nothing that is pending knows the report. */
  predicate LeftBehind(env: Adapters, w: World, a: RA.Request, stored: Option<Run>, v: World) {
    var x := Answered(env, w, a);
    Idle(v) && v.run == stored && v.invocations == x.invocations && v.unitResults == x.unitResults
  }

  predicate OnItsWay(env: Adapters, w: World, a: RA.Request, policy: Policy, v: World) {
    || Pending(env, w, a, v)
    || Moving(env, AcceptedRun(w, a), policy, End(env, w, a, policy), v)
    || v == End(env, w, a, policy)
  }

  lemma PendingRecovers(env: Adapters, w: World, a: RA.Request, policy: Policy, p: Proc, b: Budget)
    requires Starts(w, a) && Pending(env, w, a, p.world) && p.world.slot == Some(RA.EffectOf(a))
    ensures var q, drops := Recover(env, Restart(p, b), policy), DropsBetween(env, Restart(p, b), policy);
            && (drops ==> LeftBehind(env, w, a, p.world.run, q.world))
            && (!drops ==> OnItsWay(env, w, a, policy, q.world))
            && (!drops && Pending(env, w, a, q.world) ==> q.world.run == p.world.run)
            && (b == Unbounded ==> !drops && q.world == End(env, w, a, policy))
  {
    hide RA.Replay, Continue, Taken, Answered, Continued, End, ST.Ready, Starts, Replayed, Moving, AcceptedRun;
    hide RA.Replayable, RA.Returned, Advance;
    var e, run := RA.EffectOf(a), AcceptedRun(w, a);
    ReplaySteps(env, w, a, p, b);
    var q := RA.Replay(env, Restart(p, b), e);
    if q.progress == Going {
      EndsAlike(env, w, a, policy, p.world.run);
      ContinueSteps(env, q, run, policy);
      assert !Pending(env, w, a, Continue(env, q, run, policy).world) by {
        NotPending(env, w, a, policy, p.world.run, Continue(env, q, run, policy).world);
      }
    }
  }

  lemma NotPending(env: Adapters, w: World, a: RA.Request, policy: Policy, stored: Option<Run>, v: World)
    requires Idle(v) || Moving(env, AcceptedRun(w, a), policy, End(env, w, a, policy), v) || v == End(env, w, a, policy)
    ensures !Pending(env, w, a, v)
  {
    hide Answered, Replayed, RA.Returned, ST.Replayable;
  }

  lemma MovingRecovers(env: Adapters, w: World, a: RA.Request, policy: Policy, p: Proc, b: Budget)
    requires Moving(env, AcceptedRun(w, a), policy, End(env, w, a, policy), p.world)
    ensures p.world.slot.Some? && p.world.slot.value.StateTransition?
    ensures var q := Recover(env, Restart(p, b), policy);
            && (q.world == End(env, w, a, policy)
                || Moving(env, AcceptedRun(w, a), policy, End(env, w, a, policy), q.world))
            && (b == Unbounded ==> q.world == End(env, w, a, policy))
  {
    hide ST.Replay, ST.Replayable, AcceptedRun, End, Concluded, Adopted;
    MovingSteps(env, AcceptedRun(w, a), policy, p, b);
  }

  /** A recovery without the report touches neither run nor results. */
  lemma IdleRecovers(env: Adapters, p: Proc, b: Budget, policy: Policy)
    requires Idle(p.world)
    ensures var q := Recover(env, Restart(p, b), policy);
            && Idle(q.world) && q.world.run == p.world.run
            && q.world.invocations == p.world.invocations && q.world.unitResults == p.world.unitResults
            && (p.world.slot.None? ==> q.world == p.world)
  {
    hide Clear, CS.PushOnce, CS.CreateUnlessListed;
    if p.world.slot.Some? && env.readsStatuses && p.world.run.Some? {
      var e, r, run := p.world.slot.value, Restart(p, b), p.world.run.value;
      var s := if CS.OwnCheckpoint(run, e.status.sha) then CS.PushOnce(env, r, run.content.branch, e.status.sha) else r;
      PushedRemote(env, r, run.content.branch, e.status.sha);
      CS.ListingLands(s, e.status);
      CS.ClearKeepsHost(CS.CreateUnlessListed(s, e.status), e);
      ClearFrame(CS.CreateUnlessListed(s, e.status), e);
    }
  }

  lemma PushedRemote(env: Adapters, p: Proc, branch: string, sha: nat)
    ensures var q := CS.PushOnce(env, p, branch, sha);
            q.world == p.world.(remote := q.world.remote)
  {
  }

  lemma {:induction false} IdleStays(env: Adapters, p: Proc, policy: Policy, cuts: seq<nat>)
    requires Idle(p.world)
    ensures var r := Recoveries(env, p, policy, cuts);
            && Idle(r.world) && r.world.run == p.world.run
            && r.world.invocations == p.world.invocations && r.world.unitResults == p.world.unitResults
            && (p.world.slot.None? ==> r.world == p.world)
    decreases |cuts|
  {
    hide Recover;
    if cuts == [] {
      IdleRecovers(env, p, Unbounded, policy);
    } else {
      IdleRecovers(env, p, Cut(cuts[0]), policy);
      IdleStays(env, Recover(env, Restart(p, Cut(cuts[0])), policy), policy, cuts[1..]);
    }
  }

  lemma EndIsIdle(env: Adapters, w: World, a: RA.Request, policy: Policy)
    requires Starts(w, a)
    ensures var end := End(env, w, a, policy);
            && end.slot.None? && end.run.Some?
            && end.run.value == Advance(AcceptedRun(w, a), policy).next
            && a.next.revision < end.run.value.revision == a.next.revision + 1
            && end.run.value.content == policy.project(a.next.content)
  {
    hide FindComment, StateLabels, Projected, RA.Fronted, Decide;
    CommentSettles(w.comments, a.next, false, StatusComment(env, a.next));
    SR.FrontKeeps(SR.Reserved(w, a), RA.EffectOf(a));
  }

  lemma OnlyPendingAccepts(env: Adapters, w: World, a: RA.Request, policy: Policy, v: World)
    requires OnItsWay(env, w, a, policy, v) && Starts(w, a)
    ensures v.slot.Some? && v.slot.value.Acceptance? <==> Pending(env, w, a, v)
    ensures Pending(env, w, a, v) ==> v.slot == Some(RA.EffectOf(a))
  {
    hide Replayed, Answered, ST.Replayable, Continued, AcceptedRun, RA.Returned;
    EndIsIdle(env, w, a, policy);
    hide End;
  }

  /** From anywhere on the way, recoveries reach the end unless one of them drops
      the report, and then the run stays as it was stored. */
  lemma {:induction false} RecoveriesReach(
      env: Adapters, w: World, a: RA.Request, policy: Policy, p: Proc, cuts: seq<nat>)
    requires Starts(w, a) && OnItsWay(env, w, a, policy, p.world)
    ensures var r := Recoveries(env, p, policy, cuts);
            && (!Dropped(env, p, policy, cuts) ==> r.world == End(env, w, a, policy))
            && (Dropped(env, p, policy, cuts) ==> LeftBehind(env, w, a, p.world.run, r.world))
    decreases |cuts|
  {
    hide Recover, Pending, Moving, End, Starts, DropsBetween, LeftBehind;
    OnlyPendingAccepts(env, w, a, policy, p.world);
    var b := if cuts == [] then Unbounded else Cut(cuts[0]);
    OneRecovery(env, w, a, policy, p, b);
    if cuts != [] {
      var q := Recover(env, Restart(p, b), policy);
      if Pending(env, w, a, p.world) && DropsBetween(env, Restart(p, b), policy) {
        DroppedStays(env, w, a, p.world.run, q, policy, cuts[1..]);
      } else {
        RecoveriesReach(env, w, a, policy, q, cuts[1..]);
        OnlyPendingAccepts(env, w, a, policy, q.world);
        DroppedPends(env, q, policy, cuts[1..]);
      }
    }
  }

  lemma OneRecovery(env: Adapters, w: World, a: RA.Request, policy: Policy, p: Proc, b: Budget)
    requires Starts(w, a) && OnItsWay(env, w, a, policy, p.world)
    requires Pending(env, w, a, p.world) ==> p.world.slot == Some(RA.EffectOf(a))
    ensures var q := Recover(env, Restart(p, b), policy);
            var drops := Pending(env, w, a, p.world) && DropsBetween(env, Restart(p, b), policy);
            && (drops ==> LeftBehind(env, w, a, p.world.run, q.world))
            && (!drops ==> OnItsWay(env, w, a, policy, q.world))
            && (!drops && Pending(env, w, a, q.world) ==> Pending(env, w, a, p.world) && q.world.run == p.world.run)
            && (b == Unbounded ==> !drops && q.world == End(env, w, a, policy))
  {
    hide Recover, Pending, Moving, End, Starts, DropsBetween, LeftBehind;
    if Pending(env, w, a, p.world) {
      PendingRecovers(env, w, a, policy, p, b);
    } else if p.world == End(env, w, a, policy) {
      EndIsIdle(env, w, a, policy);
      IdleRecovers(env, p, b, policy);
      EndNotPending(env, w, a, policy, p.world);
    } else {
      MovingRecovers(env, w, a, policy, p, b);
      EndNotPending(env, w, a, policy, Recover(env, Restart(p, b), policy).world);
    }
  }

  lemma EndNotPending(env: Adapters, w: World, a: RA.Request, policy: Policy, v: World)
    requires Moving(env, AcceptedRun(w, a), policy, End(env, w, a, policy), v) || v == End(env, w, a, policy)
    ensures !Pending(env, w, a, v)
  {
    hide Pending, Moving, End;
    NotPending(env, w, a, policy, w.run, v);
  }

  lemma DroppedPends(env: Adapters, p: Proc, policy: Policy, cuts: seq<nat>)
    ensures Dropped(env, p, policy, cuts) ==> p.world.slot.Some? && p.world.slot.value.Acceptance?
  {
    hide Recover, DropsBetween;
  }

  lemma DroppedStays(env: Adapters, w: World, a: RA.Request, stored: Option<Run>, p: Proc, policy: Policy,
                     cuts: seq<nat>)
    requires LeftBehind(env, w, a, stored, p.world)
    ensures LeftBehind(env, w, a, stored, Recoveries(env, p, policy, cuts).world)
  {
    hide Answered, Recoveries;
    IdleStays(env, p, policy, cuts);
  }

  // ---------- the crash law of a review

  /** Where the first process ends. */
  lemma AcceptedOnItsWay(env: Adapters, p: Proc, a: RA.Request, policy: Policy, b: Budget)
    requires Starts(p.world, a) && b != Cut(0)
    ensures var q := AcceptAndContinue(env, Restart(p, b), a, policy);
            var stops := StopsBetween(env, Restart(p, b), a, policy);
            && (!stops ==> OnItsWay(env, p.world, a, policy, q.world))
            && (stops ==> LeftBehind(env, p.world, a, Some(AcceptedRun(p.world, a)), q.world))
            && (b == Unbounded ==> !stops && q.world == End(env, p.world, a, policy))
  {
    hide RA.Accept, Continue, Taken, Continued, End, ST.Ready, Starts, Pending, Moving, AcceptedRun, Advance;
    var q, run := RA.Accept(env, Restart(p, b), a), AcceptedRun(p.world, a);
    StartsReady(p.world, a);
    SR.AcceptReaches(env, p, b, a);
    if q.progress == Going {
      var v := Answered(env, p.world, a);
      assert q.world == v.(run := Some(run)) by { AnsweredRun(env, p.world, a); }
      EndsAlike(env, p.world, a, policy, Some(run));
      ContinueSteps(env, q, run, policy);
    } else {
      AcceptLeavesPending(env, p, b, a);
    }
  }

  lemma StartsReady(w: World, a: RA.Request)
    requires Starts(w, a)
    ensures SR.Ready(w, a)
  {}

  lemma AnsweredRun(env: Adapters, w: World, a: RA.Request)
    ensures Answered(env, w, a).run == Some(AcceptedRun(w, a))
  {
    hide Projected, StatusIdentity, StateLabels, RA.Fronted;
  }

  /** An accepted review and its continuation, cut anywhere behind the reservation,
      then any recoveries cut anywhere, then one that is not: the world is the one of
      an uninterrupted review if and only if no process ended between an
      acknowledgement and the reservation of the continuation. Where one did, the
      stored run stays what it then was: the accepted one if it was the first
      process, and otherwise what the first process had stored. */
  lemma ReviewConvergesIff(env: Adapters, p: Proc, a: RA.Request, policy: Policy, b: Budget, cuts: seq<nat>)
    requires Starts(p.world, a) && b != Cut(0)
    ensures var full := AcceptAndContinue(env, Restart(p, Unbounded), a, policy).world;
            var q := AcceptAndContinue(env, Restart(p, b), a, policy);
            var stops := StopsBetween(env, Restart(p, b), a, policy);
            var r, drops := Recoveries(env, q, policy, cuts).world, Dropped(env, q, policy, cuts);
            && full.slot.None? && full.run.Some?
            && full.run.value.revision == a.next.revision + 1
            && full.run.value.content == policy.project(a.next.content)
            && (r == full <==> !stops && !drops)
            && (stops ==> r.run == Some(AcceptedRun(p.world, a)))
            && (drops ==> r.run == q.world.run && q.world.run in {p.world.run, Some(AcceptedRun(p.world, a))})
  {
    hide AcceptAndContinue, Recoveries, Dropped, StopsBetween, End, Answered, Starts, OnItsWay;
    var w, q := p.world, AcceptAndContinue(env, Restart(p, b), a, policy);
    AcceptedOnItsWay(env, p, a, policy, Unbounded);
    AcceptedOnItsWay(env, p, a, policy, b);
    EndIsIdle(env, w, a, policy);
    if StopsBetween(env, Restart(p, b), a, policy) {
      DroppedStays(env, w, a, Some(AcceptedRun(w, a)), q, policy, cuts);
      DroppedPends(env, q, policy, cuts);
    } else {
      RecoveriesReach(env, w, a, policy, q, cuts);
      DroppedPends(env, q, policy, cuts);
      OnlyPendingAccepts(env, w, a, policy, q.world);
    }
    StartRevision(env, w, a);
  }

  lemma StartRevision(env: Adapters, w: World, a: RA.Request)
    requires Starts(w, a)
    ensures w.run.Some? && w.run.value.revision == a.next.revision == AcceptedRun(w, a).revision
    ensures AcceptedRun(w, a).content == a.next.content
  {
    hide StatusIdentity;
  }

  /** One crash never loses a report: the accepted content is stored, and so is what
      the review stage makes of it unless the first process had just acknowledged the
      acceptance. */
  lemma OneCrashKeepsReport(env: Adapters, p: Proc, a: RA.Request, policy: Policy, b: Budget)
    requires Starts(p.world, a) && b != Cut(0)
    ensures var q := AcceptAndContinue(env, Restart(p, b), a, policy);
            var r := Recover(env, Restart(q, Unbounded), policy).world;
            && r.run.Some?
            && (r.run.value.revision, r.run.value.content)
               == (if StopsBetween(env, Restart(p, b), a, policy) then (a.next.revision, a.next.content)
                   else (a.next.revision + 1, policy.project(a.next.content)))
  {
    hide AcceptAndContinue, Recover, StopsBetween, Starts, StatusIdentity;
    var q := AcceptAndContinue(env, Restart(p, b), a, policy);
    ReviewConvergesIff(env, p, a, policy, b, []);
    StartRevision(env, p.world, a);
    assert Recoveries(env, q, policy, []) == Recover(env, Restart(q, Unbounded), policy);
  }

  /** The accepted content is lost exactly when the first process ended before it
      stored the run and a recovery dropped the report. The ended invocation and the
      unit result are still stored then. */
  lemma ReportLostIff(env: Adapters, p: Proc, a: RA.Request, policy: Policy, b: Budget, cuts: seq<nat>)
    requires Starts(p.world, a) && b != Cut(0) && Some(AcceptedRun(p.world, a)) != p.world.run
    ensures var q := AcceptAndContinue(env, Restart(p, b), a, policy);
            var r := Recoveries(env, q, policy, cuts).world;
            && (r.run == p.world.run <==> q.world.run == p.world.run && Dropped(env, q, policy, cuts))
            && (r.run == p.world.run ==>
                && a.invocation.id in r.invocations && r.invocations[a.invocation.id] == a.invocation
                && (a.unitResult.Some? ==> a.unitResult.value in r.unitResults))
  {
    hide AcceptAndContinue, Recoveries, Dropped, StopsBetween, End, Answered, Starts, OnItsWay, AcceptedRun;
    var q := AcceptAndContinue(env, Restart(p, b), a, policy);
    ReviewConvergesIff(env, p, a, policy, b, cuts);
    StartRevision(env, p.world, a);
    if Dropped(env, q, policy, cuts) {
      AcceptedOnItsWay(env, p, a, policy, b);
      DroppedPends(env, q, policy, cuts);
      RecoveriesReach(env, p.world, a, policy, q, cuts);
      AnsweredKeeps(env, p.world, a);
    }
  }

  lemma AnsweredKeeps(env: Adapters, w: World, a: RA.Request)
    requires Starts(w, a)
    ensures var x := Answered(env, w, a);
            && a.invocation.id in x.invocations && x.invocations[a.invocation.id] == a.invocation
            && (a.unitResult.Some? ==> a.unitResult.value in x.unitResults)
  {
    hide Projected, StatusIdentity, StateLabels, Recoverable;
  }
}
