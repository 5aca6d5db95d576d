/** Replaying an effect that has completed but whose reservation was not cleared: the
    world stays as it is, and how many writes are repeated is known exactly. */
module RepeatedReplays {
  import opened Options
  import opened EffectWorld
  import opened Labels
  import opened IssueProjection
  import opened RunProjection
  import opened EffectJournal
  import opened ReplayLaws

  predicate Affords(b: Budget, writes: nat) {
    b.Unbounded? || b.mutations >= writes
  }

  // ---------- the common end of the projecting kinds

  /** Labels and status comment show the run already, and the run is stored. */
  predicate Settled(env: Adapters, w: World, e: Effect, next: Run, create: bool) {
    var id := StatusIdentity(w.comments, next, create);
    && w.slot == Some(e) && !Behind(w.run, next)
    && w.labels == StateLabels(w.labels, next.content.status)
    && 0 < id <= |w.comments| && w.comments[id - 1] == StatusComment(env, next)
  }

  /** The comment the run records is the one its marker finds. */
  predicate FirstMarked(w: World, next: Run, create: bool) {
    FindComment(w.comments, StatusMarker(next.id)) == StatusIdentity(w.comments, next, create)
  }

  /** What a replay with whatever budget does to the world `left`: it gets through
      with `writes` writes or not at all, and is silent exactly when `quiet`. */
  predicate Repeats(r: Proc, left: World, t: Tally, b: Budget, writes: nat, quiet: bool) {
    && (r.progress == Going <==> Affords(b, writes))
    && (r.progress == Going ==> r.world == left.(slot := None) && (r.tally == t <==> quiet))
  }

  lemma SettledProjection(env: Adapters, p: Proc, e: Effect, next: Run, create: bool)
    requires p.progress == Going && Settled(env, p.world, e, next, create)
    ensures var q, quiet := ApplyStateTransition(env, p, next, create), FirstMarked(p.world, next, create);
            && (quiet ==> q == p)
            && (!quiet ==> q.world == p.world
                           && (q.progress == Going <==> Affords(p.budget, 1))
                           && (q.progress == Going ==>
                                 q.tally != p.tally
                                 && q.budget == if p.budget.Unbounded? then Unbounded else Cut(p.budget.mutations - 1)))
  {
    hide FindComment, StateLabels;
  }

  lemma SettledConclusion(env: Adapters, p: Proc, e: Effect, next: Run, create: bool, scope: Scope, expected: int)
    requires p.progress == Going && Settled(env, p.world, e, next, create)
    ensures var q := Conclude(env, p, p.world.run, e, next, create, scope, expected);
            var quiet := FirstMarked(p.world, next, create);
            Repeats(q, p.world, p.tally, p.budget, if quiet then 1 else 2, quiet)
  {
    hide StateLabels, Key, Settled, ApplyStateTransition, FirstMarked, Persist;
    SettledProjection(env, p, e, next, create);
    assert !Behind(p.world.run, next) && p.world.slot == Some(e) by { SettledStored(env, p.world, e, next, create); }
  }

  lemma SettledStored(env: Adapters, w: World, e: Effect, next: Run, create: bool)
    requires Settled(env, w, e, next, create)
    ensures !Behind(w.run, next) && w.slot == Some(e)
  {
    hide StateLabels, StatusIdentity;
  }

  /** The world of a finished conclusion is settled when the reservation is
      still there. */
  lemma ConcludedIsSettled(env: Adapters, w: World, e: Effect, next: Run, adopt: bool, create: bool, scope: Scope)
    requires var n := Chosen(adopt, w.run, next); Recoverable(w.comments, n, create)
    requires w.run.Some? ==> w.run.value.revision <= next.revision
    ensures var left := Concluded(env, w, w.run, Chosen(adopt, w.run, next), create, scope).(slot := Some(e));
            Settled(env, left, e, Chosen(adopt, left.run, next), create)
  {
    hide FindComment, StateLabels, Decide, Supersede, StatusIdentity;
    var n := Chosen(adopt, w.run, next);
    StateLabelsIdempotent(w.labels, n.content.status);
    CommentSettles(w.comments, n, create, StatusComment(env, n));
  }

  // ---------- the projecting kinds

  /** The run a replay of `e` concludes with, from world `w`. */
  function Concluding(env: Adapters, w: World, e: Effect): Run
    requires Guarded(e)
  {
    match e
    case StateTransition(_, _, next, _, _, _, _) => Adopted(w.run, next)
    case Checkpoint(_, commit, _, next) => CP.Recorded(next, commit, CP.CheckpointHead(w.git, commit))
    case PullRequestUpsert(_, _, request, _, next) => PR.Recorded(env, next, PR.UpsertedNumber(w.pullRequests, request))
    case Acceptance(_, _, _, _, next, _, _) => Adopted(w.run, next)
  }

  predicate Creates(e: Effect) {
    e.StateTransition? && e.create
  }

  /** A repeated replay touches neither tracker nor code host nor any session. */
  predicate Quiet(env: Adapters, w: World, e: Effect) {
    match e
    case BranchPush(_, _, sha) => sha != 0 && env.inspectsRemote
    case StatusPublication(_, status) =>
      w.run.Some? && (CS.OwnCheckpoint(w.run.value, status.sha) ==> env.inspectsRemote)
    case _ => Guarded(e) ==> FirstMarked(w, Concluding(env, w, e), Creates(e))
  }

  /** The writes a repeated replay issues: the acknowledgement, what is not quiet,
      and the repeated worker stop, unit result and clarification identity. A save of
      a projected run is not among them. */
  function Writes(env: Adapters, w: World, e: Effect): nat {
    1 + (if Quiet(env, w, e) then 0 else 1)
    + match e
      case StateTransition(_, _, _, _, stopWorker, _, _) => if stopWorker then 1 else 0
      case Acceptance(_, _, _, _, _, stopWorker, unitResult) =>
        (if stopWorker then 1 else 0) + (if unitResult.Some? then 1 else 0)
      case Clarification(_, _, _, _, _) => 1
      case _ => 0
  }

  function With(w: World, t: Tally, b: Budget): Proc {
    Proc(w, t, b, Going)
  }

  /** What a finished replay leaves when its reservation stays. */
  function Left(env: Adapters, p: Proc, e: Effect): World {
    ReplayEffect(env, Restart(p, Unbounded), e, HR.Waiting).world.(slot := Some(e))
  }

  lemma TransitionLeft(env: Adapters, p: Proc, e: Effect)
    requires e.StateTransition? && ST.Replayable(env, p.world, e)
    ensures var left := Left(env, p, e);
            && e.next.id == e.run && Admits(left.run, e.next.id, e.previous, e.next)
            && Settled(env, left, e, Adopted(left.run, e.next), e.create)
            && (e.stopWorker ==> left.workers == {})
  {
    hide Conclude, FindComment, StatusIdentity, StateLabels, Settled, Decide, Supersede, Projected;
    var w, scope := ST.Halted(p.world, e.stopWorker), ST.ScopeFor(e.invalidateAll, e.invalidate);
    ST.Reaches(env, p, Unbounded, e);
    ConcludedIsSettled(env, w, e, e.next, true, e.create, scope);
  }

  lemma TransitionRepeats(env: Adapters, p: Proc, e: Effect, t: Tally, b: Budget)
    requires e.StateTransition? && ST.Replayable(env, p.world, e)
    ensures var left := Left(env, p, e);
            Repeats(ST.Replay(env, With(left, t, b), e), left, t, b, Writes(env, left, e), Quiet(env, left, e))
  {
    hide Conclude, Settled, FirstMarked, Left, ST.Replayable, Admits, Adopted;
    TransitionLeft(env, p, e);
    var left := Left(env, p, e);
    var s := ST.StopIfAsked(With(left, t, b), e.stopWorker);
    var n := Adopted(left.run, e.next);
    var scope := ST.ScopeFor(e.invalidateAll, e.invalidate);
    assert s.world == left && s.tally == t;
    if s.progress == Going {
      SettledConclusion(env, s, e, n, e.create, scope, e.previous.revision);
    } else {
      ConclusionIdle(env, s, left.run, e, n, e.create, scope, e.previous.revision);
    }
  }

  lemma CheckpointLeft(env: Adapters, p: Proc, e: Effect)
    requires e.Checkpoint? && CP.Replayable(p.world, e) && CP.LeavesClean(p.world.git, e.commit)
    ensures var left := Left(env, p, e);
            && Settled(env, left, e, CP.Recorded(e.next, e.commit, CP.CheckpointHead(left.git, e.commit)), false)
            && Admits(left.run, e.run, e.previous, e.next)
            && CP.MarkedFor(left.git, e.commit) && !CP.Dirty(left.git)
  {
    hide Conclude, FindComment, StatusIdentity, StateLabels, Settled, Decide, Projected;
    var w := CP.Committed(p.world, e.commit);
    var n := CP.Recorded(e.next, e.commit, CP.CheckpointHead(p.world.git, e.commit));
    CP.Reaches(env, p, Unbounded, e);
    SameIdentity(p.world.comments, e.next, n);
    ConcludedIsSettled(env, w, e, n, false, false, RetainResults);
  }

  lemma CheckpointRepeats(env: Adapters, p: Proc, e: Effect, t: Tally, b: Budget)
    requires e.Checkpoint? && CP.Replayable(p.world, e) && CP.LeavesClean(p.world.git, e.commit)
    ensures var left := Left(env, p, e);
            Repeats(CP.Replay(env, With(left, t, b), e), left, t, b, Writes(env, left, e), Quiet(env, left, e))
  {
    hide Conclude, Settled, FirstMarked, Left, CP.Replayable, CP.LeavesClean;
    CheckpointLeft(env, p, e);
    var left := Left(env, p, e);
    var n := CP.Recorded(e.next, e.commit, CP.CheckpointHead(left.git, e.commit));
    var k := CP.CreateCheckpoint(With(left, t, b), e.commit);
    assert k == With(left, t, b);
    SettledConclusion(env, k, e, n, false, RetainResults, e.previous.revision);
  }

  lemma UpsertSilent(p: Proc, was: seq<PullRequest>, expected: nat, request: PullRequest)
    requires PR.Upsertable(was, expected, request) && p.world.pullRequests == PR.Upserted(was, request)
    ensures PR.Upsert(p, expected, request) == p
  {
    hide FindPullRequest, PR.Upserted, PR.UpsertedNumber;
    PR.UpsertSettles(was, expected, request);
  }

  lemma PullRequestRepeats(env: Adapters, p: Proc, e: Effect, t: Tally, b: Budget)
    requires e.PullRequestUpsert? && PR.Replayable(p.world, e)
    ensures var left := Left(env, p, e);
            Repeats(PR.Replay(env, With(left, t, b), e), left, t, b, Writes(env, left, e), Quiet(env, left, e))
  {
    hide Conclude, FindComment, FindPullRequest, PR.Upserted, StatusIdentity, StateLabels, Settled, Decide, Projected;
    hide FirstMarked, PR.Upsert;
    var w := p.world.(pullRequests := PR.Upserted(p.world.pullRequests, e.request));
    var n := PR.Recorded(env, e.next, PR.UpsertedNumber(p.world.pullRequests, e.request));
    PR.Reaches(env, p, Unbounded, e);
    PR.UpsertSettles(p.world.pullRequests, e.number, e.request);
    SameIdentity(p.world.comments, e.next, n);
    ConcludedIsSettled(env, w, e, n, false, false, RetainResults);
    var left := Left(env, p, e);
    UpsertSilent(With(left, t, b), p.world.pullRequests, e.number, e.request);
    SettledConclusion(env, With(left, t, b), e, n, false, RetainResults, e.previous.revision);
  }

  lemma AcceptanceRepeats(env: Adapters, p: Proc, e: Effect, t: Tally, b: Budget)
    requires e.Acceptance? && RA.Replayable(p.world, e)
    ensures var left := Left(env, p, e);
            Repeats(RA.Replay(env, With(left, t, b), e), left, t, b, Writes(env, left, e), Quiet(env, left, e))
  {
    hide Conclude, FindComment, StatusIdentity, StateLabels, Settled, Decide, Projected, FirstMarked, RA.Fronted;
    hide RA.Acceptable, RA.Front;
    var w := RA.Fronted(p.world, e);
    RA.Reaches(env, p, Unbounded, e);
    RA.FrontFrame(p.world, e);
    RA.FrontSettles(p.world, w, e);
    ConcludedIsSettled(env, w, e, e.next, true, false, RetainResults);
    var left := Left(env, p, e);
    RA.SameFront(w, left, e);
    var f, n := RA.Front(With(left, t, b), e), Adopted(left.run, e.next);
    FrontRepeats(With(left, t, b), e);
    if f.progress == Going {
      SettledConclusion(env, f, e, n, false, RetainResults, e.previous.revision);
    } else {
      ConclusionIdle(env, f, left.run, e, n, false, RetainResults, e.previous.revision);
    }
  }

  lemma FrontRepeats(p: Proc, e: Effect)
    requires e.Acceptance? && p.progress == Going && !e.invocation.status.Live?
    requires RA.Fronted(p.world, e) == p.world
    ensures var f, writes := RA.Front(p, e), (if e.stopWorker then 1 else 0) + (if e.unitResult.Some? then 1 else 0);
            && f.world == p.world && f.tally == p.tally
            && (f.progress == Going <==> Affords(p.budget, writes))
            && (f.progress == Going ==>
                  f.budget == if p.budget.Unbounded? then Unbounded else Cut(p.budget.mutations - writes))
  {
  }

  // ---------- the other kinds

  lemma Acknowledged(left: World, t: Tally, b: Budget, e: Effect)
    requires left.slot == Some(e)
    ensures Repeats(Clear(With(left, t, b), e), left, t, b, 1, true)
  {
    hide Key;
  }

  lemma CommandLeft(env: Adapters, p: Proc, e: Effect)
    requires e.StatusCommentEdit? && SC.Replayable(env, p.world, e)
    ensures var left := Left(env, p, e);
            && left.slot == Some(e) && left.run.Some? && left.run.value.revision >= e.next.revision
            && SC.SameCommand(left.run, e.previous, e.next)
            && SC.Shown(left.comments, StatusComment(env, e.next)) && e.next.statusComment > 0
  {
    hide FindComment, SC.Replay;
    SC.Reaches(env, p, Unbounded, e);
    if 0 < e.next.statusComment <= |p.world.comments| {
      FoundAfterEdit(p.world.comments, e.next.statusComment, StatusComment(env, e.next));
    }
  }

  lemma CommandRepeats(env: Adapters, p: Proc, e: Effect, t: Tally, b: Budget)
    requires e.StatusCommentEdit? && SC.Replayable(env, p.world, e)
    ensures var left := Left(env, p, e);
            Repeats(SC.Replay(env, With(left, t, b), e), left, t, b, 1, true)
  {
    hide FindComment, Left, Clear, Repeats;
    CommandLeft(env, p, e);
    var left := Left(env, p, e);
    assert SC.Watermark(With(left, t, b), e.previous, e.next) == With(left, t, b);
    assert ApplyStatusComment(env, With(left, t, b), e.next) == With(left, t, b);
    Acknowledged(left, t, b, e);
  }

  lemma UpdateRepeats(env: Adapters, p: Proc, e: Effect, t: Tally, b: Budget)
    requires e.PullRequestUpdate? && p.world.slot == Some(e) && PR.Upsertable(p.world.pullRequests, e.number, e.request)
    ensures var left := Left(env, p, e);
            Repeats(PR.ReplayUpdate(With(left, t, b), e), left, t, b, 1, true)
  {
    hide FindPullRequest, Key, PR.Upserted, PR.UpsertedNumber;
    PR.UpsertLands(Restart(p, Unbounded), e.number, e.request);
    PR.UpsertSettles(p.world.pullRequests, e.number, e.request);
  }

  lemma QuestionLeft(env: Adapters, p: Proc, e: Effect)
    requires e.Clarification? && p.world.slot == Some(e) && p.world.run.Some?
    ensures var left, question := Left(env, p, e), CL.Question(e);
            var id := FindComment(Thread(left, e.onPullRequest), question.marker);
            && left.slot == Some(e) && id > 0 && Thread(left, e.onPullRequest)[id - 1] == question
            && left.run.Some? && left.run.value.clarificationComment == id
  {
    hide FindComment, CL.Replay;
    CL.Reaches(p, Unbounded, e);
    var thread, question := Thread(p.world, e.onPullRequest), CL.Question(e);
    if FindComment(thread, question.marker) > 0 {
      FoundAfterEdit(thread, FindComment(thread, question.marker), question);
    } else {
      FoundAfterPost(thread, question);
    }
  }

  lemma QuestionRepeats(env: Adapters, p: Proc, e: Effect, t: Tally, b: Budget)
    requires e.Clarification? && p.world.slot == Some(e) && p.world.run.Some?
    ensures var left := Left(env, p, e);
            Repeats(CL.Replay(With(left, t, b), e), left, t, b, 2, true)
  {
    hide FindComment, Left, Key;
    QuestionLeft(env, p, e);
    var left, question := Left(env, p, e), CL.Question(e);
    assert CL.FindOrCreate(With(left, t, b), e.onPullRequest, question) == With(left, t, b);
    var run := left.run.value;
    assert run.(clarificationComment := CL.Identity(Thread(left, e.onPullRequest), question.marker)) == run;
  }

  lemma StatusLeft(env: Adapters, p: Proc, e: Effect)
    requires e.StatusPublication? && p.world.slot == Some(e) && CS.Publishable(env, p.world, e)
    ensures var left := Left(env, p, e);
            && left.slot == Some(e) && left.run.Some? && env.readsStatuses && e.status in left.statuses
            && (CS.OwnCheckpoint(left.run.value, e.status.sha) ==>
                  && CS.RemoteHead(left, left.run.value.content.branch) == e.status.sha
                  && left.run.value.content.branch in left.remote
                  && (!env.inspectsRemote ==> left.git.head == e.status.sha))
  {
    hide CS.Replay;
    CS.Reaches(env, p, Unbounded, e);
  }

  lemma StatusRepeats(env: Adapters, p: Proc, e: Effect, t: Tally, b: Budget)
    requires e.StatusPublication? && p.world.slot == Some(e) && CS.Publishable(env, p.world, e)
    ensures var left := Left(env, p, e);
            Repeats(CS.Replay(env, With(left, t, b), e), left, t, b, if Quiet(env, left, e) then 1 else 2,
                    Quiet(env, left, e))
  {
    hide Left, Clear, Repeats, CS.PushOnce;
    StatusLeft(env, p, e);
    var left := Left(env, p, e);
    Acknowledged(left, t, b, e);
    if CS.OwnCheckpoint(left.run.value, e.status.sha) {
      PushedAgain(env, left, t, b, left.run.value.content.branch, e);
    }
  }

  /** A push of a commit the remote has: seen, or made again. */
  lemma PushedAgain(env: Adapters, left: World, t: Tally, b: Budget, branch: string, e: Effect)
    requires e.StatusPublication? && left.slot == Some(e) && e.status in left.statuses
    requires branch in left.remote && left.remote[branch] == e.status.sha && e.status.sha != 0
    requires env.inspectsRemote || left.git.head == e.status.sha
    ensures var s := CS.PushOnce(env, With(left, t, b), branch, e.status.sha);
            var r := Clear(CS.CreateUnlessListed(s, e.status), e);
            Repeats(r, left, t, b, if env.inspectsRemote then 1 else 2, env.inspectsRemote)
  {
    hide Key;
    assert left.remote[branch := e.status.sha] == left.remote;
  }

  lemma PushRepeats(env: Adapters, p: Proc, e: Effect, t: Tally, b: Budget)
    requires e.BranchPush? && p.world.slot == Some(e) && CS.Pushable(env, p.world, e.branch, e.sha)
    ensures var left := Left(env, p, e);
            Repeats(CS.ReplayPush(env, With(left, t, b), e), left, t, b, if Quiet(env, left, e) then 1 else 2,
                    Quiet(env, left, e))
  {
    hide Key;
    CS.PushLands(env, Restart(p, Unbounded), e.branch, e.sha);
  }

  // ---------- the law

  /** A finished effect whose reservation was not cleared, of any kind but the native
      resume: replaying it leaves the world as it is but for the slot, takes exactly
      the counted writes, and is silent exactly when the recorded comment is the
      first one marked and a push can see that its commit is there. */
  lemma RepeatedReplayIsQuiet(env: Adapters, p: Proc, e: Effect, t: Tally, b: Budget)
    requires Completable(env, p.world, e)
    ensures var full, left := ReplayPending(env, Restart(p, Unbounded), HR.Waiting), Left(env, p, e);
            var r := ReplayPending(env, Proc(left, t, b, Going), HR.Waiting);
            && full.progress == Going && full.world == left.(slot := None)
            && (r.progress == Going <==> Affords(b, Writes(env, left, e)))
            && (r.progress == Going ==> r.world == full.world && (r.tally == t <==> Quiet(env, left, e)))
  {
    hide ST.Replay, SC.Replay, CP.Replay, PR.Replay, PR.ReplayUpdate, RA.Replay, CL.Replay, CS.Replay, CS.ReplayPush;
    hide ST.Replayable, SC.Replayable, CP.Replayable, CP.LeavesClean, PR.Replayable, PR.Upsertable, RA.Replayable;
    hide CS.Publishable, CS.Pushable, FirstMarked, Concluding, CS.OwnCheckpoint;
    EffectJournal.ReplayResumes(env, p, Unbounded, e);
    match e
    case StateTransition(_, _, _, _, _, _, _) => TransitionRepeats(env, p, e, t, b);
    case StatusCommentEdit(_, _, _) => CommandRepeats(env, p, e, t, b);
    case Checkpoint(_, _, _, _) => CheckpointRepeats(env, p, e, t, b);
    case PullRequestUpsert(_, _, _, _, _) => PullRequestRepeats(env, p, e, t, b);
    case PullRequestUpdate(_, _, _) => UpdateRepeats(env, p, e, t, b);
    case Acceptance(_, _, _, _, _, _, _) => AcceptanceRepeats(env, p, e, t, b);
    case Clarification(_, _, _, _, _) => QuestionRepeats(env, p, e, t, b);
    case StatusPublication(_, _) => StatusRepeats(env, p, e, t, b);
    case BranchPush(_, _, _) => PushRepeats(env, p, e, t, b);
  }
}
