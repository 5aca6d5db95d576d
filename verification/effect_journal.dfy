/** The journal as a whole (internal/effect/effect.go, internal/effect/journal.go):
    one handler for each kind, and the law that a crash anywhere, followed by
    any replays that crash in turn, ends where an uninterrupted effect ends. */
module EffectJournal {
  import opened Options
  import opened EffectWorld
  import opened RunProjection
  import opened IssueProjection
  import ST = StateTransitions
  import SC = StatusComments
  import CP = Checkpoints
  import PR = PullRequests
  import RA = ResultAcceptances
  import HR = HarnessResumes
  import CL = Clarifications
  import CS = CommitStatuses

  datatype Operation =
    | Transit(t: ST.Transition)
    | ProjectCommand(previous: Run, next: Run)
    | MakeCheckpoint(commit: CheckpointRequest, previous: Run, next: Run)
    | OpenPullRequest(previous: Run, next: Run, request: PullRequest, expected: nat)
    | UpdatePullRequest(run: string, expected: nat, request: PullRequest)
    | AcceptReport(a: RA.Request)
    | ResumeSession(run: string, copy: Invocation, manual: bool, verdict: HR.Verdict)
    | Ask(asker: Run, target: nat, onPullRequest: bool, version: nat, body: string)
    | PublishStatus(run: string, status: CommitStatus)
    | PushHead(run: string, branch: string, sha: nat)

  function Perform(env: Adapters, p: Proc, op: Operation): Proc {
    match op
    case Transit(t) => ST.Apply(env, p, t)
    case ProjectCommand(previous, next) => SC.Persist(env, p, previous, next)
    case MakeCheckpoint(commit, previous, next) => CP.Commit(env, p, commit, previous, next)
    case OpenPullRequest(previous, next, request, expected) =>
      PR.UpsertAndPersist(env, p, previous, next, request, expected)
    case UpdatePullRequest(run, expected, request) => PR.Update(p, run, expected, request)
    case AcceptReport(a) => RA.Accept(env, p, a)
    case ResumeSession(run, copy, manual, verdict) => HR.ResumeNative(p, run, copy, manual, verdict)
    case Ask(asker, target, onPullRequest, version, body) => CL.Publish(p, asker, target, onPullRequest, version, body)
    case PublishStatus(run, status) => CS.Publish(env, p, run, status)
    case PushHead(run, branch, sha) => CS.PushBranch(env, p, run, branch, sha)
  }

  /** The reservation an operation makes. */
  function EffectOf(op: Operation): Effect {
    match op
    case Transit(t) => ST.EffectOf(t)
    case ProjectCommand(previous, next) => StatusCommentEdit(next.id, previous, next)
    case MakeCheckpoint(commit, previous, next) => Checkpoint(commit.run, commit, previous, next)
    case OpenPullRequest(previous, next, request, expected) =>
      PullRequestUpsert(next.id, expected, request, previous, next)
    case UpdatePullRequest(run, expected, request) => PullRequestUpdate(run, expected, request)
    case AcceptReport(a) => RA.EffectOf(a)
    case ResumeSession(run, copy, manual, _) => HR.EffectOf(run, copy, manual)
    case Ask(asker, target, onPullRequest, version, body) =>
      Clarification(asker.id, target, onPullRequest, version, body)
    case PublishStatus(run, status) => StatusPublication(run, status)
    case PushHead(run, branch, sha) => BranchPush(run, branch, sha)
  }

  /** Dispatch on the kind of the durable effect. */
  function ReplayEffect(env: Adapters, p: Proc, e: Effect, verdict: HR.Verdict): Proc {
    match e
    case StateTransition(_, _, _, _, _, _, _) => ST.Replay(env, p, e)
    case StatusCommentEdit(_, _, _) => SC.Replay(env, p, e)
    case Checkpoint(_, _, _, _) => CP.Replay(env, p, e)
    case PullRequestUpsert(_, _, _, _, _) => PR.Replay(env, p, e)
    case PullRequestUpdate(_, _, _) => PR.ReplayUpdate(p, e)
    case Acceptance(_, _, _, _, _, _, _) => RA.Replay(env, p, e)
    case Resume(_, _, _, _) => HR.Replay(p, e, verdict)
    case Clarification(_, _, _, _, _) => CL.Replay(p, e)
    case StatusPublication(_, _) => CS.Replay(env, p, e)
    case BranchPush(_, _, _) => CS.ReplayPush(env, p, e)
  }

  /** What a restarted coordinator does: nothing without a reservation. */
  function ReplayPending(env: Adapters, p: Proc, verdict: HR.Verdict): Proc {
    if p.world.slot.None? then p else ReplayEffect(env, p, p.world.slot.value, verdict)
  }

  /** Restarts that are cut in turn, and a last one that is not. */
  function Recover(env: Adapters, p: Proc, cuts: seq<nat>): Proc
    decreases |cuts|
  {
    if cuts == [] then ReplayPending(env, Restart(p, Unbounded), HR.Waiting)
    else Recover(env, ReplayPending(env, Restart(p, Cut(cuts[0])), HR.Waiting), cuts[1..])
  }

  /** A reservation whose replay can be carried through from here. Native
      resumes are not among them: they have an account instead. */
  predicate Completable(env: Adapters, w: World, e: Effect) {
    && w.slot == Some(e)
    && match e
       case StateTransition(_, _, _, _, _, _, _) => ST.Replayable(env, w, e)
       case StatusCommentEdit(_, _, _) => SC.Replayable(env, w, e)
       case Checkpoint(_, commit, _, _) => CP.Replayable(w, e) && CP.LeavesClean(w.git, commit)
       case PullRequestUpsert(_, _, _, _, _) => PR.Replayable(w, e)
       case PullRequestUpdate(_, number, request) => PR.Upsertable(w.pullRequests, number, request)
       case Acceptance(_, _, _, _, _, _, _) => RA.Replayable(w, e)
       case Resume(_, _, _, _) => false
       case Clarification(_, _, _, _, _) => w.run.Some?
       case StatusPublication(_, _) => CS.Publishable(env, w, e)
       case BranchPush(_, branch, sha) => CS.Pushable(env, w, branch, sha)
  }

  lemma ReplayResumes(env: Adapters, p: Proc, b: Budget, e: Effect)
    requires Completable(env, p.world, e)
    ensures var full := ReplayPending(env, Restart(p, Unbounded), HR.Waiting);
            var q := ReplayPending(env, Restart(p, b), HR.Waiting);
            && Resumes(full, q, ReplayEffect(env, Restart(q, Unbounded), e, HR.Waiting), e)
            && (q.progress != Going ==> Completable(env, q.world, e))
  {
    hide ST.Replay, SC.Replay, CP.Replay, PR.Replay, PR.ReplayUpdate, RA.Replay, CL.Replay, CS.Replay, CS.ReplayPush;
    hide ST.Replayable, SC.Replayable, CP.Replayable, CP.LeavesClean, PR.Replayable, PR.Upsertable, RA.Replayable;
    hide CS.Publishable, CS.Pushable;
    match e
    case StateTransition(_, _, _, _, _, _, _) => ST.ReplayResumes(env, p, b, e);
    case StatusCommentEdit(_, _, _) => SC.ReplayResumes(env, p, b, e);
    case Checkpoint(_, _, _, _) => CP.ReplayResumes(env, p, b, e);
    case PullRequestUpsert(_, _, _, _, _) => PR.ReplayResumes(env, p, b, e);
    case PullRequestUpdate(_, _, _) => PR.UpdateResumes(p, b, e);
    case Acceptance(_, _, _, _, _, _, _) => RA.ReplayResumes(env, p, b, e);
    case Clarification(_, _, _, _, _) => CL.ReplayResumes(p, b, e);
    case StatusPublication(_, _) => CS.StatusResumes(env, p, b, e);
    case BranchPush(_, _, _) => CS.PushResumes(env, p, b, e);
  }

  /** However often and wherever recoveries crash, the last one ends in the world
      of an uninterrupted replay, with the slot free. */
  lemma {:induction false} RecoveryConverges(env: Adapters, p: Proc, cuts: seq<nat>, e: Effect)
    requires Completable(env, p.world, e)
    ensures var full := ReplayPending(env, Restart(p, Unbounded), HR.Waiting);
            var r := Recover(env, p, cuts);
            r.progress == full.progress == Going && r.world == full.world && r.world.slot == None
    decreases |cuts|
  {
    hide ReplayEffect, Completable;
    ReplayResumes(env, p, Unbounded, e);
    if cuts != [] {
      var q := ReplayPending(env, Restart(p, Cut(cuts[0])), HR.Waiting);
      ReplayResumes(env, p, Cut(cuts[0]), e);
      if q.progress == Going {
        RecoveryIdles(env, q, cuts[1..]);
      } else {
        SlotOf(env, q.world, e);
        RecoveryConverges(env, q, cuts[1..], e);
      }
    }
  }

  lemma SlotOf(env: Adapters, w: World, e: Effect)
    requires Completable(env, w, e)
    ensures w.slot == Some(e)
  {}

  /** Nothing is recovered without a reservation. */
  lemma {:induction false} RecoveryIdles(env: Adapters, p: Proc, cuts: seq<nat>)
    requires p.world.slot == None
    ensures var r := Recover(env, p, cuts); r.world == p.world && r.progress == Going
    decreases |cuts|
  {
    hide ReplayEffect;
    if cuts != [] {
      RecoveryIdles(env, Restart(p, Cut(cuts[0])), cuts[1..]);
    }
  }

  // ---------- the first attempt

  predicate AtStart(run: Option<Run>, owner: string, previous: Run, next: Run) {
    && owner == next.id && previous.revision < next.revision
    && (run.Some? ==> run.value.id == owner && run.value.revision == previous.revision)
  }

  /** What the coordinator ensures before it starts an effect: the slot is free,
      the run is where the effect starts, its copies are current, and what the
      effect edits exists. A status starts with its commit on the remote. */
  predicate Startable(env: Adapters, w: World, op: Operation) {
    var e := EffectOf(op);
    && w.slot.None?
    && match op
       case Transit(t) => ST.Ready(w, t) && ST.Lossless(env, w, t)
       case ProjectCommand(_, _) => SC.Replayable(env, w.(slot := Some(e)), e)
       case MakeCheckpoint(commit, previous, next) =>
         && AtStart(w.run, commit.run, previous, next)
         && CP.Creatable(w.git, commit) && CP.LeavesClean(w.git, commit) && Recoverable(w.comments, next, false)
       case OpenPullRequest(previous, next, request, expected) =>
         && AtStart(w.run, next.id, previous, next)
         && PR.Upsertable(w.pullRequests, expected, request) && Recoverable(w.comments, next, false)
       case UpdatePullRequest(_, expected, request) => PR.Upsertable(w.pullRequests, expected, request)
       case AcceptReport(a) =>
         && RA.Startable(w, a) && RA.LiveIn(w, a.invocation.id) && Recoverable(w.comments, a.next, false)
       case ResumeSession(_, _, _, _) => false
       case Ask(asker, _, _, _, _) => w.run == Some(asker)
       case PublishStatus(_, status) =>
         env.readsStatuses && w.run.Some?
         && (CS.OwnCheckpoint(w.run.value, status.sha) ==>
               env.inspectsRemote && CS.RemoteHead(w, w.run.value.content.branch) == status.sha)
       case PushHead(_, branch, sha) => CS.Pushable(env, w, branch, sha)
  }

  /** When a command projection may start, in the terms of its own preconditions. */
  lemma CommandStartsIff(env: Adapters, w: World, previous: Run, next: Run)
    ensures Startable(env, w, ProjectCommand(previous, next)) <==>
              && w.slot.None? && SC.SameCommand(w.run, previous, next)
              && SC.Editable(w.comments, next, StatusComment(env, next))
  {
    hide SC.SameCommand, SC.Editable;
  }

  /** Apart from a transition that persists first, performing an operation is
      replaying its own reservation. */
  lemma PerformIsReplay(env: Adapters, p: Proc, op: Operation)
    requires p.progress == Going && Startable(env, p.world, op)
    requires op.Transit? ==> !op.t.persistBefore
    ensures var e := EffectOf(op);
            var r := Reserve(p, e);
            && Perform(env, p, op) == (if r.progress == Going then ReplayEffect(env, r, e, HR.Waiting) else r)
            && Completable(env, p.world.(slot := Some(e)), e)
  {
    hide ST.Apply, ST.Replay, SC.Persist, SC.Replay, CP.Commit, CP.Replay, PR.UpsertAndPersist, PR.Replay, RA.Accept;
    hide RA.Replay, CL.Publish, CL.Replay;
    hide FindComment, FindPullRequest, PR.Upsert, Clear, Key, CS.PushOnce, StatusIdentity;
    var e := EffectOf(op);
    var r := Reserve(p, e);
    match op
    case Transit(t) =>
      ST.ApplyIsReplay(env, p, t);
      ST.ReservedIsReplayable(env, p.world, t);
    case ProjectCommand(previous, next) => SC.PersistIsReplay(env, p, previous, next);
    case MakeCheckpoint(commit, previous, next) => CP.CommitIsReplay(env, p, commit, previous, next);
    case OpenPullRequest(previous, next, request, expected) =>
      PR.UpsertIsReplay(env, p, previous, next, request, expected);
    case UpdatePullRequest(run, expected, request) => if r.progress != Going { UpsertEnded(r, e, expected, request); }
    case AcceptReport(a) => RA.AcceptIsReplay(env, p, a);
    case Ask(asker, target, onPullRequest, version, body) =>
      CL.PublishIsReplay(p, asker, target, onPullRequest, version, body);
    case PublishStatus(run, status) => StatusIsReplay(env, p, run, status);
    case PushHead(run, branch, sha) => if r.progress != Going { PushEnded(env, r, e, branch, sha); }
  }

  lemma UpsertEnded(p: Proc, e: Effect, number: nat, request: PullRequest)
    requires p.progress != Going
    ensures PR.Upsert(p, number, request) == Clear(p, e) == p
  {
    hide FindPullRequest, Key;
  }

  lemma PushEnded(env: Adapters, p: Proc, e: Effect, branch: string, sha: nat)
    requires p.progress != Going
    ensures CS.PushOnce(env, p, branch, sha) == Clear(p, e) == p
  {
    hide Key;
  }

  lemma StatusIsReplay(env: Adapters, p: Proc, run: string, status: CommitStatus)
    requires p.progress == Going && p.world.run.Some?
    requires env.readsStatuses
    requires CS.OwnCheckpoint(p.world.run.value, status.sha) ==>
               env.inspectsRemote && CS.RemoteHead(p.world, p.world.run.value.content.branch) == status.sha
    ensures var e := StatusPublication(run, status);
            var r := Reserve(p, e);
            CS.Publish(env, p, run, status) == if r.progress == Going then CS.Replay(env, r, e) else r
  {
    hide Key, Clear;
    var e := StatusPublication(run, status);
    var r := Reserve(p, e);
    if r.progress != Going {
      PushEnded(env, r, e, "", 0);
    }
  }

  /** Crash convergence: an operation cut after any mutation, then any restarts
      cut anywhere, then one full restart, leaves the world of the uninterrupted
      operation, with the slot free. A cut before the reservation leaves
      everything as it was. */
  lemma CrashConvergence(env: Adapters, p: Proc, op: Operation, n: nat, cuts: seq<nat>)
    requires Startable(env, p.world, op)
    ensures var full := Perform(env, Restart(p, Unbounded), op);
            var q := Perform(env, Restart(p, Cut(n)), op);
            && full.progress == Going && full.world.slot == None
            && (n == 0 ==> q.world == p.world)
            && (n > 0 ==> Recover(env, q, cuts).world == full.world)
  {
    hide Startable, ReplayEffect, Completable;
    if op.Transit? && op.t.persistBefore {
      PersistFirstConvergence(env, p, op, n, cuts);
    } else {
      var e := EffectOf(op);
      PerformIsReplay(env, Restart(p, Unbounded), op);
      PerformIsReplay(env, Restart(p, Cut(n)), op);
      FreeAtStart(env, p.world, op);
      if n > 0 {
        var reserved := p.(world := p.world.(slot := Some(e)));
        ReplayResumes(env, reserved, Unbounded, e);
        ReplayResumes(env, reserved, Cut(n - 1), e);
        var q := Perform(env, Restart(p, Cut(n)), op);
        if q.progress == Going {
          RecoveryIdles(env, q, cuts);
        } else {
          RecoveryConverges(env, q, cuts, e);
        }
      } else {
        var reserved := p.(world := p.world.(slot := Some(e)));
        ReplayResumes(env, reserved, Unbounded, e);
      }
    }
  }

  lemma FreeAtStart(env: Adapters, w: World, op: Operation)
    requires Startable(env, w, op)
    ensures w.slot.None?
  {}

  lemma PersistFirstConvergence(env: Adapters, p: Proc, op: Operation, n: nat, cuts: seq<nat>)
    requires Startable(env, p.world, op) && op.Transit? && op.t.persistBefore
    ensures var full := Perform(env, Restart(p, Unbounded), op);
            var q := Perform(env, Restart(p, Cut(n)), op);
            && full.progress == Going && full.world.slot == None
            && (n == 0 ==> q.world == p.world)
            && (n > 0 ==> Recover(env, q, cuts).world == full.world)
  {
    hide ST.Apply, ST.Replay, ST.Replayable, ST.Ready, ST.Lossless;
    var t, e := op.t, EffectOf(op);
    var q := Perform(env, Restart(p, Cut(n)), op);
    ST.PersistFirstReaches(env, p, Unbounded, t);
    ST.PersistFirstReaches(env, p, Cut(n), t);
    ST.PersistFirstCutConverges(env, p, t, n);
    if q.progress == Going {
      RecoveryIdles(env, q, cuts);
    } else if n > 0 {
      RecoveryConverges(env, q, cuts, e);
    }
  }
}
