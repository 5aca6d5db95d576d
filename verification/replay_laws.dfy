/** Laws of single restarts: stale payloads are inert, and revisions only move
    forward by the reserved step. */
module ReplayLaws {
  import opened Options
  import opened EffectWorld
  import opened Labels
  import opened IssueProjection
  import opened RunProjection
  import opened EffectJournal

  predicate Advancing(e: Effect) {
    e.StateTransition? || e.StatusCommentEdit? || e.Checkpoint? || e.PullRequestUpsert? || e.Acceptance?
  }

  /** The kinds that check the stored revision before anything else. */
  predicate Guarded(e: Effect) {
    e.StateTransition? || e.Checkpoint? || e.PullRequestUpsert? || e.Acceptance?
  }

  /** Newer than the payload, off its track, or another run. */
  predicate Stale(w: World, e: Effect)
    requires Guarded(e)
  {
    && w.run.Some?
    && (w.run.value.revision > e.next.revision
        || (w.run.value.revision < e.next.revision && w.run.value.revision != e.previous.revision)
        || w.run.value.id != e.run)
  }

  lemma ConclusionRun(env: Adapters, p: Proc, before: Option<Run>, e: Effect, next: Run, create: bool, scope: Scope,
                      expected: int)
    ensures var q := Conclude(env, p, before, e, next, create, scope, expected);
            q.world.run == p.world.run
              || (Behind(before, next) && q.world.run == Some(Identified(p.world, next, create)))
  {
    hide ApplyStateTransition, StatusIdentity, Persist, Clear;
    ProjectionFrame(env, p, next, create);
    var q, saved := ApplyStateTransition(env, p, next, create), Identified(p.world, next, create);
    PersistedRun(env, q, scope, expected, saved);
    ClearRun(if Behind(before, next) then Persist(env, q, scope, expected, saved) else q, e);
  }

  lemma PersistedRun(env: Adapters, p: Proc, scope: Scope, expected: int, next: Run)
    ensures Persist(env, p, scope, expected, next).world.run in {p.world.run, Some(next)}
  {
    hide Supersede;
  }

  /** What a restart may do to the stored run: nothing, the reserved step from
      the payload's previous revision to its next one, the first save of a run,
      or the recording of a clarification comment. */
  predicate MovesForward(before: Option<Run>, after: Option<Run>, e: Effect) {
    || after == before
    || (Advancing(e) && after.Some? && after.value.revision == e.next.revision
        && (before.Some? ==> before.value.revision == e.previous.revision < e.next.revision))
    || (e.Clarification? && before.Some? && after.Some?
        && after.value == before.value.(clarificationComment := after.value.clarificationComment))
  }

  lemma GuardedMoves(env: Adapters, p: Proc, e: Effect)
    requires Guarded(e)
    ensures var q := ReplayEffect(env, p, e, HR.Waiting);
            && (Stale(p.world, e) && p.progress == Going ==> q == p.(progress := Refused))
            && MovesForward(p.world.run, q.world.run, e)
  {
    hide Conclude, CP.CreateCheckpoint, PR.Upsert, RA.Front, RA.Acceptable, CP.CheckpointHead, PR.UpsertedNumber;
    var run := p.world.run;
    match e
    case StateTransition(_, previous, next, create, stopWorker, invalidate, invalidateAll) =>
      ConclusionRun(env, ST.StopIfAsked(p, stopWorker), run, e, Adopted(run, next), create,
                    ST.ScopeFor(invalidateAll, invalidate), previous.revision);
    case Checkpoint(_, commit, previous, next) =>
      CheckpointRun(p, commit);
      ConclusionRun(env, CP.CreateCheckpoint(p, commit), run, e,
                    CP.Recorded(next, commit, CP.CheckpointHead(p.world.git, commit)),
                    false, RetainResults, previous.revision);
    case PullRequestUpsert(_, number, request, previous, next) =>
      UpsertRun(p, number, request);
      ConclusionRun(env, PR.Upsert(p, number, request), run, e,
                    PR.Recorded(env, next, PR.UpsertedNumber(p.world.pullRequests, request)),
                    false, RetainResults, previous.revision);
    case Acceptance(_, _, _, previous, next, _, _) =>
      FrontRun(p, e);
      ConclusionRun(env, RA.Front(p, e), run, e, Adopted(run, next), false, RetainResults, previous.revision);
  }

  /** A stale restart does nothing at all; any restart moves the run forward by
      its reserved step or not. */
  lemma RestartMovesForward(env: Adapters, p: Proc, verdict: HR.Verdict)
    requires p.world.slot.Some?
    ensures var e, q := p.world.slot.value, ReplayPending(env, p, verdict);
            && (Guarded(e) && Stale(p.world, e) && p.progress == Going ==> q == p.(progress := Refused))
            && MovesForward(p.world.run, q.world.run, e)
            && (p.world.run.Some? ==> q.world.run.Some? && q.world.run.value.revision >= p.world.run.value.revision)
  {
    hide ST.Replay, SC.Replay, CP.Replay, PR.Replay, RA.Replay, HR.Replay, CL.Replay, CS.Replay, PR.Upsert;
    hide CS.PushOnce, Clear, Stale;
    var e, run := p.world.slot.value, p.world.run;
    if Guarded(e) {
      GuardedMoves(env, p, e);
    } else {
      match e
      case StatusCommentEdit(_, _, _) => CommandRun(env, p, e);
      case PullRequestUpdate(_, number, request) =>
        UpsertRun(p, number, request);
        ClearRun(PR.Upsert(p, number, request), e);
      case Resume(_, _, _, _) => ResumeRun(p, e, verdict);
      case Clarification(_, _, _, _, _) => AskRun(p, e);
      case StatusPublication(_, _) => StatusRun(env, p, e);
      case BranchPush(_, branch, sha) =>
        PushRun(env, p, branch, sha);
        ClearRun(CS.PushOnce(env, p, branch, sha), e);
    }
  }

  lemma UpsertRun(p: Proc, number: nat, request: PullRequest)
    ensures PR.Upsert(p, number, request).world.run == p.world.run
  {
    hide FindPullRequest;
  }

  lemma PushRun(env: Adapters, p: Proc, branch: string, sha: nat)
    ensures CS.PushOnce(env, p, branch, sha).world.run == p.world.run
  {}

  lemma ClearRun(p: Proc, e: Effect)
    ensures Clear(p, e).world.run == p.world.run
  {
    hide Key;
  }

  lemma CheckpointRun(p: Proc, c: CheckpointRequest)
    ensures CP.CreateCheckpoint(p, c).world.run == p.world.run
  {}

  lemma FrontRun(p: Proc, e: Effect)
    requires e.Acceptance?
    ensures RA.Front(p, e).world.run == p.world.run
  {
    hide RA.LiveIn;
  }

  lemma ResumeRun(p: Proc, e: Effect, verdict: HR.Verdict)
    requires e.Resume?
    ensures HR.Replay(p, e, verdict).world.run == p.world.run
  {
    hide Clear, HR.Cross;
    if e.invocation.id in p.world.invocations {
      var stored := p.world.invocations[e.invocation.id];
      CrossRun(p, stored, e.target, e.manual, verdict);
      ClearRun(HR.Cross(p, stored, e.target, e.manual, verdict), e);
      ClearRun(p, e);
    }
  }

  lemma CrossRun(p: Proc, original: Invocation, target: nat, manual: bool, verdict: HR.Verdict)
    ensures HR.Cross(p, original, target, manual, verdict).world.run == p.world.run
  {}

  lemma AskRun(p: Proc, e: Effect)
    requires e.Clarification?
    ensures var q := CL.Replay(p, e).world.run;
            || q == p.world.run
            || (p.world.run.Some? && q.Some?
                && q.value == p.world.run.value.(clarificationComment := q.value.clarificationComment))
  {
    hide FindComment, Clear, CL.FindOrCreate;
    if p.world.run.Some? {
      var id := CL.Identity(Thread(p.world, e.onPullRequest), CL.Question(e).marker);
      var saved := p.world.run.value.(clarificationComment := id);
      var f := CL.FindOrCreate(p, e.onPullRequest, CL.Question(e));
      QuestionRun(p, e.onPullRequest, CL.Question(e));
      SaveFrame(f, saved);
      ClearRun(SaveRun(f, saved), e);
    }
  }

  lemma QuestionRun(p: Proc, onPullRequest: bool, question: Comment)
    ensures CL.FindOrCreate(p, onPullRequest, question).world.run == p.world.run
  {
    hide FindComment;
  }

  lemma StatusRun(env: Adapters, p: Proc, e: Effect)
    requires e.StatusPublication?
    ensures CS.Replay(env, p, e).world.run == p.world.run
  {
    hide Key;
    if p.world.run.Some? {
      var run := p.world.run.value;
      var s := if CS.OwnCheckpoint(run, e.status.sha) then CS.PushOnce(env, p, run.content.branch, e.status.sha) else p;
      ClearRun(CS.CreateUnlessListed(s, e.status), e);
    }
  }

  lemma CommandRun(env: Adapters, p: Proc, e: Effect)
    requires e.StatusCommentEdit?
    ensures var q := SC.Replay(env, p, e).world.run;
            || q == p.world.run
            || (q == Some(e.next) && p.world.run.Some?
                && p.world.run.value.revision == e.previous.revision < e.next.revision)
  {
    hide FindComment, Clear;
    var m := SC.Watermark(p, e.previous, e.next);
    ClearRun(ApplyStatusComment(env, m, e.next), e);
  }
}
