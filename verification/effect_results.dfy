/** What a finished operation has achieved, in the terms of tracker, code host and
    store, and that a crash on the way takes nothing of it away. */
module EffectResults {
  import opened Options
  import opened EffectWorld
  import opened Labels
  import opened IssueProjection
  import opened RunProjection
  import opened EffectJournal

  /** The issue and the store show the run `next`: its state label, its comment under
      the recorded identity, every other comment as before, and no pending effect. */
  predicate Shows(env: Adapters, before: World, after: World, next: Run) {
    && after.slot.None?
    && after.labels == StateLabels(before.labels, next.content.status)
    && after.run.Some?
    && var id := after.run.value.statusComment;
       && after.run.value == next.(statusComment := id)
       && 0 < id <= |after.comments|
       && after.comments[id - 1] == Comment(StatusMarker(next.id), env.render(next.id, next.content))
       && |before.comments| <= |after.comments| <= |before.comments| + 1
       && (forall i :: 0 <= i < |before.comments| && i != id - 1 ==> after.comments[i] == before.comments[i])
  }

  lemma ConclusionShows(env: Adapters, w: World, e: Effect, next: Run, create: bool, scope: Scope, expected: int)
    requires Conclusive(env, w, w.run, e, next, create, scope, expected) && Behind(w.run, next)
    ensures Shows(env, w, Concluded(env, w, w.run, next, create, scope), next)
  {
    hide FindComment, StateLabels, Supersede;
    CommentSettles(w.comments, next, create, StatusComment(env, next));
  }

  /** What an operation has achieved, kind by kind; whatever is not named is as
      before. */
  ghost predicate Achieved(env: Adapters, before: World, after: World, op: Operation) {
    match op
    case Transit(t) => TransitDone(env, before, after, t)
    case MakeCheckpoint(commit, _, next) => CheckpointDone(env, before, after, commit, next)
    case OpenPullRequest(_, next, request, _) => PullRequestDone(env, before, after, next, request)
    case AcceptReport(a) => AcceptanceDone(env, before, after, a)
    case ProjectCommand(_, next) => CommandDone(env, before, after, next)
    case UpdatePullRequest(_, expected, request) => UpdateDone(before, after, expected, request)
    case Ask(asker, _, onPullRequest, version, body) =>
      AskDone(before, after, asker, onPullRequest, Comment(ClarificationMarker(asker.id, version), body))
    case PublishStatus(_, status) =>
      && status in after.statuses && after.statuses in {before.statuses, before.statuses + [status]}
      && after == before.(slot := None, statuses := after.statuses)
    case PushHead(_, branch, sha) =>
      && branch in after.remote && after.remote[branch] == (if sha != 0 then sha else before.git.head)
      && after == before.(slot := None, remote := before.remote[branch := after.remote[branch]])
    case ResumeSession(_, _, _, _) => true
  }

  predicate TransitDone(env: Adapters, before: World, after: World, t: ST.Transition) {
    && Shows(env, before, after, t.next)
    && ST.Discards(before, after, t)
    && after.workers == (if t.stopWorker then {} else before.workers)
    && after == Aside(before, after).(results := after.results, invocations := after.invocations,
                                      unitResults := after.unitResults, workers := after.workers)
  }

  predicate CheckpointDone(env: Adapters, before: World, after: World, commit: CheckpointRequest, next: Run) {
    && Shows(env, before, after, CheckpointShown(next, commit, after.git.head))
    && after == Aside(before, after).(git := after.git)
    && after.git.marker == Some((commit.kind, commit.run)) && !after.git.changed && !after.git.outside
    && before.git.head <= after.git.head <= before.git.head + 1
  }

  predicate PullRequestDone(env: Adapters, before: World, after: World, next: Run, request: PullRequest) {
    && after.run.Some?
    && after == Aside(before, after).(pullRequests := after.pullRequests)
    && var number := after.run.value.content.pullRequest;
       && PairHolds(before.pullRequests, after.pullRequests, request, number)
       && Shows(env, before, after,
                next.(content := next.content.(pullRequest := number, pullRequestURL := env.url(number))))
  }

  predicate AcceptanceDone(env: Adapters, before: World, after: World, a: RA.Request) {
    && Shows(env, before, after, a.next)
    && after.invocations == before.invocations[a.invocation.id := a.invocation]
    && after.workers == (if !a.stopWorker then before.workers
                         else before.workers - {if a.worker == "" then a.next.id else a.worker})
    && after.unitResults == (if a.unitResult.None? then before.unitResults
                             else before.unitResults + {a.unitResult.value})
    && after == Aside(before, after).(invocations := after.invocations, workers := after.workers,
                                      unitResults := after.unitResults)
  }

  ghost predicate CommandDone(env: Adapters, before: World, after: World, next: Run) {
    && before.run.Some?
    && after.run == (if before.run.value.revision < next.revision then Some(next) else before.run)
    && after.run.value.content.processedComment == next.content.processedComment
    && after == before.(run := after.run, slot := None, comments := after.comments)
    && exists id :: CommandShown(env, before.comments, after.comments, next, id)
  }

  ghost predicate UpdateDone(before: World, after: World, expected: nat, request: PullRequest) {
    && after == before.(slot := None, pullRequests := after.pullRequests)
    && exists number: nat ::
         PairHolds(before.pullRequests, after.pullRequests, request, number) && (expected > 0 ==> number == expected)
  }

  predicate AskDone(before: World, after: World, asker: Run, onPullRequest: bool, question: Comment) {
    && after == (if onPullRequest then before.(run := after.run, slot := None, discussion := after.discussion)
                 else before.(run := after.run, slot := None, comments := after.comments))
    && after.run.Some?
    && var id := after.run.value.clarificationComment;
       && after.run.value == asker.(clarificationComment := id)
       && MarkedHolds(if onPullRequest then before.discussion else before.comments,
                      if onPullRequest then after.discussion else after.comments, question, id)
  }

  /** What showing a run may change. */
  function Aside(before: World, after: World): World {
    before.(run := after.run, slot := None, labels := after.labels, comments := after.comments)
  }

  /** The run a checkpoint at `head` is shown with. */
  function CheckpointShown(next: Run, commit: CheckpointRequest, head: nat): Run {
    match commit.kind
    case TestCheckpoint =>
      next.(content := next.content.(checkpoint := head, acceptedCheckpoint := 0, testCheckpoint := head))
    case ImplementationCheckpoint =>
      next.(content := next.content.(checkpoint := head, acceptedCheckpoint := 0))
  }

  /** The first comment with the run's marker has the rendered text, and no other
      one was touched. */
  predicate CommandShown(env: Adapters, before: seq<Comment>, after: seq<Comment>, next: Run, id: nat) {
    && 0 < id <= |after| == |before|
    && after[id - 1].marker == StatusMarker(next.id) && after[id - 1].body == env.render(next.id, next.content)
    && (forall i :: 0 <= i < id - 1 ==> after[i].marker != StatusMarker(next.id))
    && (forall i :: 0 <= i < |after| && i != id - 1 ==> after[i] == before[i])
  }

  /** The request is the first one of its branch pair, under `number`, and the
      others are as they were. */
  predicate PairHolds(before: seq<PullRequest>, after: seq<PullRequest>, request: PullRequest, number: nat) {
    && 0 < number <= |after| && after[number - 1] == request
    && (forall i :: 0 <= i < number - 1 ==> !(after[i].head == request.head && after[i].base == request.base))
    && |before| <= |after| <= |before| + 1
    && (forall i :: 0 <= i < |before| && i != number - 1 ==> after[i] == before[i])
  }

  /** The comment is the first one with its marker, under `id`, and the others are
      as they were. */
  predicate MarkedHolds(before: seq<Comment>, after: seq<Comment>, comment: Comment, id: nat) {
    && 0 < id <= |after| && after[id - 1] == comment
    && (forall i :: 0 <= i < id - 1 ==> after[i].marker != comment.marker)
    && |before| <= |after| <= |before| + 1
    && (forall i :: 0 <= i < |before| && i != id - 1 ==> after[i] == before[i])
  }

  /** The world a full replay of a reservation ends in. */
  lemma TransitAchieves(env: Adapters, p: Proc, t: ST.Transition)
    requires ST.Ready(p.world, t) && ST.Lossless(env, p.world, t)
    ensures Achieved(env, p.world, ST.Apply(env, Restart(p, Unbounded), t).world, Transit(t))
  {
    hide FindComment, StateLabels, Supersede, ST.Apply, ST.Replay, Concluded, Shows, Decide, ST.Discards;
    hide ST.NothingToDiscard;
    ST.NothingDiscarded(p.world, t);
    ST.ScopeDiscards(p.world, ST.Apply(env, Restart(p, Unbounded), t).world, t);
    var w := p.world.(slot := Some(ST.EffectOf(t)));
    var halted := ST.Halted(w, t.stopWorker);
    if t.persistBefore {
      ST.PersistFirstReaches(env, p, Unbounded, t);
      PersistFirstShows(env, p, t);
    } else {
      ST.ApplyIsReplay(env, Restart(p, Unbounded), t);
      ST.ReservedIsReplayable(env, p.world, t);
      ST.Reaches(env, p.(world := w), Unbounded, ST.EffectOf(t));
      ConclusionShows(env, halted, ST.EffectOf(t), t.next, t.create, ST.ScopeOf(t), t.previous.revision);
      ConcludedRest(env, halted, t.next, t.create, ST.ScopeOf(t));
      SameStart(env, p.world, halted, Concluded(env, halted, halted.run, t.next, t.create, ST.ScopeOf(t)), t.next);
    }
  }

  lemma SameStart(env: Adapters, a: World, b: World, after: World, next: Run)
    requires a.labels == b.labels && a.comments == b.comments
    ensures Shows(env, a, after, next) <==> Shows(env, b, after, next)
  {
    hide StateLabels;
  }

  /** A conclusion leaves everything else as its own action left it. */
  lemma ConcludedRest(env: Adapters, w: World, next: Run, create: bool, scope: Scope)
    requires Behind(w.run, next)
    ensures var c := Concluded(env, w, w.run, next, create, scope);
            c == Aside(Discarding(w, scope), c)
  {
    hide Projected, StateLabels, Supersede, StatusIdentity;
  }

  lemma PersistFirstShows(env: Adapters, p: Proc, t: ST.Transition)
    requires ST.Ready(p.world, t) && t.persistBefore && ST.Lossless(env, p.world, t)
    requires ST.Apply(env, Restart(p, Unbounded), t).progress == Going
    requires var saved := ST.Halted(p.world.(slot := Some(ST.EffectOf(t))), t.stopWorker).(run := Some(t.next));
             ST.Apply(env, Restart(p, Unbounded), t).world
               == Commented(env, Labelled(saved, t.next), t.next, false).(slot := None)
    ensures Achieved(env, p.world, ST.Apply(env, Restart(p, Unbounded), t).world, Transit(t))
  {
    hide FindComment, StateLabels, Supersede, ST.Apply, ST.Replay;
    CommentSettles(p.world.comments, t.next, false, StatusComment(env, t.next));
  }

  lemma CheckpointAchieves(env: Adapters, p: Proc, op: Operation)
    requires op.MakeCheckpoint? && Startable(env, p.world, op)
    ensures Achieved(env, p.world, Perform(env, Restart(p, Unbounded), op).world, op)
  {
    hide FindComment, StateLabels, Supersede, CP.Commit, CP.Replay, Concluded, Shows, Decide;
    var e := EffectOf(op);
    var w := p.world.(slot := Some(e));
    PerformIsReplay(env, Restart(p, Unbounded), op);
    CP.Reaches(env, p.(world := w), Unbounded, e);
    var done := CP.Committed(w, e.commit);
    var n := CP.Recorded(e.next, e.commit, CP.CheckpointHead(w.git, e.commit));
    SameIdentity(p.world.comments, e.next, n);
    ConclusionShows(env, done, e, n, false, RetainResults, e.previous.revision);
    ConcludedRest(env, done, n, false, RetainResults);
    SameStart(env, p.world, done, Concluded(env, done, done.run, n, false, RetainResults), n);
    ShowsRun(env, p.world, Concluded(env, done, done.run, n, false, RetainResults), n);
  }

  lemma ShowsRun(env: Adapters, before: World, after: World, next: Run)
    requires Shows(env, before, after, next)
    ensures after.slot.None? && after.run.Some? && after.run.value.content == next.content
            && after.run.value.id == next.id
  {
    hide StateLabels;
  }

  lemma PullRequestAchieves(env: Adapters, p: Proc, op: Operation)
    requires op.OpenPullRequest? && Startable(env, p.world, op)
    ensures Achieved(env, p.world, Perform(env, Restart(p, Unbounded), op).world, op)
  {
    hide FindComment, FindPullRequest, StateLabels, Supersede, PR.UpsertAndPersist, PR.Replay, Concluded, Shows;
    hide Decide, PR.Upserted, PR.UpsertedNumber, PairHolds;
    var e := EffectOf(op);
    var w := p.world.(slot := Some(e));
    PerformIsReplay(env, Restart(p, Unbounded), op);
    PR.Reaches(env, p.(world := w), Unbounded, e);
    UpsertHolds(w.pullRequests, e.number, e.request);
    var done := w.(pullRequests := PR.Upserted(w.pullRequests, e.request));
    var n := PR.Recorded(env, e.next, PR.UpsertedNumber(w.pullRequests, e.request));
    SameIdentity(p.world.comments, e.next, n);
    ConclusionShows(env, done, e, n, false, RetainResults, e.previous.revision);
    ConcludedRest(env, done, n, false, RetainResults);
    SameStart(env, p.world, done, Concluded(env, done, done.run, n, false, RetainResults), n);
    ShowsRun(env, p.world, Concluded(env, done, done.run, n, false, RetainResults), n);
  }

  /** An upsert leaves the request under its number, and the other ones alone. */
  lemma UpsertHolds(prs: seq<PullRequest>, expected: nat, request: PullRequest)
    requires PR.Upsertable(prs, expected, request)
    ensures var number := PR.UpsertedNumber(prs, request);
            PairHolds(prs, PR.Upserted(prs, request), request, number) && (expected > 0 ==> number == expected)
  {
    hide FindPullRequest;
    PR.UpsertSettles(prs, expected, request);
  }

  lemma AcceptanceAchieves(env: Adapters, p: Proc, op: Operation)
    requires op.AcceptReport? && Startable(env, p.world, op)
    ensures Achieved(env, p.world, Perform(env, Restart(p, Unbounded), op).world, op)
  {
    hide FindComment, StateLabels, Supersede, RA.Accept, RA.Replay, Concluded, Shows, Decide;
    var e := EffectOf(op);
    var w := p.world.(slot := Some(e));
    PerformIsReplay(env, Restart(p, Unbounded), op);
    RA.Reaches(env, p.(world := w), Unbounded, e);
    var done := RA.Fronted(w, e);
    ConclusionShows(env, done, e, e.next, false, RetainResults, e.previous.revision);
    ConcludedRest(env, done, e.next, false, RetainResults);
    SameStart(env, p.world, done, Concluded(env, done, done.run, e.next, false, RetainResults), e.next);
    ShowsRun(env, p.world, Concluded(env, done, done.run, e.next, false, RetainResults), e.next);
  }

  lemma CommandAchieves(env: Adapters, p: Proc, op: Operation)
    requires op.ProjectCommand? && Startable(env, p.world, op)
    ensures Achieved(env, p.world, Perform(env, Restart(p, Unbounded), op).world, op)
  {
    hide FindComment, SC.Persist, SC.Replay, SC.Edited, SC.Editable, CommandShown;
    var e := EffectOf(op);
    var w := p.world.(slot := Some(e));
    PerformIsReplay(env, Restart(p, Unbounded), op);
    SC.Reaches(env, p.(world := w), Unbounded, e);
    CommandEdits(env, SC.Marked(w, e.next), e.next);
  }

  /** A command edit leaves the marked comment with the text of the run. */
  lemma CommandEdits(env: Adapters, w: World, next: Run)
    requires SC.Editable(w.comments, next, StatusComment(env, next))
    ensures var after := SC.Edited(env, w, next);
            && after == w.(comments := after.comments)
            && CommandShown(env, w.comments, after.comments, next, FindComment(after.comments, StatusMarker(next.id)))
  {
    hide FindComment;
    if 0 < next.statusComment <= |w.comments| {
      FoundAfterEdit(w.comments, next.statusComment, StatusComment(env, next));
    }
  }

  lemma UpdateAchieves(env: Adapters, p: Proc, op: Operation)
    requires op.UpdatePullRequest? && Startable(env, p.world, op)
    ensures Achieved(env, p.world, Perform(env, Restart(p, Unbounded), op).world, op)
  {
    hide FindPullRequest, PR.Upsert, Clear, PR.Upserted, PR.UpsertedNumber, PairHolds;
    var e := EffectOf(op);
    var r := Restart(p, Unbounded).(world := p.world.(slot := Some(e)));
    assert Reserve(Restart(p, Unbounded), e) == r;
    UpsertHolds(r.world.pullRequests, e.number, e.request);
    PR.UpsertLands(r, e.number, e.request);
    ClearLands(PR.Upsert(r, e.number, e.request), e);
  }

  lemma AskAchieves(env: Adapters, p: Proc, op: Operation)
    requires op.Ask? && Startable(env, p.world, op)
    ensures Achieved(env, p.world, Perform(env, Restart(p, Unbounded), op).world, op)
  {
    hide FindComment, CL.Publish, CL.Replay, CL.Asked, CL.Identity, Perform, Completable, MarkedHolds;
    var e := EffectOf(op);
    var w := p.world.(slot := Some(e));
    PerformIsReplay(env, Restart(p, Unbounded), op);
    CL.Reaches(p.(world := w), Unbounded, e);
    QuestionShown(Thread(w, e.onPullRequest), CL.Question(e));
  }

  /** The marked comment of an asked question is the question. */
  lemma QuestionShown(thread: seq<Comment>, question: Comment)
    ensures var after, id := CL.Asked(thread, question), CL.Identity(thread, question.marker);
            MarkedHolds(thread, after, question, id)
  {
    hide FindComment;
    if FindComment(thread, question.marker) > 0 {
      FoundAfterEdit(thread, FindComment(thread, question.marker), question);
    } else {
      FoundAfterPost(thread, question);
    }
  }

  lemma StatusAchieves(env: Adapters, p: Proc, op: Operation)
    requires op.PublishStatus? && Startable(env, p.world, op)
    ensures Achieved(env, p.world, Perform(env, Restart(p, Unbounded), op).world, op)
  {
    hide CS.Publish, CS.Replay, CS.Distinct;
    var e := EffectOf(op);
    var w := p.world.(slot := Some(e));
    PerformIsReplay(env, Restart(p, Unbounded), op);
    CS.Reaches(env, p.(world := w), Unbounded, e);
  }

  lemma PushAchieves(env: Adapters, p: Proc, op: Operation)
    requires op.PushHead? && Startable(env, p.world, op)
    ensures Achieved(env, p.world, Perform(env, Restart(p, Unbounded), op).world, op)
  {
    hide CS.PushOnce, Clear;
    var e := EffectOf(op);
    var r := Restart(p, Unbounded).(world := p.world.(slot := Some(e)));
    assert Reserve(Restart(p, Unbounded), e) == r;
    CS.PushLands(env, r, e.branch, e.sha);
    ClearLands(CS.PushOnce(env, r, e.branch, e.sha), e);
  }

  /** What an operation achieves when nothing interrupts it, it achieves however it
      and its recoveries are interrupted, once one recovery gets through. */
  lemma CrashedOperationAchieves(env: Adapters, p: Proc, op: Operation, n: nat, cuts: seq<nat>)
    requires Startable(env, p.world, op) && n > 0
    ensures Achieved(env, p.world, Perform(env, Restart(p, Unbounded), op).world, op)
    ensures Achieved(env, p.world, Recover(env, Perform(env, Restart(p, Cut(n)), op), cuts).world, op)
  {
    hide Achieved, Startable, Perform, Recover;
    CrashConvergence(env, p, op, n, cuts);
    match op
    case Transit(_) => UncutTransit(env, p, op);
    case ProjectCommand(_, _) => CommandAchieves(env, p, op);
    case MakeCheckpoint(_, _, _) => CheckpointAchieves(env, p, op);
    case OpenPullRequest(_, _, _, _) => PullRequestAchieves(env, p, op);
    case UpdatePullRequest(_, _, _) => UpdateAchieves(env, p, op);
    case AcceptReport(_) => AcceptanceAchieves(env, p, op);
    case Ask(_, _, _, _, _) => AskAchieves(env, p, op);
    case PublishStatus(_, _) => StatusAchieves(env, p, op);
    case PushHead(_, _, _) => PushAchieves(env, p, op);
    case ResumeSession(_, _, _, _) => NoStart(env, p.world, op);
  }

  lemma NoStart(env: Adapters, w: World, op: Operation)
    ensures op.ResumeSession? ==> !Startable(env, w, op)
  {
  }

  lemma UncutTransit(env: Adapters, p: Proc, op: Operation)
    requires op.Transit? && Startable(env, p.world, op)
    ensures Achieved(env, p.world, Perform(env, Restart(p, Unbounded), op).world, op)
  {
    hide Achieved, ST.Apply, ST.Ready, ST.Lossless;
    TransitAchieves(env, p, op.t);
  }

  // ---------- results and run move together

  /** A transition on its way: the pending effect is its own and can be completed. */
  predicate Underway(env: Adapters, before: World, t: ST.Transition, w: World) {
    && ST.Paired(before, w, t)
    && (w.slot.Some? ==> w.slot == Some(ST.EffectOf(t)) && ST.Replayable(env, w, ST.EffectOf(t)))
  }

  lemma RestartUnderway(env: Adapters, before: World, t: ST.Transition, p: Proc, b: Budget)
    requires ST.Ready(before, t) && Underway(env, before, t, p.world)
    ensures Underway(env, before, t, ReplayPending(env, Restart(p, b), HR.Waiting).world)
  {
    hide ST.Replay, ST.Replayable, ST.Ready, ST.Paired;
    if p.world.slot.Some? {
      ST.ReplayPairs(env, p, b, before, t);
      ST.ReplayResumes(env, p, b, ST.EffectOf(t));
    }
  }

  /** Restarts, each with its own budget. */
  function Restarts(env: Adapters, p: Proc, budgets: seq<Budget>): Proc
    decreases |budgets|
  {
    if budgets == [] then p
    else Restarts(env, ReplayPending(env, Restart(p, budgets[0]), HR.Waiting), budgets[1..])
  }

  lemma {:induction false} RestartsUnderway(
      env: Adapters, before: World, t: ST.Transition, p: Proc, budgets: seq<Budget>)
    requires ST.Ready(before, t) && Underway(env, before, t, p.world)
    ensures Underway(env, before, t, Restarts(env, p, budgets).world)
    decreases |budgets|
  {
    hide Underway, ReplayPending, ST.Ready;
    if budgets != [] {
      RestartUnderway(env, before, t, p, budgets[0]);
      RestartsUnderway(env, before, t, ReplayPending(env, Restart(p, budgets[0]), HR.Waiting), budgets[1..]);
    }
  }

  lemma {:induction false} RecoverIsRestarts(env: Adapters, p: Proc, cuts: seq<nat>)
    ensures Recover(env, p, cuts)
            == Restarts(env, p, seq(|cuts|, i requires 0 <= i < |cuts| => Cut(cuts[i])) + [Unbounded])
    decreases |cuts|
  {
    hide ReplayPending;
    var budgets := seq(|cuts|, i requires 0 <= i < |cuts| => Cut(cuts[i])) + [Unbounded];
    if cuts == [] {
      assert budgets[1..] == [];
    } else {
      var q, rest := ReplayPending(env, Restart(p, Cut(cuts[0])), HR.Waiting), cuts[1..];
      RecoverIsRestarts(env, q, rest);
      assert budgets[1..] == seq(|rest|, i requires 0 <= i < |rest| => Cut(rest[i])) + [Unbounded];
    }
  }

  /** With the store transaction, at every point of a transition that is interrupted
      and restarted at will: the superseded results are discarded exactly when the
      stored run is at the new revision. */
  lemma DiscardsWithRun(env: Adapters, p: Proc, t: ST.Transition, b: Budget, budgets: seq<Budget>, cuts: seq<nat>)
    requires env.atomicSeam && ST.Ready(p.world, t) && !t.persistBefore
    ensures var q := Perform(env, Restart(p, b), Transit(t));
            && ST.Paired(p.world, Restarts(env, q, budgets).world, t)
            && ST.Paired(p.world, Recover(env, q, cuts).world, t)
  {
    hide ST.Apply, ST.Ready, ST.Paired, ST.Replayable, Restarts, Recover;
    var q := Perform(env, Restart(p, b), Transit(t));
    ST.ApplyPairs(env, p, b, t);
    RestartsUnderway(env, p.world, t, q, budgets);
    RecoverIsRestarts(env, q, cuts);
    RestartsUnderway(env, p.world, t, q, seq(|cuts|, i requires 0 <= i < |cuts| => Cut(cuts[i])) + [Unbounded]);
  }
}
