/** The handlers as the coordinator runs them (internal/effect): step by step
    against the seams of one process, returning at the first step that does not
    succeed. Each is proved to do what its specification function says. */
module EffectHandlers {
  import opened Options
  import opened Spaces
  import opened EffectWorld
  import opened Labels
  import opened Processes
  import opened RunProjection
  import IP = IssueProjection
  import ST = StateTransitions
  import SC = StatusComments
  import CP = Checkpoints
  import PR = PullRequests
  import RA = ResultAcceptances
  import HR = HarnessResumes
  import CL = Clarifications
  import CS = CommitStatuses
  import EJ = EffectJournal
  import ER = EffectResults
  import AR = AcceptedReports

  /** Compares complete ordered projections. */
  method SameStringSlice(left: seq<string>, right: seq<string>) returns (same: bool)
    ensures same <==> left == right
  {
    if |left| != |right| {
      return false;
    }
    for index := 0 to |left|
      invariant left[..index] == right[..index]
    {
      if left[index] != right[index] {
        return false;
      }
    }
    return true;
  }

  /** Looks for a status that agrees in every semantic field. */
  method ListsStatus(statuses: seq<CommitStatus>, status: CommitStatus) returns (found: bool)
    ensures found <==> status in statuses
  {
    found := false;
    for index := 0 to |statuses|
      invariant !found && status !in statuses[..index]
    {
      var s := statuses[index];
      if s.sha == status.sha && s.state == status.state && s.context == status.context
         && s.description == status.description && s.url == status.url {
        return true;
      }
    }
  }

  class Coordinator {
    const env: Adapters
    const p: Process

    constructor (env: Adapters, p: Process)
      ensures this.env == env && this.p == p
    {
      this.env, this.p := env, p;
    }

    // ---------- the issue projection

    method SyncLabels(next: Run) returns (ok: bool)
      requires p.progress == Going
      modifies p
      ensures p.View() == IP.ProjectLabels(old(p.View()), next)
      ensures ok <==> p.progress == Going
    {
      var desired := ReplaceFactoryState(p.world.labels, LabelForStatus(next.content.status));
      var same := SameStringSlice(p.world.labels, desired);
      ok := true;
      if !same {
        ok := p.SetLabels(desired);
      }
    }

    method SyncComment(given: Run, create: bool) returns (ok: bool, next: Run)
      requires p.progress == Going
      modifies p
      ensures p.View() == IP.ProjectComment(env, old(p.View()), given, create)
      ensures ok <==> p.progress == Going
      ensures ok ==> next == IP.Identified(old(p.world), given, create)
    {
      hide FindComment;
      next, ok := given, true;
      var comment := StatusComment(env, next);
      var found := FindComment(p.world.comments, StatusMarker(next.id));
      var same := found > 0 && p.world.comments[found - 1].body == comment.body;
      if create {
        if found > 0 {
          next := next.(statusComment := found);
          if !same {
            ok := p.EditComment(false, found, comment);
          }
          return;
        }
        var id;
        ok, id := p.CreateComment(false, comment);
        next := next.(statusComment := id);
        return;
      }
      if next.statusComment == 0 {
        if found == 0 {
          p.Refuse();
          return false, next;
        }
        next := next.(statusComment := found);
      }
      if !(found == next.statusComment && same) {
        ok := p.EditComment(false, next.statusComment, comment);
      }
    }

    /** Labels and comment of a run; returns the run with its comment identity. */
    method ProjectState(given: Run, create: bool) returns (ok: bool, next: Run)
      requires p.progress == Going
      modifies p
      ensures p.View() == IP.ApplyStateTransition(env, old(p.View()), given, create)
      ensures ok <==> p.progress == Going
      ensures ok ==> next == IP.Identified(old(p.world), given, create)
    {
      hide IP.ProjectComment, IP.StatusIdentity, StateLabels;
      next := given;
      ok := SyncLabels(given);
      if !ok {
        IP.ProjectionIdle(env, p.View(), given, create);
        return;
      }
      ok, next := SyncComment(given, create);
    }

    /** The comment edit of a command projection. */
    method EditStatusComment(next: Run) returns (ok: bool)
      requires p.progress == Going
      modifies p
      ensures p.View() == IP.ApplyStatusComment(env, old(p.View()), next)
      ensures ok <==> p.progress == Going
    {
      hide FindComment;
      if next.statusComment == 0 {
        p.Refuse();
        return false;
      }
      var comment := StatusComment(env, next);
      var found := FindComment(p.world.comments, StatusMarker(next.id));
      var same := found > 0 && p.world.comments[found - 1].body == comment.body;
      if found == next.statusComment && same {
        return true;
      }
      if found > 0 && found != next.statusComment {
        if !same {
          p.Refuse();
        }
        return same;
      }
      ok := p.EditComment(false, next.statusComment, comment);
    }

    // ---------- state transitions

    method PersistRun(scope: Scope, expected: int, next: Run) returns (ok: bool)
      requires p.progress == Going
      modifies p
      ensures p.View() == Persist(env, old(p.View()), scope, expected, next)
      ensures ok <==> p.progress == Going
    {
      hide Supersede;
      if scope.RetainResults? {
        ok := p.SaveRun(next);
      } else if env.atomicSeam {
        ok := p.SaveRunDiscarding(expected, next, scope.InvalidateAllResults?);
      } else {
        ok := p.SaveRunAt(expected, next);
        if ok {
          ok := p.DiscardResults(scope.InvalidateAllResults?);
        }
      }
    }

    method ApplyTransition(t: ST.Transition) returns (ok: bool, next: Run)
      requires p.progress == Going
      modifies p
      ensures p.View() == ST.Apply(env, old(p.View()), t)
      ensures ok <==> p.progress == Going
    {
      hide IP.ApplyStateTransition, Persist, Clear, Reserve, SaveRunAt, IP.StatusIdentity;
      var e := ST.EffectOf(t);
      next := t.next;
      ok := p.Reserve(e);
      if !ok { ST.ApplyIdle(env, p.View(), t); return; }
      if t.stopWorker {
        ok := p.StopActiveWorkers();
        if !ok { ST.ApplyIdle(env, p.View(), t); return; }
      }
      if t.persistBefore {
        if t.create {
          p.Refuse();
          return false, next;
        }
        ok := p.SaveRunAt(t.previous.revision, next);
        if !ok { ST.ApplyIdle(env, p.View(), t); return; }
      }
      ok, next := ProjectState(next, t.create);
      if !ok { ST.ApplyIdle(env, p.View(), t); return; }
      if !t.persistBefore {
        ok := PersistRun(ST.ScopeFor(t.invalidateAll, t.invalidate), t.previous.revision, next);
        if !ok { ST.ApplyIdle(env, p.View(), t); return; }
      }
      ok := p.Clear(e);
    }

    /** What every replay of a run-advancing effect ends with. */
    method ConcludeReplay(before: Option<Run>, e: Effect, given: Run, create: bool, scope: Scope, expected: int)
      returns (ok: bool, next: Run)
      requires p.progress == Going
      modifies p
      ensures p.View() == Conclude(env, old(p.View()), before, e, given, create, scope, expected)
      ensures ok <==> p.progress == Going
      ensures ok ==> next == IP.Identified(old(p.world), given, create)
    {
      hide IP.ApplyStateTransition, Persist, Clear, IP.StatusIdentity;
      ghost var saved := IP.Identified(p.world, given, create);
      ok, next := ProjectState(given, create);
      if !ok { EndedIdle(env, p.View(), e, scope, expected, saved); return; }
      if before.None? || before.value.revision < next.revision {
        ok := PersistRun(scope, expected, next);
        if !ok { EndedIdle(env, p.View(), e, scope, expected, saved); return; }
      }
      ok := p.Clear(e);
    }

    method ReplayTransition(e: Effect) returns (ok: bool)
      requires e.StateTransition? && p.progress == Going
      modifies p
      ensures p.View() == ST.Replay(env, old(p.View()), e)
      ensures ok <==> p.progress == Going
    {
      hide Conclude;
      var current, next := p.world.run, e.next;
      if next.id != e.run {
        p.Refuse();
        return false;
      }
      if current.Some? {
        var run := current.value;
        if run.id != next.id || run.revision > next.revision
          || (run.revision < next.revision && run.revision != e.previous.revision) {
          p.Refuse();
          return false;
        }
        if run.revision == next.revision && run.statusComment > 0 {
          next := next.(statusComment := run.statusComment);
        }
      }
      var scope := ST.ScopeFor(e.invalidateAll, e.invalidate);
      if e.stopWorker {
        ok := p.StopActiveWorkers();
        if !ok { ConclusionIdle(env, p.View(), current, e, next, e.create, scope, e.previous.revision); return; }
      }
      ok, next := ConcludeReplay(current, e, next, e.create, scope, e.previous.revision);
    }

    // ---------- command projections

    method SaveWatermark(previous: Run, next: Run) returns (ok: bool)
      requires p.progress == Going
      modifies p
      ensures p.View() == SC.Watermark(old(p.View()), previous, next)
      ensures ok <==> p.progress == Going
    {
      if p.world.run.None? {
        p.Refuse();
        return false;
      }
      var current := p.world.run.value;
      var sameCommand := current.content.processedComment == next.content.processedComment;
      if current.revision < next.revision {
        if current.revision != previous.revision {
          p.Refuse();
          return false;
        }
        ok := p.SaveRunAt(previous.revision, next);
        return;
      }
      ok := sameCommand
        && (current.revision == next.revision ==> current.content.lastCommand == next.content.lastCommand);
      if !ok {
        p.Refuse();
      }
    }

    method ReplayCommand(e: Effect) returns (ok: bool)
      requires e.StatusCommentEdit? && p.progress == Going
      modifies p
      ensures p.View() == SC.Replay(env, old(p.View()), e)
      ensures ok <==> p.progress == Going
    {
      hide SC.Watermark, IP.ApplyStatusComment, Clear;
      ok := SaveWatermark(e.previous, e.next);
      if !ok { SC.EndedStays(env, p.View(), e); return; }
      ok := EditStatusComment(e.next);
      if !ok { SC.EndedStays(env, p.View(), e); return; }
      ok := p.Clear(e);
    }

    method PersistCommand(previous: Run, next: Run) returns (ok: bool)
      requires p.progress == Going
      modifies p
      ensures p.View() == SC.Persist(env, old(p.View()), previous, next)
      ensures ok <==> p.progress == Going
    {
      hide SC.Watermark, Clear, Reserve;
      var e := StatusCommentEdit(next.id, previous, next);
      ok := p.Reserve(e);
      if !ok { SC.EndedStays(env, p.View(), e); return; }
      ok := ReplayCommand(e);
    }

    // ---------- checkpoints

    /** The worktree manager's idempotent checkpoint. */
    method CreateCheckpoint(c: CheckpointRequest) returns (ok: bool, head: nat)
      requires p.progress == Going
      modifies p
      ensures p.View() == CP.CreateCheckpoint(old(p.View()), c)
      ensures ok <==> p.progress == Going
      ensures ok ==> head == CP.CheckpointHead(old(p.world).git, c)
    {
      var g := p.world.git;
      var dirty := g.changed || g.outside;
      var marked := g.marker == Some((c.kind, c.run));
      if g.head != c.parent {
        ok := marked && !dirty;
        if !ok {
          p.Refuse();
        }
        return ok, g.head;
      }
      if !dirty {
        ok := marked;
        if !ok {
          p.Refuse();
        }
        return ok, g.head;
      }
      if !c.allPaths && !g.changed {
        p.Refuse();
        return false, g.head;
      }
      head := g.head + 1;
      ok := p.CommitWorktree(Git(head, Some((c.kind, c.run)), false, !c.allPaths && g.outside));
    }

    method CommitCheckpoint(c: CheckpointRequest, previous: Run, template: Run) returns (ok: bool, next: Run)
      requires p.progress == Going
      modifies p
      ensures p.View() == CP.Commit(env, old(p.View()), c, previous, template)
      ensures ok <==> p.progress == Going
    {
      hide IP.ApplyStateTransition, Clear, Reserve, CP.CreateCheckpoint, SaveRun, IP.StatusIdentity;
      var e := Checkpoint(c.run, c, previous, template);
      next := template;
      ghost var recorded := CP.Recorded(template, c, CP.CheckpointHead(p.world.git, c));
      ok := p.Reserve(e);
      assert p.world.git == old(p.world).git by { ReserveKeepsWorktree(old(p.View()), e); }
      if !ok { EndedFront(env, p.View(), e, recorded); CheckpointEnded(p.View(), c); return; }
      var head;
      ok, head := CreateCheckpoint(c);
      if !ok { EndedFront(env, p.View(), e, recorded); return; }
      next := next.(content := next.content.(acceptedCheckpoint := 0, checkpoint := head));
      if c.kind.TestCheckpoint? {
        next := next.(content := next.content.(testCheckpoint := head));
      }
      assert next == recorded;
      ok, next := ProjectState(next, false);
      if !ok { EndedFront(env, p.View(), e, recorded); return; }
      ok := p.SaveRun(next);
      if !ok { EndedFront(env, p.View(), e, recorded); return; }
      ok := p.Clear(e);
    }

    method ReplayCheckpoint(e: Effect) returns (ok: bool)
      requires e.Checkpoint? && p.progress == Going
      modifies p
      ensures p.View() == CP.Replay(env, old(p.View()), e)
      ensures ok <==> p.progress == Going
    {
      hide Conclude, CP.CreateCheckpoint;
      var current := p.world.run;
      if !Admits(current, e.run, e.previous, e.next) {
        p.Refuse();
        return false;
      }
      ghost var recorded := CP.Recorded(e.next, e.commit, CP.CheckpointHead(p.world.git, e.commit));
      var head;
      ok, head := CreateCheckpoint(e.commit);
      if !ok { ConclusionIdle(env, p.View(), current, e, recorded, false, RetainResults, e.previous.revision); return; }
      var next := CP.Recorded(e.next, e.commit, head);
      ok, next := ConcludeReplay(current, e, next, false, RetainResults, e.previous.revision);
    }

    // ---------- pull requests

    method UpsertPullRequest(expected: nat, request: PullRequest) returns (ok: bool, number: nat)
      requires p.progress == Going
      modifies p
      ensures p.View() == PR.Upsert(old(p.View()), expected, request)
      ensures ok <==> p.progress == Going
      ensures ok ==> number == PR.UpsertedNumber(old(p.world).pullRequests, request)
    {
      hide FindPullRequest;
      number := FindPullRequest(p.world.pullRequests, request.head, request.base);
      ok := true;
      if number > 0 {
        if expected > 0 && number != expected {
          p.Refuse();
          return false, number;
        }
        if p.world.pullRequests[number - 1] != request {
          ok := p.RewritePullRequest(number, request);
        }
        return;
      }
      if expected > 0 {
        p.Refuse();
        return false, number;
      }
      ok, number := p.OpenPullRequest(request);
    }

    method UpsertAndPersist(previous: Run, given: Run, request: PullRequest, expected: nat)
      returns (ok: bool, next: Run)
      requires p.progress == Going
      modifies p
      ensures p.View() == PR.UpsertAndPersist(env, old(p.View()), previous, given, request, expected)
      ensures ok <==> p.progress == Going
    {
      hide IP.ApplyStateTransition, Clear, Reserve, PR.Upsert, SaveRun, IP.StatusIdentity, PR.UpsertedNumber;
      var e := PullRequestUpsert(given.id, expected, request, previous, given);
      next := given;
      ghost var recorded := PR.Recorded(env, given, PR.UpsertedNumber(p.world.pullRequests, request));
      ok := p.Reserve(e);
      assert p.world.pullRequests == old(p.world).pullRequests by { ReserveKeepsWorktree(old(p.View()), e); }
      if !ok { EndedFront(env, p.View(), e, recorded); EJ.UpsertEnded(p.View(), e, expected, request); return; }
      var number;
      ok, number := UpsertPullRequest(expected, request);
      if !ok { EndedFront(env, p.View(), e, recorded); return; }
      next := next.(content := next.content.(pullRequest := number, pullRequestURL := env.url(number)));
      ok, next := ProjectState(next, false);
      if !ok { EndedFront(env, p.View(), e, recorded); return; }
      ok := p.SaveRun(next);
      if !ok { EndedFront(env, p.View(), e, recorded); return; }
      ok := p.Clear(e);
    }

    method UpdatePullRequest(run: string, expected: nat, request: PullRequest) returns (ok: bool)
      requires p.progress == Going
      modifies p
      ensures p.View() == PR.Update(old(p.View()), run, expected, request)
      ensures ok <==> p.progress == Going
    {
      hide Clear, Reserve, PR.Upsert;
      var e := PullRequestUpdate(run, expected, request);
      ok := p.Reserve(e);
      if !ok { EJ.UpsertEnded(p.View(), e, expected, request); return; }
      var number;
      ok, number := UpsertPullRequest(expected, request);
      if !ok { StatusEnded(p.View(), e, NO_STATUS); return; }
      ok := p.Clear(e);
    }

    method ReplayPullRequest(e: Effect) returns (ok: bool)
      requires e.PullRequestUpsert? && p.progress == Going
      modifies p
      ensures p.View() == PR.Replay(env, old(p.View()), e)
      ensures ok <==> p.progress == Going
    {
      hide Conclude, PR.Upsert, PR.UpsertedNumber;
      var current := p.world.run;
      if !Admits(current, e.run, e.previous, e.next) {
        p.Refuse();
        return false;
      }
      ghost var recorded := PR.Recorded(env, e.next, PR.UpsertedNumber(p.world.pullRequests, e.request));
      var number;
      ok, number := UpsertPullRequest(e.number, e.request);
      if !ok { ConclusionIdle(env, p.View(), current, e, recorded, false, RetainResults, e.previous.revision); return; }
      var next := PR.Recorded(env, e.next, number);
      ok, next := ConcludeReplay(current, e, next, false, RetainResults, e.previous.revision);
    }

    // ---------- report acceptance

    method AcceptReport(a: RA.Request) returns (ok: bool, next: Run)
      requires p.progress == Going
      modifies p
      ensures p.View() == RA.Accept(env, old(p.View()), a)
      ensures ok <==> p.progress == Going
      ensures ok ==> next == AR.AcceptedRun(old(p.world), a)
    {
      hide IP.ApplyStateTransition, Clear, Reserve, SaveRun, IP.StatusIdentity, SaveInvocation, FinishSession;
      var e := RA.EffectOf(a);
      next := a.next;
      ok := p.Reserve(e);
      if !ok { AcceptEnded(env, p.View(), a); return; }
      if a.invocation.id !in p.world.invocations {
        p.Refuse();
        return false, next;
      }
      var stored := p.world.invocations[a.invocation.id];
      if stored.status.Live? {
        ok := p.SaveInvocation(a.invocation);
        if !ok { AcceptEnded(env, p.View(), a); return; }
      } else if stored.status != a.invocation.status || stored.session != a.invocation.session {
        p.Refuse();
        return false, next;
      }
      ok := p.FinishSession(a.invocation.id);
      if !ok { AcceptEnded(env, p.View(), a); return; }
      if a.stopWorker {
        ok := p.StopWorker(if a.worker == "" then a.previous.id else a.worker);
        if !ok { AcceptEnded(env, p.View(), a); return; }
      }
      if a.unitResult.Some? {
        ok := p.SaveUnitResult(a.unitResult.value);
        if !ok { AcceptEnded(env, p.View(), a); return; }
      }
      ReleaseComments(old(p.View()), p.View(), a);
      ok, next := ProjectState(next, false);
      if !ok { AcceptEnded(env, p.View(), a); return; }
      ok := p.SaveRun(next);
      if !ok { AcceptEnded(env, p.View(), a); return; }
      ok := p.Clear(e);
    }

    /** Returns the run with which its caller goes on, stored or not. */
    method ReplayAcceptance(e: Effect) returns (ok: bool, next: Run)
      requires e.Acceptance? && p.progress == Going
      modifies p
      ensures p.View() == RA.Replay(env, old(p.View()), e)
      ensures ok <==> p.progress == Going
      ensures ok ==> next == RA.Returned(old(p.world), e)
    {
      hide Conclude, SaveInvocation, FinishSession;
      next := e.next;
      var current := p.world.run;
      if !Admits(current, e.run, e.previous, e.next) || e.invocation.id !in p.world.invocations {
        p.Refuse();
        return false, next;
      }
      var stored := p.world.invocations[e.invocation.id];
      var finishNeeded := stored.status.Live?;
      ghost var concluded := Adopted(current, e.next);
      if finishNeeded {
        ok := p.SaveInvocation(e.invocation);
        if !ok { FrontEnded(env, p.View(), current, e); return; }
      } else if stored.status != e.invocation.status || stored.session != e.invocation.session {
        p.Refuse();
        return false, next;
      }
      if finishNeeded {
        ok := p.FinishSession(e.invocation.id);
        if !ok { FrontEnded(env, p.View(), current, e); return; }
      }
      if e.stopWorker {
        ok := p.StopWorker(if e.worker == "" then e.run else e.worker);
        if !ok { FrontEnded(env, p.View(), current, e); return; }
      }
      if e.unitResult.Some? {
        ok := p.SaveUnitResult(e.unitResult.value);
        if !ok { FrontEnded(env, p.View(), current, e); return; }
      }
      if current.Some? && current.value.revision == next.revision && current.value.statusComment > 0 {
        next := next.(statusComment := current.value.statusComment);
      }
      FrontComments(old(p.View()), p.View(), e);
      ok, next := ConcludeReplay(current, e, next, false, RetainResults, e.previous.revision);
    }

    // ---------- native resumes

    method ResumeNative(run: string, invocation: Invocation, manual: bool, verdict: HR.Verdict)
      returns (ok: bool, updated: Invocation)
      requires p.progress == Going
      modifies p
      ensures p.View() == HR.ResumeNative(old(p.View()), run, invocation, manual, verdict)
      ensures ok <==> p.progress == Going
    {
      hide Clear, Reserve;
      var target := HR.Count(invocation, manual) + 1;
      var e := Resume(run, invocation, target, manual);
      updated := invocation;
      ok := p.Reserve(e);
      if !ok { ResumeEnded(p.View(), invocation, target, manual, verdict, e); return; }
      ok, updated := CrossBoundary(invocation, target, manual, verdict);
      if !ok { ResumeEnded(p.View(), invocation, target, manual, verdict, e); return; }
      ok := p.Clear(e);
    }

    /** The counter is stored before the runtime is asked; an answer that nothing
        started puts the original invocation back. */
    method CrossBoundary(invocation: Invocation, target: nat, manual: bool, verdict: HR.Verdict)
      returns (ok: bool, updated: Invocation)
      requires p.progress == Going
      modifies p
      ensures p.View() == HR.Cross(old(p.View()), invocation, target, manual, verdict)
      ensures ok <==> p.progress == Going
    {
      updated := invocation;
      var reserved := HR.WithCount(invocation, manual, target);
      ok := p.SaveInvocation(reserved);
      if !ok { return; }
      updated := reserved;
      match verdict {
        case Waiting =>
          ok := p.SaveInvocation(invocation);
          updated := invocation;
        case Admitted(session) =>
          ok := p.StartSession(Launch(invocation.id, manual, target));
          if !ok { return; }
          if session != "" {
            updated := updated.(session := session);
          }
          ok := p.SaveInvocation(updated);
      }
    }

    method ReplayResume(e: Effect, verdict: HR.Verdict) returns (ok: bool)
      requires e.Resume? && p.progress == Going
      modifies p
      ensures p.View() == HR.Replay(old(p.View()), e, verdict)
      ensures ok <==> p.progress == Going
    {
      hide Clear, HR.Cross;
      if e.invocation.id !in p.world.invocations {
        p.Refuse();
        return false;
      }
      var stored := p.world.invocations[e.invocation.id];
      if HR.Count(stored, e.manual) < e.target {
        var updated;
        ok, updated := CrossBoundary(stored, e.target, e.manual, verdict);
        if !ok { ResumeEnded(p.View(), stored, e.target, e.manual, verdict, e); return; }
      }
      ok := p.Clear(e);
    }

    // ---------- clarifications

    method FindOrCreateQuestion(onPullRequest: bool, question: Comment) returns (ok: bool, id: nat)
      requires p.progress == Going
      modifies p
      ensures p.View() == CL.FindOrCreate(old(p.View()), onPullRequest, question)
      ensures ok <==> p.progress == Going
      ensures id == CL.Identity(Thread(old(p.world), onPullRequest), question.marker)
    {
      hide FindComment;
      var thread := Thread(p.world, onPullRequest);
      id := FindComment(thread, question.marker);
      ok := true;
      if id > 0 {
        if thread[id - 1].body != question.body {
          ok := p.EditComment(onPullRequest, id, question);
        }
        return;
      }
      ok, id := p.CreateComment(onPullRequest, question);
    }

    method PublishClarification(run: Run, target: nat, onPullRequest: bool, version: nat, body: string)
      returns (ok: bool, updated: Run)
      requires p.progress == Going
      modifies p
      ensures p.View() == CL.Publish(old(p.View()), run, target, onPullRequest, version, body)
      ensures ok <==> p.progress == Going
    {
      hide Clear, CL.FindOrCreate, CL.Identity, Key;
      var e := Clarification(run.id, target, onPullRequest, version, body);
      updated := run;
      ok := p.Reserve(e);
      if !ok { AskEnded(p.View(), e); return; }
      var id;
      ok, id := FindOrCreateQuestion(onPullRequest, Comment(ClarificationMarker(run.id, version), body));
      if !ok { AskEnded(p.View(), e); return; }
      updated := updated.(clarificationComment := id);
      ok := p.SaveRun(updated);
      if !ok { AskEnded(p.View(), e); return; }
      ok := p.Clear(e);
    }

    method ReplayClarification(e: Effect) returns (ok: bool)
      requires e.Clarification? && p.progress == Going
      modifies p
      ensures p.View() == CL.Replay(old(p.View()), e)
      ensures ok <==> p.progress == Going
    {
      hide Clear, CL.FindOrCreate, CL.Identity;
      if p.world.run.None? {
        p.Refuse();
        return false;
      }
      var current := p.world.run.value;
      var id;
      ok, id := FindOrCreateQuestion(e.onPullRequest, CL.Question(e));
      if !ok { AskEnded(p.View(), e); return; }
      current := current.(clarificationComment := id);
      ok := p.SaveRun(current);
      if !ok { AskEnded(p.View(), e); return; }
      ok := p.Clear(e);
    }

    // ---------- pushes and statuses

    method PushOnce(branch: string, sha: nat) returns (ok: bool)
      requires p.progress == Going
      modifies p
      ensures p.View() == CS.PushOnce(env, old(p.View()), branch, sha)
      ensures ok <==> p.progress == Going
    {
      if env.inspectsRemote && sha != 0 && CS.RemoteHead(p.world, branch) == sha {
        return true;
      }
      if sha != 0 && p.world.git.head != sha {
        p.Refuse();
        return false;
      }
      ok := p.Push(branch);
    }

    method PushBranch(run: string, branch: string, sha: nat) returns (ok: bool)
      requires p.progress == Going
      modifies p
      ensures p.View() == CS.PushBranch(env, old(p.View()), run, branch, sha)
      ensures ok <==> p.progress == Going
    {
      hide Clear, Reserve, CS.PushOnce;
      var e := BranchPush(run, branch, sha);
      ok := p.Reserve(e);
      if !ok { EJ.PushEnded(env, p.View(), e, branch, sha); return; }
      ok := PushOnce(branch, sha);
      if !ok { StatusEnded(p.View(), e, NO_STATUS); return; }
      ok := p.Clear(e);
    }

    method CreateCommitStatus(run: string, status: CommitStatus) returns (ok: bool)
      requires p.progress == Going
      modifies p
      ensures p.View() == CS.Publish(env, old(p.View()), run, status)
      ensures ok <==> p.progress == Going
    {
      hide Clear, Key;
      var e := StatusPublication(run, status);
      ok := p.Reserve(e);
      if !ok { StatusEnded(p.View(), e, status); return; }
      var listed := false;
      if env.readsStatuses {
        listed := ListsStatus(p.world.statuses, status);
      }
      if !listed {
        ok := p.CreateStatus(status);
        if !ok { StatusEnded(p.View(), e, status); return; }
      }
      ok := p.Clear(e);
    }

    method ReplayStatus(e: Effect) returns (ok: bool)
      requires e.StatusPublication? && p.progress == Going
      modifies p
      ensures p.View() == CS.Replay(env, old(p.View()), e)
      ensures ok <==> p.progress == Going
    {
      hide Clear, CS.PushOnce;
      if !env.readsStatuses {
        p.Refuse();
        return false;
      }
      if p.world.run.None? {
        p.Refuse();
        return false;
      }
      var run := p.world.run.value;
      if e.status.sha != 0 && e.status.sha == run.content.checkpoint && TrimSpace(run.content.branch) != "" {
        ok := PushOnce(run.content.branch, e.status.sha);
        if !ok { StatusEnded(p.View(), e, e.status); return; }
      }
      var listed := ListsStatus(p.world.statuses, e.status);
      if !listed {
        ok := p.CreateStatus(e.status);
        if !ok { StatusEnded(p.View(), e, e.status); return; }
      }
      ok := p.Clear(e);
    }

    // ---------- dispatch

    /** What a restarted coordinator does with the pending effect. */
    method ReplayPending(verdict: HR.Verdict) returns (ok: bool)
      requires p.progress == Going
      modifies p
      ensures p.View() == EJ.ReplayPending(env, old(p.View()), verdict)
      ensures ok <==> p.progress == Going
    {
      hide ST.Replay, SC.Replay, CP.Replay, PR.Replay, RA.Replay, HR.Replay, CL.Replay, CS.Replay, CS.PushOnce;
      hide PR.Upsert, Clear;
      if p.world.slot.None? {
        return true;
      }
      var e := p.world.slot.value;
      match e {
        case StateTransition(_, _, _, _, _, _, _) => ok := ReplayTransition(e);
        case StatusCommentEdit(_, _, _) => ok := ReplayCommand(e);
        case Checkpoint(_, _, _, _) => ok := ReplayCheckpoint(e);
        case PullRequestUpsert(_, _, _, _, _) => ok := ReplayPullRequest(e);
        case PullRequestUpdate(_, expected, request) =>
          var number;
          ok, number := UpsertPullRequest(expected, request);
          if !ok { StatusEnded(p.View(), e, NO_STATUS); return; }
          ok := p.Clear(e);
        case Acceptance(_, _, _, _, _, _, _) =>
          var run;
          ok, run := ReplayAcceptance(e);
        case Resume(_, _, _, _) => ok := ReplayResume(e, verdict);
        case Clarification(_, _, _, _, _) => ok := ReplayClarification(e);
        case StatusPublication(_, _) => ok := ReplayStatus(e);
        case BranchPush(_, branch, sha) =>
          ok := PushOnce(branch, sha);
          if !ok { StatusEnded(p.View(), e, NO_STATUS); return; }
          ok := p.Clear(e);
      }
    }

    // ---------- a review and what follows it

    /** The acceptor publishes the review status and saves the run it was returned at
        the next revision. */
    method ContinueReview(run: Run, policy: AR.Policy) returns (ok: bool)
      requires p.progress == Going
      modifies p
      ensures p.View() == AR.Continue(env, old(p.View()), run, policy)
      ensures ok <==> p.progress == Going
    {
      hide CS.Publish, ST.Apply;
      var t := AR.Advance(run, policy);
      ok := CreateCommitStatus(run.id, policy.status(run.content));
      if !ok { AR.Ended(env, p.View(), t); return; }
      var next;
      ok, next := ApplyTransition(t);
    }

    method AcceptReview(a: RA.Request, policy: AR.Policy) returns (ok: bool)
      requires p.progress == Going
      modifies p
      ensures p.View() == AR.AcceptAndContinue(env, old(p.View()), a, policy)
      ensures ok <==> p.progress == Going
    {
      hide RA.Accept, AR.Continue, AR.AcceptedRun;
      var run;
      ok, run := AcceptReport(a);
      if ok {
        ok := ContinueReview(run, policy);
      }
    }

    /** A restarted coordinator goes on with an accepted review. */
    method RecoverReview(policy: AR.Policy) returns (ok: bool)
      requires p.progress == Going
      modifies p
      ensures p.View() == AR.Recover(env, old(p.View()), policy)
      ensures ok <==> p.progress == Going
    {
      hide RA.Replay, AR.Continue, RA.Returned, EJ.ReplayPending;
      if p.world.slot.Some? && p.world.slot.value.Acceptance? {
        var run;
        ok, run := ReplayAcceptance(p.world.slot.value);
        if ok {
          ok := ContinueReview(run, policy);
        }
        return;
      }
      ok := ReplayPending(HR.Waiting);
    }

    // ---------- a whole operation with its recoveries

    method Perform(op: EJ.Operation) returns (ok: bool)
      requires p.progress == Going
      modifies p
      ensures p.View() == EJ.Perform(env, old(p.View()), op)
      ensures ok <==> p.progress == Going
    {
      hide ST.Apply, SC.Persist, CP.Commit, PR.UpsertAndPersist, PR.Update, RA.Accept, HR.ResumeNative, CL.Publish;
      hide CS.Publish, CS.PushBranch;
      match op {
        case Transit(t) => var next; ok, next := ApplyTransition(t);
        case ProjectCommand(previous, next) => ok := PersistCommand(previous, next);
        case MakeCheckpoint(commit, previous, next) => var run; ok, run := CommitCheckpoint(commit, previous, next);
        case OpenPullRequest(previous, next, request, expected) =>
          var run;
          ok, run := UpsertAndPersist(previous, next, request, expected);
        case UpdatePullRequest(run, expected, request) => ok := UpdatePullRequest(run, expected, request);
        case AcceptReport(a) => var run; ok, run := AcceptReport(a);
        case ResumeSession(run, copy, manual, verdict) =>
          var updated;
          ok, updated := ResumeNative(run, copy, manual, verdict);
        case Ask(asker, target, onPullRequest, version, body) =>
          var updated;
          ok, updated := PublishClarification(asker, target, onPullRequest, version, body);
        case PublishStatus(run, status) => ok := CreateCommitStatus(run, status);
        case PushHead(run, branch, sha) => ok := PushBranch(run, branch, sha);
      }
    }

    /** Performs an operation in a process that ends after `first` writes, then
        restarts in processes that end after the given numbers of writes, and at last
        in one that does not: whatever the numbers, the operation has achieved what it
        achieves uninterrupted, in the same world. */
    method PerformAndRecover(op: EJ.Operation, first: nat, cuts: seq<nat>)
      requires EJ.Startable(env, p.world, op) && first > 0
      modifies p
      ensures p.View() == EJ.Recover(env, EJ.Perform(env, EffectWorld.Restart(old(p.View()), Cut(first)), op), cuts)
      ensures p.world == EJ.Perform(env, EffectWorld.Restart(old(p.View()), Unbounded), op).world
      ensures p.world.slot.None? && ER.Achieved(env, old(p.world), p.world, op)
    {
      hide EJ.Perform, EJ.ReplayPending, EJ.Startable, ER.Achieved;
      ghost var start := p.View();
      EJ.CrashConvergence(env, start, op, first, cuts);
      ER.CrashedOperationAchieves(env, start, op, first, cuts);
      p.Restart(Cut(first));
      var ok := Perform(op);
      for i := 0 to |cuts|
        invariant EJ.Recover(env, p.View(), cuts[i..])
                  == EJ.Recover(env, EJ.Perform(env, EffectWorld.Restart(start, Cut(first)), op), cuts)
      {
        assert cuts[i..][1..] == cuts[i + 1..];
        p.Restart(Cut(cuts[i]));
        ok := ReplayPending(HR.Waiting);
      }
      assert cuts[|cuts|..] == [];
      p.Restart(Unbounded);
      ok := ReplayPending(HR.Waiting);
    }
  }

  const NO_STATUS: CommitStatus := CommitStatus(0, "", "", "", "")

  // ---------- nothing happens once the process has ended

  lemma EndedIdle(env: Adapters, p: Proc, e: Effect, scope: Scope, expected: int, saved: Run)
    requires p.progress != Going
    ensures Clear(p, e) == Persist(env, p, scope, expected, saved) == p
  {
    hide Key, Supersede;
  }

  lemma EndedFront(env: Adapters, p: Proc, e: Effect, next: Run)
    requires p.progress != Going
    ensures IP.ApplyStateTransition(env, p, next, false) == Clear(p, e) == p
    ensures forall n :: SaveRun(p, n) == p
  {
    hide Key;
    IP.ProjectionIdle(env, p, next, false);
  }

  lemma CheckpointEnded(p: Proc, c: CheckpointRequest)
    requires p.progress != Going
    ensures CP.CreateCheckpoint(p, c) == p
  {}

  lemma AcceptEnded(env: Adapters, p: Proc, a: RA.Request)
    requires p.progress != Going
    ensures EffectWorld.Refuse(p) == SaveInvocation(p, a.invocation) == FinishSession(p, a.invocation.id) == p
    ensures forall w :: StopWorker(p, w) == p
    ensures forall u :: SaveUnitResult(p, u) == p
    ensures IP.ApplyStateTransition(env, p, a.next, false) == Clear(p, RA.EffectOf(a)) == p
    ensures forall n :: SaveRun(p, n) == p
  {
    hide Key;
    IP.ProjectionIdle(env, p, a.next, false);
  }

  lemma FrontEnded(env: Adapters, p: Proc, before: Option<Run>, e: Effect)
    requires e.Acceptance? && p.progress != Going
    ensures FinishSession(p, e.invocation.id) == p
    ensures forall w :: StopWorker(p, w) == p
    ensures forall u :: SaveUnitResult(p, u) == p
    ensures Conclude(env, p, before, e, Adopted(before, e.next), false, RetainResults, e.previous.revision) == p
  {
    hide Conclude;
    ConclusionIdle(env, p, before, e, Adopted(before, e.next), false, RetainResults, e.previous.revision);
  }

  /** The front of an acceptance leaves the comments alone. */
  lemma FrontComments(p: Proc, q: Proc, e: Effect)
    requires e.Acceptance? && q == RA.Front(p, e)
    ensures forall n :: IP.Identified(q.world, n, false) == IP.Identified(p.world, n, false)
  {
    hide IP.StatusIdentity;
    forall n ensures IP.Identified(q.world, n, false) == IP.Identified(p.world, n, false) {
      IP.SameIdentified(p.world, q.world, n, false);
    }
  }

  lemma ReleaseComments(p: Proc, q: Proc, a: RA.Request)
    requires var d := RA.DeliverAlways(Reserve(p, RA.EffectOf(a)), a.invocation);
             q == RA.SaveUnitIfAny(RA.StopIfAsked(d, a.stopWorker, a.worker, a.previous.id), a.unitResult)
    ensures IP.Identified(q.world, a.next, false) == IP.Identified(p.world, a.next, false)
  {
    hide IP.StatusIdentity, Key;
    IP.SameIdentified(p.world, q.world, a.next, false);
  }

  lemma ReserveKeepsWorktree(p: Proc, e: Effect)
    ensures Reserve(p, e).world.git == p.world.git && Reserve(p, e).world.pullRequests == p.world.pullRequests
  {
    hide Key;
  }

  lemma ResumeEnded(p: Proc, invocation: Invocation, target: nat, manual: bool, verdict: HR.Verdict, e: Effect)
    requires p.progress != Going
    ensures HR.Cross(p, invocation, target, manual, verdict) == Clear(p, e) == p
  {
    hide Key;
  }

  lemma AskEnded(p: Proc, e: Effect)
    requires e.Clarification? && p.progress != Going
    ensures CL.FindOrCreate(p, e.onPullRequest, CL.Question(e)) == Clear(p, e) == p
    ensures forall n :: SaveRun(p, n) == p
  {
    hide FindComment, Key;
  }

  lemma StatusEnded(p: Proc, e: Effect, status: CommitStatus)
    requires p.progress != Going
    ensures CS.CreateUnlessListed(p, status) == CreateStatus(p, status) == Clear(p, e) == p
  {
    hide Key;
  }
}
