/** A running coordinator process: the seams through which the handlers write,
    each one atomic and each one able to be the last. */
module Processes {
  import opened Options
  import opened EffectWorld
  import opened Labels

  class Process {
    var world: World
    var tally: Tally
    var budget: Budget
    var progress: Progress

    constructor (p: Proc)
      ensures View() == p
    {
      world, tally, budget, progress := p.world, p.tally, p.budget, p.progress;
    }

    function View(): Proc
      reads this
    {
      Proc(world, tally, budget, progress)
    }

    /** Spends one mutation, or ends the process. */
    method Spend() returns (ok: bool)
      modifies this
      ensures world == old(world) && tally == old(tally)
      ensures ok ==> View() == Act(old(View()), world, tally)
      ensures !ok ==> forall w, t :: Act(old(View()), w, t) == View()
      ensures ok <==> progress == Going
    {
      if progress != Going {
        return false;
      }
      match budget {
        case Unbounded =>
          return true;
        case Cut(n) =>
          if n == 0 {
            progress := Stopped;
            return false;
          }
          budget := Cut(n - 1);
          return true;
      }
    }

    /** The next process takes over what this one left. */
    method Restart(b: Budget)
      modifies this
      ensures View() == EffectWorld.Restart(old(View()), b)
    {
      budget, progress := b, Going;
    }

    method Refuse()
      modifies this
      ensures View() == EffectWorld.Refuse(old(View()))
    {
      if progress == Going {
        progress := Refused;
      }
    }

    // ---------- the journal

    method Reserve(e: Effect) returns (ok: bool)
      modifies this
      ensures View() == EffectWorld.Reserve(old(View()), e)
      ensures ok <==> progress == Going
    {
      if world.slot.Some? && Key(world.slot.value) != Key(e) {
        Refuse();
        return false;
      }
      ok := Spend();
      if ok {
        world := world.(slot := Some(e));
      }
    }

    method Clear(e: Effect) returns (ok: bool)
      modifies this
      ensures View() == EffectWorld.Clear(old(View()), e)
      ensures ok <==> progress == Going
    {
      if world.slot.None? {
        return progress == Going;
      }
      if Key(world.slot.value) != Key(e) {
        Refuse();
        return false;
      }
      ok := Spend();
      if ok {
        world := world.(slot := None);
      }
    }

    // ---------- the run store

    method SaveRun(next: Run) returns (ok: bool)
      modifies this
      ensures View() == EffectWorld.SaveRun(old(View()), next)
      ensures ok <==> progress == Going
    {
      ok := Spend();
      if ok {
        world := world.(run := Some(next));
      }
    }

    method SaveRunAt(expected: int, next: Run) returns (ok: bool)
      modifies this
      ensures View() == EffectWorld.SaveRunAt(old(View()), expected, next)
      ensures ok <==> progress == Going
    {
      if !AtRevision(world, expected, next) {
        Refuse();
        return false;
      }
      ok := SaveRun(next);
    }

    method SaveRunDiscarding(expected: int, next: Run, all: bool) returns (ok: bool)
      modifies this
      ensures View() == EffectWorld.SaveRunDiscarding(old(View()), expected, next, all)
      ensures ok <==> progress == Going
    {
      if !AtRevision(world, expected, next) {
        Refuse();
        return false;
      }
      ok := Spend();
      if ok {
        world := Discarded(world, all).(run := Some(next));
      }
    }

    method DiscardResults(all: bool) returns (ok: bool)
      modifies this
      ensures View() == EffectWorld.DiscardResults(old(View()), all)
      ensures ok <==> progress == Going
    {
      ok := Spend();
      if ok {
        world := Discarded(world, all);
      }
    }

    method SaveInvocation(invocation: Invocation) returns (ok: bool)
      modifies this
      ensures View() == EffectWorld.SaveInvocation(old(View()), invocation)
      ensures ok <==> progress == Going
    {
      ok := Spend();
      if ok {
        world := world.(invocations := world.invocations[invocation.id := invocation]);
      }
    }

    method SaveUnitResult(result: string) returns (ok: bool)
      modifies this
      ensures View() == EffectWorld.SaveUnitResult(old(View()), result)
      ensures ok <==> progress == Going
    {
      ok := Spend();
      if ok {
        world := world.(unitResults := world.unitResults + {result});
      }
    }

    // ---------- workers, sessions and the worktree

    method StopActiveWorkers() returns (ok: bool)
      modifies this
      ensures View() == EffectWorld.StopActiveWorkers(old(View()))
      ensures ok <==> progress == Going
    {
      ok := Spend();
      if ok {
        world := world.(workers := {});
      }
    }

    method StopWorker(id: string) returns (ok: bool)
      modifies this
      ensures View() == EffectWorld.StopWorker(old(View()), id)
      ensures ok <==> progress == Going
    {
      ok := Spend();
      if ok {
        world := world.(workers := world.workers - {id});
      }
    }

    method StartSession(launch: Launch) returns (ok: bool)
      modifies this
      ensures View() == EffectWorld.StartSession(old(View()), launch)
      ensures ok <==> progress == Going
    {
      ok := Spend();
      if ok {
        tally := tally.(launches := tally.launches + multiset{launch},
                        sessions := tally.sessions + multiset{(launch.invocation, launch.manual)});
      }
    }

    method FinishSession(invocation: string) returns (ok: bool)
      modifies this
      ensures View() == EffectWorld.FinishSession(old(View()), invocation)
      ensures ok <==> progress == Going
    {
      ok := Spend();
      if ok {
        tally := tally.(finishes := tally.finishes + multiset{invocation});
      }
    }

    method CommitWorktree(git: Git) returns (ok: bool)
      modifies this
      ensures View() == Mutate(old(View()), old(world).(git := git))
      ensures ok <==> progress == Going
    {
      ok := Spend();
      if ok {
        world := world.(git := git);
      }
    }

    // ---------- the tracker and the code host

    method SetLabels(labels: seq<string>) returns (ok: bool)
      modifies this
      ensures View() == EffectWorld.SetLabels(old(View()), labels)
      ensures ok <==> progress == Going
    {
      ok := Spend();
      if ok {
        world, tally := world.(labels := labels), Counted(tally);
      }
    }

    method EditComment(onPullRequest: bool, id: nat, comment: Comment) returns (ok: bool)
      modifies this
      ensures View() == EffectWorld.EditComment(old(View()), onPullRequest, id, comment)
      ensures ok <==> progress == Going
    {
      var thread := Thread(world, onPullRequest);
      if id == 0 || id > |thread| {
        Refuse();
        return false;
      }
      ok := Spend();
      if ok {
        world, tally := WithThread(world, onPullRequest, thread[id - 1 := comment]), Counted(tally);
      }
    }

    /** The new comment's identity is the length of the thread. */
    method CreateComment(onPullRequest: bool, comment: Comment) returns (ok: bool, id: nat)
      modifies this
      ensures View() == EffectWorld.CreateComment(old(View()), onPullRequest, comment)
      ensures ok <==> progress == Going
      ensures id == |Thread(old(world), onPullRequest)| + 1
    {
      var thread := Thread(world, onPullRequest);
      id := |thread| + 1;
      ok := Spend();
      if ok {
        world := WithThread(world, onPullRequest, thread + [comment]);
        tally := Counted(tally).(posted := tally.posted + multiset{(onPullRequest, comment.marker)});
      }
    }

    method OpenPullRequest(request: PullRequest) returns (ok: bool, number: nat)
      modifies this
      ensures View() == EffectWorld.OpenPullRequest(old(View()), request)
      ensures ok <==> progress == Going
      ensures number == |old(world).pullRequests| + 1
    {
      number := |world.pullRequests| + 1;
      ok := Spend();
      if ok {
        world := world.(pullRequests := world.pullRequests + [request]);
        tally := Counted(tally).(pairs := tally.pairs + multiset{(request.head, request.base)});
      }
    }

    method RewritePullRequest(number: nat, request: PullRequest) returns (ok: bool)
      requires 0 < number <= |world.pullRequests|
      modifies this
      ensures View() == EffectWorld.RewritePullRequest(old(View()), number, request)
      ensures ok <==> progress == Going
    {
      ok := Spend();
      if ok {
        world, tally := world.(pullRequests := world.pullRequests[number - 1 := request]), Counted(tally);
      }
    }

    method Push(branch: string) returns (ok: bool)
      modifies this
      ensures View() == EffectWorld.Push(old(View()), branch)
      ensures ok <==> progress == Going
    {
      ok := Spend();
      if ok {
        world, tally := world.(remote := world.remote[branch := world.git.head]), Counted(tally);
      }
    }

    method CreateStatus(status: CommitStatus) returns (ok: bool)
      modifies this
      ensures View() == EffectWorld.CreateStatus(old(View()), status)
      ensures ok <==> progress == Going
    {
      ok := Spend();
      if ok {
        world, tally := world.(statuses := world.statuses + [status]), Counted(tally);
      }
    }
  }
}
