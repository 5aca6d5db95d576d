/** The branch-scoped pull request and the run revision that records it
    (internal/effect/pull_request.go). */
module PullRequests {
  import opened Options
  import opened EffectWorld
  import opened Labels
  import opened IssueProjection
  import opened RunProjection

  /** Finds by branch pair, refuses another number than the expected one,
      suppresses an identical update, and creates only what is missing and not
      expected. */
  function Upsert(p: Proc, expected: nat, request: PullRequest): Proc {
    var found := FindPullRequest(p.world.pullRequests, request.head, request.base);
    if found > 0 then
      if expected > 0 && found != expected then Refuse(p)
      else if p.world.pullRequests[found - 1] == request then p
      else RewritePullRequest(p, found, request)
    else if expected > 0 then Refuse(p)
    else OpenPullRequest(p, request)
  }

  /** The number a successful upsert reports. */
  function UpsertedNumber(prs: seq<PullRequest>, request: PullRequest): nat {
    var found := FindPullRequest(prs, request.head, request.base);
    if found > 0 then found else |prs| + 1
  }

  function Recorded(env: Adapters, next: Run, number: nat): Run {
    next.(content := next.content.(pullRequest := number, pullRequestURL := env.url(number)))
  }

  function UpsertAndPersist(env: Adapters, p: Proc, previous: Run, next: Run, request: PullRequest,
                            expected: nat): Proc
  {
    var e := PullRequestUpsert(next.id, expected, request, previous, next);
    var r := Reserve(p, e);
    var recorded := Recorded(env, next, UpsertedNumber(r.world.pullRequests, request));
    var u := Upsert(r, expected, request);
    Clear(SaveRun(ApplyStateTransition(env, u, recorded, false), Identified(u.world, recorded, false)), e)
  }

  function Replay(env: Adapters, p: Proc, e: Effect): Proc
    requires e.PullRequestUpsert?
  {
    if !Admits(p.world.run, e.run, e.previous, e.next) then Refuse(p)
    else
      var next := Recorded(env, e.next, UpsertedNumber(p.world.pullRequests, e.request));
      Conclude(env, Upsert(p, e.number, e.request), p.world.run, e, next, false, RetainResults, e.previous.revision)
  }

  /** The body update that no run revision accompanies. */
  function Update(p: Proc, run: string, number: nat, request: PullRequest): Proc {
    var e := PullRequestUpdate(run, number, request);
    Clear(Upsert(Reserve(p, e), number, request), e)
  }

  function ReplayUpdate(p: Proc, e: Effect): Proc
    requires e.PullRequestUpdate?
  {
    Clear(Upsert(p, e.number, e.request), e)
  }

  // ---------- laws of the upsert

  predicate Upsertable(prs: seq<PullRequest>, expected: nat, request: PullRequest) {
    expected > 0 ==> FindPullRequest(prs, request.head, request.base) == expected
  }

  function Upserted(prs: seq<PullRequest>, request: PullRequest): seq<PullRequest> {
    var found := FindPullRequest(prs, request.head, request.base);
    if found > 0 then prs[found - 1 := request] else prs + [request]
  }

  lemma PullRequestFoundAt(prs: seq<PullRequest>, head: string, base: string, number: nat)
    requires 0 < number <= |prs| && prs[number - 1].head == head && prs[number - 1].base == base
    requires forall i :: 0 <= i < number - 1 ==> !(prs[i].head == head && prs[i].base == base)
    ensures FindPullRequest(prs, head, base) == number
  {
    var f := FindPullRequest(prs, head, base);
  }

  /** An upsert leaves the request under one number, that number is found again,
      and a second upsert has nothing left to do. */
  lemma UpsertSettles(prs: seq<PullRequest>, expected: nat, request: PullRequest)
    requires Upsertable(prs, expected, request)
    ensures var after, number := Upserted(prs, request), UpsertedNumber(prs, request);
            && 0 < number <= |after| && after[number - 1] == request
            && UpsertedNumber(after, request) == number
            && FindPullRequest(after, request.head, request.base) == number
            && Upserted(after, request) == after
            && Upsertable(after, expected, request)
  {
    var after, number := Upserted(prs, request), UpsertedNumber(prs, request);
    forall i | 0 <= i < number - 1 ensures !(after[i].head == request.head && after[i].base == request.base) {
      assert after[i] == prs[i];
    }
    PullRequestFoundAt(after, request.head, request.base, number);
  }

  /** An update attaches to the expected pull request of the branch pair or to none. */
  lemma AttachesOnlyToExpected(p: Proc, expected: nat, request: PullRequest)
    requires expected > 0
    ensures var was, now := p.world.pullRequests, Upsert(p, expected, request).world.pullRequests;
            now == was
            || (FindPullRequest(was, request.head, request.base) == expected && now == was[expected - 1 := request])
  {
    hide FindPullRequest;
  }

  lemma UpsertLands(p: Proc, expected: nat, request: PullRequest)
    requires p.progress == Going && Upsertable(p.world.pullRequests, expected, request)
    ensures Lands(p, Upsert(p, expected, request), p.world.(pullRequests := Upserted(p.world.pullRequests, request)))
  {}

  // ---------- where a replay ends

  predicate Replayable(w: World, e: Effect)
    requires e.PullRequestUpsert?
  {
    && w.slot == Some(e)
    && e.next.id == e.run
    && Admits(w.run, e.run, e.previous, e.next)
    && Upsertable(w.pullRequests, e.number, e.request)
    && Recoverable(w.comments, e.next, false)
  }

  lemma Reaches(env: Adapters, p: Proc, b: Budget, e: Effect)
    requires e.PullRequestUpsert? && Replayable(p.world, e)
    ensures var q := Replay(env, Restart(p, b), e);
            var w := p.world.(pullRequests := Upserted(p.world.pullRequests, e.request));
            var n := Recorded(env, e.next, UpsertedNumber(p.world.pullRequests, e.request));
            var labelled, commented := Labelled(w, n), Commented(env, Labelled(w, n), n, false);
            && (q.progress == Going ==> q.world == Concluded(env, w, w.run, n, false, RetainResults))
            && (q.progress != Going ==>
                q.world in {p.world, w, labelled, commented,
                            Saved(commented, w.run, Identified(w, n, false), RetainResults)})
            && (b == Unbounded ==> q.progress == Going)
  {
    hide FindComment, FindPullRequest, Upsert, UpsertedNumber, Upserted, StateLabels, Decide, StatusIdentity;
    hide Projected, Upsertable;
    var n := Recorded(env, e.next, UpsertedNumber(p.world.pullRequests, e.request));
    var u := Upsert(Restart(p, b), e.number, e.request);
    UpsertLands(Restart(p, b), e.number, e.request);
    if u.progress == Going {
      SameIdentity(p.world.comments, e.next, n);
      ConclusionLands(env, u, p.world.run, e, n, false, RetainResults, e.previous.revision);
    } else {
      ConclusionIdle(env, u, p.world.run, e, n, false, RetainResults, e.previous.revision);
    }
  }

  lemma ReplayResumes(env: Adapters, p: Proc, b: Budget, e: Effect)
    requires e.PullRequestUpsert? && Replayable(p.world, e)
    ensures var full, q := Replay(env, Restart(p, Unbounded), e), Replay(env, Restart(p, b), e);
            && Resumes(full, q, Replay(env, Restart(q, Unbounded), e), e)
            && (q.progress != Going ==> Replayable(q.world, e))
  {
    hide Replay, FindComment, FindPullRequest, UpsertedNumber, Upserted, StateLabels, Decide, StatusIdentity;
    hide Projected, Upsertable;
    var prs := p.world.pullRequests;
    var w := p.world.(pullRequests := Upserted(prs, e.request));
    var n := Recorded(env, e.next, UpsertedNumber(prs, e.request));
    Reaches(env, p, Unbounded, e);
    Reaches(env, p, b, e);
    UpsertSettles(prs, e.number, e.request);
    SameIdentity(p.world.comments, e.next, n);
    var q := Replay(env, Restart(p, b), e);
    if q.progress != Going {
      if q.world != p.world {
        ConclusionResumes(env, w, q.world, e, n, false, false, RetainResults, e.previous.revision);
        SameIdentity(q.world.comments, e.next, n);
      }
      Reaches(env, q, Unbounded, e);
    }
  }

  lemma UpdateResumes(p: Proc, b: Budget, e: Effect)
    requires e.PullRequestUpdate? && p.world.slot == Some(e) && Upsertable(p.world.pullRequests, e.number, e.request)
    ensures var full, q := ReplayUpdate(Restart(p, Unbounded), e), ReplayUpdate(Restart(p, b), e);
            && Resumes(full, q, ReplayUpdate(Restart(q, Unbounded), e), e)
            && (q.progress != Going ==> Upsertable(q.world.pullRequests, e.number, e.request))
  {
    hide FindPullRequest, UpsertedNumber, Upserted, Upsertable, Upsert;
    UpsertSettles(p.world.pullRequests, e.number, e.request);
    UpsertLands(Restart(p, b), e.number, e.request);
    UpsertLands(Restart(p, Unbounded), e.number, e.request);
    var q := ReplayUpdate(Restart(p, b), e);
    var u := Upsert(Restart(p, b), e.number, e.request);
    UpsertLands(Restart(q, Unbounded), e.number, e.request);
  }

  /** Upserting is replaying its reservation. */
  lemma UpsertIsReplay(env: Adapters, p: Proc, previous: Run, next: Run, request: PullRequest, expected: nat)
    requires p.progress == Going
    requires p.world.run.Some? ==> p.world.run.value.id == next.id && p.world.run.value.revision == previous.revision
    requires previous.revision < next.revision
    ensures var e := PullRequestUpsert(next.id, expected, request, previous, next);
            var r := Reserve(p, e);
            UpsertAndPersist(env, p, previous, next, request, expected)
              == if r.progress == Going then Replay(env, r, e) else r
  {
    hide FindComment, FindPullRequest, StateLabels, Decide, StatusIdentity, Key;
    var e := PullRequestUpsert(next.id, expected, request, previous, next);
    var r := Reserve(p, e);
    var recorded := Recorded(env, next, UpsertedNumber(r.world.pullRequests, request));
    if r.progress != Going {
      Idle(env, r, recorded, false, e, RetainResults, previous.revision, Identified(r.world, recorded, false));
    }
  }
}
