/** Safety over every history of the journal: any operations and restarts, each
    cut anywhere, in any order, with reservations abandoned at will. */
module EffectHistory {
  import opened Options
  import opened EffectWorld
  import opened IssueProjection
  import opened RunProjection
  import opened EffectJournal

  // ---------- the invariant

  /** The recorded status comment exists and is the run's own. */
  predicate Tagged(thread: seq<Comment>, run: Run) {
    run.statusComment > 0 ==>
      run.statusComment <= |thread| && thread[run.statusComment - 1].marker == StatusMarker(run.id)
  }

  predicate TaggedEffect(thread: seq<Comment>, e: Effect) {
    match e
    case StateTransition(_, _, next, _, _, _, _) => Tagged(thread, next)
    case StatusCommentEdit(_, _, next) => Tagged(thread, next)
    case Checkpoint(_, _, _, next) => Tagged(thread, next)
    case PullRequestUpsert(_, _, _, _, next) => Tagged(thread, next)
    case Acceptance(run, _, _, _, next, _, _) => Tagged(thread, next) && run == next.id
    case _ => true
  }

  /** A marker was posted at most once, and then it is still there. */
  ghost predicate OncePosted(w: World, t: Tally) {
    forall side, m :: t.posted[(side, m)] > 0 ==> t.posted[(side, m)] == 1 && FindComment(Thread(w, side), m) > 0
  }

  /** A branch pair got a pull request at most once, and then it is still there. */
  ghost predicate OncePaired(w: World, t: Tally) {
    forall head, base :: t.pairs[(head, base)] > 0 ==>
      t.pairs[(head, base)] == 1 && FindPullRequest(w.pullRequests, head, base) > 0
  }

  /** What a pending native resume or acceptance says about session counts. */
  ghost predicate SlotCounts(w: World, t: Tally) {
    && HR.NextReservation(w)
    && (w.slot.Some? && w.slot.value.Acceptance? ==> HR.Covers(t, w.slot.value.invocation))
  }

  ghost predicate Posts(w: World, t: Tally) {
    && OncePosted(w, t) && OncePaired(w, t) && CS.Distinct(w.statuses)
    && (w.run.Some? ==> Tagged(w.comments, w.run.value))
    && (w.slot.Some? ==> TaggedEffect(w.comments, w.slot.value))
  }

  ghost predicate Inv(p: Proc) {
    && HR.Accounted(p.world, p.tally)
    && SlotCounts(p.world, p.tally)
    && Posts(p.world, p.tally)
  }

  // ---------- threads only grow and keep their markers

  predicate MarkersKept(a: seq<Comment>, b: seq<Comment>) {
    |a| <= |b| && forall i :: 0 <= i < |a| ==> b[i].marker == a[i].marker
  }

  lemma KeptFound(a: seq<Comment>, b: seq<Comment>, m: Marker)
    requires MarkersKept(a, b) && FindComment(a, m) > 0
    ensures FindComment(b, m) > 0
  {
    var f := FindComment(a, m);
    assert b[f - 1].marker == m;
  }

  lemma ThreadFound(w: World, v: World, side: bool, s: bool, n: Marker)
    requires v == WithThread(w, side, Thread(v, side)) && MarkersKept(Thread(w, side), Thread(v, side))
    requires FindComment(Thread(w, s), n) > 0
    ensures FindComment(Thread(v, s), n) > 0
  {
    hide FindComment, MarkersKept;
    if s == side {
      KeptFound(Thread(w, s), Thread(v, s), n);
    } else {
      assert Thread(v, s) == Thread(w, s);
    }
  }

  lemma PostedKept(w: World, t: Tally, v: World, u: Tally, side: bool, m: Marker)
    requires OncePosted(w, t)
    requires v == WithThread(w, side, Thread(v, side)) && MarkersKept(Thread(w, side), Thread(v, side))
    requires u.posted == t.posted
             || (u.posted == t.posted + multiset{(side, m)} && FindComment(Thread(w, side), m) == 0
                 && FindComment(Thread(v, side), m) > 0)
    ensures OncePosted(v, u)
  {
    hide FindComment, Thread, WithThread, MarkersKept;
    forall s, n | u.posted[(s, n)] > 0
      ensures u.posted[(s, n)] == 1 && FindComment(Thread(v, s), n) > 0
    {
      if (s, n) != (side, m) || u.posted == t.posted {
        assert u.posted[(s, n)] == t.posted[(s, n)];
        ThreadFound(w, v, side, s, n);
      }
    }
  }

  lemma TaggedKept(a: seq<Comment>, b: seq<Comment>, run: Run)
    requires MarkersKept(a, b) && Tagged(a, run)
    ensures Tagged(b, run)
  {
  }

  lemma TaggedEffectKept(a: seq<Comment>, b: seq<Comment>, e: Effect)
    requires MarkersKept(a, b) && TaggedEffect(a, e)
    ensures TaggedEffect(b, e)
  {
    hide MarkersKept, Tagged;
    if e.StateTransition? || e.StatusCommentEdit? || e.Checkpoint? || e.PullRequestUpsert? || e.Acceptance? {
      TaggedKept(a, b, e.next);
    }
  }

  /** One post or edit of a comment keeps the invariant of the threads. */
  lemma ThreadKeeps(w: World, t: Tally, v: World, u: Tally, side: bool, m: Marker)
    requires Posts(w, t)
    requires v == WithThread(w, side, Thread(v, side)) && MarkersKept(Thread(w, side), Thread(v, side))
    requires u == t.(writes := u.writes, posted := u.posted)
    requires u.posted == t.posted
             || (u.posted == t.posted + multiset{(side, m)} && FindComment(Thread(w, side), m) == 0
                 && FindComment(Thread(v, side), m) > 0)
    ensures Posts(v, u)
  {
    hide OncePosted, CS.Distinct, MarkersKept, Tagged, TaggedEffect, FindPullRequest, FindComment;
    PostedKept(w, t, v, u, side, m);
    CommentsKept(w, v, side);
    if w.run.Some? {
      TaggedKept(w.comments, v.comments, w.run.value);
    }
    if w.slot.Some? {
      TaggedEffectKept(w.comments, v.comments, w.slot.value);
    }
  }

  lemma CommentsKept(w: World, v: World, side: bool)
    requires v == WithThread(w, side, Thread(v, side)) && MarkersKept(Thread(w, side), Thread(v, side))
    ensures MarkersKept(w.comments, v.comments)
  {
  }

  lemma EditFacts(p: Proc, side: bool, id: nat, comment: Comment)
    requires 0 < id <= |Thread(p.world, side)| ==> Thread(p.world, side)[id - 1].marker == comment.marker
    ensures var q := EditComment(p, side, id, comment);
            && q.world == WithThread(p.world, side, Thread(q.world, side))
            && MarkersKept(Thread(p.world, side), Thread(q.world, side))
            && q.tally == p.tally.(writes := q.tally.writes)
            && (q.progress == Going ==>
                && p.progress == Going && 0 < id <= |Thread(q.world, side)|
                && Thread(q.world, side)[id - 1] == comment)
  {}

  lemma PostFacts(p: Proc, side: bool, comment: Comment)
    requires FindComment(Thread(p.world, side), comment.marker) == 0
    ensures var q := CreateComment(p, side, comment);
            && q.world == WithThread(p.world, side, Thread(q.world, side))
            && MarkersKept(Thread(p.world, side), Thread(q.world, side))
            && q.tally == p.tally.(writes := q.tally.writes, posted := q.tally.posted)
            && (q.tally.posted == p.tally.posted
                || (q.tally.posted == p.tally.posted + multiset{(side, comment.marker)}
                    && FindComment(Thread(q.world, side), comment.marker) > 0))
            && (q.progress == Going ==> p.progress == Going && |Thread(q.world, side)| == |Thread(p.world, side)| + 1
                                        && Thread(q.world, side)[|Thread(p.world, side)|] == comment)
  {
    hide FindComment;
    FoundAfterPost(Thread(p.world, side), comment);
    if side {
    } else {
    }
  }

  lemma CommentKeeps(env: Adapters, p: Proc, next: Run, create: bool)
    requires Posts(p.world, p.tally) && Tagged(p.world.comments, next)
    ensures var q := ProjectComment(env, p, next, create);
            && Posts(q.world, q.tally)
            && q.world == p.world.(comments := q.world.comments)
            && q.tally == p.tally.(writes := q.tally.writes, posted := q.tally.posted)
            && (q.progress == Going ==> Tagged(q.world.comments, Identified(p.world, next, create)))
  {
    hide Posts, FindComment, EditComment, CreateComment;
    var q, comment := ProjectComment(env, p, next, create), StatusComment(env, next);
    match Decide(p.world.comments, next, create, comment.body)
    case Keep => Observed(p.world.comments, next, create, comment.body);
    case Edit(id) =>
      Observed(p.world.comments, next, create, comment.body);
      EditFacts(p, false, id, comment);
      ThreadKeeps(p.world, p.tally, q.world, q.tally, false, comment.marker);
    case Post =>
      PostFacts(p, false, comment);
      ThreadKeeps(p.world, p.tally, q.world, q.tally, false, comment.marker);
    case Unrecoverable =>
  }

  /** What is kept or edited is the run's own comment. */
  lemma Observed(thread: seq<Comment>, next: Run, create: bool, body: string)
    requires Tagged(thread, next) && Decide(thread, next, create, body) != Post
    ensures var id := StatusIdentity(thread, next, create);
            && (Decide(thread, next, create, body).Edit? ==> Decide(thread, next, create, body).id == id)
            && (Decide(thread, next, create, body) == Unrecoverable || 0 < id <= |thread|)
            && (0 < id <= |thread| ==> thread[id - 1].marker == StatusMarker(next.id))
  {}

  // ---------- each mutation keeps the invariant

  /** A mutation of anything but threads, pull requests, statuses and
      invocations. */
  lemma PlainKeeps(p: Proc, q: Proc)
    requires Inv(p)
    requires q.world.comments == p.world.comments && q.world.discussion == p.world.discussion
    requires q.world.pullRequests == p.world.pullRequests && q.world.statuses == p.world.statuses
    requires q.world.invocations == p.world.invocations
    requires q.tally == p.tally.(writes := q.tally.writes, finishes := q.tally.finishes)
    requires q.world.run.Some? ==> q.world.run == p.world.run || Tagged(p.world.comments, q.world.run.value)
    requires q.world.slot == p.world.slot || q.world.slot.None?
             || (TaggedEffect(p.world.comments, q.world.slot.value) && SlotCounts(q.world, p.tally))
    ensures Inv(q)
  {
    HR.AccountIgnoresSlot(p.world, q.world, p.tally);
  }

  /** The counts of a reservation are those of a fresh copy. */
  ghost predicate Countable(w: World, t: Tally, e: Effect) {
    && (e.Resume? ==> e.invocation.id in w.invocations
                      && e.target <= HR.Count(w.invocations[e.invocation.id], e.manual) + 1)
    && (e.Acceptance? ==> HR.Covers(t, e.invocation))
  }

  lemma ReserveKeeps(p: Proc, e: Effect)
    requires Inv(p) && TaggedEffect(p.world.comments, e) && Countable(p.world, p.tally, e)
    ensures var r := Reserve(p, e);
            && Inv(r) && r.tally == p.tally && r.world == p.world.(slot := r.world.slot)
            && (r.progress == Going ==> r.world.slot == Some(e))
  {
    hide HR.Accounted, Posts, Key, TaggedEffect, HR.Covers;
    PlainKeepsLight(p, Reserve(p, e), e);
  }

  lemma PlainKeepsLight(p: Proc, q: Proc, e: Effect)
    requires Inv(p) && TaggedEffect(p.world.comments, e) && Countable(p.world, p.tally, e)
    requires q.tally == p.tally && q.world in {p.world, p.world.(slot := Some(e))}
    ensures Inv(q)
  {
    hide HR.Accounted, OncePosted, OncePaired;
    PlainKeeps(p, q);
  }

  lemma ClearKeeps(p: Proc, e: Effect)
    requires Inv(p)
    ensures Inv(Clear(p, e))
  {
    hide Inv, Key;
    PlainKeeps(p, Clear(p, e));
  }

  lemma SaveKeeps(p: Proc, next: Run)
    requires Inv(p) && (p.progress == Going ==> Tagged(p.world.comments, next))
    ensures Inv(SaveRun(p, next))
  {
    hide Inv;
    PlainKeeps(p, SaveRun(p, next));
  }

  lemma SupersededAccount(w: World, t: Tally, v: World)
    requires HR.Accounted(w, t) && HR.NextReservation(w)
    requires v.invocations == Supersede(w.invocations) && v.slot == w.slot
    ensures HR.Accounted(v, t) && HR.NextReservation(v)
  {}

  lemma DiscardKeeps(p: Proc, all: bool)
    requires Inv(p)
    ensures Inv(DiscardResults(p, all))
  {
    hide Supersede, HR.NextReservation, HR.Accounted, HR.Covers, OncePosted, OncePaired, CS.Distinct;
    var q := DiscardResults(p, all);
    if q.world != p.world {
      SupersededAccount(p.world, p.tally, q.world);
    }
    SamePosts(p, q);
  }

  lemma SamePosts(p: Proc, q: Proc)
    requires Posts(p.world, p.tally) && q.tally == p.tally
    requires q.world == p.world.(results := q.world.results, invocations := q.world.invocations,
                                 unitResults := q.world.unitResults)
    ensures Posts(q.world, q.tally)
  {}

  lemma PersistKeeps(env: Adapters, p: Proc, scope: Scope, expected: int, next: Run)
    requires Inv(p) && (p.progress == Going ==> Tagged(p.world.comments, next))
    ensures Inv(Persist(env, p, scope, expected, next))
  {
    hide Inv, Supersede;
    var all := scope.InvalidateAllResults?;
    if scope.RetainResults? {
      SaveKeeps(p, next);
    } else if env.atomicSeam {
      if AtRevision(p.world, expected, next) {
        SaveDiscardKeeps(p, next, all);
      } else {
        PlainKeeps(p, Refuse(p));
      }
    } else {
      SaveAtKeeps(p, expected, next);
      DiscardKeeps(SaveRunAt(p, expected, next), all);
    }
  }

  lemma SaveDiscardKeeps(p: Proc, next: Run, all: bool)
    requires Inv(p) && (p.progress == Going ==> Tagged(p.world.comments, next))
    ensures Inv(Mutate(p, Discarded(p.world, all).(run := Some(next))))
  {
    hide Inv, Supersede;
    var both := Mutate(p, Discarded(p.world, all).(run := Some(next)));
    if both.progress == Going && p.progress == Going {
      var u := p.(budget := Unbounded);
      PlainKeeps(p, u);
      SaveKeeps(u, next);
      DiscardKeeps(SaveRun(u, next), all);
      PlainKeeps(DiscardResults(SaveRun(u, next), all), both);
    } else {
      PlainKeeps(p, both);
    }
  }

  lemma SaveAtKeeps(p: Proc, expected: int, next: Run)
    requires Inv(p) && (p.progress == Going ==> Tagged(p.world.comments, next))
    ensures Inv(SaveRunAt(p, expected, next))
  {
    hide Inv;
    if AtRevision(p.world, expected, next) {
      SaveKeeps(p, next);
    } else {
      PlainKeeps(p, Refuse(p));
    }
  }

  /** Labels and the run's status comment. */
  lemma ProjectionKeeps(env: Adapters, p: Proc, next: Run, create: bool)
    requires Inv(p) && Tagged(p.world.comments, next)
    ensures var q := ApplyStateTransition(env, p, next, create);
            && Inv(q)
            && (q.progress == Going ==> Tagged(q.world.comments, Identified(p.world, next, create)))
            && q.world.run == p.world.run && q.world.slot == p.world.slot
  {
    hide Inv, ProjectComment, Identified, Tagged;
    var l := ProjectLabels(p, next);
    PlainKeeps(p, l);
    InvPosts(l);
    CommentKeeps(env, l, next, create);
    AccountKept(l, ProjectComment(env, l, next, create));
    assert Identified(p.world, next, create) == Identified(l.world, next, create) by {
      SameIdentified(p.world, l.world, next, create);
    }
  }

  lemma InvPosts(p: Proc)
    requires Inv(p)
    ensures Posts(p.world, p.tally)
  {}

  /** Posts beside the account: sessions and invocations as before. */
  lemma AccountKept(p: Proc, q: Proc)
    requires Inv(p) && Posts(q.world, q.tally)
    requires q.world.invocations == p.world.invocations && q.world.slot == p.world.slot
    requires q.tally.launches == p.tally.launches && q.tally.sessions == p.tally.sessions
    ensures Inv(q)
  {}

  lemma ConclusionKeeps(env: Adapters, p: Proc, before: Option<Run>, e: Effect, next: Run, create: bool, scope: Scope,
                        expected: int)
    requires Inv(p) && Tagged(p.world.comments, next)
    ensures Inv(Conclude(env, p, before, e, next, create, scope, expected))
  {
    hide Inv, ApplyStateTransition, Persist, Clear, Identified, Tagged;
    var q := ApplyStateTransition(env, p, next, create);
    var saved := Identified(p.world, next, create);
    ProjectionKeeps(env, p, next, create);
    PersistKeeps(env, q, scope, expected, saved);
    ClearKeeps(if Behind(before, next) then Persist(env, q, scope, expected, saved) else q, e);
  }

  lemma StatusEditKeeps(env: Adapters, p: Proc, next: Run)
    requires Inv(p) && Tagged(p.world.comments, next)
    ensures Inv(ApplyStatusComment(env, p, next))
  {
    hide Inv, EditComment, FindComment;
    var q, comment := ApplyStatusComment(env, p, next), StatusComment(env, next);
    if q == p || q == Refuse(p) {
      PlainKeeps(p, q);
    } else {
      EditFacts(p, false, next.statusComment, comment);
      InvPosts(p);
      ThreadKeeps(p.world, p.tally, q.world, q.tally, false, comment.marker);
      AccountKept(p, q);
    }
  }

  lemma QuestionKeeps(p: Proc, side: bool, question: Comment)
    requires Inv(p)
    ensures var q := CL.FindOrCreate(p, side, question);
            && Inv(q) && MarkersKept(p.world.comments, q.world.comments) && q.world.run == p.world.run
  {
    hide Inv, EditComment, CreateComment;
    var q := CL.FindOrCreate(p, side, question);
    var found := FindComment(Thread(p.world, side), question.marker);
    if found == 0 {
      PostFacts(p, side, question);
    } else if q != p {
      EditFacts(p, side, found, question);
    }
    InvPosts(p);
    ThreadKeeps(p.world, p.tally, q.world, q.tally, side, question.marker);
    AccountKept(p, q);
  }

  /** A change of the pull requests or statuses only. */
  lemma HostKeeps(p: Proc, q: Proc)
    requires Inv(p)
    requires q.world == p.world.(pullRequests := q.world.pullRequests, statuses := q.world.statuses)
    requires q.tally == p.tally.(writes := q.tally.writes, pairs := q.tally.pairs)
    requires OncePaired(q.world, q.tally) && CS.Distinct(q.world.statuses)
    ensures Inv(q)
  {
    hide HR.Accounted, HR.Covers, OncePaired, CS.Distinct, HR.NextReservation;
    SameThreads(p, q);
    AccountKept(p, q);
  }

  lemma UpsertFacts(p: Proc, expected: nat, request: PullRequest)
    ensures var q := PR.Upsert(p, expected, request);
            && q.world == p.world.(pullRequests := q.world.pullRequests)
            && q.tally == p.tally.(writes := q.tally.writes, pairs := q.tally.pairs)
            && q.world.pullRequests in {p.world.pullRequests, PR.Upserted(p.world.pullRequests, request)}
            && (q.tally.pairs == p.tally.pairs
                || (q.tally.pairs == p.tally.pairs + multiset{(request.head, request.base)}
                    && q.world.pullRequests == p.world.pullRequests + [request]
                    && FindPullRequest(p.world.pullRequests, request.head, request.base) == 0))
  {
    hide FindPullRequest;
  }

  lemma UpsertKeeps(p: Proc, expected: nat, request: PullRequest)
    requires Inv(p)
    ensures var q := PR.Upsert(p, expected, request);
            Inv(q) && q.world.comments == p.world.comments
  {
    hide PR.Upsert, HR.Accounted, HR.Covers, OncePosted, CS.Distinct, HR.NextReservation, OncePaired;
    var q := PR.Upsert(p, expected, request);
    UpsertFacts(p, expected, request);
    PairsKept(p, q, request);
    HostKeeps(p, q);
  }

  lemma SameThreads(p: Proc, q: Proc)
    requires OncePosted(p.world, p.tally)
    requires q.world.comments == p.world.comments && q.world.discussion == p.world.discussion
             && q.tally.posted == p.tally.posted
    ensures OncePosted(q.world, q.tally)
  {}

  predicate PairsStay(was: seq<PullRequest>, now: seq<PullRequest>) {
    |was| <= |now| && forall i :: 0 <= i < |was| ==> now[i].head == was[i].head && now[i].base == was[i].base
  }

  lemma UpsertedPairs(was: seq<PullRequest>, request: PullRequest)
    ensures PairsStay(was, was) && PairsStay(was, PR.Upserted(was, request))
  {
  }

  lemma PairFound(was: seq<PullRequest>, now: seq<PullRequest>, head: string, base: string)
    requires PairsStay(was, now) && FindPullRequest(was, head, base) > 0
    ensures FindPullRequest(now, head, base) > 0
  {
    var f := FindPullRequest(was, head, base);
    assert now[f - 1].head == head && now[f - 1].base == base;
  }

  lemma PairsKept(p: Proc, q: Proc, request: PullRequest)
    requires OncePaired(p.world, p.tally)
    requires q.world.pullRequests in {p.world.pullRequests, PR.Upserted(p.world.pullRequests, request)}
    requires q.tally.pairs == p.tally.pairs
             || (q.tally.pairs == p.tally.pairs + multiset{(request.head, request.base)}
                 && q.world.pullRequests == p.world.pullRequests + [request]
                 && FindPullRequest(p.world.pullRequests, request.head, request.base) == 0)
    ensures OncePaired(q.world, q.tally)
  {
    hide PR.Upserted;
    var was, now := p.world.pullRequests, q.world.pullRequests;
    UpsertedPairs(was, request);
    forall head, base | q.tally.pairs[(head, base)] > 0
      ensures q.tally.pairs[(head, base)] == 1 && FindPullRequest(now, head, base) > 0
    {
      if FindPullRequest(was, head, base) > 0 {
        PairFound(was, now, head, base);
      } else {
        assert now[|was|] == request;
      }
    }
  }

  lemma ListingKeeps(p: Proc, status: CommitStatus)
    requires Inv(p)
    ensures Inv(CS.CreateUnlessListed(p, status))
  {
    hide HR.Accounted, HR.Covers, OncePosted, OncePaired, HR.NextReservation, CS.Distinct;
    var q := CS.CreateUnlessListed(p, status);
    CS.ListingLands(p, status);
    PairsKept(p, q, PullRequest("", "", "", "", false));
    HostKeeps(p, q);
  }

  lemma DeliveryKeeps(p: Proc, invocation: Invocation)
    requires Inv(p) && HR.Covers(p.tally, invocation)
    requires p.progress == Going ==> p.world.slot.Some? && p.world.slot.value.Acceptance?
    ensures var s := SaveInvocation(p, invocation);
            Inv(s) && s.world == p.world.(invocations := s.world.invocations) && s.tally == p.tally
  {
    hide HR.Accounted, HR.Covers, OncePosted, OncePaired, CS.Distinct;
    HR.SaveAccounted(p, invocation);
    SamePosts(p, SaveInvocation(p, invocation));
  }

  /** The whole native side of an acceptance, delivered always or if live. */
  lemma ExitKeeps(p: Proc, invocation: Invocation)
    requires Inv(p) && HR.Covers(p.tally, invocation)
    requires p.progress == Going ==> p.world.slot.Some? && p.world.slot.value.Acceptance?
    ensures var a, d := RA.DeliverAlways(p, invocation), RA.DeliverIfLive(p, invocation);
            && Inv(a) && Inv(d)
            && a.world == p.world.(invocations := a.world.invocations)
            && d.world == p.world.(invocations := d.world.invocations)
  {
    hide Inv, HR.Covers, SaveInvocation;
    DeliveryKeeps(p, invocation);
    var s := SaveInvocation(p, invocation);
    PlainKeeps(s, FinishSession(s, invocation.id));
    PlainKeeps(p, FinishSession(p, invocation.id));
  }

  lemma ReleaseKeeps(p: Proc, stop: bool, worker: string, fallback: string, unit: Option<string>)
    requires Inv(p)
    ensures var s := RA.SaveUnitIfAny(RA.StopIfAsked(p, stop, worker, fallback), unit);
            && Inv(s) && s.world.comments == p.world.comments
  {
    hide Inv;
    var a := RA.StopIfAsked(p, stop, worker, fallback);
    PlainKeeps(p, a);
    PlainKeeps(a, RA.SaveUnitIfAny(a, unit));
  }

  /** Project, save, acknowledge: the end of three of the first attempts. */
  lemma FinishKeeps(env: Adapters, p: Proc, next: Run, e: Effect)
    requires Inv(p) && Tagged(p.world.comments, next)
    ensures Inv(Clear(SaveRun(ApplyStateTransition(env, p, next, false), Identified(p.world, next, false)), e))
  {
    hide Inv, ApplyStateTransition, SaveRun, Clear, Identified, Tagged;
    var q := ApplyStateTransition(env, p, next, false);
    ProjectionKeeps(env, p, next, false);
    SaveKeeps(q, Identified(p.world, next, false));
    ClearKeeps(SaveRun(q, Identified(p.world, next, false)), e);
  }

  // ---------- the native resume

  /** Sessions start only under the resume's own reservation. */
  lemma CrossingTally(p: Proc, original: Invocation, target: nat, manual: bool, verdict: HR.Verdict)
    ensures var q := HR.Cross(p, original, target, manual, verdict);
            && q.tally == p.tally.(launches := q.tally.launches, sessions := q.tally.sessions)
            && (p.progress != Going ==> q == p)
            && q.world == p.world.(invocations := q.world.invocations)
  {}

  lemma ResumeSlot(p: Proc, run: string, copy: Invocation, manual: bool, verdict: HR.Verdict)
    ensures var q := HR.ResumeNative(p, run, copy, manual, verdict);
            && q.tally == p.tally.(launches := q.tally.launches, sessions := q.tally.sessions)
            && (q.world.slot == p.world.slot || q.world.slot.None? || q.world.slot.value.Resume?)
            && (q.world.slot.Some? && q.world.slot.value.Acceptance? ==>
                q.world.slot == p.world.slot && q.tally == p.tally)
  {
    hide HR.Cross, Reserve, Clear;
    var e := HR.EffectOf(run, copy, manual);
    var r := Reserve(p, e);
    ReserveSlot(p, e);
    CrossingTally(r, copy, e.target, manual, verdict);
    ClearFrame(HR.Cross(r, copy, e.target, manual, verdict), e);
  }

  lemma ReserveSlot(p: Proc, e: Effect)
    ensures var r := Reserve(p, e);
            && r.tally == p.tally && r.world == p.world.(slot := r.world.slot)
               && r.world.slot in {p.world.slot, Some(e)}
            && (r.progress == Going ==> r.world.slot == Some(e))
  {
    hide Key;
  }

  lemma ResumeEventKeeps(p: Proc, run: string, copy: Invocation, manual: bool, verdict: HR.Verdict)
    requires Inv(p) && HR.Fresh(p.world, copy)
    ensures Inv(HR.ResumeNative(p, run, copy, manual, verdict))
  {
    hide HR.Accounted, HR.Covers, HR.NextReservation, HR.ResumeNative, Posts;
    HR.ResumeKeeps(p, run, copy, manual, verdict);
    ResumeSlot(p, run, copy, manual, verdict);
    ResumePosts(p, HR.ResumeNative(p, run, copy, manual, verdict));
  }

  lemma ResumePosts(p: Proc, q: Proc)
    requires Posts(p.world, p.tally)
    requires q.world == p.world.(invocations := q.world.invocations, slot := q.world.slot)
    requires q.tally == p.tally.(launches := q.tally.launches, sessions := q.tally.sessions)
    requires q.world.slot == p.world.slot || q.world.slot.None? || q.world.slot.value.Resume?
    ensures Posts(q.world, q.tally)
  {}

  lemma ResumeReplayKeeps(p: Proc, e: Effect, verdict: HR.Verdict)
    requires Inv(p) && e.Resume? && p.world.slot == Some(e)
    ensures Inv(HR.Replay(p, e, verdict))
  {
    hide HR.Accounted, HR.Covers, HR.NextReservation, HR.Cross, OncePosted, OncePaired, CS.Distinct, Key;
    HR.ReplayKeeps(p, e, verdict);
    if e.invocation.id in p.world.invocations {
      CrossingTally(p, p.world.invocations[e.invocation.id], e.target, e.manual, verdict);
    }
    ResumePosts(p, HR.Replay(p, e, verdict));
  }

  // ---------- whole operations and restarts

  /** The copies an operation is called with are current: the recorded comment
      is the run's own, the session counts are the stored ones, and a publisher
      that cannot list statuses is not given a listed one. */
  ghost predicate Current(env: Adapters, w: World, op: Operation) {
    && TaggedEffect(w.comments, EffectOf(op))
    && (op.Ask? ==> Tagged(w.comments, op.asker))
    && (op.ResumeSession? ==> HR.Fresh(w, op.copy))
    && (op.AcceptReport? ==> HR.Fresh(w, op.a.invocation))
    && (op.PublishStatus? ==> env.readsStatuses || op.status !in w.statuses)
  }

  lemma TransitKeeps(env: Adapters, p: Proc, t: ST.Transition)
    requires Inv(p) && Tagged(p.world.comments, t.next)
    ensures Inv(ST.Apply(env, p, t))
  {
    hide Inv, Reserve, Clear, Persist, ApplyStateTransition, SaveRunAt, Identified, Tagged;
    var e := ST.EffectOf(t);
    ReserveKeeps(p, e);
    var r := Reserve(p, e);
    var s := ST.StopIfAsked(r, t.stopWorker);
    PlainKeeps(r, s);
    if t.persistBefore {
      if t.create {
        PlainKeeps(s, Refuse(s));
      } else {
        var a := SaveRunAt(s, t.previous.revision, t.next);
        SaveAtKeeps(s, t.previous.revision, t.next);
        assert a.world.comments == s.world.comments by { SaveRunAtComments(s, t.previous.revision, t.next); }
        ProjectionKeeps(env, a, t.next, false);
        ClearKeeps(ApplyStateTransition(env, a, t.next, false), e);
      }
    } else {
      var saved := Identified(s.world, t.next, t.create);
      var c := ApplyStateTransition(env, s, t.next, t.create);
      var scope := ST.ScopeFor(t.invalidateAll, t.invalidate);
      ProjectionKeeps(env, s, t.next, t.create);
      PersistKeeps(env, c, scope, t.previous.revision, saved);
      ClearKeeps(Persist(env, c, scope, t.previous.revision, saved), e);
    }
  }

  lemma SaveRunAtComments(p: Proc, expected: int, next: Run)
    ensures SaveRunAt(p, expected, next).world.comments == p.world.comments
  {}

  lemma CommandKeeps(env: Adapters, p: Proc, e: Effect)
    requires e.StatusCommentEdit? && Inv(p) && Tagged(p.world.comments, e.next)
    ensures Inv(SC.Act(env, p, e))
  {
    hide Inv, Clear, ApplyStatusComment, SaveRunAt, Tagged;
    var m := SC.Watermark(p, e.previous, e.next);
    SaveAtKeeps(p, e.previous.revision, e.next);
    SaveRunAtComments(p, e.previous.revision, e.next);
    PlainKeeps(p, Refuse(p));
    assert Inv(m) && m.world.comments == p.world.comments;
    StatusEditKeeps(env, m, e.next);
    ClearKeeps(ApplyStatusComment(env, m, e.next), e);
  }

  lemma CheckpointKeeps(p: Proc, c: CheckpointRequest)
    requires Inv(p)
    ensures var k := CP.CreateCheckpoint(p, c); Inv(k) && k.world.comments == p.world.comments
  {
    hide Inv;
    PlainKeeps(p, CP.CreateCheckpoint(p, c));
  }

  lemma AskKeeps(p: Proc, e: Effect, saved: Run)
    requires e.Clarification? && Inv(p) && Tagged(p.world.comments, saved)
    ensures Inv(Clear(SaveRun(CL.FindOrCreate(p, e.onPullRequest, CL.Question(e)), saved), e))
  {
    hide Inv, CL.FindOrCreate, SaveRun, Clear;
    var q := CL.FindOrCreate(p, e.onPullRequest, CL.Question(e));
    QuestionKeeps(p, e.onPullRequest, CL.Question(e));
    SaveKeeps(q, saved);
    ClearKeeps(SaveRun(q, saved), e);
  }

  lemma StatusKeeps(p: Proc, status: CommitStatus, e: Effect)
    requires Inv(p)
    ensures Inv(Clear(CS.CreateUnlessListed(p, status), e))
  {
    hide Inv, CS.CreateUnlessListed, Clear;
    ListingKeeps(p, status);
    ClearKeeps(CS.CreateUnlessListed(p, status), e);
  }

  lemma FirstStatusKeeps(env: Adapters, p: Proc, status: CommitStatus, e: Effect)
    requires Inv(p) && (env.readsStatuses || status !in p.world.statuses)
    ensures Inv(Clear(CS.CreateFirst(env, p, status), e))
  {
    hide Inv, Clear;
    StatusKeeps(p, status, e);
  }

  lemma PushKeeps(env: Adapters, p: Proc, branch: string, sha: nat)
    requires Inv(p)
    ensures Inv(CS.PushOnce(env, p, branch, sha))
  {
    hide Inv;
    PlainKeeps(p, CS.PushOnce(env, p, branch, sha));
  }

  lemma AcceptKeeps(env: Adapters, p: Proc, a: RA.Request)
    requires Inv(p) && Tagged(p.world.comments, a.next) && HR.Covers(p.tally, a.invocation)
    ensures Inv(RA.Accept(env, p, a))
  {
    hide Inv, Reserve, RA.DeliverAlways, RA.StopIfAsked, RA.SaveUnitIfAny, Clear, SaveRun, ApplyStateTransition;
    hide Identified, Tagged, HR.Covers, RA.Acceptable;
    var e := RA.EffectOf(a);
    ReserveKeeps(p, e);
    var r := Reserve(p, e);
    if RA.Acceptable(r.world, a.invocation) {
      ExitKeeps(r, a.invocation);
      var d := RA.DeliverAlways(r, a.invocation);
      ReleaseKeeps(d, a.stopWorker, a.worker, a.previous.id, a.unitResult);
      FinishKeeps(env, RA.SaveUnitIfAny(RA.StopIfAsked(d, a.stopWorker, a.worker, a.previous.id), a.unitResult),
                  a.next, e);
    } else {
      PlainKeeps(r, Refuse(r));
    }
  }

  lemma PerformKeeps(env: Adapters, p: Proc, op: Operation)
    requires Inv(p) && Current(env, p.world, op)
    ensures Inv(Perform(env, p, op))
  {
    hide Inv, Reserve, Clear, SaveRun, ApplyStateTransition, Identified, Tagged, HR.Covers, HR.Fresh;
    hide CP.CreateCheckpoint, PR.Upsert, CL.FindOrCreate, CS.CreateUnlessListed, CS.PushOnce, ST.Apply, SC.Act;
    hide RA.Accept, HR.ResumeNative;
    InvAccounted(p);
    match op
    case Transit(t) => TransitKeeps(env, p, t);
    case ProjectCommand(previous, next) =>
      ReserveKeeps(p, EffectOf(op));
      CommandKeeps(env, Reserve(p, EffectOf(op)), EffectOf(op));
    case MakeCheckpoint(commit, previous, next) =>
      ReserveKeeps(p, EffectOf(op));
      var r := Reserve(p, EffectOf(op));
      CheckpointKeeps(r, commit);
      RecordedTagged(p.world.comments, next, CP.Recorded(next, commit, CP.CheckpointHead(r.world.git, commit)));
      FinishKeeps(env, CP.CreateCheckpoint(r, commit),
                  CP.Recorded(next, commit, CP.CheckpointHead(r.world.git, commit)), EffectOf(op));
    case OpenPullRequest(previous, next, request, expected) =>
      ReserveKeeps(p, EffectOf(op));
      var r := Reserve(p, EffectOf(op));
      UpsertKeeps(r, expected, request);
      var recorded := PR.Recorded(env, next, PR.UpsertedNumber(r.world.pullRequests, request));
      RecordedTagged(p.world.comments, next, recorded);
      FinishKeeps(env, PR.Upsert(r, expected, request), recorded, EffectOf(op));
    case UpdatePullRequest(run, expected, request) =>
      ReserveKeeps(p, EffectOf(op));
      UpsertKeeps(Reserve(p, EffectOf(op)), expected, request);
      ClearKeeps(PR.Upsert(Reserve(p, EffectOf(op)), expected, request), EffectOf(op));
    case AcceptReport(a) =>
      HR.FreshCovers(p.world, p.tally, a.invocation);
      AcceptKeeps(env, p, a);
    case ResumeSession(run, copy, manual, verdict) => ResumeEventKeeps(p, run, copy, manual, verdict);
    case Ask(asker, target, onPullRequest, version, body) =>
      var e := EffectOf(op);
      ReserveKeeps(p, e);
      var r := Reserve(p, e);
      var id := CL.Identity(Thread(r.world, onPullRequest), CL.Question(e).marker);
      RecordedTagged(p.world.comments, asker, asker.(clarificationComment := id));
      AskKeeps(r, e, asker.(clarificationComment := id));
    case PublishStatus(run, status) =>
      ReserveKeeps(p, EffectOf(op));
      assert Reserve(p, EffectOf(op)).world.statuses == p.world.statuses by { hide Key; }
      FirstStatusKeeps(env, Reserve(p, EffectOf(op)), status, EffectOf(op));
    case PushHead(run, branch, sha) =>
      ReserveKeeps(p, EffectOf(op));
      PushKeeps(env, Reserve(p, EffectOf(op)), branch, sha);
      ClearKeeps(CS.PushOnce(env, Reserve(p, EffectOf(op)), branch, sha), EffectOf(op));
  }

  lemma InvAccounted(p: Proc)
    requires Inv(p)
    ensures HR.Accounted(p.world, p.tally) && Posts(p.world, p.tally) && SlotCounts(p.world, p.tally)
  {}

  lemma RecordedTagged(thread: seq<Comment>, a: Run, b: Run)
    requires a.id == b.id && a.statusComment == b.statusComment
    ensures Tagged(thread, a) <==> Tagged(thread, b)
  {}

  lemma AdoptedTagged(w: World, next: Run)
    requires Tagged(w.comments, next) && (w.run.Some? ==> Tagged(w.comments, w.run.value))
    requires w.run.Some? ==> w.run.value.id == next.id
    ensures Tagged(w.comments, Adopted(w.run, next))
  {}

  lemma RefusalKeeps(p: Proc)
    requires Inv(p)
    ensures Inv(Refuse(p))
  {
    hide Inv;
    PlainKeeps(p, Refuse(p));
  }

  /** What the invariant says of the pending effect. */
  lemma PendingKept(p: Proc, e: Effect)
    requires Inv(p) && p.world.slot == Some(e)
    ensures TaggedEffect(p.world.comments, e)
    ensures p.world.run.Some? ==> Tagged(p.world.comments, p.world.run.value)
    ensures e.Acceptance? ==> HR.Covers(p.tally, e.invocation)
  {}

  lemma TransitionReplayKeeps(env: Adapters, p: Proc, e: Effect)
    requires e.StateTransition? && Inv(p) && p.world.slot == Some(e)
    ensures Inv(ST.Replay(env, p, e))
  {
    hide Inv, Conclude, Tagged, Adopted;
    PendingKept(p, e);
    RefusalKeeps(p);
    var run, s := p.world.run, ST.StopIfAsked(p, e.stopWorker);
    if e.next.id == e.run && Admits(run, e.next.id, e.previous, e.next) {
      AdoptedTagged(p.world, e.next);
      PlainKeeps(p, s);
      ConclusionKeeps(env, s, run, e, Adopted(run, e.next), e.create,
                      ST.ScopeFor(e.invalidateAll, e.invalidate), e.previous.revision);
    }
  }

  lemma CheckpointReplayKeeps(env: Adapters, p: Proc, e: Effect)
    requires e.Checkpoint? && Inv(p) && p.world.slot == Some(e)
    ensures Inv(CP.Replay(env, p, e))
  {
    hide Inv, Conclude, Tagged, CP.CreateCheckpoint;
    PendingKept(p, e);
    RefusalKeeps(p);
    var n := CP.Recorded(e.next, e.commit, CP.CheckpointHead(p.world.git, e.commit));
    RecordedTagged(p.world.comments, e.next, n);
    CheckpointKeeps(p, e.commit);
    ConclusionKeeps(env, CP.CreateCheckpoint(p, e.commit), p.world.run, e, n, false, RetainResults,
                    e.previous.revision);
  }

  lemma PullRequestReplayKeeps(env: Adapters, p: Proc, e: Effect)
    requires e.PullRequestUpsert? && Inv(p) && p.world.slot == Some(e)
    ensures Inv(PR.Replay(env, p, e))
  {
    hide Inv, Conclude, Tagged, PR.Upsert;
    PendingKept(p, e);
    RefusalKeeps(p);
    var n := PR.Recorded(env, e.next, PR.UpsertedNumber(p.world.pullRequests, e.request));
    RecordedTagged(p.world.comments, e.next, n);
    UpsertKeeps(p, e.number, e.request);
    ConclusionKeeps(env, PR.Upsert(p, e.number, e.request), p.world.run, e, n, false, RetainResults,
                    e.previous.revision);
  }

  lemma AcceptanceReplayKeeps(env: Adapters, p: Proc, e: Effect)
    requires e.Acceptance? && Inv(p) && p.world.slot == Some(e)
    ensures Inv(RA.Replay(env, p, e))
  {
    hide Inv, Conclude, Tagged, HR.Covers, Adopted, RA.DeliverIfLive, RA.StopIfAsked, RA.SaveUnitIfAny, RA.Acceptable;
    PendingKept(p, e);
    RefusalKeeps(p);
    var run := p.world.run;
    if Admits(run, e.run, e.previous, e.next) && RA.Acceptable(p.world, e.invocation) {
      AdoptedTagged(p.world, e.next);
      ExitKeeps(p, e.invocation);
      ReleaseKeeps(RA.DeliverIfLive(p, e.invocation), e.stopWorker, e.worker, e.run, e.unitResult);
      ConclusionKeeps(env, RA.Front(p, e), run, e, Adopted(run, e.next), false, RetainResults, e.previous.revision);
    }
  }

  lemma RestartKeeps(env: Adapters, p: Proc, verdict: HR.Verdict)
    requires Inv(p)
    ensures Inv(ReplayPending(env, p, verdict))
  {
    hide Inv, Tagged, SC.Act, ST.Replay, CP.Replay, PR.Replay, RA.Replay, HR.Replay, PR.Upsert, CL.FindOrCreate;
    hide CS.PushOnce, CS.CreateUnlessListed, Clear, SaveRun;
    if p.world.slot.Some? {
      var e := p.world.slot.value;
      InvAccounted(p);
      RefusalKeeps(p);
      match e
      case StateTransition(_, _, _, _, _, _, _) => TransitionReplayKeeps(env, p, e);
      case StatusCommentEdit(_, _, _) => CommandKeeps(env, p, e);
      case Checkpoint(_, _, _, _) => CheckpointReplayKeeps(env, p, e);
      case PullRequestUpsert(_, _, _, _, _) => PullRequestReplayKeeps(env, p, e);
      case PullRequestUpdate(_, number, request) =>
        UpsertKeeps(p, number, request);
        ClearKeeps(PR.Upsert(p, number, request), e);
      case Acceptance(_, _, _, _, _, _, _) => AcceptanceReplayKeeps(env, p, e);
      case Resume(_, _, _, _) => ResumeReplayKeeps(p, e, verdict);
      case Clarification(_, _, _, _, _) =>
        if p.world.run.Some? {
          var run := p.world.run.value;
          var id := CL.Identity(Thread(p.world, e.onPullRequest), CL.Question(e).marker);
          RecordedTagged(p.world.comments, run, run.(clarificationComment := id));
          AskKeeps(p, e, run.(clarificationComment := id));
        }
      case StatusPublication(_, status) =>
        if p.world.run.Some? {
          var run := p.world.run.value;
          PushKeeps(env, p, run.content.branch, status.sha);
          var pushed :=
            if CS.OwnCheckpoint(run, status.sha) then CS.PushOnce(env, p, run.content.branch, status.sha) else p;
          StatusKeeps(pushed, status, e);
        }
      case BranchPush(_, branch, sha) =>
        PushKeeps(env, p, branch, sha);
        ClearKeeps(CS.PushOnce(env, p, branch, sha), e);
    }
  }

  // ---------- histories

  /** What happens beside the journal: people comment and edit comments, change
      labels, open and edit pull requests or push; an agent works; an invocation
      is created or moves on; the run is saved without an effect. */
  datatype Outside =
    | Discussed(onPullRequest: bool, thread: seq<Comment>)
    | Relabelled(labels: seq<string>)
    | PullRequestsChanged(pullRequests: seq<PullRequest>)
    | RemoteMoved(remote: map<string, nat>)
    | Worked(git: Git, workers: set<string>, results: Results, unitResults: set<string>)
    | InvocationSaved(invocation: Invocation)
    | RunSaved(run: Run)

  function After(w: World, change: Outside): World {
    match change
    case Discussed(side, thread) => WithThread(w, side, thread)
    case Relabelled(labels) => w.(labels := labels)
    case PullRequestsChanged(pullRequests) => w.(pullRequests := pullRequests)
    case RemoteMoved(remote) => w.(remote := remote)
    case Worked(git, workers, results, unitResults) =>
      w.(git := git, workers := workers, results := results, unitResults := unitResults)
    case InvocationSaved(invocation) => w.(invocations := w.invocations[invocation.id := invocation])
    case RunSaved(run) => w.(run := Some(run))
  }

  /** Comments keep their markers and pull requests their branches, and none is
      deleted; new comments may carry any marker. An invocation is new or keeps
      its stored counts, and a saved run records no comment but its own. */
  predicate Orderly(w: World, change: Outside) {
    match change
    case Discussed(side, thread) => MarkersKept(Thread(w, side), thread)
    case PullRequestsChanged(pullRequests) => PairsStay(w.pullRequests, pullRequests)
    case InvocationSaved(invocation) => invocation.id in w.invocations ==> HR.Fresh(w, invocation)
    case RunSaved(run) => Tagged(w.comments, run)
    case _ => true
  }

  lemma PullRequestsKeep(p: Proc, now: seq<PullRequest>)
    requires Inv(p) && PairsStay(p.world.pullRequests, now)
    ensures Inv(p.(world := p.world.(pullRequests := now)))
  {
    hide HR.Accounted, HR.Covers, OncePosted, CS.Distinct, HR.NextReservation, FindPullRequest, PairsStay;
    var was := p.world.pullRequests;
    var q := p.(world := p.world.(pullRequests := now));
    forall head, base | q.tally.pairs[(head, base)] > 0
      ensures q.tally.pairs[(head, base)] == 1 && FindPullRequest(now, head, base) > 0
    {
      PairFound(was, now, head, base);
    }
    HostKeeps(p, q);
  }

  lemma DiscussionKeeps(p: Proc, side: bool, thread: seq<Comment>)
    requires Inv(p) && MarkersKept(Thread(p.world, side), thread)
    ensures Inv(p.(world := WithThread(p.world, side, thread)))
  {
    hide Inv, FindComment, MarkersKept;
    var q := p.(world := WithThread(p.world, side, thread));
    InvPosts(p);
    ThreadKeeps(p.world, p.tally, q.world, q.tally, side, Unmarked);
    AccountKept(p, q);
  }

  lemma InvocationKeeps(p: Proc, invocation: Invocation)
    requires Inv(p) && Orderly(p.world, InvocationSaved(invocation))
    ensures Inv(p.(world := After(p.world, InvocationSaved(invocation))))
  {
    hide HR.Accounted, HR.Covers, OncePosted, OncePaired, CS.Distinct;
    var q := p.(world := After(p.world, InvocationSaved(invocation)));
    HR.FreshCovers(p.world, p.tally, invocation);
    HR.SaveCounted(p.world, q.world, p.tally, invocation);
    SamePosts(p, q);
  }

  lemma OutsideKeeps(p: Proc, change: Outside)
    requires Inv(p) && Orderly(p.world, change)
    ensures Inv(p.(world := After(p.world, change)))
  {
    hide Inv;
    var q := p.(world := After(p.world, change));
    match change
    case Discussed(side, thread) => DiscussionKeeps(p, side, thread);
    case PullRequestsChanged(pullRequests) => PullRequestsKeep(p, pullRequests);
    case InvocationSaved(invocation) => InvocationKeeps(p, invocation);
    case Relabelled(_) => PlainKeeps(p, q);
    case RemoteMoved(_) => PlainKeeps(p, q);
    case Worked(_, _, _, _) => PlainKeeps(p, q);
    case RunSaved(_) => PlainKeeps(p, q);
  }

  /** One process performs an operation or restarts on what is pending, or an
      operator abandons the reservation, or something happens outside. */
  datatype Event =
    | Attempt(op: Operation, budget: Budget)
    | Restarted(verdict: HR.Verdict, budget: Budget)
    | Abandoned
    | Meanwhile(change: Outside)

  function Next(env: Adapters, p: Proc, event: Event): Proc {
    match event
    case Attempt(op, b) => Perform(env, Restart(p, b), op)
    case Restarted(verdict, b) => ReplayPending(env, Restart(p, b), verdict)
    case Abandoned => p.(world := p.world.(slot := None))
    case Meanwhile(change) => p.(world := After(p.world, change))
  }

  /** What others do can turn a world into any other with the same slot and statuses,
      one stored run and one more stored invocation included. */
  lemma OutsideReaches(w: World, v: World, run: Run, invocation: Invocation)
    requires v.slot == w.slot && v.statuses == w.statuses && v.run == Some(run)
    requires v.invocations == w.invocations[invocation.id := invocation]
    ensures var talked := After(After(w, Discussed(false, v.comments)), Discussed(true, v.discussion));
            var hosted := After(After(talked, PullRequestsChanged(v.pullRequests)), RemoteMoved(v.remote));
            var worked := After(After(hosted, Relabelled(v.labels)),
                                Worked(v.git, v.workers, v.results, v.unitResults));
            After(After(worked, InvocationSaved(invocation)), RunSaved(run)) == v
  {
  }

  /** An abandoned reservation leaves its effects and frees the slot for any other. */
  lemma AbandonedFrees(env: Adapters, p: Proc, e: Effect)
    ensures var q := Next(env, p, Abandoned);
            && q.tally == p.tally && q.world == p.world.(slot := None)
            && Reserve(Restart(q, Unbounded), e).world == p.world.(slot := Some(e))
  {
    hide Key;
  }

  function Play(env: Adapters, p: Proc, events: seq<Event>): Proc
    decreases |events|
  {
    if events == [] then p else Play(env, Next(env, p, events[0]), events[1..])
  }

  ghost predicate Allowed(env: Adapters, w: World, event: Event) {
    match event
    case Attempt(op, _) => Current(env, w, op)
    case Meanwhile(change) => Orderly(w, change)
    case _ => true
  }

  /** Every operation is called with current copies, and what happens outside is
      orderly. */
  ghost predicate Careful(env: Adapters, p: Proc, events: seq<Event>)
    decreases |events|
  {
    events == [] || (Allowed(env, p.world, events[0]) && Careful(env, Next(env, p, events[0]), events[1..]))
  }

  /** The invariant holds throughout every history. */
  lemma {:induction false} HistoryKeeps(env: Adapters, p: Proc, events: seq<Event>)
    requires Inv(p) && Careful(env, p, events)
    ensures Inv(Play(env, p, events))
    decreases |events|
  {
    hide Inv, Perform, ReplayPending, Current, After, Orderly;
    if events != [] {
      match events[0] {
        case Attempt(op, b) =>
          PlainKeeps(p, Restart(p, b));
          PerformKeeps(env, Restart(p, b), op);
        case Restarted(verdict, b) =>
          PlainKeeps(p, Restart(p, b));
          RestartKeeps(env, Restart(p, b), verdict);
        case Abandoned =>
          PlainKeeps(p, Next(env, p, Abandoned));
        case Meanwhile(change) =>
          OutsideKeeps(p, change);
      }
      HistoryKeeps(env, Next(env, p, events[0]), events[1..]);
    }
  }

  const NO_TALLY: Tally := Tally(0, multiset{}, multiset{}, multiset{}, multiset{}, multiset{})

  /** A world nobody has counted in yet. */
  predicate Initial(w: World) {
    && w.slot.None? && CS.Distinct(w.statuses)
    && (w.run.Some? ==> Tagged(w.comments, w.run.value))
    && (forall id :: id in w.invocations ==> w.invocations[id].id == id)
  }

  /** From the start of a run, in every history and at every point of it: native
      sessions stay within the stored counts and one per reservation, each marker
      is posted and each branch pair opened at most once, and no two statuses
      agree. */
  lemma HistorySafety(env: Adapters, w: World, events: seq<Event>)
    requires Initial(w)
    requires Careful(env, Proc(w, NO_TALLY, Unbounded, Going), events)
    ensures var q := Play(env, Proc(w, NO_TALLY, Unbounded, Going), events);
            && (forall id, manual :: q.tally.sessions[(id, manual)] > 0 ==>
                  && id in q.world.invocations
                  && q.tally.sessions[(id, manual)] <= HR.Count(q.world.invocations[id], manual))
            && (forall l :: q.tally.launches[l] <= 1)
            && (forall side, m :: q.tally.posted[(side, m)] <= 1)
            && (forall head, base :: q.tally.pairs[(head, base)] <= 1)
            && CS.Distinct(q.world.statuses)
  {
    hide Play, Careful, Inv, HR.Count, CS.Distinct, Initial;
    var p := Proc(w, NO_TALLY, Unbounded, Going);
    InitiallyKept(w);
    HistoryKeeps(env, p, events);
    KeptIsSafe(Play(env, p, events));
  }

  lemma InitiallyKept(w: World)
    requires Initial(w)
    ensures Inv(Proc(w, NO_TALLY, Unbounded, Going))
  {
    hide FindComment, FindPullRequest, CS.Distinct;
  }

  lemma KeptIsSafe(q: Proc)
    requires Inv(q)
    ensures forall id, manual :: q.tally.sessions[(id, manual)] > 0 ==>
              id in q.world.invocations && q.tally.sessions[(id, manual)] <= HR.Count(q.world.invocations[id], manual)
    ensures forall l :: q.tally.launches[l] <= 1
    ensures forall side, m :: q.tally.posted[(side, m)] <= 1
    ensures forall head, base :: q.tally.pairs[(head, base)] <= 1
    ensures CS.Distinct(q.world.statuses)
  {
    hide HR.Count, CS.Distinct, FindComment, FindPullRequest, Tagged, TaggedEffect, HR.NextReservation, HR.Covers;
    forall l ensures q.tally.launches[l] <= 1 {
      assert q.tally.launches[l] > 0 ==> q.tally.launches[l] == 1;
    }
    forall side, m ensures q.tally.posted[(side, m)] <= 1 {
      assert q.tally.posted[(side, m)] > 0 ==> q.tally.posted[(side, m)] == 1;
    }
    forall head, base ensures q.tally.pairs[(head, base)] <= 1 {
      assert q.tally.pairs[(head, base)] > 0 ==> q.tally.pairs[(head, base)] == 1;
    }
  }
}
