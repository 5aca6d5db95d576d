/** The world one coordinator process acts on, and its atomic mutations
    (internal/effect/effect.go, internal/effect/payload.go, internal/store/store.go).

    The world holds the durable store of one run (the run row, the pending-effect
    slot, results and invocations), the tracker, the code host and the workers. A
    tally beside it counts actions that others have seen. Every write is one mutation. A process is
    given a budget of mutations and stops when it is spent: that covers a crash
    before any write, a write that fails, and a write whose response is lost. */
module EffectWorld {
  import opened Options
  import opened Labels

  // ---------- store rows

  /** The projected part of a run: what the status comment may render. */
  datatype Content = Content(
    status: Status, checkpoint: nat, testCheckpoint: nat, acceptedCheckpoint: nat,
    pullRequest: nat, pullRequestURL: string, processedComment: string, lastCommand: string,
    branch: string, details: string)

  /** Comment identities are 1-based; 0 is the empty identity. */
  datatype Run = Run(id: string, revision: int, statusComment: nat, clarificationComment: nat, content: Content)

  datatype InvocationStatus = Live | Finished(outcome: string) | Superseded

  datatype Invocation = Invocation(
    id: string, status: InvocationStatus, session: string, recoveryResumes: nat, manualResumes: nat)

  datatype Results = Results(downstream: set<string>, baseline: set<string>)

  datatype Scope = RetainResults | InvalidateResults | InvalidateAllResults

  // ---------- tracker and code host

  datatype Marker = Unmarked | StatusMarker(run: string) | ClarificationMarker(run: string, version: nat)
  datatype Comment = Comment(marker: Marker, body: string)
  datatype PullRequest = PullRequest(head: string, base: string, title: string, body: string, draft: bool)
  datatype CommitStatus = CommitStatus(sha: nat, state: string, context: string, description: string, url: string)

  datatype CheckpointKind = ImplementationCheckpoint | TestCheckpoint
  datatype CheckpointRequest = CheckpointRequest(run: string, parent: nat, kind: CheckpointKind, allPaths: bool)

  /** The run worktree. Commits are numbered along its one line of history;
      `marker` is the checkpoint marker of the head commit, `changed` says that
      the requested paths differ from it and `outside` that other paths do. */
  datatype Git = Git(head: nat, marker: Option<(CheckpointKind, string)>, changed: bool, outside: bool)

  // ---------- the journal

  datatype Effect =
    | StateTransition(run: string, previous: Run, next: Run, create: bool, stopWorker: bool, invalidate: bool,
                      invalidateAll: bool)
    | StatusCommentEdit(run: string, previous: Run, next: Run)
    | Checkpoint(run: string, commit: CheckpointRequest, previous: Run, next: Run)
    | PullRequestUpsert(run: string, number: nat, request: PullRequest, previous: Run, next: Run)
    | PullRequestUpdate(run: string, number: nat, request: PullRequest)
    | Acceptance(run: string, invocation: Invocation, worker: string, previous: Run, next: Run, stopWorker: bool,
                 unitResult: Option<string>)
    | Resume(run: string, invocation: Invocation, target: nat, manual: bool)
    | Clarification(run: string, target: nat, onPullRequest: bool, version: nat, body: string)
    | StatusPublication(run: string, status: CommitStatus)
    | BranchPush(run: string, branch: string, sha: nat)

  /** The semantic identity whose digest names a reservation. */
  datatype EffectKey =
    | TransitionKey(run: string, revision: int)
    | StatusCommentKey(run: string, revision: int, command: string)
    | CheckpointKey(commit: CheckpointRequest)
    | UpsertKey(run: string, head: string, base: string, body: string)
    | UpdateKey(run: string, number: nat, body: string)
    | AcceptanceKey(run: string, invocation: string, status: InvocationStatus, revision: int)
    | ResumeKey(run: string, invocation: string, manual: bool, target: nat)
    | ClarificationKey(run: string, target: nat, version: nat)
    | StatusKey(run: string, sha: nat, context: string, state: string, description: string)
    | PushKey(run: string, branch: string, sha: nat)

  function Key(e: Effect): EffectKey {
    match e
    case StateTransition(run, _, next, _, _, _, _) => TransitionKey(run, next.revision)
    case StatusCommentEdit(run, _, next) => StatusCommentKey(run, next.revision, next.content.processedComment)
    case Checkpoint(_, commit, _, _) => CheckpointKey(commit)
    case PullRequestUpsert(run, _, request, _, _) => UpsertKey(run, request.head, request.base, request.body)
    case PullRequestUpdate(run, number, request) => UpdateKey(run, number, request.body)
    case Acceptance(run, invocation, _, _, next, _, _) =>
      AcceptanceKey(run, invocation.id, invocation.status, next.revision)
    case Resume(run, invocation, target, manual) => ResumeKey(run, invocation.id, manual, target)
    case Clarification(run, target, _, version, _) => ClarificationKey(run, target, version)
    case StatusPublication(run, s) => StatusKey(run, s.sha, s.context, s.state, s.description)
    case BranchPush(run, branch, sha) => PushKey(run, branch, sha)
  }

  // ---------- the world

  datatype Launch = Launch(invocation: string, manual: bool, target: nat)

  /** Actions an outside party has seen: writes to the tracker or code host,
      comments and pull requests created, sessions started and finished. */
  datatype Tally = Tally(
    writes: nat, posted: multiset<(bool, Marker)>, pairs: multiset<(string, string)>,
    launches: multiset<Launch>, sessions: multiset<(string, bool)>, finishes: multiset<string>)

  datatype World = World(
    run: Option<Run>, slot: Option<Effect>,
    results: Results, invocations: map<string, Invocation>, unitResults: set<string>,
    labels: seq<string>, comments: seq<Comment>, discussion: seq<Comment>, pullRequests: seq<PullRequest>,
    git: Git, remote: map<string, nat>, statuses: seq<CommitStatus>, workers: set<string>)

  /** What the coordinator cannot see inside: how a run is rendered, which URL
      a pull request gets, whether the store can save a run and discard results in
      one transaction, whether the workspace can read a remote branch, and whether
      the status publisher can list statuses. */
  datatype Adapters = Adapters(
    render: (string, Content) -> string, url: nat -> string, atomicSeam: bool,
    inspectsRemote: bool, readsStatuses: bool)

  function StatusComment(env: Adapters, run: Run): Comment {
    Comment(StatusMarker(run.id), env.render(run.id, run.content))
  }

  // ---------- processes

  datatype Budget = Unbounded | Cut(mutations: nat)
  datatype Progress = Going | Stopped | Refused
  datatype Proc = Proc(world: World, tally: Tally, budget: Budget, progress: Progress)

  /** A new process over what an earlier one left. */
  function Restart(p: Proc, b: Budget): Proc {
    Proc(p.world, p.tally, b, Going)
  }

  /** One atomic mutation to `w` and `t`; nothing happens once the process has
      ended. */
  function Act(p: Proc, w: World, t: Tally): Proc {
    if p.progress != Going then p
    else match p.budget
      case Unbounded => Proc(w, t, Unbounded, Going)
      case Cut(n) => if n == 0 then p.(progress := Stopped) else Proc(w, t, Cut(n - 1), Going)
  }

  /** A mutation of the durable store or of the workers, which nobody counts. */
  function Mutate(p: Proc, w: World): Proc {
    Act(p, w, p.tally)
  }

  /** The code itself detects an error and returns. */
  function Refuse(p: Proc): Proc {
    if p.progress == Going then p.(progress := Refused) else p
  }

  // ---------- journal mutations (internal/store/store.go)

  function Reserve(p: Proc, e: Effect): Proc {
    if p.world.slot.Some? && Key(p.world.slot.value) != Key(e) then Refuse(p)
    else Mutate(p, p.world.(slot := Some(e)))
  }

  /** A missing row is already complete, another effect's row is kept. */
  function Clear(p: Proc, e: Effect): Proc {
    if p.world.slot.None? then p
    else if Key(p.world.slot.value) != Key(e) then Refuse(p)
    else Mutate(p, p.world.(slot := None))
  }

  /** Reservations that recognise each other after a restart: the same run and
      kind, and for each kind what distinguishes two intents of it. */
  predicate SameIntent(e: Effect, f: Effect) {
    e.run == f.run
    && match e
       case StateTransition(_, _, next, _, _, _, _) => f.StateTransition? && next.revision == f.next.revision
       case StatusCommentEdit(_, _, next) =>
         && f.StatusCommentEdit? && next.revision == f.next.revision
         && next.content.processedComment == f.next.content.processedComment
       case Checkpoint(_, commit, _, _) => f.Checkpoint? && commit == f.commit
       case PullRequestUpsert(_, _, request, _, _) =>
         && f.PullRequestUpsert? && request.body == f.request.body
         && request.head == f.request.head && request.base == f.request.base
       case PullRequestUpdate(_, number, request) =>
         f.PullRequestUpdate? && number == f.number && request.body == f.request.body
       case Acceptance(_, invocation, _, _, next, _, _) =>
         && f.Acceptance? && invocation.id == f.invocation.id && invocation.status == f.invocation.status
         && next.revision == f.next.revision
       case Resume(_, invocation, target, manual) =>
         f.Resume? && invocation.id == f.invocation.id && target == f.target && manual == f.manual
       case Clarification(_, target, _, version, _) =>
         f.Clarification? && target == f.target && version == f.version
       case StatusPublication(_, status) =>
         && f.StatusPublication? && status.sha == f.status.sha && status.context == f.status.context
         && status.state == f.status.state && status.description == f.status.description
       case BranchPush(_, branch, sha) => f.BranchPush? && branch == f.branch && sha == f.sha
  }

  /** The journal holds one intent: it refuses to reserve or to complete another
      one over it, and lets the same one be reserved again. */
  lemma SlotHoldsOneIntent(p: Proc, held: Effect, e: Effect)
    requires p.progress == Going && p.world.slot == Some(held)
    requires held.Checkpoint? ==> held.run == held.commit.run
    requires e.Checkpoint? ==> e.run == e.commit.run
    ensures Reserve(p, e).progress == Refused <==> !SameIntent(held, e)
    ensures Clear(p, e).progress == Refused <==> !SameIntent(held, e)
    ensures !SameIntent(held, e) ==> Reserve(p, e).world == Clear(p, e).world == p.world
    ensures p.budget == Unbounded && SameIntent(held, e) ==>
              && Reserve(p, e).world == p.world.(slot := Some(e))
              && Clear(p, e).world == p.world.(slot := None)
  {
  }

  // ---------- run mutations

  function SaveRun(p: Proc, next: Run): Proc {
    Mutate(p, p.world.(run := Some(next)))
  }

  predicate AtRevision(w: World, expected: int, next: Run) {
    w.run.Some? && w.run.value.id == next.id && w.run.value.revision == expected < next.revision
  }

  function SaveRunAt(p: Proc, expected: int, next: Run): Proc {
    if AtRevision(p.world, expected, next) then SaveRun(p, next) else Refuse(p)
  }

  /** A save at a revision goes through exactly when the stored run is the same one at
      the expected revision and the new revision is higher. */
  lemma SavesAtRevisionIff(p: Proc, expected: int, next: Run, all: bool)
    requires p.progress == Going && p.budget == Unbounded
    ensures var current := p.world.run;
            var due := current.Some? && current.value.id == next.id && current.value.revision == expected
                       && expected < next.revision;
            && (SaveRunAt(p, expected, next).progress == Going <==> due)
            && (SaveRunDiscarding(p, expected, next, all).progress == Going <==> due)
            && (!due ==> SaveRunAt(p, expected, next).world == p.world)
            && (!due ==> SaveRunDiscarding(p, expected, next, all).world == p.world)
            && (due ==> SaveRunAt(p, expected, next).world == p.world.(run := Some(next)))
            && (due ==> SaveRunDiscarding(p, expected, next, all).world.run == Some(next))
  {
    hide Supersede;
  }

  function Supersede(invocations: map<string, Invocation>): map<string, Invocation> {
    map id | id in invocations :: invocations[id].(status := Superseded)
  }

  function Discarded(w: World, all: bool): World {
    w.(results := Results({}, if all then {} else w.results.baseline),
       invocations := Supersede(w.invocations), unitResults := {})
  }

  function DiscardResults(p: Proc, all: bool): Proc {
    Mutate(p, Discarded(p.world, all))
  }

  function SaveRunDiscarding(p: Proc, expected: int, next: Run, all: bool): Proc {
    if AtRevision(p.world, expected, next) then Mutate(p, Discarded(p.world, all).(run := Some(next))) else Refuse(p)
  }

  function SaveInvocation(p: Proc, invocation: Invocation): Proc {
    Mutate(p, p.world.(invocations := p.world.invocations[invocation.id := invocation]))
  }

  function SaveUnitResult(p: Proc, result: string): Proc {
    Mutate(p, p.world.(unitResults := p.world.unitResults + {result}))
  }

  // ---------- workers and sessions

  function StopActiveWorkers(p: Proc): Proc {
    Mutate(p, p.world.(workers := {}))
  }

  function StopWorker(p: Proc, id: string): Proc {
    Mutate(p, p.world.(workers := p.world.workers - {id}))
  }

  function StartSession(p: Proc, launch: Launch): Proc {
    Act(p, p.world, p.tally.(launches := p.tally.launches + multiset{launch},
                             sessions := p.tally.sessions + multiset{(launch.invocation, launch.manual)}))
  }

  function FinishSession(p: Proc, invocation: string): Proc {
    Act(p, p.world, p.tally.(finishes := p.tally.finishes + multiset{invocation}))
  }

  // ---------- tracker and code host mutations

  function Counted(t: Tally): Tally {
    t.(writes := t.writes + 1)
  }

  function SetLabels(p: Proc, labels: seq<string>): Proc {
    Act(p, p.world.(labels := labels), Counted(p.tally))
  }

  /** The thread of the issue, or the one of the pull request. */
  function Thread(w: World, onPullRequest: bool): seq<Comment> {
    if onPullRequest then w.discussion else w.comments
  }

  function WithThread(w: World, onPullRequest: bool, thread: seq<Comment>): World {
    if onPullRequest then w.(discussion := thread) else w.(comments := thread)
  }

  /** An edit of a comment that does not exist fails. */
  function EditComment(p: Proc, onPullRequest: bool, id: nat, comment: Comment): Proc {
    var thread := Thread(p.world, onPullRequest);
    if id == 0 || id > |thread| then Refuse(p)
    else Act(p, WithThread(p.world, onPullRequest, thread[id - 1 := comment]), Counted(p.tally))
  }

  function CreateComment(p: Proc, onPullRequest: bool, comment: Comment): Proc {
    var t := Counted(p.tally);
    Act(p, WithThread(p.world, onPullRequest, Thread(p.world, onPullRequest) + [comment]),
        t.(posted := t.posted + multiset{(onPullRequest, comment.marker)}))
  }

  function OpenPullRequest(p: Proc, request: PullRequest): Proc {
    var t := Counted(p.tally);
    Act(p, p.world.(pullRequests := p.world.pullRequests + [request]),
        t.(pairs := t.pairs + multiset{(request.head, request.base)}))
  }

  function RewritePullRequest(p: Proc, number: nat, request: PullRequest): Proc
    requires 0 < number <= |p.world.pullRequests|
  {
    Act(p, p.world.(pullRequests := p.world.pullRequests[number - 1 := request]), Counted(p.tally))
  }

  function Push(p: Proc, branch: string): Proc {
    Act(p, p.world.(remote := p.world.remote[branch := p.world.git.head]), Counted(p.tally))
  }

  function CreateStatus(p: Proc, status: CommitStatus): Proc {
    Act(p, p.world.(statuses := p.world.statuses + [status]), Counted(p.tally))
  }

  // ---------- what is counted

  /** A process that still has a write left makes it and counts it; any other is left
      with the world and the tally it had. */
  predicate Counts(p: Proc, q: Proc, w: World, t: Tally) {
    if p.progress == Going && p.budget != Cut(0) then q.world == w && q.tally == t && q.progress == Going
    else q.world == p.world && q.tally == p.tally && q.progress != Going
  }

  /** Every comment, pull request, session and exit is counted under what names it. */
  lemma CreationsCounted(p: Proc, onPullRequest: bool, comment: Comment, request: PullRequest, launch: Launch,
                         id: string)
    ensures var w, t := p.world, p.tally;
            && Counts(p, CreateComment(p, onPullRequest, comment),
                      if onPullRequest then w.(discussion := w.discussion + [comment])
                      else w.(comments := w.comments + [comment]),
                      t.(writes := t.writes + 1, posted := t.posted + multiset{(onPullRequest, comment.marker)}))
            && Counts(p, OpenPullRequest(p, request), w.(pullRequests := w.pullRequests + [request]),
                      t.(writes := t.writes + 1, pairs := t.pairs + multiset{(request.head, request.base)}))
            && Counts(p, StartSession(p, launch), w,
                      t.(launches := t.launches + multiset{launch},
                         sessions := t.sessions + multiset{(launch.invocation, launch.manual)}))
            && Counts(p, FinishSession(p, id), w, t.(finishes := t.finishes + multiset{id}))
  {
  }

  /** Every other write to the tracker or the code host is counted once. */
  lemma WritesCounted(p: Proc, labels: seq<string>, id: nat, comment: Comment, onPullRequest: bool, number: nat,
                      request: PullRequest, branch: string, status: CommitStatus)
    requires 0 < number <= |p.world.pullRequests|
    requires 0 < id <= |if onPullRequest then p.world.discussion else p.world.comments|
    ensures var w, t := p.world, p.tally.(writes := p.tally.writes + 1);
            && Counts(p, SetLabels(p, labels), w.(labels := labels), t)
            && Counts(p, EditComment(p, onPullRequest, id, comment),
                      if onPullRequest then w.(discussion := w.discussion[id - 1 := comment])
                      else w.(comments := w.comments[id - 1 := comment]), t)
            && Counts(p, RewritePullRequest(p, number, request),
                      w.(pullRequests := w.pullRequests[number - 1 := request]), t)
            && Counts(p, Push(p, branch), w.(remote := w.remote[branch := w.git.head]), t)
            && Counts(p, CreateStatus(p, status), w.(statuses := w.statuses + [status]), t)
  {
  }

  // ---------- lookups

  /** The first comment that carries the marker, 0 when there is none. */
  function FindComment(thread: seq<Comment>, marker: Marker): (id: nat)
    ensures id <= |thread|
    ensures id > 0 ==> thread[id - 1].marker == marker && forall i :: 0 <= i < id - 1 ==> thread[i].marker != marker
    ensures id == 0 ==> forall i :: 0 <= i < |thread| ==> thread[i].marker != marker
  {
    if thread == [] then 0
    else
      var earlier := FindComment(thread[..|thread| - 1], marker);
      if earlier > 0 then earlier
      else if thread[|thread| - 1].marker == marker then |thread|
      else 0
  }

  /** The pull request of a branch pair, 0 when there is none. */
  function FindPullRequest(prs: seq<PullRequest>, head: string, base: string): (number: nat)
    ensures number <= |prs|
    ensures number > 0 ==> prs[number - 1].head == head && prs[number - 1].base == base
                           && forall i :: 0 <= i < number - 1 ==> !(prs[i].head == head && prs[i].base == base)
    ensures number == 0 ==> forall i :: 0 <= i < |prs| ==> !(prs[i].head == head && prs[i].base == base)
  {
    if prs == [] then 0
    else
      var earlier := FindPullRequest(prs[..|prs| - 1], head, base);
      var last := prs[|prs| - 1];
      if earlier > 0 then earlier
      else if last.head == head && last.base == base then |prs|
      else 0
  }
}
