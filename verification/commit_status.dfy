/** Branch pushes and exact-commit statuses (internal/effect/push.go,
    internal/effect/commit_status.go). */
module CommitStatuses {
  import opened Options
  import opened Spaces
  import opened EffectWorld
  import opened RunProjection

  function RemoteHead(w: World, branch: string): nat {
    if branch in w.remote then w.remote[branch] else 0
  }

  /** Observes the remote head where the workspace can, then the local one, before
      it pushes. Commit 0 stands for an empty expectation. */
  function PushOnce(env: Adapters, p: Proc, branch: string, sha: nat): Proc {
    if env.inspectsRemote && sha != 0 && RemoteHead(p.world, branch) == sha then p
    else if sha != 0 && p.world.git.head != sha then Refuse(p)
    else Push(p, branch)
  }

  function PushBranch(env: Adapters, p: Proc, run: string, branch: string, sha: nat): Proc {
    var e := BranchPush(run, branch, sha);
    Clear(PushOnce(env, Reserve(p, e), branch, sha), e)
  }

  function ReplayPush(env: Adapters, p: Proc, e: Effect): Proc
    requires e.BranchPush?
  {
    Clear(PushOnce(env, p, e.branch, e.sha), e)
  }

  /** Every semantic field must agree; the host's own identity does not count. */
  function CreateUnlessListed(p: Proc, status: CommitStatus): Proc {
    if status in p.world.statuses then p else CreateStatus(p, status)
  }

  /** A first publication looks at the listed statuses where it can. */
  function CreateFirst(env: Adapters, p: Proc, status: CommitStatus): Proc {
    if env.readsStatuses then CreateUnlessListed(p, status) else CreateStatus(p, status)
  }

  function Publish(env: Adapters, p: Proc, run: string, status: CommitStatus): Proc {
    var e := StatusPublication(run, status);
    Clear(CreateFirst(env, Reserve(p, e), status), e)
  }

  predicate OwnCheckpoint(run: Run, sha: nat) {
    sha != 0 && sha == run.content.checkpoint && TrimSpace(run.content.branch) != ""
  }

  /** A replay demands a reader. Before it looks at the statuses of the run's own
      checkpoint, the remote branch is at that checkpoint. */
  function Replay(env: Adapters, p: Proc, e: Effect): Proc
    requires e.StatusPublication?
  {
    if !env.readsStatuses || p.world.run.None? then Refuse(p)
    else
      var run := p.world.run.value;
      var s := if OwnCheckpoint(run, e.status.sha) then PushOnce(env, p, run.content.branch, e.status.sha) else p;
      Clear(CreateUnlessListed(s, e.status), e)
  }

  // ---------- properties

  predicate Distinct(statuses: seq<CommitStatus>) {
    forall i, j :: 0 <= i < j < |statuses| ==> statuses[i] != statuses[j]
  }

  function Listed(w: World, status: CommitStatus): World {
    if status in w.statuses then w else w.(statuses := w.statuses + [status])
  }

  lemma ListingLands(p: Proc, status: CommitStatus)
    ensures var q := CreateUnlessListed(p, status);
            && q.world in {p.world, Listed(p.world, status)}
            && (p.progress == Going ==> Lands(p, q, Listed(p.world, status)))
            && (p.progress != Going ==> q == p)
    ensures Distinct(p.world.statuses) ==> Distinct(Listed(p.world, status).statuses)
  {}

  predicate Pushable(env: Adapters, w: World, branch: string, sha: nat) {
    sha == 0 || sha == w.git.head || (env.inspectsRemote && sha == RemoteHead(w, branch))
  }

  function Pushed(w: World, branch: string, sha: nat): World {
    if sha != 0 && RemoteHead(w, branch) == sha then w else w.(remote := w.remote[branch := w.git.head])
  }

  /** A push to an expected commit leaves the remote there, or does nothing. */
  lemma PushLands(env: Adapters, p: Proc, branch: string, sha: nat)
    ensures var q := PushOnce(env, p, branch, sha);
            && (p.progress == Going && Pushable(env, p.world, branch, sha) ==>
                Lands(p, q, Pushed(p.world, branch, sha)))
            && (q.world != p.world ==> q.world == Pushed(p.world, branch, sha) && Pushable(env, p.world, branch, sha))
            && (q.progress == Going && sha != 0 ==> RemoteHead(q.world, branch) == sha)
            && (p.progress != Going ==> q == p)
  {
    assert sha != 0 && RemoteHead(p.world, branch) == sha ==> p.world.remote[branch := sha] == p.world.remote;
  }

  lemma ClearKeepsHost(p: Proc, e: Effect)
    ensures Clear(p, e).world == p.world.(slot := Clear(p, e).world.slot)
    ensures p.progress != Going ==> Clear(p, e) == p
  {
    hide Key;
  }

  /** A replay creates a status of the run's own checkpoint only once the remote
      branch is that commit, pushes only a local head that is that commit, and
      leaves no status twice. It pushes nothing for any other commit or without a
      branch. */
  lemma ReplayPublishesAfterCommit(env: Adapters, p: Proc, e: Effect)
    requires e.StatusPublication? && p.world.run.Some?
    ensures var q, sha, content := Replay(env, p, e), e.status.sha, p.world.run.value.content;
            var own := sha != 0 && sha == content.checkpoint && TrimSpace(content.branch) != "";
            && (own && q.world.statuses != p.world.statuses ==>
                  content.branch in q.world.remote && q.world.remote[content.branch] == sha)
            && (!own ==> q.world.remote == p.world.remote)
            && (own && q.world.remote != p.world.remote ==>
                  p.world.git.head == sha && q.world.remote == p.world.remote[content.branch := sha])
            && q.world.statuses in {p.world.statuses, p.world.statuses + [e.status]}
            && (Distinct(p.world.statuses) ==> Distinct(q.world.statuses))
  {
    hide Clear, PushOnce, CreateUnlessListed, Distinct;
    var run := p.world.run.value;
    var s := if OwnCheckpoint(run, e.status.sha) then PushOnce(env, p, run.content.branch, e.status.sha) else p;
    PushLands(env, p, run.content.branch, e.status.sha);
    ListingLands(s, e.status);
    ClearKeepsHost(CreateUnlessListed(s, e.status), e);
  }

  /** The first publication keeps statuses distinct exactly when it does not create
      one blindly that is there already. */
  lemma PublishKeepsDistinct(env: Adapters, p: Proc, run: string, status: CommitStatus)
    ensures var q := Publish(env, p, run, status);
            && q.world.statuses in {p.world.statuses, p.world.statuses + [status]}
            && (Distinct(p.world.statuses) ==>
                  (Distinct(q.world.statuses) <==>
                    env.readsStatuses || status !in p.world.statuses || q.world.statuses == p.world.statuses))
  {
    hide Key, Clear, CreateUnlessListed;
    var r := Reserve(p, StatusPublication(run, status));
    ListingLands(r, status);
    BlindListing(r, status);
    ClearKeepsHost(CreateFirst(env, r, status), StatusPublication(run, status));
  }

  lemma BlindListing(p: Proc, status: CommitStatus)
    ensures var q := CreateStatus(p, status);
            && q.world in {p.world, p.world.(statuses := p.world.statuses + [status])}
            && (p.progress != Going ==> q == p)
    ensures Distinct(p.world.statuses) ==> (Distinct(p.world.statuses + [status]) <==> status !in p.world.statuses)
  {
    var s := p.world.statuses + [status];
    if status in p.world.statuses {
      var i :| 0 <= i < |p.world.statuses| && p.world.statuses[i] == status;
      assert s[i] == s[|p.world.statuses|];
    }
  }

  /** A push effect resumes wherever it is cut, as long as the local head is
      still the expected commit. */
  lemma PushResumes(env: Adapters, p: Proc, b: Budget, e: Effect)
    requires e.BranchPush? && p.world.slot == Some(e) && Pushable(env, p.world, e.branch, e.sha)
    ensures var full, q := ReplayPush(env, Restart(p, Unbounded), e), ReplayPush(env, Restart(p, b), e);
            && Resumes(full, q, ReplayPush(env, Restart(q, Unbounded), e), e)
            && (q.progress != Going ==> Pushable(env, q.world, e.branch, e.sha))
  {
    hide Key;
  }

  /** The commit of an own checkpoint is here or already published. */
  predicate Publishable(env: Adapters, w: World, e: Effect)
    requires e.StatusPublication?
  {
    && env.readsStatuses && w.run.Some?
    && (OwnCheckpoint(w.run.value, e.status.sha) ==> Pushable(env, w, w.run.value.content.branch, e.status.sha))
  }

  /** A status effect resumes too, provided that the commit of an own checkpoint
      is here or already published. */
  lemma StatusResumes(env: Adapters, p: Proc, b: Budget, e: Effect)
    requires e.StatusPublication? && p.world.slot == Some(e) && Publishable(env, p.world, e)
    ensures var full, q := Replay(env, Restart(p, Unbounded), e), Replay(env, Restart(p, b), e);
            && Resumes(full, q, Replay(env, Restart(q, Unbounded), e), e)
            && (q.progress != Going ==> Publishable(env, q.world, e))
  {
    hide Replay, Pushed, Pushable, Listed, OwnCheckpoint;
    Reaches(env, p, Unbounded, e);
    Reaches(env, p, b, e);
    StatusSettles(env, p.world, e);
    var q := Replay(env, Restart(p, b), e);
    if q.progress != Going {
      Reaches(env, q, Unbounded, e);
    }
  }

  function Published(w: World, e: Effect): World
    requires e.StatusPublication? && w.run.Some?
  {
    if OwnCheckpoint(w.run.value, e.status.sha) then Pushed(w, w.run.value.content.branch, e.status.sha) else w
  }

  lemma StatusSettles(env: Adapters, w: World, e: Effect)
    requires e.StatusPublication? && Publishable(env, w, e)
    ensures forall v :: v in {w, Published(w, e), Listed(Published(w, e), e.status)} ==>
              && v.slot == w.slot && Publishable(env, v, e)
              && Listed(Published(v, e), e.status) == Listed(Published(w, e), e.status)
  {}

  lemma Reaches(env: Adapters, p: Proc, b: Budget, e: Effect)
    requires e.StatusPublication? && p.world.slot == Some(e) && Publishable(env, p.world, e)
    ensures var q, w := Replay(env, Restart(p, b), e), Published(p.world, e);
            && (q.progress == Going ==> q.world == Listed(w, e.status).(slot := None))
            && (q.progress != Going ==> q.world in {p.world, w, Listed(w, e.status)})
            && (b == Unbounded ==> q.progress == Going)
  {
    hide Clear, PushOnce, CreateUnlessListed, Pushable, OwnCheckpoint, Distinct;
    var run := p.world.run.value;
    var s :=
      if OwnCheckpoint(run, e.status.sha) then PushOnce(env, Restart(p, b), run.content.branch, e.status.sha)
      else Restart(p, b);
    PushLands(env, Restart(p, b), run.content.branch, e.status.sha);
    ListingLands(s, e.status);
    var c := CreateUnlessListed(s, e.status);
    ClearKeepsHost(c, e);
    if c.progress == Going {
      ClearLands(c, e);
    }
  }
}
