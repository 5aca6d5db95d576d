/** The coordinator's clarification questions on one issue or pull request
    (internal/effect/clarification.go). */
module Clarifications {
  import opened Options
  import opened EffectWorld
  import opened IssueProjection
  import opened RunProjection

  /** Observes the marker and repairs the body before it creates a comment. */
  function FindOrCreate(p: Proc, onPullRequest: bool, question: Comment): Proc {
    var thread := Thread(p.world, onPullRequest);
    var found := FindComment(thread, question.marker);
    if found == 0 then CreateComment(p, onPullRequest, question)
    else if thread[found - 1].body == question.body then p
    else EditComment(p, onPullRequest, found, question)
  }

  function Identity(thread: seq<Comment>, marker: Marker): nat {
    var found := FindComment(thread, marker);
    if found > 0 then found else |thread| + 1
  }

  function Question(e: Effect): Comment
    requires e.Clarification?
  {
    Comment(ClarificationMarker(e.run, e.version), e.body)
  }

  /** `publish` over the caller's copy of the run. */
  function Publish(p: Proc, copy: Run, target: nat, onPullRequest: bool, version: nat, body: string): Proc {
    var e := Clarification(copy.id, target, onPullRequest, version, body);
    var r := Reserve(p, e);
    var id := Identity(Thread(r.world, onPullRequest), Question(e).marker);
    Clear(SaveRun(FindOrCreate(r, onPullRequest, Question(e)), copy.(clarificationComment := id)), e)
  }

  function Replay(p: Proc, e: Effect): Proc
    requires e.Clarification?
  {
    if p.world.run.None? then Refuse(p)
    else
      var id := Identity(Thread(p.world, e.onPullRequest), Question(e).marker);
      Clear(SaveRun(FindOrCreate(p, e.onPullRequest, Question(e)), p.world.run.value.(clarificationComment := id)), e)
  }

  // ---------- where a replay ends

  function Asked(thread: seq<Comment>, question: Comment): seq<Comment> {
    var found := FindComment(thread, question.marker);
    if found > 0 then thread[found - 1 := question] else thread + [question]
  }

  function Published(w: World, e: Effect): World
    requires e.Clarification?
  {
    WithThread(w, e.onPullRequest, Asked(Thread(w, e.onPullRequest), Question(e)))
  }

  function Identified(w: World, e: Effect): World
    requires e.Clarification? && w.run.Some?
  {
    var id := Identity(Thread(w, e.onPullRequest), Question(e).marker);
    Published(w, e).(run := Some(w.run.value.(clarificationComment := id)))
  }

  lemma AskedSettles(thread: seq<Comment>, question: Comment)
    ensures var after := Asked(thread, question);
            && Asked(after, question) == after
            && Identity(after, question.marker) == Identity(thread, question.marker)
  {
    if FindComment(thread, question.marker) > 0 {
      FoundAfterEdit(thread, FindComment(thread, question.marker), question);
    } else {
      FoundAfterPost(thread, question);
    }
  }

  lemma AskingLands(p: Proc, e: Effect)
    requires e.Clarification? && p.progress == Going
    ensures Lands(p, FindOrCreate(p, e.onPullRequest, Question(e)), Published(p.world, e))
  {}

  lemma Reaches(p: Proc, b: Budget, e: Effect)
    requires e.Clarification? && p.world.slot == Some(e) && p.world.run.Some?
    ensures var q := Replay(Restart(p, b), e);
            && (q.progress == Going ==> q.world == Identified(p.world, e).(slot := None))
            && (q.progress != Going ==> q.world in {p.world, Published(p.world, e), Identified(p.world, e)})
            && (b == Unbounded ==> q.progress == Going)
  {
    hide FindComment, FindOrCreate, Asked, Identity, Key;
    AskingLands(Restart(p, b), e);
  }

  lemma ReplayResumes(p: Proc, b: Budget, e: Effect)
    requires e.Clarification? && p.world.slot == Some(e) && p.world.run.Some?
    ensures var full, q := Replay(Restart(p, Unbounded), e), Replay(Restart(p, b), e);
            && Resumes(full, q, Replay(Restart(q, Unbounded), e), e)
            && (q.progress != Going ==> q.world.run.Some?)
  {
    hide Replay, FindComment, Asked, Identity;
    Reaches(p, Unbounded, e);
    Reaches(p, b, e);
    AskedSettles(Thread(p.world, e.onPullRequest), Question(e));
    var q := Replay(Restart(p, b), e);
    if q.progress != Going {
      Reaches(q, Unbounded, e);
    }
  }

  /** Publishing over a current copy is replaying the reservation. */
  lemma PublishIsReplay(p: Proc, copy: Run, target: nat, onPullRequest: bool, version: nat, body: string)
    requires p.progress == Going && p.world.run == Some(copy)
    ensures var e := Clarification(copy.id, target, onPullRequest, version, body);
            var r := Reserve(p, e);
            Publish(p, copy, target, onPullRequest, version, body) == if r.progress == Going then Replay(r, e) else r
  {
    hide FindComment, Key;
  }
}
