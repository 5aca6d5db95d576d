/** A command's watermark together with the comment that publishes it
    (internal/effect/status_comment.go). */
module StatusComments {
  import opened Options
  import opened EffectWorld
  import opened IssueProjection
  import opened RunProjection

  /** Saves a missing watermark; a stored run at or past the revision must
      belong to the same command. */
  function Watermark(p: Proc, previous: Run, next: Run): Proc {
    match p.world.run
    case None => Refuse(p)
    case Some(current) =>
      var sameCommand := current.content.processedComment == next.content.processedComment;
      if current.revision < next.revision then
        if current.revision != previous.revision then Refuse(p) else SaveRunAt(p, previous.revision, next)
      else if current.revision == next.revision then
        if sameCommand && current.content.lastCommand == next.content.lastCommand then p else Refuse(p)
      else if sameCommand then p
      else Refuse(p)
  }

  function Act(env: Adapters, p: Proc, e: Effect): Proc
    requires e.StatusCommentEdit?
  {
    Clear(ApplyStatusComment(env, Watermark(p, e.previous, e.next), e.next), e)
  }

  function Persist(env: Adapters, p: Proc, previous: Run, next: Run): Proc {
    var e := StatusCommentEdit(next.id, previous, next);
    Act(env, Reserve(p, e), e)
  }

  /** A replay does what the first attempt did. */
  function Replay(env: Adapters, p: Proc, e: Effect): Proc
    requires e.StatusCommentEdit?
  {
    Act(env, p, e)
  }

  // ---------- where a replay ends

  function Marked(w: World, next: Run): World {
    if w.run.Some? && w.run.value.revision >= next.revision then w else w.(run := Some(next))
  }

  predicate Shown(comments: seq<Comment>, comment: Comment) {
    var found := FindComment(comments, comment.marker);
    found > 0 && comments[found - 1].body == comment.body
  }

  function Edited(env: Adapters, w: World, next: Run): World {
    var comment := StatusComment(env, next);
    if Shown(w.comments, comment) || next.statusComment == 0 || next.statusComment > |w.comments| then w
    else w.(comments := w.comments[next.statusComment - 1 := comment])
  }

  /** The stored run is where the command started, or carries the command. */
  predicate SameCommand(run: Option<Run>, previous: Run, next: Run) {
    && run.Some?
    && (run.value.revision < next.revision ==> run.value.revision == previous.revision && run.value.id == next.id)
    && (run.value.revision >= next.revision ==> run.value.content.processedComment == next.content.processedComment)
    && (run.value.revision == next.revision ==> run.value.content.lastCommand == next.content.lastCommand)
  }

  /** The marked comment shows the run already, or the recorded comment exists
      and no other one is marked. */
  predicate Editable(comments: seq<Comment>, next: Run, comment: Comment) {
    && next.statusComment > 0
    && (Shown(comments, comment)
        || (next.statusComment <= |comments| && FindComment(comments, comment.marker) in {0, next.statusComment}))
  }

  predicate Replayable(env: Adapters, w: World, e: Effect)
    requires e.StatusCommentEdit?
  {
    && w.slot == Some(e)
    && SameCommand(w.run, e.previous, e.next)
    && Editable(w.comments, e.next, StatusComment(env, e.next))
  }

  lemma WatermarkLands(p: Proc, previous: Run, next: Run)
    requires p.progress == Going && SameCommand(p.world.run, previous, next)
    ensures Lands(p, Watermark(p, previous, next), Marked(p.world, next))
  {}

  lemma EditLands(env: Adapters, p: Proc, next: Run)
    requires p.progress == Going && Editable(p.world.comments, next, StatusComment(env, next))
    ensures Lands(p, ApplyStatusComment(env, p, next), Edited(env, p.world, next))
  {
    hide FindComment;
  }

  lemma EndedStays(env: Adapters, p: Proc, e: Effect)
    requires e.StatusCommentEdit? && p.progress != Going
    ensures Watermark(p, e.previous, e.next) == ApplyStatusComment(env, p, e.next) == Clear(p, e) == p
  {
    hide FindComment, Key;
  }

  /** A first attempt is a replay of its reservation. */
  lemma PersistIsReplay(env: Adapters, p: Proc, previous: Run, next: Run)
    ensures var e := StatusCommentEdit(next.id, previous, next);
            var r := Reserve(p, e);
            Persist(env, p, previous, next) == if r.progress == Going then Replay(env, r, e) else r
  {
    hide FindComment, Key, Watermark, ApplyStatusComment, Clear, Reserve;
    var e := StatusCommentEdit(next.id, previous, next);
    var r := Reserve(p, e);
    if r.progress != Going {
      EndedStays(env, r, e);
    }
  }

  /** Where a replay ends, and where it can be cut: before the watermark, before
      the edit, or before the acknowledgement. */
  lemma Reaches(env: Adapters, p: Proc, b: Budget, e: Effect)
    requires e.StatusCommentEdit? && Replayable(env, p.world, e)
    ensures var q, marked := Replay(env, Restart(p, b), e), Marked(p.world, e.next);
            && (q.progress == Going ==> q.world == Edited(env, marked, e.next).(slot := None))
            && (q.progress != Going ==> q.world in {p.world, marked, Edited(env, marked, e.next)})
            && (b == Unbounded ==> q.progress == Going)
  {
    hide FindComment, Watermark, ApplyStatusComment, Clear, Key;
    var m := Watermark(Restart(p, b), e.previous, e.next);
    WatermarkLands(Restart(p, b), e.previous, e.next);
    if m.progress != Going {
      EndedStays(env, m, e);
    } else {
      var c := ApplyStatusComment(env, m, e.next);
      EditLands(env, m, e.next);
      if c.progress != Going {
        EndedStays(env, c, e);
      } else {
        ClearLands(c, e);
      }
    }
  }

  lemma WatermarkIff(p: Proc, previous: Run, next: Run)
    requires p.progress == Going && p.budget == Unbounded
    ensures var m := Watermark(p, previous, next);
            && (m.progress == Going <==> SameCommand(p.world.run, previous, next))
            && m.world == p.world.(run := m.world.run)
            && m.budget == Unbounded
  {}

  lemma EditIff(env: Adapters, p: Proc, next: Run)
    requires p.progress == Going && p.budget == Unbounded
    ensures var c := ApplyStatusComment(env, p, next);
            && (c.progress == Going <==> Editable(p.world.comments, next, StatusComment(env, next)))
            && c.world.slot == p.world.slot
            && c.budget == Unbounded
  {
    hide FindComment;
  }

  lemma ClearUncut(p: Proc, e: Effect)
    requires p.progress == Going && p.budget == Unbounded && p.world.slot == Some(e)
    ensures Clear(p, e).progress == Going
  {
    hide Key;
  }

  /** A full replay completes exactly when the run and the comment allow it. */
  lemma CompletesIff(env: Adapters, p: Proc, e: Effect)
    requires e.StatusCommentEdit? && p.world.slot == Some(e)
    ensures Replay(env, Restart(p, Unbounded), e).progress == Going <==> Replayable(env, p.world, e)
  {
    hide FindComment, Watermark, ApplyStatusComment, Clear, SameCommand, Editable;
    var q := Restart(p, Unbounded);
    WatermarkIff(q, e.previous, e.next);
    var m := Watermark(q, e.previous, e.next);
    if m.progress != Going {
      EndedStays(env, m, e);
    } else {
      EditIff(env, m, e.next);
      var c := ApplyStatusComment(env, m, e.next);
      if c.progress != Going {
        EndedStays(env, c, e);
      } else {
        ClearUncut(c, e);
      }
    }
  }

  lemma ReplayResumes(env: Adapters, p: Proc, b: Budget, e: Effect)
    requires e.StatusCommentEdit? && Replayable(env, p.world, e)
    ensures var full, q := Replay(env, Restart(p, Unbounded), e), Replay(env, Restart(p, b), e);
            && Resumes(full, q, Replay(env, Restart(q, Unbounded), e), e)
            && (q.progress != Going ==> Replayable(env, q.world, e))
  {
    hide Replay, FindComment;
    Reaches(env, p, Unbounded, e);
    Reaches(env, p, b, e);
    var q, comment := Replay(env, Restart(p, b), e), StatusComment(env, e.next);
    if q.progress != Going {
      if 0 < e.next.statusComment <= |p.world.comments| {
        FoundAfterEdit(p.world.comments, e.next.statusComment, comment);
      }
      Reaches(env, q, Unbounded, e);
    }
  }
}
