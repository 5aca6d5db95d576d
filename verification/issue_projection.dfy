/** The issue projection shared by every effect that advances a run
    (internal/effect/issue_projection.go): the state label and the one editable
    status comment, each observed before it is written. */
module IssueProjection {
  import opened EffectWorld
  import opened Labels

  /** What the code decides to do after it has observed the comments. */
  datatype CommentWrite = Keep | Edit(id: nat) | Post | Unrecoverable

  /** The identity the projection leaves in the run: the marked comment when one
      is to be created or adopted, otherwise the recorded one, otherwise the
      marked one. */
  function StatusIdentity(comments: seq<Comment>, next: Run, create: bool): nat {
    var found := FindComment(comments, StatusMarker(next.id));
    if create then (if found > 0 then found else |comments| + 1)
    else if next.statusComment > 0 then next.statusComment
    else found
  }

  function Decide(comments: seq<Comment>, next: Run, create: bool, body: string): CommentWrite {
    var found := FindComment(comments, StatusMarker(next.id));
    var same := found > 0 && comments[found - 1].body == body;
    if create then
      if found == 0 then Post else if same then Keep else Edit(found)
    else
      var id := StatusIdentity(comments, next, create);
      if id == 0 then Unrecoverable
      else if found == id && same then Keep
      else Edit(id)
  }

  function Written(comments: seq<Comment>, write: CommentWrite, comment: Comment): seq<Comment> {
    match write
    case Edit(id) => if 0 < id <= |comments| then comments[id - 1 := comment] else comments
    case Post => comments + [comment]
    case Keep => comments
    case Unrecoverable => comments
  }

  function ProjectLabels(p: Proc, next: Run): Proc {
    var desired := StateLabels(p.world.labels, next.content.status);
    if p.world.labels == desired then p else SetLabels(p, desired)
  }

  function ProjectComment(env: Adapters, p: Proc, next: Run, create: bool): Proc {
    var comment := StatusComment(env, next);
    match Decide(p.world.comments, next, create, comment.body)
    case Keep => p
    case Edit(id) => EditComment(p, false, id, comment)
    case Post => CreateComment(p, false, comment)
    case Unrecoverable => Refuse(p)
  }

  /** Labels first, then the comment. */
  function ApplyStateTransition(env: Adapters, p: Proc, next: Run, create: bool): Proc {
    ProjectComment(env, ProjectLabels(p, next), next, create)
  }

  /** The run a caller goes on with after the projection. */
  function Identified(w: World, next: Run, create: bool): Run {
    next.(statusComment := StatusIdentity(w.comments, next, create))
  }

  /** The comment edit of a command projection. */
  function ApplyStatusComment(env: Adapters, p: Proc, next: Run): Proc {
    var comment := StatusComment(env, next);
    var found := FindComment(p.world.comments, StatusMarker(next.id));
    var same := found > 0 && p.world.comments[found - 1].body == comment.body;
    if next.statusComment == 0 then Refuse(p)
    else if found == next.statusComment && same then p
    else if found > 0 && found != next.statusComment then (if same then p else Refuse(p))
    else EditComment(p, false, next.statusComment, comment)
  }

  // ---------- laws of the lookup

  lemma FoundAt(thread: seq<Comment>, marker: Marker, id: nat)
    requires 0 < id <= |thread| && thread[id - 1].marker == marker
    requires forall i :: 0 <= i < id - 1 ==> thread[i].marker != marker
    ensures FindComment(thread, marker) == id
  {
    var f := FindComment(thread, marker);
  }

  lemma FoundAfterPost(thread: seq<Comment>, comment: Comment)
    requires FindComment(thread, comment.marker) == 0
    ensures FindComment(thread + [comment], comment.marker) == |thread| + 1
  {
    forall i | 0 <= i < |thread| ensures (thread + [comment])[i].marker != comment.marker {
      assert thread[i].marker != comment.marker;
    }
    FoundAt(thread + [comment], comment.marker, |thread| + 1);
  }

  /** An edited comment is found unless an earlier one carries the marker. */
  lemma FoundAfterEdit(thread: seq<Comment>, id: nat, comment: Comment)
    requires 0 < id <= |thread|
    ensures var f := FindComment(thread, comment.marker);
            FindComment(thread[id - 1 := comment], comment.marker) == if 0 < f < id then f else id
  {
    var f := FindComment(thread, comment.marker);
    var edited := thread[id - 1 := comment];
    var k := if 0 < f < id then f else id;
    forall i | 0 <= i < k - 1 ensures edited[i].marker != comment.marker {
      assert edited[i] == thread[i];
      assert thread[i].marker != comment.marker;
    }
    FoundAt(edited, comment.marker, k);
  }

  // ---------- laws of the comment projection

  /** The status comment of a run exists or may be created. */
  predicate Recoverable(comments: seq<Comment>, next: Run, create: bool) {
    create || 0 < StatusIdentity(comments, next, create) <= |comments|
  }

  function Projected(comments: seq<Comment>, next: Run, create: bool, comment: Comment): seq<Comment> {
    Written(comments, Decide(comments, next, create, comment.body), comment)
  }

  /** Projecting again finds the same comment and leaves the thread as it is;
      a run that recorded the identity meanwhile sees the same. */
  lemma CommentSettles(comments: seq<Comment>, next: Run, create: bool, comment: Comment)
    requires comment.marker == StatusMarker(next.id)
    requires Recoverable(comments, next, create)
    ensures var after, id := Projected(comments, next, create, comment), StatusIdentity(comments, next, create);
            && 0 < id <= |after| && after[id - 1] == comment
            && StatusIdentity(after, next, create) == id
            && Recoverable(after, next, create)
            && Projected(after, next, create, comment) == after
            && (var known := next.(statusComment := id);
                && StatusIdentity(after, known, create) == id
                && Recoverable(after, known, create)
                && Projected(after, known, create, comment) == after)
  {
    hide FindComment;
    var write, found := Decide(comments, next, create, comment.body), FindComment(comments, comment.marker);
    if write.Post? {
      FoundAfterPost(comments, comment);
    } else if write.Edit? {
      FoundAfterEdit(comments, write.id, comment);
    }
  }

  predicate Foremost(comments: seq<Comment>, marker: Marker, k: nat) {
    && 0 < k <= |comments| && comments[k - 1].marker == marker
    && forall i :: 0 <= i < k - 1 ==> comments[i].marker != marker
  }

  /** Which comment a projection writes: one that is to be created is posted unless
      the marker is there already; otherwise a recorded comment is edited, marked or
      not, and without a record the first marked one. */
  lemma CommentGoes(comments: seq<Comment>, next: Run, create: bool, comment: Comment)
    requires comment.marker == StatusMarker(next.id)
    requires Recoverable(comments, next, create)
    ensures var after, id := Projected(comments, next, create, comment), StatusIdentity(comments, next, create);
            && (!create && next.statusComment > 0 ==> id == next.statusComment)
            && (create || next.statusComment == 0 ==>
                  forall k: nat :: Foremost(comments, StatusMarker(next.id), k) ==> id == k)
            && (id > |comments| <==> create && forall c :: c in comments ==> c.marker != StatusMarker(next.id))
            && after == if id > |comments| then comments + [comment] else comments[id - 1 := comment]
  {
    hide FindComment;
    var found := FindComment(comments, StatusMarker(next.id));
    if found > 0 {
      assert comments[found - 1] in comments;
    }
  }

  /** A projection refuses exactly when it may not create a comment and none is
      recorded or marked, or the recorded one does not exist. */
  lemma CommentRefusedIff(env: Adapters, p: Proc, next: Run, create: bool)
    requires p.progress == Going && p.budget == Unbounded
    ensures ProjectComment(env, p, next, create).progress == Refused <==>
            && !create
            && (next.statusComment > |p.world.comments|
                || (next.statusComment == 0 && forall c :: c in p.world.comments ==> c.marker != StatusMarker(next.id)))
  {
    hide FindComment;
    var comments := p.world.comments;
    var found := FindComment(comments, StatusMarker(next.id));
    if found > 0 {
      assert comments[found - 1] in comments;
    }
  }

  lemma SameIdentity(comments: seq<Comment>, a: Run, b: Run)
    requires a.id == b.id && a.statusComment == b.statusComment
    ensures StatusIdentity(comments, a, false) == StatusIdentity(comments, b, false)
    ensures Recoverable(comments, a, false) <==> Recoverable(comments, b, false)
  {
    hide FindComment;
  }

  lemma SameIdentified(w: World, v: World, next: Run, create: bool)
    requires w.comments == v.comments
    ensures Identified(w, next, create) == Identified(v, next, create)
  {
  }

  lemma ProjectionIdle(env: Adapters, p: Proc, next: Run, create: bool)
    requires p.progress != Going
    ensures ProjectLabels(p, next) == ProjectComment(env, p, next, create)
            == ApplyStateTransition(env, p, next, create) == p
  {
    hide FindComment, Decide, StateLabels;
  }
}
