/** One concrete input for each way in which the journal and the body merge fall
    short of their promise. */
module FailingInputs {
  import opened Options
  import opened EffectWorld
  import opened Labels
  import opened IssueProjection
  import opened RunProjection
  import ST = StateTransitions
  import CP = Checkpoints
  import RA = ResultAcceptances
  import HR = HarnessResumes
  import SR = SameRevisions
  import AR = AcceptedReports
  import PB = PullRequestBodies

  const CONTENT: Content := Content(Active, 1, 0, 0, 0, "", "", "", "branch", "")

  const EMPTY_TALLY: Tally := Tally(0, multiset{}, multiset{}, multiset{}, multiset{}, multiset{})

  function Env(atomicSeam: bool): Adapters {
    Adapters((id: string, c: Content) => c.details, (n: nat) => "", atomicSeam, true, true)
  }

  /** A run at a revision with its recorded comment. */
  function RunAt(revision: int, comment: nat, details: string): Run {
    Run("r", revision, comment, 0, CONTENT.(details := details))
  }

  /** An issue with the run's status comment and one live invocation. */
  function Start(comment: nat, git: Git): World {
    World(Some(RunAt(1, comment, "")), None, Results({"checked"}, {}), map["i" := Invocation("i", Live, "s", 1, 0)], {},
          ["agent-running"], [Comment(StatusMarker("r"), "")], [], [], git, map[], [], {})
  }

  const CLEAN: Git := Git(1, None, false, false)

  lemma MarkedFirst(comment: nat, git: Git)
    ensures FindComment(Start(comment, git).comments, StatusMarker("r")) == 1
  {
  }

  /** A repair command on a run that has not recorded its status comment: the replay
      records the identity that the uninterrupted apply does not. */
  lemma RepairWithoutComment() returns (env: Adapters, p: Proc, t: ST.Transition)
    ensures t.persistBefore && !t.invalidate && !t.invalidateAll && env.atomicSeam
    ensures p.world.run.Some? && p.world.run.value.statusComment == 0
    ensures ST.Ready(p.world, t) && !ST.CutConverges(env, p, t, 1)
  {
    env, p := Env(true), Proc(Start(0, CLEAN), EMPTY_TALLY, Unbounded, Going);
    t := ST.Transition(RunAt(1, 0, ""), RunAt(2, 0, "repair"), false, false, true, false, false);
    MarkedFirst(0, CLEAN);
    hide FindComment, ST.CutConverges;
    ST.PersistFirstDiverges(env, p, t);
  }

  /** A store without the transaction: a cut between saving and discarding keeps the
      superseded result. */
  lemma DiscardInTwoSteps() returns (env: Adapters, p: Proc, t: ST.Transition, n: nat)
    ensures !t.persistBefore && t.invalidate && !env.atomicSeam
    ensures ST.Ready(p.world, t) && !ST.CutConverges(env, p, t, n)
  {
    env, p := Env(false), Proc(Start(1, CLEAN), EMPTY_TALLY, Unbounded, Going);
    t := ST.Transition(RunAt(1, 1, ""), RunAt(2, 1, "refresh"), false, false, false, true, false);
    n := ST.UpToSave(env, p.world, t);
    MarkedFirst(1, CLEAN);
    hide FindComment, ST.CutConverges, ST.UpToSave;
    assert Discarding(p.world, ST.ScopeOf(t)).results != p.world.results;
    ST.TwoStepDiverges(env, p, t);
  }

  /** A commit of selected paths beside other changes. */
  lemma ScopedCommit() returns (env: Adapters, p: Proc, e: Effect)
    ensures e.Checkpoint? && !e.commit.allPaths && CP.Replayable(p.world, e)
    ensures var q := CP.Replay(env, Restart(p, Cut(1)), e);
            !Resumes(CP.Replay(env, Restart(p, Unbounded), e), q, CP.Replay(env, Restart(q, Unbounded), e), e)
  {
    env := Env(true);
    var git := Git(1, None, true, true);
    e := Checkpoint("r", CheckpointRequest("r", 1, TestCheckpoint, false), RunAt(1, 1, ""), RunAt(2, 1, ""));
    p := Proc(Start(1, git).(slot := Some(e)), EMPTY_TALLY, Unbounded, Going);
    MarkedFirst(1, git);
    hide FindComment, CP.Replay;
    CP.LeftoverBlocks(env, p, e);
  }

  function Report(revision: int, details: string): RA.Request {
    RA.Request(Invocation("i", Finished("done"), "s", 1, 0), "w", RunAt(1, 1, ""), RunAt(revision, 1, details),
               true, None)
  }

  /** A report accepted again after its exit was delivered. */
  lemma AcceptedAgain() returns (env: Adapters, p: Proc, a: RA.Request)
    ensures p.tally.finishes["i"] == 0
    ensures RA.Accept(env, Restart(RA.Accept(env, Restart(p, Cut(3)), a), Unbounded), a).tally.finishes["i"] == 2
  {
    env, a := Env(true), Report(2, "");
    p := Proc(Start(1, CLEAN), EMPTY_TALLY, Unbounded, Going);
    MarkedFirst(1, CLEAN);
    hide FindComment, ApplyStateTransition, RA.Accept;
    StoppedBeforeWorker(env, p, a);
    RA.AcceptingAgainFinishesAgain(env, p, a, 3);
  }

  lemma StoppedBeforeWorker(env: Adapters, p: Proc, a: RA.Request)
    requires p.world.slot.None? && RA.LiveIn(p.world, a.invocation.id) && a.stopWorker
    ensures RA.Accept(env, Restart(p, Cut(3)), a).progress != Going
  {
    hide ApplyStateTransition, SaveRun, Clear, Identified;
    var r := Reserve(Restart(p, Cut(3)), RA.EffectOf(a));
    var d := RA.DeliverAlways(r, a.invocation);
    var s := RA.StopIfAsked(d, a.stopWorker, a.worker, a.previous.id);
    assert d.budget == Cut(0) && s.progress == Stopped;
    var u := RA.SaveUnitIfAny(s, a.unitResult);
    SR.Ended(env, u, a, Identified(u.world, a.next, false));
  }

  /** A review with findings, interrupted right behind its reservation, and again
      right behind the acknowledgement of the replay: nothing is pending, and the
      stored run is the one from before the review. */
  lemma ReviewInterruptedTwice() returns (env: Adapters, p: Proc, a: RA.Request, policy: AR.Policy, cuts: seq<nat>)
    ensures AR.Starts(p.world, a) && a.next.content != a.previous.content && |cuts| == 1
    ensures var q := AR.AcceptAndContinue(env, Restart(p, Cut(1)), a, policy);
            var r := AR.Recoveries(env, q, policy, cuts).world;
            AR.Dropped(env, q, policy, cuts) && r.run == p.world.run == Some(a.previous)
  {
    env, a := Env(true), Report(1, "findings");
    policy := AR.Policy((c: Content) => CommitStatus(1, "success", "review", "", ""), (c: Content) => c);
    p, cuts := Proc(Start(1, CLEAN), EMPTY_TALLY, Unbounded, Going), [5];
    ReviewStarts();
    RunningLabel();
    MarkedFirst(1, CLEAN);
    var q := AR.AcceptAndContinue(env, Restart(p, Cut(1)), a, policy);
    CutBehindReservation(env, p, a, policy);
    SpentReplay(env, Restart(q, Cut(5)), a);
    DroppedOnce(env, q, a, policy);
    hide AR.AcceptAndContinue, AR.Recoveries, AR.Starts, AR.Dropped, AR.AcceptedRun, AR.StopsBetween;
    AR.ReviewConvergesIff(env, p, a, policy, Cut(1), cuts);
  }

  lemma RunningLabel()
    ensures StateLabels(["agent-running"], Active) == ["agent-running"]
  {
  }

  lemma ReviewStarts()
    ensures AR.Starts(Start(1, CLEAN), Report(1, "findings"))
  {
    MarkedFirst(1, CLEAN);
    hide FindComment;
  }

  lemma CutBehindReservation(env: Adapters, p: Proc, a: RA.Request, policy: AR.Policy)
    requires AR.Starts(p.world, a)
    ensures AR.AcceptAndContinue(env, Restart(p, Cut(1)), a, policy).world == SR.Reserved(p.world, a)
  {
    hide RA.Accept, AR.Continue, SR.Ready, SR.Accepted, RA.Fronted, RA.Terminated;
    SR.AcceptReaches(env, p, Cut(1), a);
  }

  lemma DroppedOnce(env: Adapters, q: Proc, a: RA.Request, policy: AR.Policy)
    requires q.world.slot == Some(RA.EffectOf(a))
    requires var r := RA.Replay(env, Restart(q, Cut(5)), RA.EffectOf(a));
             r.progress == Going && r.budget == Cut(0) && r.world.slot.None?
    ensures AR.Dropped(env, q, policy, [5])
  {
    hide RA.Replay, AR.Taken, AR.Recover;
    var r := RA.Replay(env, Restart(q, Cut(5)), RA.EffectOf(a));
    AR.SpentTaken(env, r, RA.Returned(q.world, RA.EffectOf(a)), policy);
  }

  /** Five writes take a replay through: invocation, exit, worker, comment and
      acknowledgement. */
  lemma SpentReplay(env: Adapters, p: Proc, a: RA.Request)
    requires env == Env(true) && a == Report(1, "findings")
    requires p.world == SR.Reserved(Start(1, CLEAN), a) && p.budget == Cut(5) && p.progress == Going
    requires StateLabels(["agent-running"], Active) == ["agent-running"]
    requires FindComment(p.world.comments, StatusMarker("r")) == 1
    ensures var q := RA.Replay(env, p, RA.EffectOf(a));
            q.progress == Going && q.budget == Cut(0) && q.world.slot.None?
  {
    hide FindComment, StateLabels;
    var e := RA.EffectOf(a);
    var f := RA.Front(p, e);
    assert f.progress == Going && f.budget == Cut(2);
    var n := Adopted(p.world.run, e.next);
    assert ProjectLabels(f, n) == f;
    var c := ApplyStateTransition(env, f, n, false);
    assert c.progress == Going && c.budget == Cut(1) && c.world.slot == Some(e);
  }

  /** A resume with a copy that still has the counter of before the last one. */
  lemma StaleResume() returns (p: Proc, copy: Invocation)
    ensures HR.Accounted(p.world, p.tally) && copy.id in p.world.invocations
    ensures var q := HR.ResumeNative(p, "r", copy, false, HR.Admitted("s"));
            && copy.id in q.world.invocations
            && q.tally.sessions[(copy.id, false)] > HR.Count(q.world.invocations[copy.id], false)
  {
    hide HR.ResumeNative;
    var launch := Launch("i", false, 1);
    p := Proc(Start(1, CLEAN), EMPTY_TALLY.(launches := multiset{launch}, sessions := multiset{("i", false)}),
              Unbounded, Going);
    copy := Invocation("i", Live, "s", 0, 0);
    SecondStart(p, copy);
  }

  lemma SecondStart(p: Proc, copy: Invocation)
    requires p.progress == Going && p.budget == Unbounded && p.world.slot.None?
    ensures var q := HR.ResumeNative(p, "r", copy, false, HR.Admitted("s"));
            && q.world.invocations
               == p.world.invocations[copy.id := copy.(recoveryResumes := copy.recoveryResumes + 1, session := "s")]
            && q.tally.sessions == p.tally.sessions + multiset{(copy.id, false)}
  {
  }

  /** A body with an end marker only gains a section on every merge, and one with a
      start marker only loses what follows it on the second. */
  lemma StrayMarkers(g: string, g': string)
    requires PB.Generated(g, PB.START, PB.END) && PB.Generated(g', PB.START, PB.END)
    ensures PB.MergeBody(PB.MergeBody(PB.END, g), g') == PB.MergeBody(PB.END, g) + "\n\n" + g'
    ensures PB.MergeBody(PB.MergeBody(PB.START + "text", g), g') == g'
  {
    PB.LoneMarkers();
    hide PB.MergeBody, PB.Generated, PB.Index;
    PB.UnmergeableMerge(PB.END, g, g');
    PB.UnmergeableMerge(PB.START + "text", g, g');
    assert (PB.START + "text")[..0] + g' == g';
  }

  /** A review end marker in front of the place of insertion, and a review start
      marker in front of some text. */
  const STRAY_END: string := PB.REVIEW_END + PB.END
  const STRAY_START: string := PB.REVIEW_START + "text" + PB.END

  /** A generated review section that quotes no other marker. */
  predicate ReviewSection(g: string) {
    PB.Generated(g, PB.REVIEW_START, PB.REVIEW_END) && PB.Index(g, PB.END) == -1
  }

  /** The first body gains a review section on every merge; the second loses its text
      on the second. */
  lemma StrayReviewMarkers(g: string, g': string)
    requires ReviewSection(g) && ReviewSection(g')
    ensures PB.MergeReview(PB.MergeReview(STRAY_END, g), g')
            == PB.REVIEW_END + "\n\n" + g + "\n" + "\n\n" + g' + "\n" + PB.END
    ensures PB.MergeReview(PB.MergeReview(STRAY_START, g), g') == g' + "\n" + PB.END
  {
    StrayFacts();
    PB.ReviewEndIsMarker();
    PB.EndIsMarker();
    hide PB.MergeReview, PB.Generated, PB.IndexFrom, PB.Marker;
    PB.UnmergeableReview(STRAY_END, g, g');
    PB.UnmergeableReview(STRAY_START, g, g');
    FirstInsertion(g);
    assert STRAY_START[..0] + g' + "\n" + PB.END == g' + "\n" + PB.END;
  }

  lemma FirstInsertion(g: string)
    requires ReviewSection(g)
    ensures var lead := PB.REVIEW_END + "\n\n" + g + "\n";
            var m := PB.MergeReview(STRAY_END, g);
            m == lead + PB.END && PB.Index(m, PB.END) == |lead| && m[..|lead|] == lead && m[|lead|..] == PB.END
  {
    StrayFacts();
    PB.EndIsMarker();
    PB.ReviewEndIsMarker();
    hide PB.Generated, PB.IndexFrom, PB.Marker;
    var front := PB.REVIEW_END + "\n\n";
    PB.IndexJoin(PB.REVIEW_END, "\n\n", PB.END);
    PB.IndexJoin(front, g, PB.END);
    PB.IndexJoin(front + g, "\n", PB.END);
    PB.IndexJoin(front + g + "\n", PB.END, PB.END);
    assert STRAY_END[..|PB.REVIEW_END|] == PB.REVIEW_END && STRAY_END[|PB.REVIEW_END|..] == PB.END;
  }

  /** Where the markers of the two bodies are. */
  lemma StrayFacts()
    ensures PB.Index(STRAY_END, PB.REVIEW_START) == -1 && PB.Index(STRAY_END, PB.END) == |PB.REVIEW_END|
    ensures PB.Front(STRAY_END) == PB.REVIEW_END && PB.Index(PB.REVIEW_END, PB.REVIEW_END) == 0
    ensures PB.Index(STRAY_START, PB.REVIEW_START) == 0 && PB.Index(STRAY_START, PB.REVIEW_END) == -1
    ensures PB.Front(STRAY_START) == PB.REVIEW_START + "text" && PB.Index(PB.Front(STRAY_START), PB.REVIEW_END) == -1
    ensures PB.Index(PB.Front(STRAY_START), PB.REVIEW_START) == 0
    ensures PB.ReviewTail(STRAY_START) == "\n" + PB.END
    ensures PB.Index("\n\n", PB.END) == PB.Index("\n", PB.END) == PB.Index(PB.REVIEW_END, PB.END) == -1
    ensures PB.Index(PB.END, PB.END) == 0
  {
    PB.ReviewStartIsMarker();
    PB.ReviewEndIsMarker();
    PB.EndIsMarker();
    PlainText("text");
    PlainText("\n\n");
    PlainText("\n");
    MarkersApart();
    hide PB.Marker, PB.IndexFrom;
    PB.IndexJoin(PB.REVIEW_END, PB.END, PB.REVIEW_START);
    PB.IndexJoin(PB.REVIEW_END, PB.END, PB.END);
    Quoted("text", PB.REVIEW_START);
    Quoted("text", PB.REVIEW_END);
    Quoted("text", PB.END);
  }

  lemma PlainText(s: string)
    requires '<' !in s
    ensures PB.Index(s, PB.REVIEW_START) == PB.Index(s, PB.REVIEW_END) == PB.Index(s, PB.END) == -1
  {
    PB.ReviewStartIsMarker();
    PB.ReviewEndIsMarker();
    PB.EndIsMarker();
    hide PB.Index, PB.Marker;
    PB.NoMarkerWithoutBracket(s, PB.REVIEW_START);
    PB.NoMarkerWithoutBracket(s, PB.REVIEW_END);
    PB.NoMarkerWithoutBracket(s, PB.END);
  }

  /** Each of the three markers is found in itself and in no other. */
  lemma MarkersApart()
    ensures PB.Index(PB.REVIEW_START, PB.REVIEW_START) == 0 && PB.Index(PB.REVIEW_START, PB.REVIEW_END) == -1
    ensures PB.Index(PB.REVIEW_START, PB.END) == -1
    ensures PB.Index(PB.REVIEW_END, PB.REVIEW_END) == 0 && PB.Index(PB.REVIEW_END, PB.REVIEW_START) == -1
    ensures PB.Index(PB.REVIEW_END, PB.END) == -1
    ensures PB.Index(PB.END, PB.END) == 0 && PB.Index(PB.END, PB.REVIEW_START) == -1
    ensures PB.Index(PB.END, PB.REVIEW_END) == -1
  {
    PB.ReviewStartIsMarker();
    PB.ReviewEndIsMarker();
    PB.EndIsMarker();
    hide PB.Index, PB.Marker;
    PB.LoneMarker(PB.REVIEW_START, PB.REVIEW_END);
    PB.LoneMarker(PB.REVIEW_START, PB.END);
    PB.LoneMarker(PB.REVIEW_END, PB.REVIEW_START);
    PB.LoneMarker(PB.REVIEW_END, PB.END);
    PB.LoneMarker(PB.END, PB.REVIEW_START);
    PB.LoneMarker(PB.END, PB.REVIEW_END);
    FoundInItself(PB.REVIEW_START);
    FoundInItself(PB.REVIEW_END);
    FoundInItself(PB.END);
  }

  lemma FoundInItself(t: string)
    ensures PB.Index(t, t) == 0
  {
    assert t[0..|t|] == t;
    PB.IndexIs(t, t, 0);
  }

  /** A marker in a review start marker, some text and the outer end marker. */
  lemma Quoted(text: string, t: string)
    requires t in {PB.REVIEW_START, PB.REVIEW_END, PB.END} && PB.Index(text, t) == -1 && PB.Marker(t)
    ensures PB.Index(PB.REVIEW_START + text, t) == PB.Index(PB.REVIEW_START, t)
    ensures PB.Index(PB.REVIEW_START + text + PB.END, t)
            == if PB.Index(PB.REVIEW_START, t) >= 0 then PB.Index(PB.REVIEW_START, t)
               else if PB.Index(PB.END, t) >= 0 then |PB.REVIEW_START + text| + PB.Index(PB.END, t)
               else -1
  {
    PB.ReviewStartIsMarker();
    PB.EndIsMarker();
    hide PB.IndexFrom;
    PB.IndexJoin(PB.REVIEW_START, text, t);
    PB.IndexJoin(PB.REVIEW_START + text, PB.END, t);
  }

  /** There are such sections. */
  lemma SomeReviewSection(text: string)
    requires '<' !in text
    ensures ReviewSection(PB.REVIEW_START + text + PB.REVIEW_END)
  {
    PB.ReviewStartIsMarker();
    PB.ReviewEndIsMarker();
    PB.EndIsMarker();
    PlainText(text);
    MarkersApart();
    hide PB.IndexFrom, PB.Marker;
    var front := PB.REVIEW_START + text;
    PB.IndexJoin(PB.REVIEW_START, text, PB.REVIEW_START);
    PB.IndexJoin(PB.REVIEW_START, text, PB.REVIEW_END);
    PB.IndexJoin(PB.REVIEW_START, text, PB.END);
    PB.IndexJoin(front, PB.REVIEW_END, PB.REVIEW_START);
    PB.IndexJoin(front, PB.REVIEW_END, PB.REVIEW_END);
    PB.IndexJoin(front, PB.REVIEW_END, PB.END);
  }
}
