/** The launch, cancel and inspect helpers of one headless process, interleaved
    step by step over the state directory they share
    (cmd/factory-worker-headless/main.go). */
module HeadlessProtocol {

  datatype Status = Missing | Starting | Running | Exited | Cancelled | Lost

  datatype Child = NotStarted | Alive | Dead

  datatype Owner = Free | ByRun | ByCancel(c: nat)

  /** Which helper took the lock first. */
  datatype First = Nobody | RunFirst | CancelFirst

  /** Where the launching helper stands; each phase names the step it takes next. */
  datatype RunPhase =
    | RunLocks | RunReadsStatus | RunClears | RunReserves | RunDropsMarker | RunStarts
    | RunWritesPID | RunWritesRunning | RunRechecks | RunReleases | RunWaits
    | RunReadsMarker | RunConcludes(cancelled: bool) | RunEnded
    | RunRefuses | RunRefused
    | RunRecordsFailure | RunReleasesFailed | RunFailed

  datatype CancelPhase =
    | CancelLocks | CancelReadsStatus | CancelReserves | CancelReadsPID | CancelWithoutPID
    | CancelMarks | CancelReleases | CancelPolls | CancelWrites
    | CancelLeaves(ok: bool) | CancelDone(ok: bool)

  datatype InspectPhase =
    | InspectReadsStatus | InspectReadsPID(seen: Status) | InspectProbes(seen: Status)
    | InspectRereads | InspectWritesRunning | InspectWritesLost | InspectDone

  /** The state directory, its lock, the child, and the one launching helper.
      `pid` says that the child's identity is recorded. */
  datatype Shared = Shared(status: Status, pid: bool, marker: bool, lock: Owner, child: Child, first: First,
                           run: RunPhase)

  /** Any number of cancelling and inspecting helpers run beside the launch. */
  datatype State = State(shared: Shared, cancels: map<nat, CancelPhase>, inspects: map<nat, InspectPhase>)

  /** One atomic step of one helper or of the child. `fails` and `givesUp` resolve
      what the helper does not decide. */
  datatype Action =
    | RunSteps(fails: bool)
    | RunInterrupted
    | CancelSteps(c: nat, givesUp: bool)
    | InspectSteps(i: nat)
    | ChildExits

  const INITIAL: State := State(Shared(Missing, false, false, Free, NotStarted, Nobody, RunLocks), map[], map[])

  // ---------- the steps

  function RunStep(h: Shared, fails: bool): Shared {
    match h.run
    case RunLocks =>
      if h.lock != Free then h
      else h.(lock := ByRun, run := RunReadsStatus, first := if h.first == Nobody then RunFirst else h.first)
    case RunReadsStatus => h.(run := if h.status == Missing || h.status == Lost then RunClears else RunRefuses)
    case RunClears => h.(pid := false, marker := false, run := RunReserves)
    case RunReserves => h.(status := Starting, run := RunDropsMarker)
    case RunDropsMarker => h.(marker := false, run := RunStarts)
    case RunStarts => if fails then h.(run := RunRecordsFailure) else h.(child := Alive, run := RunWritesPID)
    case RunWritesPID => h.(pid := true, run := RunWritesRunning)
    case RunWritesRunning => h.(status := Running, run := RunRechecks)
    case RunRechecks => h.(run := RunReleases)
    case RunReleases => h.(lock := Free, run := RunWaits)
    case RunWaits => if h.child == Dead then h.(run := RunReadsMarker) else h
    case RunReadsMarker => h.(run := RunConcludes(h.marker))
    case RunConcludes(cancelled) => h.(status := if cancelled then Cancelled else Exited, run := RunEnded)
    case RunRefuses => h.(lock := Free, run := RunRefused)
    case RunRecordsFailure => h.(status := Exited, run := RunReleasesFailed)
    case RunReleasesFailed => h.(lock := Free, run := RunFailed)
    case _ => h
  }

  function Interrupt(h: Shared): Shared {
    if h.run == RunWaits then h.(marker := true) else h
  }

  function Exit(h: Shared): Shared {
    if h.child == Alive then h.(child := Dead) else h
  }

  function CancelStep(h: Shared, c: nat, phase: CancelPhase, givesUp: bool): (Shared, CancelPhase) {
    match phase
    case CancelLocks =>
      if h.lock != Free then (h, phase)
      else (h.(lock := ByCancel(c), first := if h.first == Nobody then CancelFirst else h.first), CancelReadsStatus)
    case CancelReadsStatus =>
      (h, if h.status == Starting || h.status == Running then CancelReadsPID
          else if h.status == Missing then CancelReserves
          else CancelLeaves(true))
    case CancelReserves => (h.(status := Cancelled), CancelLeaves(true))
    case CancelReadsPID => (h, if h.pid then CancelMarks else CancelWithoutPID)
    case CancelWithoutPID => (h.(status := Cancelled), CancelLeaves(true))
    case CancelMarks => (h.(marker := true), CancelReleases)
    case CancelReleases => (h.(lock := Free), CancelPolls)
    case CancelPolls =>
      (h, if h.child != Alive then CancelWrites else if givesUp then CancelDone(false) else phase)
    case CancelWrites => (h.(status := Cancelled), CancelDone(true))
    case CancelLeaves(ok) => (h.(lock := Free), CancelDone(ok))
    case CancelDone(_) => (h, phase)
  }

  function InspectStep(h: Shared, phase: InspectPhase): (Shared, InspectPhase) {
    match phase
    case InspectReadsStatus =>
      (h, if h.status == Starting || h.status == Running || h.status == Cancelled
          then InspectReadsPID(h.status) else InspectDone)
    case InspectReadsPID(seen) => (h, if h.pid then InspectProbes(seen) else InspectDone)
    case InspectProbes(seen) =>
      (h, if h.child == Alive then InspectRereads
          else if seen != Cancelled then InspectWritesLost
          else InspectDone)
    case InspectRereads => (h, if h.status == Cancelled then InspectWritesRunning else InspectDone)
    case InspectWritesRunning => (h.(status := Running), InspectDone)
    case InspectWritesLost => (h.(status := Lost), InspectDone)
    case InspectDone => (h, phase)
  }

  /** A helper that has not begun stands at its first step. */
  function CancelAt(s: State, c: nat): CancelPhase {
    if c in s.cancels then s.cancels[c] else CancelLocks
  }

  function InspectAt(s: State, i: nat): InspectPhase {
    if i in s.inspects then s.inspects[i] else InspectReadsStatus
  }

  function Step(s: State, a: Action): State {
    match a
    case RunSteps(fails) => s.(shared := RunStep(s.shared, fails))
    case RunInterrupted => s.(shared := Interrupt(s.shared))
    case CancelSteps(c, givesUp) =>
      var (h, phase) := CancelStep(s.shared, c, CancelAt(s, c), givesUp);
      s.(shared := h, cancels := s.cancels[c := phase])
    case InspectSteps(i) =>
      var (h, phase) := InspectStep(s.shared, InspectAt(s, i));
      s.(shared := h, inspects := s.inspects[i := phase])
    case ChildExits => s.(shared := Exit(s.shared))
  }

  function Steps(s: State, actions: seq<Action>): State
    decreases |actions|
  {
    if actions == [] then s else Steps(Step(s, actions[0]), actions[1..])
  }

  // ---------- what every step keeps

  predicate RunHolds(run: RunPhase) {
    !run.RunLocks? && !run.RunRefused? && !run.RunFailed? && !Launched(run)
  }

  /** The run has released its lock and left a child behind, alive or not. */
  predicate Launched(run: RunPhase) {
    run.RunWaits? || run.RunReadsMarker? || run.RunConcludes? || run.RunEnded?
  }

  predicate CancelHolds(phase: CancelPhase) {
    !phase.CancelLocks? && !phase.CancelPolls? && !phase.CancelWrites? && !phase.CancelDone?
  }

  /** The cancel has found a process to stop. */
  predicate Signals(phase: CancelPhase) {
    phase.CancelReadsPID? || phase.CancelMarks? || phase.CancelReleases? || phase.CancelPolls? || phase.CancelWrites?
  }

  /** The child is not running and will never run again. */
  predicate Settled(h: Shared) {
    h.child == Dead || (h.child == NotStarted && (h.first == CancelFirst || h.run.RunFailed?))
  }

  /** The run won the lock; where it stands says what the directory holds. */
  predicate RunShape(h: Shared) {
    && !h.run.RunLocks? && !h.run.RunRefuses? && !h.run.RunRefused?
    && (h.run.RunReadsStatus? || h.run.RunClears? || h.run.RunReserves? ==>
          h.child == NotStarted && h.status == Missing && !h.pid)
    && (h.run.RunDropsMarker? || h.run.RunStarts? || h.run.RunRecordsFailure? ==>
          h.child == NotStarted && h.status == Starting && !h.pid)
    && (h.run.RunReleasesFailed? || h.run.RunFailed? ==> h.child == NotStarted && h.status == Exited && !h.pid)
    && (h.run.RunWritesPID? ==> h.child != NotStarted && h.status == Starting && !h.pid)
    && (h.run.RunWritesRunning? || h.run.RunRechecks? || h.run.RunReleases? ==> h.child != NotStarted && h.pid)
    && (h.status == Missing ==> h.run.RunReadsStatus? || h.run.RunClears? || h.run.RunReserves?)
    && (RunHolds(h.run) ==> !h.marker)
    && (Launched(h.run) ==> h.child != NotStarted && h.pid)
    && (h.run.RunRechecks? || h.run.RunReleases? || Launched(h.run) ==> h.status == Running || h.child == Dead)
    && (Launched(h.run) && !h.run.RunWaits? ==> h.child == Dead)
    && (h.child == Alive ==> h.status == Starting || h.status == Running)
    && (h.status == Cancelled ==> Launched(h.run) && (h.run.RunWaits? || h.run.RunReadsMarker? ==> h.marker))
  }

  predicate SharedOk(h: Shared) {
    && (h.lock == ByRun <==> RunHolds(h.run))
    && match h.first
       case Nobody => h == INITIAL.shared
       case CancelFirst =>
         && h.child == NotStarted && !h.pid
         && (h.run.RunLocks? || h.run.RunReadsStatus? || h.run.RunRefuses? || h.run.RunRefused?)
         && (h.status == Cancelled || (h.status == Missing && h.lock.ByCancel?))
       case RunFirst => RunShape(h)
  }

  predicate CancelOk(h: Shared, c: nat, phase: CancelPhase) {
    && (h.lock == ByCancel(c) <==> CancelHolds(phase))
    && match h.first
       case Nobody => phase == CancelLocks
       case CancelFirst =>
         && (phase.CancelLocks? || phase.CancelReadsStatus? || phase.CancelReserves?
             || phase == CancelLeaves(true) || phase == CancelDone(true))
         && (phase.CancelLeaves? || phase.CancelDone? ==> h.status == Cancelled)
       case RunFirst =>
         && !phase.CancelReserves? && !phase.CancelWithoutPID? && phase != CancelLeaves(false)
         && (Signals(phase) ==> Launched(h.run))
         && (phase.CancelReleases? || phase.CancelPolls? || phase.CancelWrites? ==> h.marker)
         && (phase.CancelWrites? || phase == CancelLeaves(true) || phase == CancelDone(true) ==> Settled(h))
  }

  predicate InspectOk(h: Shared, phase: InspectPhase) {
    match h.first
    case Nobody => phase.InspectReadsStatus? || phase.InspectDone?
    case CancelFirst => phase.InspectReadsStatus? || phase == InspectReadsPID(Cancelled) || phase.InspectDone?
    case RunFirst =>
      && (phase.InspectProbes? || phase.InspectRereads? || phase.InspectWritesRunning? || phase.InspectWritesLost? ==>
            h.child != NotStarted && h.pid)
      && (phase.InspectWritesLost? || phase.InspectWritesRunning? ==> h.child == Dead)
  }

  ghost predicate Inv(s: State) {
    && SharedOk(s.shared)
    && (forall c: nat :: CancelOk(s.shared, c, CancelAt(s, c)))
    && (forall i: nat :: InspectOk(s.shared, InspectAt(s, i)))
  }

  lemma RunStepKeeps(h: Shared, fails: bool)
    requires SharedOk(h)
    ensures SharedOk(RunStep(h, fails))
  {
  }

  lemma RunStepHarmless(h: Shared, fails: bool, d: nat, phase: CancelPhase)
    requires SharedOk(h) && CancelOk(h, d, phase)
    ensures CancelOk(RunStep(h, fails), d, phase)
  {
  }

  lemma RunStepUnseen(h: Shared, fails: bool, phase: InspectPhase)
    requires SharedOk(h) && InspectOk(h, phase)
    ensures InspectOk(RunStep(h, fails), phase)
  {
  }

  lemma CancelStepKeeps(h: Shared, c: nat, phase: CancelPhase, givesUp: bool)
    requires SharedOk(h) && CancelOk(h, c, phase)
    ensures var (t, next) := CancelStep(h, c, phase, givesUp); SharedOk(t) && CancelOk(t, c, next)
  {
  }

  lemma CancelStepHarmless(h: Shared, c: nat, phase: CancelPhase, givesUp: bool, d: nat, other: CancelPhase)
    requires SharedOk(h) && CancelOk(h, c, phase) && c != d && CancelOk(h, d, other)
    ensures CancelOk(CancelStep(h, c, phase, givesUp).0, d, other)
  {
  }

  lemma CancelStepUnseen(h: Shared, c: nat, phase: CancelPhase, givesUp: bool, other: InspectPhase)
    requires SharedOk(h) && CancelOk(h, c, phase) && InspectOk(h, other)
    ensures InspectOk(CancelStep(h, c, phase, givesUp).0, other)
  {
  }

  lemma InspectStepKeeps(h: Shared, phase: InspectPhase)
    requires SharedOk(h) && InspectOk(h, phase)
    ensures var (t, next) := InspectStep(h, phase); SharedOk(t) && InspectOk(t, next)
  {
  }

  lemma InspectStepHarmless(h: Shared, phase: InspectPhase, d: nat, other: CancelPhase)
    requires SharedOk(h) && InspectOk(h, phase) && CancelOk(h, d, other)
    ensures CancelOk(InspectStep(h, phase).0, d, other)
  {
  }

  lemma InspectStepUnseen(h: Shared, phase: InspectPhase, other: InspectPhase)
    requires SharedOk(h) && InspectOk(h, phase) && InspectOk(h, other)
    ensures InspectOk(InspectStep(h, phase).0, other)
  {
  }

  lemma EnvironmentKeeps(h: Shared, d: nat, phase: CancelPhase, other: InspectPhase)
    requires SharedOk(h) && CancelOk(h, d, phase) && InspectOk(h, other)
    ensures SharedOk(Interrupt(h)) && CancelOk(Interrupt(h), d, phase) && InspectOk(Interrupt(h), other)
    ensures SharedOk(Exit(h)) && CancelOk(Exit(h), d, phase) && InspectOk(Exit(h), other)
  {
  }

  lemma StepKeeps(s: State, a: Action)
    requires Inv(s)
    ensures Inv(Step(s, a))
  {
    hide SharedOk, CancelOk, InspectOk, RunStep, CancelStep, InspectStep, Interrupt, Exit;
    var h, t := s.shared, Step(s, a);
    match a
    case RunSteps(fails) =>
      RunStepKeeps(h, fails);
      forall c: nat ensures CancelOk(t.shared, c, CancelAt(t, c)) { RunStepHarmless(h, fails, c, CancelAt(s, c)); }
      forall i: nat ensures InspectOk(t.shared, InspectAt(t, i)) { RunStepUnseen(h, fails, InspectAt(s, i)); }
    case CancelSteps(c, givesUp) =>
      var phase := CancelAt(s, c);
      CancelStepKeeps(h, c, phase, givesUp);
      forall d: nat ensures CancelOk(t.shared, d, CancelAt(t, d)) {
        if d != c { CancelStepHarmless(h, c, phase, givesUp, d, CancelAt(s, d)); }
      }
      forall i: nat ensures InspectOk(t.shared, InspectAt(t, i)) {
        CancelStepUnseen(h, c, phase, givesUp, InspectAt(s, i));
      }
    case InspectSteps(i) =>
      var phase := InspectAt(s, i);
      InspectStepKeeps(h, phase);
      forall c: nat ensures CancelOk(t.shared, c, CancelAt(t, c)) { InspectStepHarmless(h, phase, c, CancelAt(s, c)); }
      forall j: nat ensures InspectOk(t.shared, InspectAt(t, j)) {
        if j != i { InspectStepUnseen(h, phase, InspectAt(s, j)); }
      }
    case _ =>
      forall c: nat ensures CancelOk(t.shared, c, CancelAt(t, c)) {
        EnvironmentKeeps(h, c, CancelAt(s, c), InspectAt(s, 0));
      }
      forall i: nat ensures InspectOk(t.shared, InspectAt(t, i)) {
        EnvironmentKeeps(h, 0, CancelAt(s, 0), InspectAt(s, i));
      }
      assert SharedOk(t.shared) by { EnvironmentKeeps(h, 0, CancelAt(s, 0), InspectAt(s, 0)); }
  }

  lemma {:induction false} StepsKeep(s: State, actions: seq<Action>)
    requires Inv(s)
    ensures Inv(Steps(s, actions))
    decreases |actions|
  {
    hide Inv, Step;
    if actions != [] {
      StepKeeps(s, actions[0]);
      StepsKeep(Step(s, actions[0]), actions[1..]);
    }
  }

  lemma {:induction false} StepsCompose(s: State, a: seq<Action>, b: seq<Action>)
    ensures Steps(s, a + b) == Steps(Steps(s, a), b)
    decreases |a|
  {
    hide Step;
    if a == [] {
      assert a + b == b;
    } else {
      assert (a + b)[0] == a[0] && (a + b)[1..] == a[1..] + b;
      StepsCompose(Step(s, a[0]), a[1..], b);
    }
  }

  // ---------- the race

  lemma Reachable(actions: seq<Action>)
    ensures Inv(Steps(INITIAL, actions))
  {
    StepsKeep(INITIAL, actions);
  }

  lemma WinnerStep(s: State, a: Action)
    requires s.shared.first != Nobody
    ensures Step(s, a).shared.first == s.shared.first
  {
  }

  /** Who took the lock first never changes. */
  lemma {:induction false} WinnerStays(s: State, actions: seq<Action>)
    requires s.shared.first != Nobody
    ensures Steps(s, actions).shared.first == s.shared.first
    decreases |actions|
  {
    hide Step;
    if actions != [] {
      WinnerStep(s, actions[0]);
      WinnerStays(Step(s, actions[0]), actions[1..]);
    }
  }

  /** A cancel that takes the lock first: whatever all helpers do afterwards, the
      child never starts. */
  lemma CancelFirstNeverStarts(before: seq<Action>, after: seq<Action>)
    requires Steps(INITIAL, before).shared.first == CancelFirst
    ensures Steps(INITIAL, before + after).shared.child == NotStarted
  {
    hide Step, CancelOk, InspectOk;
    Reachable(before);
    WinnerStays(Steps(INITIAL, before), after);
    StepsCompose(INITIAL, before, after);
    Reachable(before + after);
  }

  /** Once settled, the child is never alive again. */
  lemma {:induction false} SettledStays(s: State, actions: seq<Action>)
    requires Inv(s) && Settled(s.shared)
    ensures Settled(Steps(s, actions).shared)
    decreases |actions|
  {
    if actions != [] {
      StepKeeps(s, actions[0]);
      SettledStep(s, actions[0]);
      SettledStays(Step(s, actions[0]), actions[1..]);
    }
  }

  lemma SettledStep(s: State, a: Action)
    requires Inv(s) && Settled(s.shared)
    ensures Settled(Step(s, a).shared)
  {
    hide InspectOk;
    assert a.CancelSteps? ==> CancelOk(s.shared, a.c, CancelAt(s, a.c));
  }

  /** A cancel that has reported success: the child is not alive, and never will
      be, whatever the helpers do afterwards. */
  lemma SuccessMeansStopped(before: seq<Action>, after: seq<Action>, c: nat)
    requires CancelAt(Steps(INITIAL, before), c) == CancelDone(true)
    ensures Steps(INITIAL, before + after).shared.child != Alive
  {
    hide Step, InspectOk;
    var s := Steps(INITIAL, before);
    Reachable(before);
    assert CancelOk(s.shared, c, CancelDone(true));
    SettledStays(s, after);
    StepsCompose(INITIAL, before, after);
  }

  /** A launch that has ended leaves no child alive. */
  lemma EndedMeansStopped(actions: seq<Action>)
    requires var run := Steps(INITIAL, actions).shared.run; run.RunEnded? || run.RunFailed? || run.RunRefused?
    ensures Steps(INITIAL, actions).shared.child != Alive
  {
    hide CancelOk, InspectOk;
    Reachable(actions);
  }

  /** The cancel that finds no process identity, and the launch's last look at the
      cancellation marker, guard against helpers that die: without a crash no
      cancel takes the first, and the second never finds the marker. */
  lemma CrashGuardsIdle(actions: seq<Action>, c: nat)
    ensures CancelAt(Steps(INITIAL, actions), c) != CancelWithoutPID
    ensures Steps(INITIAL, actions).shared.run.RunRechecks? ==> !Steps(INITIAL, actions).shared.marker
  {
    hide InspectOk, RunStep;
    Reachable(actions);
    assert CancelOk(Steps(INITIAL, actions).shared, c, CancelAt(Steps(INITIAL, actions), c));
  }

  // ---------- the recorded outcome

  /** An inspection that will not write the status of a cancelled process. */
  predicate WritesNothing(phase: InspectPhase) {
    || phase.InspectReadsStatus?
    || phase == InspectReadsPID(Cancelled)
    || phase == InspectProbes(Cancelled)
    || phase.InspectDone?
  }

  ghost predicate NoneWrites(s: State) {
    forall i: nat :: WritesNothing(InspectAt(s, i))
  }

  /** Nothing under way will replace a recorded cancellation: no inspection, and not
      the launch, which writes `exited` once it has missed the marker. */
  ghost predicate Undisputed(s: State) {
    NoneWrites(s) && s.shared.run != RunConcludes(false)
  }

  ghost predicate StaysCancelled(s: State) {
    forall actions :: Steps(s, actions).shared.status == Cancelled
  }

  ghost predicate Recorded(s: State) {
    Inv(s) && s.shared.status == Cancelled
  }

  lemma UndisputedStep(s: State, a: Action)
    requires Recorded(s) && Undisputed(s)
    ensures Recorded(Step(s, a)) && Undisputed(Step(s, a))
  {
    StepKeeps(s, a);
    hide InspectOk;
    var t := Step(s, a);
    assert SharedOk(s.shared) && (a.CancelSteps? ==> CancelOk(s.shared, a.c, CancelAt(s, a.c)));
    forall i: nat ensures WritesNothing(InspectAt(t, i)) {
      assert WritesNothing(InspectAt(s, i));
    }
  }

  lemma {:induction false} UndisputedStays(s: State, actions: seq<Action>)
    requires Recorded(s) && Undisputed(s)
    ensures Steps(s, actions).shared.status == Cancelled
    decreases |actions|
  {
    hide Step, Inv, Undisputed;
    if actions != [] {
      UndisputedStep(s, actions[0]);
      UndisputedStays(Step(s, actions[0]), actions[1..]);
    }
  }

  function Inspections(i: nat, n: nat): seq<Action> {
    if n == 0 then [] else [InspectSteps(i)] + Inspections(i, n - 1)
  }

  /** Any other inspection replaces the outcome within three of its steps. */
  lemma SomeWrites(s: State, i: nat)
    requires Recorded(s) && !WritesNothing(InspectAt(s, i))
    ensures exists n :: 0 < n < 4 && Steps(s, Inspections(i, n)).shared.status != Cancelled
  {
    assert SharedOk(s.shared) && InspectOk(s.shared, InspectAt(s, i));
    InspectionsAre(s, i);
    match InspectAt(s, i)
    case InspectReadsPID(_) => assert Steps(s, Inspections(i, 3)).shared.status != Cancelled;
    case InspectProbes(_) => assert Steps(s, Inspections(i, 2)).shared.status != Cancelled;
    case InspectRereads => assert Steps(s, Inspections(i, 2)).shared.status != Cancelled;
    case InspectWritesRunning => assert Steps(s, Inspections(i, 1)).shared.status != Cancelled;
    case InspectWritesLost => assert Steps(s, Inspections(i, 1)).shared.status != Cancelled;
  }

  lemma InspectionsAre(s: State, i: nat)
    ensures Steps(s, Inspections(i, 1)) == Step(s, InspectSteps(i))
    ensures Steps(s, Inspections(i, 2)) == Step(Step(s, InspectSteps(i)), InspectSteps(i))
    ensures Steps(s, Inspections(i, 3)) == Step(Step(Step(s, InspectSteps(i)), InspectSteps(i)), InspectSteps(i))
  {
    hide Step;
    StepsOnto(s, i, 0);
    StepsOnto(s, i, 1);
    StepsOnto(s, i, 2);
  }

  lemma {:induction false} StepsOnto(s: State, i: nat, n: nat)
    ensures Steps(s, Inspections(i, n + 1)) == Step(Steps(s, Inspections(i, n)), InspectSteps(i))
    decreases n
  {
    hide Step;
    var a := InspectSteps(i);
    assert Inspections(i, n + 1)[0] == a && Inspections(i, n + 1)[1..] == Inspections(i, n);
    if n > 0 {
      assert Inspections(i, n)[0] == a && Inspections(i, n)[1..] == Inspections(i, n - 1);
      StepsOnto(Step(s, a), i, n - 1);
    }
  }

  /** A recorded cancellation stays recorded exactly when no inspection that read the
      directory before is yet to write, and the launch is not about to record the
      exit of a child whose cancellation marker it has missed. */
  lemma OutcomeStaysIff(actions: seq<Action>)
    requires Steps(INITIAL, actions).shared.status == Cancelled
    ensures StaysCancelled(Steps(INITIAL, actions)) <==> Undisputed(Steps(INITIAL, actions))
  {
    hide Step, Inv, WritesNothing;
    var s := Steps(INITIAL, actions);
    Reachable(actions);
    if Undisputed(s) {
      forall later: seq<Action> ensures Steps(s, later).shared.status == Cancelled {
        UndisputedStays(s, later);
      }
    } else if s.shared.run == RunConcludes(false) {
      LaunchOverwrites(s);
    } else {
      var i: nat :| !WritesNothing(InspectAt(s, i));
      SomeWrites(s, i);
    }
  }

  lemma LaunchOverwrites(s: State)
    requires s.shared.run == RunConcludes(false)
    ensures Steps(s, [RunSteps(false)]).shared.status == Exited
  {
    assert Steps(s, [RunSteps(false)]) == Steps(Step(s, RunSteps(false)), []);
  }

  lemma More(actions: seq<Action>, s: State, a: Action) returns (longer: seq<Action>, t: State)
    requires s == Steps(INITIAL, actions)
    ensures t == Step(s, a) == Steps(INITIAL, longer)
  {
    longer, t := actions + [a], Step(s, a);
    StepsCompose(INITIAL, actions, [a]);
    assert Steps(s, [a]) == Steps(Step(s, a), []);
  }

  lemma NoSteps(s: State)
    ensures Steps(s, []) == s
  {
  }

  /** A launched process. */
  lemma Waiting() returns (actions: seq<Action>)
    ensures Steps(INITIAL, actions)
         == State(Shared(Running, true, false, Free, Alive, RunFirst, RunWaits), map[], map[])
  {
    hide Steps;
    actions := [];
    NoSteps(INITIAL);
    var s := INITIAL;
    actions, s := More(actions, s, RunSteps(false));
    actions, s := More(actions, s, RunSteps(false));
    actions, s := More(actions, s, RunSteps(false));
    actions, s := More(actions, s, RunSteps(false));
    actions, s := More(actions, s, RunSteps(false));
    actions, s := More(actions, s, RunSteps(false));
    actions, s := More(actions, s, RunSteps(false));
    actions, s := More(actions, s, RunSteps(false));
    actions, s := More(actions, s, RunSteps(false));
    actions, s := More(actions, s, RunSteps(false));
  }

  /** The same, with an inspection that has just seen the child alive and a cancel
      that has signalled it and polls. */
  lemma SeenAndSignalled() returns (actions: seq<Action>)
    ensures Steps(INITIAL, actions)
         == State(Shared(Running, true, true, Free, Alive, RunFirst, RunWaits),
                  map[0 := CancelPolls], map[0 := InspectRereads])
  {
    hide Steps;
    actions := Waiting();
    var s := Steps(INITIAL, actions);
    actions, s := More(actions, s, InspectSteps(0));
    actions, s := More(actions, s, InspectSteps(0));
    actions, s := More(actions, s, InspectSteps(0));
    assert s.inspects == map[0 := InspectRereads];
    actions, s := More(actions, s, CancelSteps(0, false));
    actions, s := More(actions, s, CancelSteps(0, false));
    actions, s := More(actions, s, CancelSteps(0, false));
    actions, s := More(actions, s, CancelSteps(0, false));
    actions, s := More(actions, s, CancelSteps(0, false));
    assert s.cancels == map[0 := CancelPolls];
  }

  /** An inspection can lose a cancellation: one that saw the child alive, overtaken by
      a successful cancel and by the end of the launch. */
  lemma OutcomeCanBeLost() returns (actions: seq<Action>)
    ensures var s := Steps(INITIAL, actions);
            && s.shared == Shared(Cancelled, true, true, Free, Dead, RunFirst, RunEnded)
            && s.cancels == map[0 := CancelDone(true)] && s.inspects == map[0 := InspectRereads]
    ensures !Undisputed(Steps(INITIAL, actions))
  {
    hide Steps;
    actions := SeenAndSignalled();
    var s := Steps(INITIAL, actions);
    actions, s := More(actions, s, ChildExits);
    actions, s := More(actions, s, CancelSteps(0, false));
    actions, s := More(actions, s, CancelSteps(0, false));
    actions, s := More(actions, s, RunSteps(false));
    actions, s := More(actions, s, RunSteps(false));
    actions, s := More(actions, s, RunSteps(false));
    assert s.cancels == map[0 := CancelDone(true)];
    assert InspectAt(s, 0) == InspectRereads;
  }

  /** And a later inspection then reports the cancelled process as lost. */
  lemma CancelledReportedLost() returns (actions: seq<Action>)
    ensures var s := Steps(INITIAL, actions).shared; s.status == Lost && s.run.RunEnded?
    ensures CancelAt(Steps(INITIAL, actions), 0) == CancelDone(true)
  {
    hide Steps;
    actions := OutcomeCanBeLost();
    var s := Steps(INITIAL, actions);
    actions, s := More(actions, s, InspectSteps(0));
    actions, s := More(actions, s, InspectSteps(0));
    actions, s := More(actions, s, InspectSteps(1));
    actions, s := More(actions, s, InspectSteps(1));
    actions, s := More(actions, s, InspectSteps(1));
    actions, s := More(actions, s, InspectSteps(1));
  }

  /** A launch whose child has exited and that has just missed the marker. */
  lemma MissedMarker() returns (actions: seq<Action>)
    ensures Steps(INITIAL, actions)
         == State(Shared(Running, true, false, Free, Dead, RunFirst, RunConcludes(false)), map[], map[])
  {
    hide Steps;
    actions := Waiting();
    var s := Steps(INITIAL, actions);
    actions, s := More(actions, s, ChildExits);
    actions, s := More(actions, s, RunSteps(false));
    actions, s := More(actions, s, RunSteps(false));
  }

  /** The launch can lose one too, with no inspection at all: it looks for the marker
      just before a cancel sets it, and records the exit after the cancel has
      reported success. */
  lemma LaunchOverwritesRecord() returns (actions: seq<Action>)
    ensures var s := Steps(INITIAL, actions);
            && s.shared == Shared(Cancelled, true, true, Free, Dead, RunFirst, RunConcludes(false))
            && s.cancels == map[0 := CancelDone(true)] && s.inspects == map[]
    ensures Step(Steps(INITIAL, actions), RunSteps(false)).shared.status == Exited
    ensures !Undisputed(Steps(INITIAL, actions))
  {
    hide Steps;
    actions := MissedMarker();
    var s := Steps(INITIAL, actions);
    actions, s := More(actions, s, CancelSteps(0, false));
    actions, s := More(actions, s, CancelSteps(0, false));
    actions, s := More(actions, s, CancelSteps(0, false));
    actions, s := More(actions, s, CancelSteps(0, false));
    actions, s := More(actions, s, CancelSteps(0, false));
    actions, s := More(actions, s, CancelSteps(0, false));
    actions, s := More(actions, s, CancelSteps(0, false));
    assert s.cancels == map[0 := CancelDone(true)];
  }

  // ---------- what each helper does when nothing comes between its steps

  function Inspecting(h: Shared, n: nat): (Shared, InspectPhase) {
    if n == 0 then (h, InspectReadsStatus)
    else
      var (g, phase) := Inspecting(h, n - 1);
      InspectStep(g, phase)
  }

  lemma InspectNext(h: Shared, n: nat)
    ensures Inspecting(h, n + 1) == InspectStep(Inspecting(h, n).0, Inspecting(h, n).1)
  {
  }

  /** An inspection reports a process whose recorded child is gone as lost, and one
      that is recorded as cancelled and still alive as running; it changes nothing
      else, and nothing at all for other records. */
  lemma InspectAlone(h: Shared)
    ensures var (g, phase) := Inspecting(h, 5);
            && phase == InspectDone && g == h.(status := g.status)
            && (h.pid && h.child != Alive && h.status in {Starting, Running} ==> g.status == Lost)
            && (h.pid && h.child == Alive && h.status == Cancelled ==> g.status == Running)
            && (!h.pid ==> g == h)
            && (h.child == Alive && h.status != Cancelled ==> g == h)
            && (h.child != Alive && h.status !in {Starting, Running} ==> g == h)
  {
    InspectNext(h, 0);
    InspectNext(h, 1);
    InspectNext(h, 2);
    InspectNext(h, 3);
    InspectNext(h, 4);
  }

  function Cancelling(h: Shared, c: nat, n: nat): (Shared, CancelPhase) {
    if n == 0 then (h, CancelLocks)
    else
      var (g, phase) := Cancelling(h, c, n - 1);
      CancelStep(g, c, phase, false)
  }

  lemma CancelNext(h: Shared, c: nat, n: nat)
    ensures Cancelling(h, c, n + 1) == CancelStep(Cancelling(h, c, n).0, c, Cancelling(h, c, n).1, false)
  {
  }

  /** A cancel that has the lock to itself reserves the cancellation of a process
      that is not there yet, leaves a finished one as it is, and marks a started one;
      it records the cancellation once there is no live child and waits as long as
      there is. */
  lemma CancelAlone(h: Shared, c: nat)
    requires h.lock == Free
    ensures var (g, phase) := Cancelling(h, c, 7);
            var started := h.status in {Starting, Running};
            && g == h.(first := g.first, status := g.status, marker := h.marker || (started && h.pid))
            && (h.status == Missing ==> g.status == Cancelled && phase == CancelDone(true))
            && (h.status in {Exited, Cancelled, Lost} ==> g.status == h.status && phase == CancelDone(true))
            && (started && !h.pid ==> g.status == Cancelled && phase == CancelDone(true))
            && (started && h.pid && h.child != Alive ==> g.status == Cancelled && phase == CancelDone(true))
            && (started && h.pid && h.child == Alive ==> g.status == h.status && phase == CancelPolls)
  {
    CancelNext(h, c, 0);
    CancelNext(h, c, 1);
    CancelNext(h, c, 2);
    CancelNext(h, c, 3);
    assert h.status !in {Starting, Running} ==> Cancelling(h, c, 4).1 == CancelDone(true);
    CancelNext(h, c, 4);
    CancelNext(h, c, 5);
    CancelNext(h, c, 6);
  }

  function Launching(h: Shared, fails: bool, n: nat): Shared {
    if n == 0 then h else RunStep(Launching(h, fails, n - 1), fails)
  }

  lemma LaunchNext(h: Shared, fails: bool, n: nat)
    ensures Launching(h, fails, n + 1) == RunStep(Launching(h, fails, n), fails)
  {
  }

  lemma LaunchBegins(h: Shared, fails: bool)
    requires h.lock == Free && h.run == RunLocks
    ensures Launching(h, fails, 2)
            == h.(lock := ByRun, first := Launching(h, fails, 2).first,
                  run := if h.status in {Missing, Lost} then RunClears else RunRefuses)
  {
    LaunchNext(h, fails, 0);
    LaunchNext(h, fails, 1);
  }

  lemma LaunchReserves(h: Shared, fails: bool, n: nat)
    requires Launching(h, fails, n).run == RunClears
    ensures Launching(h, fails, n + 3)
            == Launching(h, fails, n).(status := Starting, pid := false, marker := false, run := RunStarts)
  {
    LaunchNext(h, fails, n);
    LaunchNext(h, fails, n + 1);
    LaunchNext(h, fails, n + 2);
  }

  lemma LaunchStarts(h: Shared, fails: bool, n: nat)
    requires Launching(h, fails, n).run == RunStarts
    ensures Launching(h, fails, n + 5)
            == var g := Launching(h, fails, n);
               if fails then g.(status := Exited, lock := Free, run := RunFailed)
               else g.(status := Running, pid := true, child := Alive, lock := Free, run := RunWaits)
  {
    hide Launching;
    LaunchNext(h, fails, n);
    LaunchNext(h, fails, n + 1);
    LaunchNext(h, fails, n + 2);
    LaunchNext(h, fails, n + 3);
    LaunchNext(h, fails, n + 4);
  }

  /** A launch that has the lock to itself starts the child unless a record forbids
      it, and leaves it recorded as running, with its identity and without a marker;
      a child that does not start is recorded as exited. */
  lemma LaunchAlone(h: Shared, fails: bool)
    requires h.lock == Free && h.run == RunLocks
    ensures var g := Launching(h, fails, 10);
            && (h.status !in {Missing, Lost} ==> g == h.(run := RunRefused, first := g.first))
            && (h.status in {Missing, Lost} && !fails ==>
                  g == Shared(Running, true, false, Free, Alive, g.first, RunWaits))
            && (h.status in {Missing, Lost} && fails ==>
                  g == Shared(Exited, false, false, Free, h.child, g.first, RunFailed))
  {
    LaunchBegins(h, fails);
    hide Launching;
    if h.status !in {Missing, Lost} {
      LaunchNext(h, fails, 2);
      Refused(h, fails, 3, 7);
    } else {
      LaunchReserves(h, fails, 2);
      LaunchStarts(h, fails, 5);
    }
  }

  lemma {:induction false} Refused(h: Shared, fails: bool, n: nat, more: nat)
    requires Launching(h, fails, n).run == RunRefused
    ensures Launching(h, fails, n + more) == Launching(h, fails, n)
  {
    if more > 0 {
      Refused(h, fails, n, more - 1);
    }
  }

  /** And once the child has exited, it records a cancellation exactly when the
      marker is set, and an ordinary exit otherwise. */
  lemma WaitAlone(h: Shared, fails: bool)
    requires h.run == RunWaits && h.child == Dead
    ensures Launching(h, fails, 3) == h.(run := RunEnded, status := if h.marker then Cancelled else Exited)
  {
    LaunchNext(h, fails, 0);
    LaunchNext(h, fails, 1);
    LaunchNext(h, fails, 2);
  }

  /** An interrupted launch records a cancellation once its child has exited; an
      interrupt at any other point is left to the steps that follow. */
  lemma InterruptedRecords(h: Shared, fails: bool)
    requires h.run == RunWaits && h.child == Alive
    ensures var g := Launching(Exit(Interrupt(h)), fails, 3);
            g == h.(marker := true, child := Dead, run := RunEnded, status := Cancelled)
    ensures var g := Launching(Exit(h), fails, 3);
            g == h.(child := Dead, run := RunEnded, status := if h.marker then Cancelled else Exited)
  {
    WaitAlone(Exit(Interrupt(h)), fails);
    WaitAlone(Exit(h), fails);
  }
}
