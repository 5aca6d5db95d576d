/** Native-session continuations, reserved by a counter before they are started
    (internal/effect/harness_resume.go). */
module HarnessResumes {
  import opened Options
  import opened EffectWorld

  /** What the native runtime answers. A rate limit or an expired login is
      reported before anything starts; every other failure is a cut. */
  datatype Verdict = Admitted(session: string) | Waiting

  function Count(invocation: Invocation, manual: bool): nat {
    if manual then invocation.manualResumes else invocation.recoveryResumes
  }

  function WithCount(invocation: Invocation, manual: bool, count: nat): Invocation {
    if manual then invocation.(manualResumes := count) else invocation.(recoveryResumes := count)
  }

  function WithSession(invocation: Invocation, session: string): Invocation {
    if session == "" then invocation else invocation.(session := session)
  }

  function EffectOf(run: string, invocation: Invocation, manual: bool): Effect {
    Resume(run, invocation, Count(invocation, manual) + 1, manual)
  }

  /** Reserve the count, start, record the session; or roll the count back. */
  function Cross(p: Proc, original: Invocation, target: nat, manual: bool, verdict: Verdict): Proc {
    var reserved := WithCount(original, manual, target);
    var s := SaveInvocation(p, reserved);
    match verdict
    case Waiting => SaveInvocation(s, original)
    case Admitted(session) =>
      SaveInvocation(StartSession(s, Launch(original.id, manual, target)), WithSession(reserved, session))
  }

  /** `resume` and `resumeManually` over the caller's copy of the invocation. */
  function ResumeNative(p: Proc, run: string, invocation: Invocation, manual: bool, verdict: Verdict): Proc {
    var e := EffectOf(run, invocation, manual);
    Clear(Cross(Reserve(p, e), invocation, e.target, manual, verdict), e)
  }

  /** A replay starts a session only if the count is not reserved yet, and works
      on the stored invocation. */
  function Replay(p: Proc, e: Effect, verdict: Verdict): Proc
    requires e.Resume?
  {
    var stored := p.world.invocations;
    if e.invocation.id !in stored then Refuse(p)
    else
      var invocation := stored[e.invocation.id];
      Clear(if Count(invocation, e.manual) < e.target then Cross(p, invocation, e.target, e.manual, verdict) else p, e)
  }

  // ---------- the reservation invariant

  predicate OwnKeys(w: World) {
    forall id :: id in w.invocations ==> w.invocations[id].id == id
  }

  ghost predicate SessionsCounted(w: World, t: Tally) {
    forall id, manual :: t.sessions[(id, manual)] > 0 ==>
      id in w.invocations && t.sessions[(id, manual)] <= Count(w.invocations[id], manual)
  }

  ghost predicate LaunchesCounted(w: World, t: Tally) {
    forall l :: t.launches[l] > 0 ==>
      && t.launches[l] == 1 && l.invocation in w.invocations
      && l.target <= Count(w.invocations[l.invocation], l.manual)
  }

  /** No session was started beyond the stored counts, and no reserved count
      started two. */
  ghost predicate Accounted(w: World, t: Tally) {
    OwnKeys(w) && SessionsCounted(w, t) && LaunchesCounted(w, t)
  }

  /** A pending reservation is for a stored invocation and for its next count at
      most. */
  predicate NextReservation(w: World) {
    w.slot.Some? && w.slot.value.Resume? ==>
      var e := w.slot.value;
      e.invocation.id in w.invocations && e.target <= Count(w.invocations[e.invocation.id], e.manual) + 1
  }

  /** The caller's copy has the stored counts. */
  predicate Fresh(w: World, invocation: Invocation) {
    && invocation.id in w.invocations
    && w.invocations[invocation.id].recoveryResumes == invocation.recoveryResumes
    && w.invocations[invocation.id].manualResumes == invocation.manualResumes
  }

  /** No session and no reservation is beyond the counts of a copy. */
  ghost predicate Covers(t: Tally, invocation: Invocation) {
    && (forall manual :: t.sessions[(invocation.id, manual)] <= Count(invocation, manual))
    && (forall l :: t.launches[l] > 0 && l.invocation == invocation.id ==> l.target <= Count(invocation, l.manual))
  }

  lemma FreshCovers(w: World, t: Tally, invocation: Invocation)
    requires Accounted(w, t) && (invocation.id in w.invocations ==> Fresh(w, invocation))
    ensures Covers(t, invocation)
  {
    forall manual ensures t.sessions[(invocation.id, manual)] <= Count(invocation, manual) {
      assert manual == true || manual == false;
    }
  }

  lemma SaveAccounted(p: Proc, invocation: Invocation)
    requires Accounted(p.world, p.tally) && Covers(p.tally, invocation)
    ensures var q := SaveInvocation(p, invocation);
            Accounted(q.world, q.tally) && q.tally == p.tally && q.world == p.world.(invocations := q.world.invocations)
  {
    var q := SaveInvocation(p, invocation);
    if q.world != p.world {
      SaveCounted(p.world, q.world, p.tally, invocation);
    }
  }

  lemma SaveCounted(w: World, v: World, t: Tally, invocation: Invocation)
    requires v.invocations == w.invocations[invocation.id := invocation]
    requires Accounted(w, t) && Covers(t, invocation)
    ensures Accounted(v, t)
  {
    hide Count;
    forall id, m | t.sessions[(id, m)] > 0
      ensures id in v.invocations && t.sessions[(id, m)] <= Count(v.invocations[id], m)
    {
    }
    forall l | t.launches[l] > 0
      ensures t.launches[l] == 1 && l.invocation in v.invocations
      ensures l.target <= Count(v.invocations[l.invocation], l.manual)
    {
    }
  }

  function Started(t: Tally, l: Launch): Tally {
    t.(launches := t.launches + multiset{l}, sessions := t.sessions + multiset{(l.invocation, l.manual)})
  }

  lemma SessionCounted(w: World, t: Tally, reserved: Invocation, l: Launch)
    requires SessionsCounted(w, t) && reserved.id in w.invocations && w.invocations[reserved.id] == reserved
    requires l.invocation == reserved.id && t.sessions[(reserved.id, l.manual)] < Count(reserved, l.manual)
    requires forall m :: t.sessions[(reserved.id, m)] <= Count(reserved, m)
    ensures SessionsCounted(w, Started(t, l))
    ensures forall m :: Started(t, l).sessions[(reserved.id, m)] <= Count(reserved, m)
  {
    hide Count;
    var u := Started(t, l);
    forall id, m | u.sessions[(id, m)] > 0
      ensures id in w.invocations && u.sessions[(id, m)] <= Count(w.invocations[id], m)
    {
      assert (id, m) == (reserved.id, l.manual) || u.sessions[(id, m)] == t.sessions[(id, m)];
    }
  }

  lemma LaunchCounted(w: World, t: Tally, reserved: Invocation, l: Launch)
    requires LaunchesCounted(w, t) && reserved.id in w.invocations && w.invocations[reserved.id] == reserved
    requires l.invocation == reserved.id && l.target == Count(reserved, l.manual) && t.launches[l] == 0
    requires forall k :: t.launches[k] > 0 && k.invocation == reserved.id ==> k.target <= Count(reserved, k.manual)
    ensures LaunchesCounted(w, Started(t, l))
    ensures forall k :: Started(t, l).launches[k] > 0 && k.invocation == reserved.id ==>
              k.target <= Count(reserved, k.manual)
  {
    hide Count;
    var u := Started(t, l);
    forall k | u.launches[k] > 0
      ensures u.launches[k] == 1 && k.invocation in w.invocations
      ensures k.target <= Count(w.invocations[k.invocation], k.manual)
    {
      assert k == l || u.launches[k] == t.launches[k];
    }
  }

  lemma StartCounted(w: World, t: Tally, reserved: Invocation, l: Launch)
    requires Accounted(w, t) && Covers(t, reserved)
    requires reserved.id in w.invocations && w.invocations[reserved.id] == reserved
    requires l.invocation == reserved.id && l.target == Count(reserved, l.manual) && t.launches[l] == 0
    requires t.sessions[(reserved.id, l.manual)] < Count(reserved, l.manual)
    ensures Accounted(w, Started(t, l)) && Covers(Started(t, l), reserved)
  {
    hide Count, SessionsCounted, LaunchesCounted, OwnKeys, Started;
    SessionCounted(w, t, reserved, l);
    LaunchCounted(w, t, reserved, l);
  }

  lemma StartAccounted(p: Proc, reserved: Invocation, manual: bool)
    requires Accounted(p.world, p.tally) && Covers(p.tally, reserved)
    requires p.progress == Going ==> reserved.id in p.world.invocations && p.world.invocations[reserved.id] == reserved
    requires p.tally.sessions[(reserved.id, manual)] < Count(reserved, manual)
    requires p.tally.launches[Launch(reserved.id, manual, Count(reserved, manual))] == 0
    ensures var q := StartSession(p, Launch(reserved.id, manual, Count(reserved, manual)));
            Accounted(q.world, q.tally) && Covers(q.tally, reserved) && q.world == p.world
  {
    hide Count, Accounted, Covers;
    var launch := Launch(reserved.id, manual, Count(reserved, manual));
    var q := StartSession(p, launch);
    assert q.world == p.world && (q.tally == p.tally || q.tally == Started(p.tally, launch));
    if p.progress == Going {
      StartCounted(p.world, p.tally, reserved, launch);
    }
  }

  lemma WithCountCovers(t: Tally, original: Invocation, manual: bool)
    requires Covers(t, original)
    ensures var reserved := WithCount(original, manual, Count(original, manual) + 1);
            && Covers(t, reserved)
            && Count(reserved, manual) == Count(original, manual) + 1
            && t.sessions[(reserved.id, manual)] < Count(reserved, manual)
            && t.launches[Launch(reserved.id, manual, Count(reserved, manual))] == 0
  {
    var reserved := WithCount(original, manual, Count(original, manual) + 1);
    assert forall m :: Count(original, m) <= Count(reserved, m);
    var launch := Launch(reserved.id, manual, Count(reserved, manual));
    assert t.launches[launch] > 0 ==> launch.target <= Count(original, launch.manual);
  }

  /** Crossing keeps the account, wherever it is cut and whatever the runtime
      answers. */
  lemma CrossingAccounted(p: Proc, original: Invocation, target: nat, manual: bool, verdict: Verdict)
    requires Accounted(p.world, p.tally) && Covers(p.tally, original)
    requires target == Count(original, manual) + 1
    ensures var q := Cross(p, original, target, manual, verdict);
            Accounted(q.world, q.tally) && q.world == p.world.(invocations := q.world.invocations)
  {
    hide Accounted, Covers, StartSession;
    var reserved := WithCount(original, manual, target);
    var s := SaveInvocation(p, reserved);
    WithCountCovers(p.tally, original, manual);
    SaveAccounted(p, reserved);
    match verdict
    case Waiting =>
      SaveAccounted(s, original);
    case Admitted(session) =>
      StartAccounted(s, reserved, manual);
      var l := StartSession(s, Launch(original.id, manual, target));
      SessionCovers(l.tally, reserved, session);
      SaveAccounted(l, WithSession(reserved, session));
  }

  lemma SessionCovers(t: Tally, invocation: Invocation, session: string)
    requires Covers(t, invocation)
    ensures Covers(t, WithSession(invocation, session))
  {
    assert forall m :: Count(WithSession(invocation, session), m) == Count(invocation, m);
  }

  /** The world of a crossing: only this invocation changes, and its count is the
      original one or the reserved one. */
  lemma CrossingFrame(p: Proc, original: Invocation, target: nat, manual: bool, verdict: Verdict)
    requires original.id in p.world.invocations
             && Count(p.world.invocations[original.id], manual) == Count(original, manual)
    requires target == Count(original, manual) + 1
    ensures var q := Cross(p, original, target, manual, verdict);
            && q.world == p.world.(invocations := q.world.invocations)
            && original.id in q.world.invocations
            && Count(q.world.invocations[original.id], manual) in {Count(original, manual), target}
            && (p.progress != Going ==> q == p)
  {}

  /** An apply over a fresh copy keeps the account. */
  lemma ResumeKeeps(p: Proc, run: string, copy: Invocation, manual: bool, verdict: Verdict)
    requires Accounted(p.world, p.tally) && NextReservation(p.world) && Fresh(p.world, copy)
    ensures var q := ResumeNative(p, run, copy, manual, verdict);
            && Accounted(q.world, q.tally) && NextReservation(q.world)
            && q.world == p.world.(invocations := q.world.invocations, slot := q.world.slot)
  {
    hide Accounted, Covers, Cross, Key;
    var e := EffectOf(run, copy, manual);
    var r := Reserve(p, e);
    AccountIgnoresSlot(p.world, r.world, p.tally);
    FreshCovers(p.world, p.tally, copy);
    CrossingAccounted(r, copy, e.target, manual, verdict);
    CrossingFrame(r, copy, e.target, manual, verdict);
    var c := Cross(r, copy, e.target, manual, verdict);
    AccountIgnoresSlot(c.world, ResumeNative(p, run, copy, manual, verdict).world, c.tally);
  }

  lemma AccountIgnoresSlot(w: World, v: World, t: Tally)
    requires w.invocations == v.invocations
    ensures Accounted(w, t) <==> Accounted(v, t)
  {}

  /** A replay keeps it too, whatever was started before. */
  lemma ReplayKeeps(p: Proc, e: Effect, verdict: Verdict)
    requires e.Resume? && p.world.slot == Some(e)
    requires Accounted(p.world, p.tally) && NextReservation(p.world)
    ensures var q := Replay(p, e, verdict);
            && Accounted(q.world, q.tally) && NextReservation(q.world)
            && q.world == p.world.(invocations := q.world.invocations, slot := q.world.slot)
            && q.world.slot in {p.world.slot, None}
  {
    hide Accounted, Covers, Cross, Key;
    AccountIgnoresSlot(p.world, Clear(p, e).world, p.tally);
    if e.invocation.id in p.world.invocations {
      var stored := p.world.invocations[e.invocation.id];
      if Count(stored, e.manual) < e.target {
        Keyed(p.world, p.tally, e.invocation.id);
        FreshCovers(p.world, p.tally, stored);
        CrossingAccounted(p, stored, e.target, e.manual, verdict);
        CrossingFrame(p, stored, e.target, e.manual, verdict);
        var c := Cross(p, stored, e.target, e.manual, verdict);
        AccountIgnoresSlot(c.world, Replay(p, e, verdict).world, c.tally);
      }
    }
  }

  lemma Keyed(w: World, t: Tally, id: string)
    requires Accounted(w, t) && id in w.invocations
    ensures w.invocations[id].id == id
  {}

  // ---------- what a fresh copy is needed for

  /** An admitted resume keeps the account exactly when the copy it is called
      with covers what was started and reserved so far. */
  lemma AdmittedResumeKeepsIff(p: Proc, run: string, copy: Invocation, manual: bool, session: string)
    requires p.progress == Going && p.budget == Unbounded && p.world.slot.None?
    requires Accounted(p.world, p.tally) && copy.id in p.world.invocations
    ensures var q := ResumeNative(p, run, copy, manual, Admitted(session));
            Accounted(q.world, q.tally) <==> Covers(p.tally, copy)
  {
    var e := EffectOf(run, copy, manual);
    var q := ResumeNative(p, run, copy, manual, Admitted(session));
    var r := Reserve(p, e);
    var launch := Launch(copy.id, manual, e.target);
    assert q.world.invocations[copy.id] == WithSession(WithCount(copy, manual, e.target), session);
    assert q.tally.launches == p.tally.launches + multiset{launch};
    assert q.tally.sessions == p.tally.sessions + multiset{(copy.id, manual)};
    if Covers(p.tally, copy) {
      AccountIgnoresSlot(p.world, r.world, p.tally);
      CrossingAccounted(r, copy, e.target, manual, Admitted(session));
      AccountIgnoresSlot(Cross(r, copy, e.target, manual, Admitted(session)).world, q.world, q.tally);
    } else if Accounted(q.world, q.tally) {
      AccountedCovers(p, q, copy, launch);
    }
  }

  lemma AccountedCovers(p: Proc, q: Proc, copy: Invocation, launch: Launch)
    requires Accounted(q.world, q.tally)
    requires copy.id in q.world.invocations && launch.invocation == copy.id
             && launch.target == Count(copy, launch.manual) + 1
    requires forall m ::
               Count(q.world.invocations[copy.id], m) == Count(copy, m) + if m == launch.manual then 1 else 0
    requires q.tally.launches == p.tally.launches + multiset{launch}
    requires q.tally.sessions == p.tally.sessions + multiset{(copy.id, launch.manual)}
    ensures Covers(p.tally, copy)
  {
    forall m ensures p.tally.sessions[(copy.id, m)] <= Count(copy, m) {
      assert q.tally.sessions[(copy.id, m)] == p.tally.sessions[(copy.id, m)] + if m == launch.manual then 1 else 0;
    }
    forall l | p.tally.launches[l] > 0 && l.invocation == copy.id ensures l.target <= Count(copy, l.manual) {
      assert q.tally.launches[l] == p.tally.launches[l] + if l == launch then 1 else 0;
      assert q.tally.launches[l] == 1;
    }
  }

  // ---------- recovery

  /** Restarts on a pending resume that are cut in turn, and a last one that is
      not. The runtime may answer each of them differently. */
  function Recover(p: Proc, e: Effect, attempts: seq<(nat, Verdict)>, last: Verdict): Proc
    requires e.Resume?
    decreases |attempts|
  {
    if attempts == [] then Restarted(p, e, Unbounded, last)
    else Recover(Restarted(p, e, Cut(attempts[0].0), attempts[0].1), e, attempts[1..], last)
  }

  function Restarted(p: Proc, e: Effect, b: Budget, verdict: Verdict): Proc
    requires e.Resume?
  {
    if p.world.slot.None? then Restart(p, b) else Replay(Restart(p, b), e, verdict)
  }

  /** One replay that is not cut, from any stored count: it gets through, a
      session starts exactly when the runtime admits one and the count was not
      reserved yet, and only then does the count move, to the target. */
  lemma ReplayCompletes(p: Proc, e: Effect, verdict: Verdict)
    requires e.Resume? && p.world.slot == Some(e) && p.progress == Going && p.budget == Unbounded
    requires e.invocation.id in p.world.invocations && p.world.invocations[e.invocation.id].id == e.invocation.id
    ensures var q, id := Replay(p, e, verdict), e.invocation.id;
            var started := verdict.Admitted? && Count(p.world.invocations[id], e.manual) < e.target;
            && q.progress == Going && id in q.world.invocations
            && q.world == p.world.(slot := None, invocations := p.world.invocations[id := q.world.invocations[id]])
            && q.tally == (if started then Started(p.tally, Launch(id, e.manual, e.target)) else p.tally)
            && Count(q.world.invocations[id], e.manual)
               == (if started then e.target else Count(p.world.invocations[id], e.manual))
            && (!started ==> q.world.invocations == p.world.invocations)
  {
    var id := e.invocation.id;
    var stored := p.world.invocations[id];
    assert p.world.invocations[id := stored] == p.world.invocations;
    assert p.world.invocations[id := WithCount(stored, e.manual, e.target)][id := stored] == p.world.invocations;
  }

  /** An admitted session is recorded under its count, the session that was there
      standing for an unnamed one; a wait leaves the invocation as it was. */
  ghost predicate Recorded(before: Invocation, after: Invocation, manual: bool, target: nat, verdict: Verdict) {
    match verdict
    case Waiting => after == before
    case Admitted(session) =>
      && (session != "" ==> after.session == session)
      && (session == "" ==> after.session == before.session)
      && (manual ==> after.manualResumes == target && after.recoveryResumes == before.recoveryResumes)
      && (!manual ==> after.recoveryResumes == target && after.manualResumes == before.manualResumes)
      && after == before.(session := after.session, manualResumes := after.manualResumes,
                          recoveryResumes := after.recoveryResumes)
  }

  /** A resume records what the runtime answered, manual or not, and frees its
      slot. */
  lemma ResumeRecords(p: Proc, run: string, copy: Invocation, manual: bool, verdict: Verdict)
    requires p.progress == Going && p.budget == Unbounded && p.world.slot.None?
    requires copy.id in p.world.invocations && p.world.invocations[copy.id] == copy
    ensures var q := ResumeNative(p, run, copy, manual, verdict);
            && q.progress == Going && copy.id in q.world.invocations
            && q.world == p.world.(invocations := p.world.invocations[copy.id := q.world.invocations[copy.id]])
            && Recorded(copy, q.world.invocations[copy.id], manual,
                        (if manual then copy.manualResumes else copy.recoveryResumes) + 1, verdict)
  {
  }

  /** And so does a full replay of a resume whose count is not stored yet. */
  lemma ReplayRecords(p: Proc, e: Effect, verdict: Verdict)
    requires e.Resume? && p.world.slot == Some(e) && p.progress == Going && p.budget == Unbounded
    requires e.invocation.id in p.world.invocations && p.world.invocations[e.invocation.id].id == e.invocation.id
    ensures var before, q := p.world.invocations[e.invocation.id], Replay(p, e, verdict);
            var count := if e.manual then before.manualResumes else before.recoveryResumes;
            && e.invocation.id in q.world.invocations
            && (count < e.target ==>
                  Recorded(before, q.world.invocations[e.invocation.id], e.manual, e.target, verdict))
            && (count >= e.target ==> q.world.invocations == p.world.invocations)
  {
    ReplayCompletes(p, e, verdict);
  }

  /** Where a resume that began in `w` and `t` can be: only its invocation has
      changed, its count is the original or the reserved one, and at most one
      session was started for it, behind the reserved count. */
  predicate Underway(w: World, t: Tally, e: Effect, q: Proc)
    requires e.Resume?
  {
    var id := e.invocation.id;
    && q.world == w.(slot := q.world.slot, invocations := q.world.invocations)
    && q.world.slot in {None, Some(e)}
    && id in q.world.invocations && q.world.invocations[id].id == id
    && q.world.invocations == w.invocations[id := q.world.invocations[id]]
    && Count(q.world.invocations[id], !e.manual) == Count(e.invocation, !e.manual)
    && Count(q.world.invocations[id], e.manual) in {e.target - 1, e.target}
    && (q.tally == t
        || (q.tally == Started(t, Launch(id, e.manual, e.target))
            && Count(q.world.invocations[id], e.manual) == e.target))
  }

  /** An invocation that may be stored for the resume at this point. */
  predicate Storable(t: Tally, e: Effect, tally: Tally, invocation: Invocation)
    requires e.Resume?
  {
    && invocation.id == e.invocation.id
    && Count(invocation, !e.manual) == Count(e.invocation, !e.manual)
    && (Count(invocation, e.manual) == e.target || (Count(invocation, e.manual) == e.target - 1 && tally == t))
  }

  lemma SaveUnderway(w: World, t: Tally, e: Effect, p: Proc, invocation: Invocation)
    requires e.Resume? && Underway(w, t, e, p) && Storable(t, e, p.tally, invocation)
    ensures var q := SaveInvocation(p, invocation);
            && Underway(w, t, e, q) && q.tally == p.tally && q.world.slot == p.world.slot
            && (p.progress == Going && p.budget == Unbounded ==> q.progress == Going && q.budget == Unbounded)
            && (q.progress == Going ==> q.world.invocations[e.invocation.id] == invocation)
  {
    hide Count, Started;
    var q := SaveInvocation(p, invocation);
    if q.world != p.world {
      assert q.world.invocations == w.invocations[invocation.id := invocation];
    }
  }

  lemma StartUnderway(w: World, t: Tally, e: Effect, p: Proc)
    requires e.Resume? && Underway(w, t, e, p) && p.tally == t
    requires p.progress == Going ==> Count(p.world.invocations[e.invocation.id], e.manual) == e.target
    ensures var q := StartSession(p, Launch(e.invocation.id, e.manual, e.target));
            && Underway(w, t, e, q) && q.world == p.world
            && (p.progress == Going && p.budget == Unbounded ==> q.progress == Going && q.budget == Unbounded)
  {
    hide Count;
  }

  /** Crossing from the original count moves along, and through when it is not
      cut. */
  lemma CrossingUnderway(w: World, t: Tally, e: Effect, p: Proc, original: Invocation, verdict: Verdict)
    requires e.Resume? && original.id == e.invocation.id && e.target == Count(original, e.manual) + 1
    requires Count(original, !e.manual) == Count(e.invocation, !e.manual)
    requires Underway(w, t, e, p) && p.tally == t
    ensures var q := Cross(p, original, e.target, e.manual, verdict);
            && Underway(w, t, e, q) && q.world.slot == p.world.slot
            && (p.progress == Going && p.budget == Unbounded ==> q.progress == Going && q.budget == Unbounded)
  {
    hide Underway, SaveInvocation, StartSession;
    var reserved := WithCount(original, e.manual, e.target);
    var s := SaveInvocation(p, reserved);
    SaveUnderway(w, t, e, p, reserved);
    match verdict
    case Waiting =>
      SaveUnderway(w, t, e, s, original);
    case Admitted(session) =>
      var l := StartSession(s, Launch(original.id, e.manual, e.target));
      StartUnderway(w, t, e, s);
      SaveUnderway(w, t, e, l, WithSession(reserved, session));
  }

  lemma RestartUnderway(w: World, t: Tally, e: Effect, p: Proc, b: Budget, verdict: Verdict)
    requires e.Resume? && Underway(w, t, e, p)
    ensures var q := Restarted(p, e, b, verdict);
            && Underway(w, t, e, q)
            && (b == Unbounded ==> q.progress == Going && q.world.slot == None)
  {
    hide Cross, Key, Started;
    if p.world.slot.Some? {
      var r := Restart(p, b);
      var stored := p.world.invocations[e.invocation.id];
      if Count(stored, e.manual) < e.target {
        CrossingUnderway(w, t, e, r, stored, verdict);
        ClearUnderway(w, t, e, Cross(r, stored, e.target, e.manual, verdict));
      } else {
        ClearUnderway(w, t, e, r);
      }
    }
  }

  lemma ClearUnderway(w: World, t: Tally, e: Effect, p: Proc)
    requires e.Resume? && Underway(w, t, e, p)
    ensures var q := Clear(p, e);
            && Underway(w, t, e, q)
            && (p.progress == Going && p.budget == Unbounded ==> q.progress == Going && q.world.slot == None)
  {
    hide Key, Count, Started;
  }

  lemma {:induction false} RecoveryUnderway(
      w: World, t: Tally, e: Effect, p: Proc, attempts: seq<(nat, Verdict)>, last: Verdict)
    requires e.Resume? && Underway(w, t, e, p)
    ensures var q := Recover(p, e, attempts, last);
            Underway(w, t, e, q) && q.progress == Going && q.world.slot == None
    decreases |attempts|
  {
    hide Underway, Restarted;
    if attempts == [] {
      RestartUnderway(w, t, e, p, Unbounded, last);
    } else {
      var q := Restarted(p, e, Cut(attempts[0].0), attempts[0].1);
      RestartUnderway(w, t, e, p, Cut(attempts[0].0), attempts[0].1);
      RecoveryUnderway(w, t, e, q, attempts[1..], last);
    }
  }

  lemma ApplyUnderway(p: Proc, run: string, copy: Invocation, manual: bool, verdict: Verdict)
    requires p.world.slot.None? && Fresh(p.world, copy) && p.world.invocations[copy.id].id == copy.id
    ensures Underway(p.world, p.tally, EffectOf(run, copy, manual), ResumeNative(p, run, copy, manual, verdict))
  {
    hide Cross, Key, Clear;
    var e := EffectOf(run, copy, manual);
    var r := Reserve(p, e);
    ReservedUnderway(p, e);
    CrossingUnderway(p.world, p.tally, e, r, copy, verdict);
    ClearUnderway(p.world, p.tally, e, Cross(r, copy, e.target, manual, verdict));
  }

  lemma ReservedUnderway(p: Proc, e: Effect)
    requires e.Resume? && p.world.slot.None? && Fresh(p.world, e.invocation)
    requires p.world.invocations[e.invocation.id].id == e.invocation.id
    requires e.target == Count(e.invocation, e.manual) + 1
    ensures var r := Reserve(p, e);
            Underway(p.world, p.tally, e, r) && r.tally == p.tally
  {
    hide Key, Started;
    var id := e.invocation.id;
    assert p.world.invocations == p.world.invocations[id := p.world.invocations[id]];
  }

  /** A resume cut anywhere, then restarts cut anywhere, then one that is not,
      whatever the runtime answers each time: the slot is free, only this
      invocation has changed, the count is the original or the reserved one, and
      at most one session was started in all, none at the original count. */
  lemma ResumeRecovers(p: Proc, run: string, copy: Invocation, manual: bool, verdict: Verdict,
                       attempts: seq<(nat, Verdict)>, last: Verdict)
    requires p.world.slot.None? && Fresh(p.world, copy) && p.world.invocations[copy.id].id == copy.id
    ensures var e := EffectOf(run, copy, manual);
            var q := Recover(ResumeNative(p, run, copy, manual, verdict), e, attempts, last);
            && q.progress == Going && copy.id in q.world.invocations
            && q.world == p.world.(invocations := p.world.invocations[copy.id := q.world.invocations[copy.id]])
            && Count(q.world.invocations[copy.id], !manual) == Count(copy, !manual)
            && (|| (q.tally == p.tally && Count(q.world.invocations[copy.id], manual) in {e.target - 1, e.target})
                || (q.tally == Started(p.tally, Launch(copy.id, manual, e.target))
                    && Count(q.world.invocations[copy.id], manual) == e.target))
  {
    hide ResumeNative, Recover, Count;
    var e := EffectOf(run, copy, manual);
    ApplyUnderway(p, run, copy, manual, verdict);
    RecoveryUnderway(p.world, p.tally, e, ResumeNative(p, run, copy, manual, verdict), attempts, last);
  }
}
