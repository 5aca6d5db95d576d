/** Publishing one defect report: a local record written around the creation
    request, so that a lost response or a crash never leads to a second issue
    (internal/bugreport/submit.go). */
module BugReports {
  import opened Options

  datatype FailureKind =
    | InvalidDraft | Authentication | Permission | RateLimited | MissingLabel
    | Unavailable | Ambiguous | Unconfirmed | LocalState | InProgress

  /** The submission record beside the draft. */
  datatype Record = Absent | Pending | Created(issue: nat)

  /** The record, and the upstream issues that carry the report's identity. */
  datatype World = World(record: Record, issues: seq<nat>)

  datatype Report =
    | Submitted(issue: nat)
    | AlreadySubmitted(issue: nat)
    | DuplicateCandidates(candidates: seq<nat>)
    | Failed(kind: FailureKind)
    | Crashed

  /** An answer of the upstream adapter, or its failure with the kind it knows. */
  datatype Answer<T> = Answered(value: T) | Refused(known: Option<FailureKind>)

  /** A creation request: answered, refused, or failed after it may have reached
      the upstream, where it did or did not make an issue. */
  datatype Creation = Makes(issue: nat) | Rejects(kind: FailureKind) | Vanishes(made: Option<nat>)

  /** The operator's options and everything the submission meets. `left` is the
      number of changes it survives to make; below zero it does not crash. */
  datatype Attempt = Attempt(
    confirmNotCreated: bool, distinctFrom: set<nat>,
    draftValid: bool, lockTaken: Option<FailureKind>, recordReadable: bool,
    found: Answer<Option<nat>>, foundRecorded: bool,
    candidates: Answer<seq<nat>>, labelExists: Answer<bool>,
    pendingRecorded: bool, creation: Creation, pendingRemoved: bool, createdRecorded: bool,
    left: int)

  function Kind(known: Option<FailureKind>, fallback: FailureKind): FailureKind {
    if known.Some? then known.value else fallback
  }

  function Others(candidates: seq<nat>, distinctFrom: set<nat>): seq<nat> {
    if candidates == [] then []
    else
      var last := candidates[|candidates| - 1];
      Others(candidates[..|candidates| - 1], distinctFrom) + if last in distinctFrom then [] else [last]
  }

  /** `rest` are the candidates at the increasing positions `at`, which are those of
      the candidates not declared distinct. */
  predicate Picks(candidates: seq<nat>, distinctFrom: set<nat>, rest: seq<nat>, at: seq<nat>) {
    && |at| == |rest|
    && (forall j, k :: 0 <= j < k < |at| ==> at[j] < at[k])
    && (forall k :: 0 <= k < |at| ==> at[k] < |candidates| && rest[k] == candidates[at[k]])
    && (forall i :: 0 <= i < |candidates| ==> (i in at <==> candidates[i] !in distinctFrom))
  }

  /** The candidates not declared distinct, each as often and in the order in which
      they were found. */
  ghost predicate Undeclared(candidates: seq<nat>, distinctFrom: set<nat>, rest: seq<nat>) {
    exists at: seq<nat> :: Picks(candidates, distinctFrom, rest, at)
  }

  lemma {:induction false} OthersPicked(candidates: seq<nat>, distinctFrom: set<nat>) returns (at: seq<nat>)
    ensures Picks(candidates, distinctFrom, Others(candidates, distinctFrom), at)
    decreases |candidates|
  {
    if candidates == [] {
      at := [];
    } else {
      hide Picks;
      var front := candidates[..|candidates| - 1];
      at := OthersPicked(front, distinctFrom);
      PickLast(front, candidates, distinctFrom, Others(front, distinctFrom), at);
      if candidates[|candidates| - 1] !in distinctFrom {
        at := at + [|front|];
      }
    }
  }

  lemma PickLast(front: seq<nat>, candidates: seq<nat>, distinctFrom: set<nat>, rest: seq<nat>, at: seq<nat>)
    requires candidates != [] && front == candidates[..|candidates| - 1] && Picks(front, distinctFrom, rest, at)
    ensures var last := candidates[|front|];
            if last in distinctFrom then Picks(candidates, distinctFrom, rest, at)
            else Picks(candidates, distinctFrom, rest + [last], at + [|front|])
  {
    var last := candidates[|front|];
    assert |front| !in at;
    forall i | 0 <= i < |candidates|
      ensures i in at + [|front|] <==> i == |front| || candidates[i] !in distinctFrom
      ensures i in at <==> i < |front| && candidates[i] !in distinctFrom
    {
      assert i < |front| ==> front[i] == candidates[i];
    }
  }

  lemma NothingPicked(candidates: seq<nat>, distinctFrom: set<nat>)
    ensures Others(candidates, distinctFrom) == [] <==> forall c :: c in candidates ==> c in distinctFrom
  {
    var at := OthersPicked(candidates, distinctFrom);
    hide Others;
    if Others(candidates, distinctFrom) != [] {
      assert at[0] in at && candidates[at[0]] in candidates;
    } else {
      forall i | 0 <= i < |candidates| ensures candidates[i] in distinctFrom {
        assert i !in at;
      }
    }
  }

  // ---------- what a submission does

  /** What a submission leaves behind, the changes it may still make, and what it
      reports. */
  datatype Run = Run(world: World, left: int, report: Report)

  function Create(w: World, a: Attempt, left: int): Run {
    if !a.pendingRecorded then Run(w, left, Failed(LocalState))
    else if left == 0 then Run(w, left, Crashed)
    else CreatePending(w.(record := Pending), a, left - 1)
  }

  function CreatePending(w: World, a: Attempt, left: int): Run {
    match a.creation
    case Rejects(kind) =>
      if !a.pendingRemoved then Run(w, left, Failed(LocalState))
      else if left == 0 then Run(w, left, Crashed)
      else Run(w.(record := Absent), left - 1, Failed(kind))
    case Vanishes(None) => Run(w, left, Failed(Ambiguous))
    case Vanishes(Some(issue)) =>
      if left == 0 then Run(w, left, Crashed)
      else Run(w.(issues := w.issues + [issue]), left - 1, Failed(Ambiguous))
    case Makes(issue) =>
      if left == 0 then Run(w, left, Crashed)
      else CreateRecorded(w.(issues := w.issues + [issue]), a, issue, left - 1)
  }

  function CreateRecorded(w: World, a: Attempt, issue: nat, left: int): Run {
    if !a.createdRecorded then Run(w, left, Failed(LocalState))
    else if left == 0 then Run(w, left, Crashed)
    else Run(w.(record := Created(issue)), left - 1, Submitted(issue))
  }

  function Submit(w: World, a: Attempt): Run {
    if !a.draftValid then Run(w, a.left, Failed(InvalidDraft))
    else if a.lockTaken.Some? then Run(w, a.left, Failed(a.lockTaken.value))
    else if !a.recordReadable then Run(w, a.left, Failed(LocalState))
    else if w.record.Created? then Run(w, a.left, AlreadySubmitted(w.record.issue))
    else if a.found.Refused? then Run(w, a.left, Failed(Kind(a.found.known, Unavailable)))
    else if a.found.value.Some? then
      var issue := a.found.value.value;
      if !a.foundRecorded then Run(w, a.left, Failed(LocalState))
      else if a.left == 0 then Run(w, a.left, Crashed)
      else Run(w.(record := Created(issue)), a.left - 1, AlreadySubmitted(issue))
    else if w.record == Pending && !a.confirmNotCreated then Run(w, a.left, Failed(Unconfirmed))
    else if a.candidates.Refused? then Run(w, a.left, Failed(Kind(a.candidates.known, Unavailable)))
    else if Others(a.candidates.value, a.distinctFrom) != [] then
      Run(w, a.left, DuplicateCandidates(Others(a.candidates.value, a.distinctFrom)))
    else if a.labelExists.Refused? then Run(w, a.left, Failed(Kind(a.labelExists.known, Unavailable)))
    else if !a.labelExists.value then Run(w, a.left, Failed(MissingLabel))
    else Create(w, a, a.left)
  }

  // ---------- the procedure

  /** The draft directory and the upstream, changed one step at a time. */
  class Desk {
    var record: Record
    var issues: seq<nat>
    var left: int

    constructor ()
      ensures record == Absent && issues == []
    {
      record, issues, left := Absent, [], -1;
    }

    function Now(): World
      reads this
    {
      World(record, issues)
    }

    method WriteRecord(to: Record) returns (alive: bool)
      modifies this`record, this`left
      ensures alive <==> old(left) != 0
      ensures alive ==> record == to && left == old(left) - 1
      ensures !alive ==> record == old(record) && left == old(left)
    {
      if left == 0 {
        return false;
      }
      record, left := to, left - 1;
      return true;
    }

    method MakeIssue(issue: nat) returns (alive: bool)
      modifies this`issues, this`left
      ensures alive <==> old(left) != 0
      ensures alive ==> issues == old(issues) + [issue] && left == old(left) - 1
      ensures !alive ==> issues == old(issues) && left == old(left)
    {
      if left == 0 {
        return false;
      }
      issues, left := issues + [issue], left - 1;
      return true;
    }

    method SubmitDraft(a: Attempt) returns (report: Report)
      modifies this
      ensures Run(Now(), left, report) == Submit(old(Now()), a)
    {
      left := a.left;
      if !a.draftValid {
        return Failed(InvalidDraft);
      }
      if a.lockTaken.Some? {
        return Failed(a.lockTaken.value);
      }
      if !a.recordReadable {
        return Failed(LocalState);
      }
      if record.Created? {
        return AlreadySubmitted(record.issue);
      }
      if a.found.Refused? {
        return Failed(Kind(a.found.known, Unavailable));
      }
      if a.found.value.Some? {
        if !a.foundRecorded {
          return Failed(LocalState);
        }
        var alive := WriteRecord(Created(a.found.value.value));
        return if alive then AlreadySubmitted(a.found.value.value) else Crashed;
      }
      if record == Pending && !a.confirmNotCreated {
        return Failed(Unconfirmed);
      }
      if a.candidates.Refused? {
        return Failed(Kind(a.candidates.known, Unavailable));
      }
      var candidates := Undecided(a.candidates.value, a.distinctFrom);
      if |candidates| > 0 {
        return DuplicateCandidates(candidates);
      }
      if a.labelExists.Refused? {
        return Failed(Kind(a.labelExists.known, Unavailable));
      }
      if !a.labelExists.value {
        return Failed(MissingLabel);
      }
      report := CreateReport(a);
    }

    method CreateReport(a: Attempt) returns (report: Report)
      modifies this
      ensures Run(Now(), left, report) == Create(old(Now()), a, old(left))
    {
      if !a.pendingRecorded {
        return Failed(LocalState);
      }
      var alive := WriteRecord(Pending);
      if !alive {
        return Crashed;
      }
      match a.creation
      case Rejects(kind) =>
        if !a.pendingRemoved {
          return Failed(LocalState);
        }
        alive := WriteRecord(Absent);
        return if alive then Failed(kind) else Crashed;
      case Vanishes(made) =>
        if made.Some? {
          alive := MakeIssue(made.value);
          if !alive {
            return Crashed;
          }
        }
        return Failed(Ambiguous);
      case Makes(issue) =>
        alive := MakeIssue(issue);
        if !alive {
          return Crashed;
        }
        if !a.createdRecorded {
          return Failed(LocalState);
        }
        alive := WriteRecord(Created(issue));
        return if alive then Submitted(issue) else Crashed;
    }
  }

  method Undecided(candidates: seq<nat>, distinctFrom: set<nat>) returns (rest: seq<nat>)
    ensures rest == Others(candidates, distinctFrom)
    ensures Undeclared(candidates, distinctFrom, rest)
  {
    hide Picks;
    ghost var at := OthersPicked(candidates, distinctFrom);
    rest := [];
    for k := 0 to |candidates|
      invariant rest == Others(candidates[..k], distinctFrom)
    {
      assert candidates[..k + 1][..k] == candidates[..k] && candidates[..k + 1][k] == candidates[k];
      if candidates[k] !in distinctFrom {
        rest := rest + [candidates[k]];
      }
    }
    assert candidates[..|candidates|] == candidates;
  }

  // ---------- what stops a creation

  /** Everything in front of the duplicate check lets the submission pass. */
  predicate GetsToCandidates(w: World, a: Attempt) {
    && a.draftValid && a.lockTaken.None? && a.recordReadable && !w.record.Created?
    && a.found == Answered(None) && (w.record == Pending ==> a.confirmNotCreated)
  }

  /** A candidate that is not declared distinct stops every creation, and a
      submission that gets that far reports exactly these candidates. */
  lemma DuplicatesStop(w: World, a: Attempt, candidate: nat)
    requires a.candidates.Answered? && candidate in a.candidates.value && candidate !in a.distinctFrom
    ensures Submit(w, a).world.issues == w.issues && !Submit(w, a).report.Submitted?
    ensures GetsToCandidates(w, a) ==>
              && Submit(w, a).report.DuplicateCandidates? && Submit(w, a).world == w
              && Undeclared(a.candidates.value, a.distinctFrom, Submit(w, a).report.candidates)
  {
    hide Others, Picks;
    var at := OthersPicked(a.candidates.value, a.distinctFrom);
    NothingPicked(a.candidates.value, a.distinctFrom);
  }

  /** Candidates that are all declared distinct stop nothing. */
  lemma DistinctStopNothing(w: World, a: Attempt)
    requires a.candidates.Answered? && forall c :: c in a.candidates.value ==> c in a.distinctFrom
    ensures Submit(w, a) == Submit(w, a.(candidates := Answered([])))
    ensures !Submit(w, a).report.DuplicateCandidates?
  {
    NothingPicked(a.candidates.value, a.distinctFrom);
    NothingPicked([], a.distinctFrom);
    hide Others;
  }

  /** The issue a submission makes, when it survives to make it. */
  function Made(a: Attempt): Option<nat> {
    match a.creation
    case Makes(issue) => Some(issue)
    case Vanishes(made) => made
    case Rejects(_) => None
  }

  /** A submission makes an issue exactly when every check passed: the draft, the
      lock, the record, the search, the operator's word on an unknown creation, the
      duplicates and the label; and when it survives to write the record first. */
  lemma MakesIssueIff(w: World, a: Attempt)
    ensures Submit(w, a).world.issues != w.issues <==>
            && GetsToCandidates(w, a)
            && a.candidates.Answered? && (forall c :: c in a.candidates.value ==> c in a.distinctFrom)
            && a.labelExists == Answered(true)
            && a.pendingRecorded && a.left != 0 && a.left != 1 && Made(a).Some?
    ensures Submit(w, a).world.issues != w.issues ==> Submit(w, a).world.issues == w.issues + [Made(a).value]
  {
    if a.candidates.Answered? {
      if forall c :: c in a.candidates.value ==> c in a.distinctFrom {
        DistinctStopNothing(w, a);
        assert Others([], a.distinctFrom) == [];
      } else {
        var c :| c in a.candidates.value && c !in a.distinctFrom;
        DuplicatesStop(w, a, c);
      }
    }
  }

  /** A check that the adapter cannot answer leaves everything as it is, and the
      report gives the kind the adapter knows, or that it is unavailable. */
  lemma RefusedAnswerStops(w: World, a: Attempt)
    requires GetsToCandidates(w, a.(found := Answered(None))) && a.candidates != Answered([])
    requires a.found.Refused? || (a.found == Answered(None) && a.candidates.Refused?)
    ensures var known := if a.found.Refused? then a.found.known else a.candidates.known;
            && Submit(w, a).world == w
            && Submit(w, a).report == Failed(match known case Some(kind) => kind case None => Unavailable)
  {
  }

  /** What a creation leaves that is not interrupted: an answer is recorded and
      reported, a definite refusal clears the record so that the draft can be
      submitted again, and a lost answer keeps it pending. */
  lemma CreationOutcome(w: World, a: Attempt)
    requires GetsToCandidates(w, a) && a.candidates == Answered([]) && a.labelExists == Answered(true)
    requires a.pendingRecorded && a.pendingRemoved && a.createdRecorded && a.left < 0
    ensures var r := Submit(w, a);
            match a.creation
            case Makes(issue) => r.world == World(Created(issue), w.issues + [issue]) && r.report == Submitted(issue)
            case Rejects(kind) => r.world == World(Absent, w.issues) && r.report == Failed(kind)
            case Vanishes(made) =>
              r.world == World(Pending, w.issues + if made.Some? then [made.value] else [])
              && r.report == Failed(Ambiguous)
  {
    assert Others([], a.distinctFrom) == [];
  }

  // ---------- at most one issue

  /** What GitHub guarantees: the search shows only issues there are, and a new
      issue has a number of its own. */
  predicate Honest(w: World, a: Attempt) {
    && (a.found.Answered? && a.found.value.Some? ==> a.found.value.value in w.issues)
    && (a.creation.Makes? ==> a.creation.issue !in w.issues)
    && (a.creation.Vanishes? && a.creation.made.Some? ==> a.creation.made.value !in w.issues)
  }

  /** An operator who says that an unknown creation made nothing is right. */
  predicate Truthful(w: World, a: Attempt) {
    w.record == Pending && a.confirmNotCreated ==> w.issues == []
  }

  predicate Inv(w: World) {
    && (w.issues != [] ==> w.record != Absent)
    && (w.record.Created? ==> w.record.issue in w.issues)
    && |w.issues| <= 1
  }

  predicate Careful(w: World, attempts: seq<Attempt>)
    decreases |attempts|
  {
    attempts == []
    || (Honest(w, attempts[0]) && Truthful(w, attempts[0]) && Careful(Submit(w, attempts[0]).world, attempts[1..]))
  }

  function Play(w: World, attempts: seq<Attempt>): World
    decreases |attempts|
  {
    if attempts == [] then w else Play(Submit(w, attempts[0]).world, attempts[1..])
  }

  lemma AttemptKeeps(w: World, a: Attempt)
    requires Inv(w) && Honest(w, a) && Truthful(w, a)
    ensures Inv(Submit(w, a).world)
    ensures w.issues <= Submit(w, a).world.issues
  {
  }

  /** However submissions of a draft crash, lose their answers or miss the issue in
      the search: while the operator confirms truthfully, there is at most one issue,
      and once there is one the record is pending or created. */
  lemma {:induction false} AtMostOneIssue(w: World, attempts: seq<Attempt>)
    requires Inv(w) && Careful(w, attempts)
    ensures Inv(Play(w, attempts))
    ensures w.issues <= Play(w, attempts).issues
    decreases |attempts|
  {
    hide Inv, Honest, Truthful, Submit;
    if attempts != [] {
      AttemptKeeps(w, attempts[0]);
      AtMostOneIssue(Submit(w, attempts[0]).world, attempts[1..]);
    }
  }

  /** An attempt that nothing disturbs and that makes a second issue if it makes one. */
  function Undisturbed(confirm: bool, issue: nat): Attempt {
    Attempt(confirm, {}, true, None, true, Answered(None), true, Answered([]), Answered(true), true,
            Makes(issue), true, true, -1)
  }

  ghost predicate MakesSecond(w: World, confirm: bool) {
    exists a: Attempt :: Honest(w, a) && a.confirmNotCreated == confirm && |Submit(w, a).world.issues| > 1
  }

  /** A second issue is possible exactly when the operator denies an issue that an
      unknown creation has made. */
  lemma SecondIssueIff(w: World, confirm: bool)
    requires Inv(w)
    ensures MakesSecond(w, confirm) <==> w.record == Pending && confirm && w.issues != []
  {
    if w.record == Pending && confirm && w.issues != [] {
      var a := Undisturbed(confirm, w.issues[0] + 1);
      assert Honest(w, a) && |Submit(w, a).world.issues| > 1;
    }
  }

  // ---------- what is reported

  predicate Names(report: Report, issue: nat) {
    report == Submitted(issue) || report == AlreadySubmitted(issue)
  }

  lemma ReportNames(w: World, a: Attempt, issue: nat)
    requires Inv(w) && Honest(w, a) && Truthful(w, a) && Names(Submit(w, a).report, issue)
    ensures Submit(w, a).world == World(Created(issue), [issue])
  {
  }

  /** Every submission of a draft that names an issue names the same one, the only
      one there is, now and after any further submissions. */
  lemma OneIssueReported(before: seq<Attempt>, a: Attempt, after: seq<Attempt>, issue: nat)
    requires Careful(World(Absent, []), before + [a] + after)
    requires Names(Submit(Play(World(Absent, []), before), a).report, issue)
    ensures Play(World(Absent, []), before + [a] + after) == World(Created(issue), [issue])
  {
    hide Submit, Honest, Truthful, Inv;
    var w := World(Absent, []);
    assert Inv(w) by { Fresh(); }
    assert before + [a] + after == before + ([a] + after);
    CarefulSplits(w, before, [a] + after);
    AtMostOneIssue(w, before);
    var v := Play(w, before);
    assert ([a] + after)[1..] == after;
    ReportNames(v, a, issue);
    CreatedStays(Submit(v, a).world, after);
  }

  lemma Fresh()
    ensures Inv(World(Absent, []))
  {
  }

  lemma {:induction false} CarefulSplits(w: World, a: seq<Attempt>, b: seq<Attempt>)
    requires Careful(w, a + b)
    ensures Careful(w, a) && Careful(Play(w, a), b) && Play(w, a + b) == Play(Play(w, a), b)
    decreases |a|
  {
    hide Submit, Honest, Truthful;
    if a == [] {
      assert a + b == b;
    } else {
      assert (a + b)[0] == a[0] && (a + b)[1..] == a[1..] + b;
      CarefulSplits(Submit(w, a[0]).world, a[1..], b);
    }
  }

  /** A recorded issue is final: whatever is submitted, nothing changes. */
  lemma {:induction false} CreatedStays(w: World, attempts: seq<Attempt>)
    requires w.record.Created?
    ensures Play(w, attempts) == w
    decreases |attempts|
  {
    if attempts != [] {
      CreatedStays(w, attempts[1..]);
    }
  }

  /** The next submission that is not disturbed and sees the issue settles whatever
      was left behind. */
  lemma SettlesOnceFound(w: World, a: Attempt)
    requires Inv(w) && w.issues != []
    requires a.draftValid && a.lockTaken == None && a.recordReadable && a.found == Answered(Some(w.issues[0]))
    requires a.foundRecorded && a.left != 0
    ensures Submit(w, a).report == AlreadySubmitted(w.issues[0])
    ensures Submit(w, a).world == World(Created(w.issues[0]), w.issues)
  {
  }
}
