/** Issue labels of a run (internal/factory/claim.go, internal/tracker/tracker.go).

    A state change replaces every factory-owned label by the one of the new
    status and keeps the ordinary labels. Every effect that projects a run onto
    its issue compares labels before it writes them, so the laws below are what
    makes a repeated projection silent. */
module Labels {

  datatype Status = Active | WaitingForHarness | WaitingForHuman | Failed | Cancelled | Complete | Unknown(name: string)

  const FACTORY_STATE_LABELS: seq<string> :=
    ["agent-ready", "agent-running", "agent-needs-input", "agent-failed", "agent-cancelled", "agent-complete"]

  predicate IsFactory(tag: string) {
    tag in FACTORY_STATE_LABELS
  }

  /** A status without an entry falls back to the running label. */
  function LabelForStatus(status: Status): (tag: string)
    ensures IsFactory(tag) && tag != "" && tag != "agent-ready"
  {
    var tag := match status
      case Active => "agent-running"
      case WaitingForHarness => "agent-running"
      case WaitingForHuman => "agent-needs-input"
      case Failed => "agent-failed"
      case Cancelled => "agent-cancelled"
      case Complete => "agent-complete"
      case Unknown(_) => "agent-running";
    assert FACTORY_STATE_LABELS[1] == "agent-running" && FACTORY_STATE_LABELS[2] == "agent-needs-input";
    assert FACTORY_STATE_LABELS[3] == "agent-failed" && FACTORY_STATE_LABELS[4] == "agent-cancelled";
    assert FACTORY_STATE_LABELS[5] == "agent-complete";
    tag
  }

  /** The ordinary labels, each at its first occurrence. */
  function FirstSeen(labels: seq<string>): (r: seq<string>)
    ensures forall l :: l in r <==> l in labels && !IsFactory(l)
    ensures forall i, j :: 0 <= i < j < |r| ==> r[i] != r[j]
  {
    if labels == [] then []
    else
      var front, last := labels[..|labels| - 1], labels[|labels| - 1];
      var r := FirstSeen(front);
      assert labels == front + [last];
      if IsFactory(last) || last in r then r else r + [last]
  }

  function Replaced(labels: seq<string>, state: string): seq<string> {
    FirstSeen(labels) + if state == "" then [] else [state]
  }

  function StateLabels(labels: seq<string>, status: Status): seq<string> {
    Replaced(labels, LabelForStatus(status))
  }

  /** The label a projection leaves for each status, behind the ordinary ones. */
  lemma StatusNames(labels: seq<string>, status: Status)
    ensures StateLabels(labels, status) != []
    ensures var shown := StateLabels(labels, status)[|StateLabels(labels, status)| - 1];
            && (shown == "agent-needs-input" <==> status == WaitingForHuman)
            && (shown == "agent-failed" <==> status == Failed)
            && (shown == "agent-cancelled" <==> status == Cancelled)
            && (shown == "agent-complete" <==> status == Complete)
            && (shown == "agent-running" <==> status in {Active, WaitingForHarness} || status.Unknown?)
    ensures forall k :: 0 <= k < |StateLabels(labels, status)| - 1 ==>
              StateLabels(labels, status)[k] in labels && StateLabels(labels, status)[k] !in FACTORY_STATE_LABELS
  {
    var names := ["agent-running", "agent-needs-input", "agent-failed", "agent-cancelled", "agent-complete"];
    assert |names[0]| == 13 && |names[1]| == 17 && |names[2]| == 12 && |names[3]| == 15 && |names[4]| == 14;
    var ordinary := FirstSeen(labels);
    assert StateLabels(labels, status) == ordinary + [LabelForStatus(status)];
    assert forall k :: 0 <= k < |ordinary| ==> ordinary[k] in ordinary;
  }

  method ReplaceFactoryState(labels: seq<string>, state: string) returns (result: seq<string>)
    ensures result == Replaced(labels, state)
  {
    result := [];
    var seen: set<string> := {};
    for i := 0 to |labels|
      invariant result == FirstSeen(labels[..i])
      invariant forall l :: l in seen <==> l in result
    {
      assert labels[..i + 1][..i] == labels[..i] && labels[..i + 1][i] == labels[i];
      if IsFactory(labels[i]) || labels[i] in seen {
        continue;
      }
      seen := seen + {labels[i]};
      result := result + [labels[i]];
    }
    assert labels[..|labels|] == labels;
    if state != "" {
      result := result + [state];
    }
  }

  /** Position of the first occurrence, |labels| when there is none. */
  function FirstIndex(labels: seq<string>, tag: string): (k: nat)
    ensures k <= |labels|
    ensures k < |labels| ==> labels[k] == tag
    ensures forall i :: 0 <= i < k ==> labels[i] != tag
  {
    if labels == [] || labels[0] == tag then 0 else 1 + FirstIndex(labels[1..], tag)
  }

  lemma FirstIndexOfPrefix(front: seq<string>, rest: seq<string>, tag: string)
    requires tag in front
    ensures FirstIndex(front + rest, tag) == FirstIndex(front, tag) < |front|
  {
    var k, f := FirstIndex(front + rest, tag), FirstIndex(front, tag);
    assert f < |front|;
    assert (front + rest)[f] == tag;
    assert forall i :: 0 <= i < |front| ==> (front + rest)[i] == front[i];
  }

  lemma FirstIndexOfLast(front: seq<string>, last: string)
    requires last !in front
    ensures FirstIndex(front + [last], last) == |front|
  {
    var k, labels := FirstIndex(front + [last], last), front + [last];
    assert labels[|front|] == last;
    assert forall i :: 0 <= i < |front| ==> labels[i] == front[i];
  }

  /** Ordinary labels keep the order in which the issue first shows them. */
  lemma {:induction false} OrderPreserved(labels: seq<string>, i: nat, j: nat)
    requires i < j < |FirstSeen(labels)|
    ensures FirstIndex(labels, FirstSeen(labels)[i]) < FirstIndex(labels, FirstSeen(labels)[j])
  {
    hide FirstIndex, IsFactory;
    var front, last := labels[..|labels| - 1], labels[|labels| - 1];
    var r := FirstSeen(front);
    assert labels == front + [last];
    assert FirstSeen(labels)[i] == r[i] && r[i] in r;
    FirstIndexOfPrefix(front, [last], r[i]);
    if j < |r| {
      assert r[j] in r;
      OrderPreserved(front, i, j);
      FirstIndexOfPrefix(front, [last], r[j]);
    } else {
      FirstIndexOfLast(front, last);
    }
  }

  /** Labels without repetition and without factory labels stay as they are. */
  lemma {:induction false} FirstSeenFixed(ordinary: seq<string>)
    requires forall l :: l in ordinary ==> !IsFactory(l)
    requires forall i, j :: 0 <= i < j < |ordinary| ==> ordinary[i] != ordinary[j]
    ensures FirstSeen(ordinary) == ordinary
  {
    if ordinary == [] {
    } else {
      var front, last := ordinary[..|ordinary| - 1], ordinary[|ordinary| - 1];
      assert ordinary == front + [last];
      FirstSeenFixed(front);
      assert last !in front;
    }
  }

  /** The last state wins and earlier states leave no trace. */
  lemma LastStateWins(labels: seq<string>, first: string, second: string)
    requires first == "" || IsFactory(first)
    ensures Replaced(Replaced(labels, first), second) == Replaced(labels, second)
  {
    var ordinary := FirstSeen(labels);
    FirstSeenFixed(ordinary);
    if first == "" {
      assert Replaced(labels, first) == ordinary;
    } else {
      var once := ordinary + [first];
      assert once[..|once| - 1] == ordinary;
    }
  }

  /** Projecting the same status again changes nothing, so the comparison in
      front of the write suppresses it. */
  lemma StateLabelsIdempotent(labels: seq<string>, status: Status)
    ensures StateLabels(StateLabels(labels, status), status) == StateLabels(labels, status)
  {
    LastStateWins(labels, LabelForStatus(status), LabelForStatus(status));
  }

  /** Exactly one factory label remains, at the end, and no ordinary label is
      lost, invented or repeated. */
  lemma OneFactoryLabel(labels: seq<string>, status: Status)
    ensures var r := StateLabels(labels, status);
            && |r| > 0
            && (forall i :: 0 <= i < |r| ==> (IsFactory(r[i]) <==> i == |r| - 1))
            && r[|r| - 1] == LabelForStatus(status)
            && (forall l :: !IsFactory(l) ==> (l in r <==> l in labels))
            && (forall i, j :: 0 <= i < j < |r| ==> r[i] != r[j])
  {
    var ordinary, tag := FirstSeen(labels), LabelForStatus(status);
    var r := ordinary + [tag];
    forall i | 0 <= i < |r| ensures IsFactory(r[i]) <==> i == |r| - 1 {
      if i < |ordinary| {
        assert ordinary[i] in ordinary;
      }
    }
  }
}
