/** pkg/types/conditions.go: lists of status conditions and the merge that lets only newer knowledge in. */
module Conditions {
  /** The eight condition types of TestRun and PrivateLoadZone. */
  datatype ConditionType =
    | TestRunRunning | TeardownExecuted
    | CloudTestRun | CloudTestRunCreated | CloudTestRunFinalized
    | CloudPLZTestRun | CloudTestRunAborted
    | PLZRegistered

  datatype ConditionStatus = ConditionUnknown | ConditionFalse | ConditionTrue

  /** `since` is LastTransitionTime in nanoseconds. */
  datatype Condition = Condition(kind: ConditionType, status: ConditionStatus, since: int, reason: string)

  /** What a reader of the list sees of one condition. */
  datatype Cond = Cond(status: ConditionStatus, since: int)

  type CondMap = map<ConditionType, Cond>

  /** The table `reasons`: total, so UpdateCondition never panics. */
  function Reason(kind: ConditionType, status: ConditionStatus): string {
    match (kind, status)
    case (TestRunRunning, ConditionUnknown) => "TestRunPreparation"
    case (TestRunRunning, ConditionTrue) => "TestRunRunningTrue"
    case (TestRunRunning, ConditionFalse) => "TestRunRunningFalse"
    case (TeardownExecuted, ConditionUnknown) => "TestRunPreparation"
    case (TeardownExecuted, ConditionTrue) => "TeardownExecutedTrue"
    case (TeardownExecuted, ConditionFalse) => "TeardownExecutedFalse"
    case (CloudTestRun, ConditionUnknown) => "TestRunTypeUnknown"
    case (CloudTestRun, ConditionTrue) => "CloudTestRunTrue"
    case (CloudTestRun, ConditionFalse) => "CloudTestRunFalse"
    case (CloudTestRunCreated, ConditionUnknown) => "CloudTestRunCreatedUnknown"
    case (CloudTestRunCreated, ConditionTrue) => "CloudTestRunCreatedTrue"
    case (CloudTestRunCreated, ConditionFalse) => "CloudTestRunCreatedFalse"
    case (CloudTestRunFinalized, ConditionUnknown) => "CloudTestRunFinalizedUnknown"
    case (CloudTestRunFinalized, ConditionTrue) => "CloudTestRunFinalizedTrue"
    case (CloudTestRunFinalized, ConditionFalse) => "CloudTestRunFinalizedFalse"
    case (CloudPLZTestRun, ConditionUnknown) => "CloudPLZTestRunUnknown"
    case (CloudPLZTestRun, ConditionTrue) => "CloudPLZTestRunTrue"
    case (CloudPLZTestRun, ConditionFalse) => "CloudPLZTestRunFalse"
    case (CloudTestRunAborted, ConditionUnknown) => "CloudTestRunAbortedUnknown"
    case (CloudTestRunAborted, ConditionTrue) => "CloudTestRunAbortedTrue"
    case (CloudTestRunAborted, ConditionFalse) => "CloudTestRunAbortedFalse"
    case (PLZRegistered, ConditionUnknown) => "PLZRegisteredUnknown"
    case (PLZRegistered, ConditionTrue) => "PLZRegisteredTrue"
    case (PLZRegistered, ConditionFalse) => "PLZRegisteredFalse"
  }

  function TypeName(kind: ConditionType): string {
    match kind
    case TestRunRunning => "TestRunRunning"
    case TeardownExecuted => "TeardownExecuted"
    case CloudTestRun => "CloudTestRun"
    case CloudTestRunCreated => "CloudTestRunCreated"
    case CloudTestRunFinalized => "CloudTestRunFinalized"
    case CloudPLZTestRun => "CloudPLZTestRun"
    case CloudTestRunAborted => "CloudTestRunAborted"
    case PLZRegistered => "PLZRegistered"
  }

  function StatusName(status: ConditionStatus): string {
    match status
    case ConditionUnknown => "Unknown"
    case ConditionFalse => "False"
    case ConditionTrue => "True"
  }

  /** A reason names its type and status, but for the types that are undecided before a run starts. */
  lemma ReasonsNamed(kind: ConditionType, status: ConditionStatus)
    ensures Reason(kind, status)
            == if status == ConditionUnknown && kind in {TestRunRunning, TeardownExecuted} then "TestRunPreparation"
               else if status == ConditionUnknown && kind == CloudTestRun then "TestRunTypeUnknown"
               else TypeName(kind) + StatusName(status)
  {
    match status {
      case ConditionUnknown =>
        if kind !in {TestRunRunning, TeardownExecuted, CloudTestRun} {
          UnknownNamed(kind);
        }
      case ConditionFalse => FalseNamed(kind);
      case ConditionTrue => TrueNamed(kind);
    }
    hide Reason, TypeName, StatusName;
  }

  lemma UnknownNamed(kind: ConditionType)
    requires kind !in {TestRunRunning, TeardownExecuted, CloudTestRun}
    ensures Reason(kind, ConditionUnknown) == TypeName(kind) + "Unknown"
  {
  }

  lemma FalseNamed(kind: ConditionType)
    ensures Reason(kind, ConditionFalse) == TypeName(kind) + "False"
  {
  }

  lemma TrueNamed(kind: ConditionType)
    ensures Reason(kind, ConditionTrue) == TypeName(kind) + "True"
  {
  }

  // The library function meta.SetStatusCondition.

  /** meta.FindStatusCondition: the index of the first condition of that kind, |conds| if there is none. */
  function IndexOf(conds: seq<Condition>, kind: ConditionType): (i: nat)
    ensures i <= |conds|
    ensures i < |conds| ==> conds[i].kind == kind
    ensures forall j | 0 <= j < i :: conds[j].kind != kind
  {
    if conds == [] || conds[0].kind == kind then 0
    else
      var i := 1 + IndexOf(conds[1..], kind);
      assert forall j | 1 <= j < i :: conds[j] == conds[1..][j - 1];
      i
  }

  /** An existing condition takes over the new reason always, and the new time only if the status changes. */
  function Adopt(existing: Condition, new_: Condition): Condition {
    if existing.status != new_.status
    then existing.(status := new_.status, since := new_.since, reason := new_.reason)
    else existing.(reason := new_.reason)
  }

  function SetStatusCondition(conds: seq<Condition>, c: Condition): seq<Condition> {
    var i := IndexOf(conds, c.kind);
    if i == |conds| then conds + [c] else conds[i := Adopt(conds[i], c)]
  }

  // Reference definitions: lists as maps, and the pointwise merge.

  ghost predicate UniqueKinds(conds: seq<Condition>) {
    forall i, j | 0 <= i < j < |conds| :: conds[i].kind != conds[j].kind
  }

  function Seen(c: Condition): Cond {
    Cond(c.status, c.since)
  }

  /** existingConditions of SetIfNewer: a later entry of the same kind wins. */
  function Entries(conds: seq<Condition>): map<ConditionType, Condition> {
    if conds == [] then map[]
    else
      var last := conds[|conds| - 1];
      Entries(conds[..|conds| - 1])[last.kind := last]
  }

  /** What a reader sees of a whole list. */
  function AsMap(conds: seq<Condition>): CondMap {
    map k | k in Entries(conds) :: Seen(Entries(conds)[k])
  }

  function AdoptCond(existing: Cond, new_: Cond): Cond {
    if existing.status != new_.status then new_ else existing
  }

  predicate Newer(existing: Cond, proposed: Cond) {
    proposed.status != ConditionUnknown && existing.since < proposed.since
  }

  /** Absent: add. Newer and not Unknown: set. Else: keep. */
  function MapMerge(current: CondMap, proposed: CondMap): CondMap {
    map k | k in current.Keys + proposed.Keys ::
      if k !in current then proposed[k]
      else if k in proposed && Newer(current[k], proposed[k]) then AdoptCond(current[k], proposed[k])
      else current[k]
  }

  predicate MapNewer(current: CondMap, proposed: CondMap) {
    exists k | k in proposed :: k !in current || Newer(current[k], proposed[k])
  }

  function MapUpdate(m: CondMap, kind: ConditionType, status: ConditionStatus, now: int): CondMap {
    m[kind := if kind in m then AdoptCond(m[kind], Cond(status, now)) else Cond(status, now)]
  }

  // What the loop of SetIfNewer does, one proposed condition at a time.

  predicate Accepted(existing: map<ConditionType, Condition>, p: Condition) {
    p.kind !in existing || Newer(Seen(existing[p.kind]), Seen(p))
  }

  function MergeStep(existing: map<ConditionType, Condition>, conds: seq<Condition>, p: Condition): seq<Condition> {
    if p.kind !in existing then conds + [p]
    else if Newer(Seen(existing[p.kind]), Seen(p)) then SetStatusCondition(conds, p)
    else conds
  }

  function MergeSteps(existing: map<ConditionType, Condition>, conds: seq<Condition>, proposed: seq<Condition>)
    : seq<Condition>
  {
    if proposed == [] then conds
    else MergeStep(existing, MergeSteps(existing, conds, proposed[..|proposed| - 1]), proposed[|proposed| - 1])
  }

  function Merged(conds: seq<Condition>, proposed: seq<Condition>): seq<Condition> {
    MergeSteps(Entries(conds), conds, proposed)
  }

  predicate AnyAccepted(existing: map<ConditionType, Condition>, proposed: seq<Condition>) {
    exists p :: p in proposed && Accepted(existing, p)
  }

  lemma AnyAcceptedStep(existing: map<ConditionType, Condition>, proposed: seq<Condition>, p: Condition)
    ensures AnyAccepted(existing, proposed + [p]) <==> AnyAccepted(existing, proposed) || Accepted(existing, p)
  {
    assert p in proposed + [p];
    assert forall q :: q in proposed + [p] <==> q in proposed || q == p;
  }

  /** The callback of SetIfNewer, with the state it captures passed explicitly. */
  function RunCallback<S>(callback: (S, Condition) -> (S, bool), state: S, proposed: seq<Condition>): (S, bool) {
    if proposed == [] then (state, false)
    else
      var (s, flag) := RunCallback(callback, state, proposed[..|proposed| - 1]);
      var (s', flag') := callback(s, proposed[|proposed| - 1]);
      (s', flag || flag')
  }

  /** A condition list that is edited in place. */
  class ConditionList {
    var items: seq<Condition>

    constructor (items: seq<Condition>)
      ensures this.items == items
    {
      this.items := items;
    }

    method UpdateCondition(kind: ConditionType, status: ConditionStatus, now: int)
      modifies this
      ensures items == SetStatusCondition(old(items), Condition(kind, status, now, Reason(kind, status)))
    {
      items := SetStatusCondition(items, Condition(kind, status, now, Reason(kind, status)));
    }

    method SetIfNewer<S>(proposed: seq<Condition>, callback: (S, Condition) -> (S, bool), state: S)
      returns (isNewer: bool, final: S)
      modifies this
      ensures items == Merged(old(items), proposed)
      ensures final == RunCallback(callback, state, proposed).0
      ensures isNewer == (AnyAccepted(Entries(old(items)), proposed) || RunCallback(callback, state, proposed).1)
    {
      var existing: map<ConditionType, Condition> := map[];
      for i := 0 to |items|
        invariant existing == Entries(items[..i])
      {
        assert items[..i + 1][..i] == items[..i];
        existing := existing[items[i].kind := items[i]];
      }
      assert items[..|items|] == items;

      isNewer, final := false, state;
      var k := 0;
      while k < |proposed|
        invariant 0 <= k <= |proposed|
        invariant items == MergeSteps(existing, old(items), proposed[..k])
        invariant final == RunCallback(callback, state, proposed[..k]).0
        invariant isNewer == (AnyAccepted(existing, proposed[..k]) || RunCallback(callback, state, proposed[..k]).1)
      {
        var p := proposed[k];
        assert proposed[..k + 1][..k] == proposed[..k];
        assert proposed[..k + 1] == proposed[..k] + [p];
        AnyAcceptedStep(existing, proposed[..k], p);
        if p.kind !in existing {
          items := items + [p];
          isNewer := true;
        } else if p.status != ConditionUnknown {
          if existing[p.kind].since < p.since {
            items := SetStatusCondition(items, p);
            isNewer := true;
          }
        }
        var (s, flag) := callback(final, p);
        final := s;
        if flag {
          isNewer := flag;
        }
        k := k + 1;
      }
      assert proposed[..|proposed|] == proposed;
    }
  }
}
