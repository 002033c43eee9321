/** api/v1alpha1/k6conditions.go: the status of a TestRun and the rule by which a proposed status is merged into it. */
module TestRunStatus {
  import opened Conditions
  import MergeProperties

  /** EmptyStage is the stage "" of a TestRun that was never reconciled. */
  datatype Stage =
    | EmptyStage | Initialization | Initialized | Created | Started | Stopped | Finished | ErrorStage

  /** A status as it is stored. */
  datatype StatusRecord = StatusRecord(
    conditions: seq<Condition>, stage: Stage, testRunID: string, aggregationVars: string)

  /** A status as it is read: conditions are looked up by type. */
  datatype Status = Status(conditions: CondMap, stage: Stage, testRunID: string, aggregationVars: string)

  function View(r: StatusRecord): Status {
    Status(AsMap(r.conditions), r.stage, r.testRunID, r.aggregationVars)
  }

  predicate IsTrue(conditions: CondMap, kind: ConditionType) {
    kind in conditions && conditions[kind].status == ConditionTrue
  }

  predicate IsFalse(conditions: CondMap, kind: ConditionType) {
    kind in conditions && conditions[kind].status == ConditionFalse
  }

  predicate IsUnknown(conditions: CondMap, kind: ConditionType) {
    !IsFalse(conditions, kind) && !IsTrue(conditions, kind)
  }

  /** LastUpdate: the transition time of a condition, or the current time if there is no such condition. */
  function LastUpdate(conditions: CondMap, kind: ConditionType, now: int): int {
    if kind in conditions then conditions[kind].since else now
  }

  // The conditions that Initialize sets, for a PLZ run (the spec names a test run) or any other.

  function InitialConditions(plz: bool, t: int): CondMap {
    var common: CondMap := map[
                 CloudTestRun := Cond(ConditionUnknown, t),
                 TestRunRunning := Cond(ConditionUnknown, t),
                 TeardownExecuted := Cond(ConditionFalse, t),
                 CloudTestRunAborted := Cond(ConditionFalse, t)];
    if plz then
      common[CloudPLZTestRun := Cond(ConditionTrue, t)]
            [CloudTestRunCreated := Cond(ConditionTrue, t)]
            [CloudTestRunFinalized := Cond(ConditionFalse, t)]
    else
      common[CloudPLZTestRun := Cond(ConditionFalse, t)]
  }

  /** The stage switch of SetIfNewer. */
  predicate AcceptsStage(current: Stage, proposed: Stage) {
    current != proposed && proposed != EmptyStage &&
    match current
    case EmptyStage => true
    case Initialization => true
    case Initialized => proposed != Initialization
    case Created => proposed in {Started, Finished, ErrorStage, Stopped}
    case Started => proposed in {Stopped, Finished, ErrorStage}
    case Stopped => proposed in {Finished, ErrorStage}
    case Finished => false
    case ErrorStage => false
  }

  function StageRank(stage: Stage): (rank: nat)
    ensures rank <= 6
  {
    match stage
    case EmptyStage => 0
    case Initialization => 1
    case Initialized => 2
    case Created => 3
    case Started => 4
    case Stopped => 5
    case Finished => 6
    case ErrorStage => 6
  }

  /** The switch accepts exactly the strictly later stages, so finished and error are final. */
  lemma AcceptsOnlyLaterStages(current: Stage, proposed: Stage)
    ensures AcceptsStage(current, proposed) <==> StageRank(current) < StageRank(proposed)
  {
    match current
    case EmptyStage => match proposed { case EmptyStage => case _ => }
    case _ => match proposed { case EmptyStage => case _ => }
  }

  function MergeStage(current: Stage, proposed: Stage): Stage {
    if AcceptsStage(current, proposed) then proposed else current
  }

  // The callback: run ID and aggregation variables are taken over while the proposed conditions are walked.

  /** The captured variables of the callback: k6status.TestRunID and k6status.AggregationVars. */
  datatype RunData = RunData(testRunID: string, aggregationVars: string)

  function TakeRunData(proposed: RunData): (RunData, Condition) -> (RunData, bool) {
    (current: RunData, c: Condition) =>
      var takesID := c.kind == CloudTestRunCreated && current.testRunID == "" && proposed.testRunID != "";
      var takesVars := proposed.aggregationVars != "" && current.aggregationVars == "";
      (RunData(if takesID then proposed.testRunID else current.testRunID,
               if takesVars then proposed.aggregationVars else current.aggregationVars),
       takesID)
  }

  predicate ProposesCreated(proposed: seq<Condition>) {
    exists c :: c in proposed && c.kind == CloudTestRunCreated
  }

  predicate TakesID(current: string, proposed: string, created: bool) {
    created && current == "" && proposed != ""
  }

  /** Over the whole list, the callback takes the ID if a CloudTestRunCreated is proposed and there is none yet. */
  lemma {:induction false} CallbackResult(current: RunData, data: RunData, proposed: seq<Condition>)
    ensures var takes := TakesID(current.testRunID, data.testRunID, ProposesCreated(proposed));
            RunCallback(TakeRunData(data), current, proposed)
            == (RunData(if takes then data.testRunID else current.testRunID,
                        if current.aggregationVars == "" && proposed != [] then data.aggregationVars
                        else current.aggregationVars),
                takes)
  {
    if proposed == [] {
    } else {
      var n := |proposed| - 1;
      CallbackResult(current, data, proposed[..n]);
      CreatedStep(proposed[..n], proposed[n]);
      assert proposed == proposed[..n] + [proposed[n]];
      hide ProposesCreated;
    }
  }

  lemma CreatedStep(proposed: seq<Condition>, p: Condition)
    ensures ProposesCreated(proposed + [p]) <==> ProposesCreated(proposed) || p.kind == CloudTestRunCreated
  {
    assert forall c :: c in proposed + [p] <==> c in proposed || c == p;
  }

  function MergeRecord(current: StatusRecord, proposed: StatusRecord): StatusRecord {
    StatusRecord(
      Merged(current.conditions, proposed.conditions),
      MergeStage(current.stage, proposed.stage),
      if TakesID(current.testRunID, proposed.testRunID, ProposesCreated(proposed.conditions))
      then proposed.testRunID else current.testRunID,
      if current.aggregationVars == "" && proposed.conditions != [] then proposed.aggregationVars
      else current.aggregationVars)
  }

  predicate RecordNewer(current: StatusRecord, proposed: StatusRecord) {
    || AnyAccepted(Entries(current.conditions), proposed.conditions)
    || TakesID(current.testRunID, proposed.testRunID, ProposesCreated(proposed.conditions))
    || AcceptsStage(current.stage, proposed.stage)
  }

  class TestRunStatus {
    const conditions: ConditionList
    var stage: Stage
    var testRunID: string
    var aggregationVars: string

    function Record(): StatusRecord
      reads this, conditions
    {
      StatusRecord(conditions.items, stage, testRunID, aggregationVars)
    }

    constructor (conditions: ConditionList, stage: Stage, testRunID: string, aggregationVars: string)
      ensures this.conditions == conditions && this.stage == stage
      ensures this.testRunID == testRunID && this.aggregationVars == aggregationVars
    {
      this.conditions := conditions;
      this.stage, this.testRunID, this.aggregationVars := stage, testRunID, aggregationVars;
    }

    /** Initialize; specRunID is spec.testRunId, which only PLZ test runs have. */
    method Initialize(specRunID: string, t: int)
      modifies this, conditions
      ensures UniqueKinds(conditions.items)
      ensures AsMap(conditions.items) == InitialConditions(specRunID != "", t)
      ensures testRunID == (if specRunID != "" then specRunID else old(testRunID))
      ensures stage == old(stage) && aggregationVars == old(aggregationVars)
    {
      hide UniqueKinds, AsMap;
      conditions.items := [
        Condition(CloudTestRun, ConditionUnknown, t, "TestRunTypeUnknown"),
        Condition(TestRunRunning, ConditionUnknown, t, "TestRunPreparation"),
        Condition(TeardownExecuted, ConditionFalse, t, "TeardownExecutedFalse")];
      FirstThree(conditions.items, t);

      Set(CloudTestRunAborted, ConditionFalse, t);
      if |specRunID| > 0 {
        Set(CloudPLZTestRun, ConditionTrue, t);
        Set(CloudTestRunCreated, ConditionTrue, t);
        Set(CloudTestRunFinalized, ConditionFalse, t);
        testRunID := specRunID;
      } else {
        Set(CloudPLZTestRun, ConditionFalse, t);
      }
    }

    /** UpdateCondition of this package. */
    method Set(kind: ConditionType, status: ConditionStatus, now: int)
      requires UniqueKinds(conditions.items)
      modifies conditions
      ensures UniqueKinds(conditions.items)
      ensures AsMap(conditions.items) == MapUpdate(old(AsMap(conditions.items)), kind, status, now)
    {
      MergeProperties.UpdateRefinesMap(conditions.items, kind, status, now);
      conditions.UpdateCondition(kind, status, now);
    }

    method SetIfNewer(proposed: StatusRecord) returns (isNewer: bool)
      modifies this, conditions
      ensures Record() == MergeRecord(old(Record()), proposed)
      ensures isNewer == RecordNewer(old(Record()), proposed)
    {
      hide Merged, AnyAccepted, ProposesCreated, TakeRunData, RunCallback;
      var data := RunData(proposed.testRunID, proposed.aggregationVars);
      var final: RunData;
      CallbackResult(RunData(testRunID, aggregationVars), data, proposed.conditions);
      isNewer, final := conditions.SetIfNewer(
        proposed.conditions, TakeRunData(data), RunData(testRunID, aggregationVars));
      testRunID, aggregationVars := final.testRunID, final.aggregationVars;

      if stage != proposed.stage && proposed.stage != EmptyStage {
        match stage {
          case EmptyStage =>
            stage, isNewer := proposed.stage, true;
          case Initialization =>
            stage, isNewer := proposed.stage, true;
          case Initialized =>
            if proposed.stage != Initialization && proposed.stage != Initialized {
              stage, isNewer := proposed.stage, true;
            }
          case Created =>
            if proposed.stage == Started || proposed.stage == Finished
               || proposed.stage == ErrorStage || proposed.stage == Stopped {
              stage, isNewer := proposed.stage, true;
            }
          case Started =>
            if proposed.stage == Stopped || proposed.stage == Finished || proposed.stage == ErrorStage {
              stage, isNewer := proposed.stage, true;
            }
          case Stopped =>
            if proposed.stage == Finished || proposed.stage == ErrorStage {
              stage, isNewer := proposed.stage, true;
            }
          case Finished =>
          case ErrorStage =>
        }
      }
    }
  }

  lemma FirstThree(conds: seq<Condition>, t: int)
    requires conds == [
               Condition(CloudTestRun, ConditionUnknown, t, "TestRunTypeUnknown"),
               Condition(TestRunRunning, ConditionUnknown, t, "TestRunPreparation"),
               Condition(TeardownExecuted, ConditionFalse, t, "TeardownExecutedFalse")]
    ensures UniqueKinds(conds)
    ensures AsMap(conds) == map[
              CloudTestRun := Cond(ConditionUnknown, t),
              TestRunRunning := Cond(ConditionUnknown, t),
              TeardownExecuted := Cond(ConditionFalse, t)]
  {
    MergeProperties.EntriesAre(conds, map[
                                        CloudTestRun := conds[0],
                                        TestRunRunning := conds[1],
                                        TeardownExecuted := conds[2]]);
  }

  // The same merge on statuses as they are read.

  function Merge(current: Status, proposed: Status): Status {
    Status(
      MapMerge(current.conditions, proposed.conditions),
      MergeStage(current.stage, proposed.stage),
      if TakesID(current.testRunID, proposed.testRunID, CloudTestRunCreated in proposed.conditions)
      then proposed.testRunID else current.testRunID,
      if current.aggregationVars == "" && proposed.conditions != map[] then proposed.aggregationVars
      else current.aggregationVars)
  }

  predicate IsNewer(current: Status, proposed: Status) {
    || MapNewer(current.conditions, proposed.conditions)
    || TakesID(current.testRunID, proposed.testRunID, CloudTestRunCreated in proposed.conditions)
    || AcceptsStage(current.stage, proposed.stage)
  }

  /** The place of a stage in a run; the last two end it. */
  predicate Before(a: Stage, b: Stage) {
    match a
    case EmptyStage => b != EmptyStage
    case Initialization => b != EmptyStage && b != Initialization
    case Initialized => b in {Created, Started, Stopped, Finished, ErrorStage}
    case Created => b in {Started, Stopped, Finished, ErrorStage}
    case Started => b in {Stopped, Finished, ErrorStage}
    case Stopped => b in {Finished, ErrorStage}
    case Finished => false
    case ErrorStage => false
  }

  /**
   * The stage moves on only; the run ID is taken once, along with a proposed CloudTestRunCreated; the aggregation
   * variables are taken once, along with any condition. Of these, stage and run ID are news.
   */
  lemma RecordMergedExactly(current: StatusRecord, proposed: StatusRecord)
    ensures var m := MergeRecord(current, proposed);
            var created := exists i :: 0 <= i < |proposed.conditions|
                                       && proposed.conditions[i].kind == CloudTestRunCreated;
            var takesID := created && current.testRunID == "" && proposed.testRunID != "";
            && m.conditions == Merged(current.conditions, proposed.conditions)
            && m.stage == (if Before(current.stage, proposed.stage) then proposed.stage else current.stage)
            && m.testRunID == (if takesID then proposed.testRunID else current.testRunID)
            && m.aggregationVars == (if current.aggregationVars == "" && |proposed.conditions| > 0
                                     then proposed.aggregationVars else current.aggregationVars)
            && (RecordNewer(current, proposed)
                <==> || AnyAccepted(Entries(current.conditions), proposed.conditions)
                     || takesID || Before(current.stage, proposed.stage))
  {
    hide Merged, AnyAccepted, Entries;
    AcceptsOnlyLaterStages(current.stage, proposed.stage);
    assert Before(current.stage, proposed.stage) <==> StageRank(current.stage) < StageRank(proposed.stage);
    CreatedAt(proposed.conditions);
    hide StageRank, AcceptsStage, Before, ProposesCreated;
  }

  lemma CreatedAt(conds: seq<Condition>)
    ensures ProposesCreated(conds)
            <==> exists i :: 0 <= i < |conds| && conds[i].kind == CloudTestRunCreated
  {
    if ProposesCreated(conds) {
      var c :| c in conds && c.kind == CloudTestRunCreated;
      var i :| 0 <= i < |conds| && conds[i] == c;
      assert conds[i].kind == CloudTestRunCreated;
    }
  }

  /** The in-place merge of stored statuses refines the merge of what is read. */
  lemma MergeRecordRefines(current: StatusRecord, proposed: StatusRecord)
    requires UniqueKinds(current.conditions) && UniqueKinds(proposed.conditions)
    ensures UniqueKinds(MergeRecord(current, proposed).conditions)
    ensures View(MergeRecord(current, proposed)) == Merge(View(current), View(proposed))
    ensures RecordNewer(current, proposed) == IsNewer(View(current), View(proposed))
  {
    MergeProperties.MergeRefinesMap(current.conditions, proposed.conditions);
    var conds := proposed.conditions;
    assert ProposesCreated(conds) <==> CloudTestRunCreated in AsMap(conds) by {
      if ProposesCreated(conds) {
        var i :| 0 <= i < |conds| && conds[i].kind == CloudTestRunCreated;
        MergeProperties.EntryAt(conds, i);
      }
      if CloudTestRunCreated in AsMap(conds) {
        var i := MergeProperties.EntryFrom(conds, CloudTestRunCreated);
        assert conds[i] in conds;
      }
    }
    assert conds == [] <==> AsMap(conds) == map[] by {
      if conds != [] {
        MergeProperties.EntryAt(conds, 0);
        assert conds[0].kind in AsMap(conds);
      }
    }
  }

  // What any sequence of proposals can do to a status.

  function MergeStatuses(current: StatusRecord, proposals: seq<StatusRecord>): StatusRecord
    decreases |proposals|
  {
    if proposals == [] then current else MergeStatuses(MergeRecord(current, proposals[0]), proposals[1..])
  }

  ghost predicate Progressed(before: StatusRecord, after: StatusRecord) {
    && MergeProperties.Advanced(before.conditions, after.conditions)
    && StageRank(before.stage) <= StageRank(after.stage)
    && (StageRank(before.stage) == StageRank(after.stage) ==> before.stage == after.stage)
    && (before.testRunID != "" ==> after.testRunID == before.testRunID)
    && (before.aggregationVars != "" ==> after.aggregationVars == before.aggregationVars)
  }

  /**
   * The stage never goes back and never leaves finished or error, the run ID and the aggregation variables
   * are written at most once, and no condition is lost, duplicated, moved back in time or made Unknown again.
   */
  lemma {:induction false} ProposalsOnlyProgress(current: StatusRecord, proposals: seq<StatusRecord>)
    requires UniqueKinds(current.conditions)
    requires forall p | p in proposals :: UniqueKinds(p.conditions)
    ensures UniqueKinds(MergeStatuses(current, proposals).conditions)
    ensures Progressed(current, MergeStatuses(current, proposals))
    decreases |proposals|
  {
    if proposals == [] {
    } else {
      var next := MergeRecord(current, proposals[0]);
      MergeProperties.MergeNormalForm(current.conditions, proposals[0].conditions);
      MergeProperties.MergeAllAdvances(current.conditions, [proposals[0].conditions]);
      assert MergeProperties.MergeAll(current.conditions, [proposals[0].conditions]) == next.conditions;
      AcceptsOnlyLaterStages(current.stage, proposals[0].stage);
      ProposalsOnlyProgress(next, proposals[1..]);
    }
  }
}
