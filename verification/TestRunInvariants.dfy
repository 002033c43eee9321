/** What holds of a TestRun in every state that a run can reach. */
module TestRunInvariants {
  import opened Text
  import opened Conditions
  import opened TestRunStatus
  import opened TestRunModel
  import Aggregation

  // Properties of a single stored status.

  /** TestRunRunning is True exactly in stage started, False after it and undecided before it. */
  ghost predicate RunningMatchesStage(s: Status) {
    && (IsTrue(s.conditions, TestRunRunning) <==> s.stage == Started)
    && (s.stage in {Stopped, Finished} ==> IsFalse(s.conditions, TestRunRunning))
    && (s.stage in {EmptyStage, Initialization, Initialized, Created} ==> IsUnknown(s.conditions, TestRunRunning))
  }

  /** CloudTestRunCreated is True exactly when there is a run ID, and a cloud run that is set up has one. */
  ghost predicate RunIDRecorded(spec: Spec, s: Status) {
    && (IsTrue(s.conditions, CloudTestRunCreated) <==> s.testRunID != "")
    && (s.testRunID != "" && IsPLZ(spec) ==> s.testRunID == spec.testRunID)
    && (IsTrue(s.conditions, CloudTestRun) && s.stage in {Initialized, Created, Started, Stopped, Finished} ==>
          s.testRunID != "")
  }

  ghost predicate FinalizedWhenFinished(s: Status) {
    && (s.stage == Finished && IsTrue(s.conditions, CloudTestRun) ==> IsTrue(s.conditions, CloudTestRunFinalized))
    && (IsTrue(s.conditions, CloudTestRunFinalized) ==> s.stage == Finished && IsTrue(s.conditions, CloudTestRun))
  }

  ghost predicate TeardownOrAbort(spec: Spec, s: Status) {
    && (IsPLZ(spec) && s.stage in {Stopped, Finished} ==>
          IsTrue(s.conditions, TeardownExecuted) || IsTrue(s.conditions, CloudTestRunAborted))
    && (IsTrue(s.conditions, TeardownExecuted) ==> IsPLZ(spec) && s.stage in {Started, Stopped, Finished})
    && (IsTrue(s.conditions, CloudTestRunAborted) ==> s.stage in {Stopped, Finished, ErrorStage})
  }

  /** Nothing but the stage was ever stored. */
  ghost predicate Untouched(s: Status) {
    s.conditions == map[] && s.testRunID == "" && s.aggregationVars == "" && s.stage in {EmptyStage, ErrorStage}
  }

  ghost predicate Decided(c: CondMap, kind: ConditionType) {
    IsTrue(c, kind) || IsFalse(c, kind)
  }

  /** The conditions that Initialize stores, and what is known about the kind of the test run. */
  ghost predicate Prepared(spec: Spec, s: Status) {
    var c := s.conditions;
    && CloudTestRun in c && TestRunRunning in c && PLZRegistered !in c
    && Decided(c, TeardownExecuted) && Decided(c, CloudTestRunAborted)
    && (if IsPLZ(spec) then IsTrue(c, CloudPLZTestRun) else IsFalse(c, CloudPLZTestRun))
    && (CloudTestRunCreated in c ==> Decided(c, CloudTestRunCreated))
    && (CloudTestRunFinalized in c ==> Decided(c, CloudTestRunFinalized))
    && (IsPLZ(spec) || IsTrue(c, CloudTestRun) <==> CloudTestRunCreated in c)
    && (IsPLZ(spec) || IsTrue(c, CloudTestRun) <==> CloudTestRunFinalized in c)
    && (IsTrue(c, CloudTestRun) ==> HasCloudOut(spec))
    && (IsFalse(c, CloudTestRun) ==> !HasCloudOut(spec))
    && (IsPLZ(spec) ==> s.testRunID != "" && s.aggregationVars == "")
    && (s.testRunID == "" ==> s.aggregationVars == "")
    && (s.stage == EmptyStage ==> c == InitialConditions(IsPLZ(spec), c[CloudTestRun].since))
  }

  ghost predicate StatusOk(spec: Spec, s: Status) {
    && (Untouched(s) || Prepared(spec, s))
    && RunningMatchesStage(s)
    && RunIDRecorded(spec, s)
    && FinalizedWhenFinished(s)
    && TeardownOrAbort(spec, s)
  }

  // How stored statuses follow each other.

  ghost predicate SameView(a: Status, b: Status) {
    && a.stage == b.stage && a.testRunID == b.testRunID && a.aggregationVars == b.aggregationVars
    && a.conditions.Keys == b.conditions.Keys
    && forall k | k in a.conditions :: b.conditions[k].status == a.conditions[k].status
  }

  function One(b: bool): nat {
    if b then 1 else 0
  }

  /** How far a status has come: stages passed and facts established. */
  function Milestones(s: Status): (m: nat)
    ensures m <= 11
  {
    StageRank(s.stage) + One(s.conditions != map[]) + One(!IsUnknown(s.conditions, CloudTestRun))
    + One(IsTrue(s.conditions, CloudTestRunCreated)) + One(IsTrue(s.conditions, TeardownExecuted))
    + One(IsTrue(s.conditions, CloudTestRunAborted))
  }

  ghost predicate Follows(a: Status, b: Status) {
    && (SameView(a, b) || Milestones(a) < Milestones(b))
    && (a.testRunID != "" ==> b.testRunID == a.testRunID)
    && (a.aggregationVars != "" ==> b.aggregationVars == a.aggregationVars)
    && (a.stage in {Finished, ErrorStage} ==> b.stage == a.stage)
    && StageRank(a.stage) <= StageRank(b.stage)
  }

  ghost predicate HistoryOk(spec: Spec, history: seq<Status>, s: Status) {
    && history != [] && history[|history| - 1] == s
    && (forall i | 0 <= i < |history| :: StatusOk(spec, history[i]))
    && (forall i, j | 0 <= i && j == i + 1 < |history| :: Follows(history[i], history[j]))
  }

  ghost predicate NotAfter(s: Status, t: int) {
    forall k | k in s.conditions :: s.conditions[k].since <= t
  }

  // The cluster and the log of what happened.

  predicate IsLaunch(e: Event) {
    e.JobCreated? || e.ServiceCreated?
  }

  /** The launches of runners among the events, in order. */
  function LaunchesOf(log: seq<Event>): seq<Event> {
    if log == [] then []
    else
      var front := LaunchesOf(log[..|log| - 1]);
      if IsLaunch(log[|log| - 1]) then front + [log[|log| - 1]] else front
  }

  function Launching(jobs: nat, services: nat): seq<Event> {
    Launches(services) + if jobs > services then [JobCreated(jobs)] else []
  }

  /**
   * Jobs 1..jobs and services 1..services were created, one runner after the other; the services are as many
   * as the jobs or one less. Runner jobs are only ever deleted after the run has stopped.
   */
  ghost predicate LaunchedSoFar(spec: Spec, c: Cluster, log: seq<Event>, s: Status, jobs: nat, services: nat) {
    && services <= jobs <= services + 1
    && (jobs > 0 ==> jobs <= spec.parallelism)
    && LaunchesOf(log) == Launching(jobs, services)
    && c.services == UpTo(services)
    && c.jobs <= UpTo(jobs)
    && (s.stage !in {Stopped, Finished} ==> c.jobs == UpTo(jobs))
    && (s.stage in {EmptyStage, Initialization, ErrorStage} ==> jobs == 0)
    && (s.stage in {Created, Started} ==> jobs == services == spec.parallelism)
  }

  ghost predicate ClusterOk(spec: Spec, c: Cluster, log: seq<Event>, s: Status) {
    && (exists jobs: nat, services: nat :: LaunchedSoFar(spec, c, log, s, jobs, services))
    && (c.starter ==> s.stage in {Created, Started, Stopped, Finished})
    && (c.initializer ==> s.stage != EmptyStage && spec.scriptParses)
  }

  function CountStarters(log: seq<Event>): nat {
    if log == [] then 0 else CountStarters(log[..|log| - 1]) + One(log[|log| - 1].StarterCreated?)
  }

  function CountInitializers(log: seq<Event>): nat {
    if log == [] then 0 else CountInitializers(log[..|log| - 1]) + One(log[|log| - 1].InitializerCreated?)
  }

  /** When the starter was created, every runner was launched, and each of them is among its hosts once. */
  ghost predicate StarterJustified(spec: Spec, before: seq<Event>, hosts: seq<int>) {
    && spec.parallelism >= 1
    && LaunchesOf(before) == Launches(spec.parallelism)
    && multiset(hosts) == multiset(UpTo(spec.parallelism))
    && (IsPLZ(spec) ==> forall h | h in hosts :: SetupDelivered(h) in before)
  }

  /** What had to happen before an event. */
  ghost predicate EventJustified(spec: Spec, before: seq<Event>, e: Event) {
    && (e.StarterCreated? ==> StarterJustified(spec, before, e.hosts))
    && (e.TeardownInvoked? ==> RunnersStopped in before)
  }

  ghost predicate EventsJustified(spec: Spec, log: seq<Event>) {
    forall j | 0 <= j < |log| :: EventJustified(spec, log[..j], log[j])
  }

  /** What must have happened for a status to say what it says. */
  ghost predicate StatusJustified(spec: Spec, log: seq<Event>, s: Status) {
    && (IsTrue(s.conditions, TeardownExecuted) ==> exists hosts :: TeardownInvoked(hosts) in log)
    && (IsTrue(s.conditions, CloudTestRunFinalized) ==> FinishAccepted(s.testRunID) in log)
    && (!IsPLZ(spec) && s.testRunID != "" ==>
          exists config :: CloudRunCreated(s.testRunID, Some(config)) in log
                           && s.aggregationVars == Aggregation.Encode(config))
  }

  ghost predicate LogOk(spec: Spec, c: Cluster, log: seq<Event>, s: Status) {
    && EventsJustified(spec, log)
    && StatusJustified(spec, log, s)
    && CountStarters(log) == One(c.starter)
    && CountInitializers(log) == One(c.initializer)
  }

  ghost predicate WorldOk(spec: Spec, c: Cluster, log: seq<Event>, clock: int, s: Status) {
    && NotAfter(s, clock)
    && ClusterOk(spec, c, log, s)
    && LogOk(spec, c, log, s)
  }

  ghost predicate Inv(spec: Spec, w: World) {
    && HistoryOk(spec, w.history, w.status)
    && WorldOk(spec, w.cluster, w.log, w.clock, w.status)
  }

  // Merging what was derived from the stored status itself.

  ghost predicate Forward(c: CondMap, p: CondMap) {
    forall k | k in c ::
      k in p && (p[k] == c[k] || (Newer(c[k], p[k]) && p[k].status != c[k].status))
  }

  lemma MergeForward(c: CondMap, p: CondMap)
    requires Forward(c, p)
    ensures MapMerge(c, p) == p
  {
  }

  /** A proposal that only changes conditions and the stage is merged as it is, but for a stage that is not later. */
  lemma MergeOwn(s: Status, p: Status)
    requires Forward(s.conditions, p.conditions)
    requires p.testRunID == s.testRunID && p.aggregationVars == s.aggregationVars
    ensures Merge(s, p) == p.(stage := MergeStage(s.stage, p.stage))
  {
    MergeForward(s.conditions, p.conditions);
  }

  lemma MergeUnchanged(s: Status, p: Status)
    requires !IsNewer(s, p)
    ensures Merge(s, p) == s.(aggregationVars := Merge(s, p).aggregationVars)
  {
    assert forall k | k in p.conditions :: k in s.conditions;
    assert MapMerge(s.conditions, p.conditions) == s.conditions;
  }

  /** If the merged status is fine, so is the world after UpdateStatus, whatever the API server answers. */
  lemma UpdateKeeps(spec: Spec, w: World, k6: Status, answer: PatchAnswer)
    requires Inv(spec, w)
    requires var m := Merge(w.status, k6);
             StatusOk(spec, m) && Follows(w.status, m) && WorldOk(spec, w.cluster, w.log, w.clock, m)
    ensures Inv(spec, UpdateStatus(w, k6, answer).w)
  {
    hide StatusOk, Follows, WorldOk, Merge, IsNewer;
    var m := Merge(w.status, k6);
    var h, h' := w.history, w.history + [m];
    assert forall i | 0 <= i < |h'| :: h'[i] == if i < |h| then h[i] else m;
  }
}
