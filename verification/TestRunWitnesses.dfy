/** Runs that end in the states the theorems warn of: each is reached from a new TestRun by honest answers. */
module TestRunWitnesses {
  import opened Text
  import opened Conditions
  import opened TestRunStatus
  import opened TestRunModel
  import opened TestRunInvariants
  import opened TestRunSteps
  import opened TestRunTheorems
  import Aggregation
  import CloudArgsTheorems
  import K6Cli

  /** A PLZ run with one runner and no initializer, and a run with cloud output. */
  const PLZ := Spec(1, [], "1", true, true, false)
  const CLOUD := Spec(1, ["--out", "cloud"], "", false, true, false)

  const NEW := Status(map[], EmptyStage, "", "")
  const START := World(true, NEW, [NEW], Cluster(false, {}, {}, false, false), [], 0)

  lemma StartReachable(spec: Spec)
    ensures Reachable(spec, START)
  {
    assert IsRun(spec, [START]) && [START][|[START]| - 1] == START;
  }

  lemma StepReachable(spec: Spec, w: World, o: Oracle)
    requires Reachable(spec, w) && Honest(w, o)
    ensures Reachable(spec, Reconcile(spec, w, o))
  {
    hide Reconcile, Honest, Initial;
    var run :| IsRun(spec, run) && run[|run| - 1] == w;
    var longer := run + [Reconcile(spec, w, o)];
    forall i | 0 <= i < |longer| - 1 ensures Next(spec, longer[i], longer[i + 1]) {
      if i < |run| - 1 {
        assert Next(spec, run[i], run[i + 1]);
      }
    }
    assert IsRun(spec, longer) && longer[|longer| - 1] == Reconcile(spec, w, o);
  }

  lemma ArgumentsOfPLZ()
    ensures ArgumentsValid(PLZ) && !HasCloudOut(PLZ)
  {
    K6Cli.NothingParsed();
  }

  lemma ArgumentsOfCloud()
    ensures ArgumentsValid(CLOUD) && HasCloudOut(CLOUD)
  {
    CloudArgsTheorems.OutCloud();
  }

  // The first reconcile.

  ghost predicate Fresh(spec: Spec, w: World, stage: Stage) {
    && Reachable(spec, w) && w.present && w.clock == 2
    && w.status == Status(InitialConditions(IsPLZ(spec), 1), stage, spec.testRunID, "")
    && w.cluster == Cluster(stage == Initialization, {}, {}, false, false)
  }

  lemma Initializes(spec: Spec) returns (w: World)
    requires ArgumentsValid(spec) && spec.parallelism >= 1 && spec.scriptParses
    ensures Fresh(spec, w, if !HasCloudOut(spec) && spec.initializerDisabled then Initialized else Initialization)
  {
    hide HasCloudOut, ArgumentsValid, Reachable, UpdateStatus;
    StartReachable(spec);
    StepReachable(spec, START, QUIET);
    w := Reconcile(spec, START, QUIET);
    var now := START.(clock := 2);
    var p := Initialize(spec, NEW, 1);
    FirstStatus(spec, now);
    SameStatusStored(Stored(now, p), p, Initialized);
    SameStatusStored(Stored(now, p), p, Initialization);
    assert w == OnEmpty(spec, now, NEW, QUIET, 1);
  }

  lemma FirstStatus(spec: Spec, w: World)
    requires w.present && w.status == NEW
    ensures var p := Initialize(spec, NEW, 1);
            UpdateStatus(w, p, Patched) == Updated(Stored(w, p), p, true, false)
  {
    var p := Initialize(spec, NEW, 1);
    MergeForward(NEW.conditions, p.conditions);
    assert Merge(NEW, p) == p;
    assert CloudTestRun in p.conditions;
    hide Merge;
  }

  lemma SameStatusStored(w: World, k6: Status, stage: Stage)
    requires w.present && k6 == w.status && AcceptsStage(k6.stage, stage)
    ensures var p := k6.(stage := stage);
            UpdateStatus(w, p, Patched) == Updated(Stored(w, p), p, true, false)
  {
    StageMerged(k6, stage);
  }

  // A PLZ run.

  lemma PLZInitialized() returns (w: World)
    ensures Fresh(PLZ, w, Initialized)
  {
    ArgumentsOfPLZ();
    w := Initializes(PLZ);
  }

  lemma PLZCreated() returns (w: World)
    ensures Reachable(PLZ, w) && w.present && w.clock == 4
    ensures w.status == Status(InitialConditions(true, 1), Created, "1", "")
    ensures w.cluster == Cluster(false, {1}, {1}, false, false)
  {
    hide Reachable;
    var w0 := PLZInitialized();
    StepReachable(PLZ, w0, QUIET);
    w := Reconcile(PLZ, w0, QUIET);
    var now := w0.(clock := 4);
    assert UpTo(1) == {1};
    assert Launched(now, 1, 1).cluster == Cluster(false, {1}, {1}, false, false);
    SameStatusStored(Launched(now, 1, 1), w0.status, Created);
  }

  const ONE := QUIET.(pods := [true], listed := [1], ready := {1}, listedJobs := [1], delivered := 1)

  lemma OneIsHonest(w: World)
    requires w.cluster.jobs == {1} && w.cluster.services == {1}
    ensures forall o: Oracle | o.listed == [1] && o.listedJobs == [1]
                               && !o.inspect1.Inspected? && !o.inspect2.Inspected? :: Honest(w, o)
  {
  }

  function RunningSince(t: int): CondMap {
    InitialConditions(true, 1)[TestRunRunning := Cond(ConditionTrue, t)]
  }

  lemma PLZStarted() returns (w: World)
    ensures Reachable(PLZ, w) && w.present && w.clock == 6
    ensures w.status == Status(RunningSince(5), Started, "1", "")
    ensures w.cluster == Cluster(false, {1}, {1}, true, false)
  {
    hide Reachable;
    var w0 := PLZCreated();
    OneIsHonest(w0);
    StepReachable(PLZ, w0, ONE);
    w := Reconcile(PLZ, w0, ONE);
    ReconcilesCreated(w0);
    hide Reconcile;
    var now := w0.(clock := 6);
    FirstStarted(w0, now);
  }

  lemma ReconcilesCreated(w: World)
    requires w.present && w.clock == 4 && w.status == Status(InitialConditions(true, 1), Created, "1", "")
    ensures Reconcile(PLZ, w, ONE) == StartJobs(PLZ, w.(clock := 6), w.status, ONE, 5)
  {
    hide StartJobs, UpdateStatus;
  }

  lemma FirstStarted(w: World, now: World)
    requires w.present && w.clock == 4 && w.status == Status(InitialConditions(true, 1), Created, "1", "")
    requires w.cluster == Cluster(false, {1}, {1}, false, false) && now == w.(clock := 6)
    ensures var w' := StartJobs(PLZ, now, w.status, ONE, 5);
            && w'.present && w'.clock == 6 && w'.cluster == Cluster(false, {1}, {1}, true, false)
            && w'.status == Status(RunningSince(5), Started, "1", "")
  {
    assert CountTrue([true]) == 1 by {
      assert [true][..0] == [];
    }
    var (w1, ok) := RunSetup(now, [1], ONE);
    assert ok && w1.status == w.status && w1.cluster == w.cluster && w1.present;
    var p := Set(w.status.(stage := Started), TestRunRunning, ConditionTrue, 5);
    assert p.conditions == RunningSince(5);
    MergeOwn(w.status, p);
    hide Merge, InitialConditions;
  }

  /** Teardown is marked as executed although no service answers, and nothing ran. */
  lemma TeardownReachesNobody() returns (w: World, o: Oracle)
    ensures Reachable(PLZ, w) && Honest(w, o) && w.present && w.status.stage == Started
    ensures MarksTeardown(PLZ, w, o) && IsTrue(Reconcile(PLZ, w, o).status.conditions, TeardownExecuted)
    ensures forall h :: TeardownRan(h) !in NewEvents(w, Reconcile(PLZ, w, o))
  {
    hide Reachable, Reconcile, NewEvents;
    w := PLZStarted();
    OneIsHonest(w);
    o := ONE.(wait1 := 31 * SECOND, ready := {});
    assert w.cluster.services * o.running == {};
    TeardownReachesRunner(PLZ, w, o);
  }

  lemma PLZAborted() returns (w: World)
    ensures Reachable(PLZ, w) && w.present && w.status.stage == Stopped
    ensures IsTrue(w.status.conditions, CloudTestRunAborted) && !IsTrue(w.status.conditions, CloudTestRun)
    ensures w.cluster == Cluster(false, {1}, {1}, true, true)
  {
    hide Reachable;
    var w0 := PLZStarted();
    OneIsHonest(w0);
    var abort := ONE.(aborted1 := true);
    StepReachable(PLZ, w0, abort);
    w := Reconcile(PLZ, w0, abort);
    ReconcilesAbort(w0, abort);
    hide Reconcile, UpdateStatus;
    var (w1, created) := CreateStopper(w0.(clock := 8), [1], Create(Done));
    StopStored(w0, w1);
    assert w == UpdateStatus(w1, StopProposal(w0.status, 7), Patched).w;
  }

  lemma ReconcilesAbort(w: World, o: Oracle)
    requires w.present && w.clock == 6 && w.status == Status(RunningSince(5), Started, "1", "")
    requires o == ONE.(aborted1 := true)
    ensures Reconcile(PLZ, w, o) == StopJobs(w.(clock := 8), w.status, o, 7)
  {
    hide StopJobs, OnStage;
  }

  lemma StopStored(w: World, w1: World)
    requires w.status == Status(RunningSince(5), Started, "1", "") && w1.present && w1.status == w.status
    ensures var w' := UpdateStatus(w1, StopProposal(w.status, 7), Patched).w;
            && w'.status.stage == Stopped && w'.present && w'.cluster == w1.cluster
            && IsTrue(w'.status.conditions, CloudTestRunAborted) && !IsTrue(w'.status.conditions, CloudTestRun)
  {
    var p := StopProposal(w.status, 7);
    MergeOwn(w.status, p);
    assert Merge(w.status, p) == p;
    hide Merge;
  }

  /** An aborted PLZ run whose runner still runs is finished all the same. */
  lemma AbortedWhileRunning() returns (w: World, o: Oracle)
    ensures Reachable(PLZ, w) && Honest(w, o) && w.present && w.status.stage == Stopped
    ensures IsTrue(w.status.conditions, CloudTestRunAborted) && !StoppedJobs(w, o)
    ensures Reconcile(PLZ, w, o).status.stage == Finished
  {
    hide Reachable;
    w := PLZAborted();
    OneIsHonest(w);
    hide Reconcile;
    o := ONE.(running := {1});
    assert 1 in w.cluster.services * o.running;
    AbortDoesNotWait(PLZ, w, o);
  }

  /** The first runner job was created and its service was not: the run is stuck in stage initialized. */
  lemma InterruptedCreation() returns (w: World)
    ensures Reachable(PLZ, w) && w.present && w.status.stage == Initialized
    ensures w.cluster.jobs == {1} && w.cluster.services == {}
    ensures forall run: seq<World> | Continues(PLZ, w, run) :: run[|run| - 1].status.stage != Created
  {
    hide Reachable, RunnerJobOk;
    var w0 := PLZInitialized();
    var o := QUIET.(fault := ServiceFault(1, false));
    StepReachable(PLZ, w0, o);
    w := Reconcile(PLZ, w0, o);
    assert RunnerJobOk(PLZ, w0.status) by { FreshJobOk(w0); }
    assert UpTo(1) == {1} && UpTo(0) == {};
    assert w.cluster == Launched(w0.(clock := 4), 1, 0).cluster;
    CanLaunchExactly(PLZ, w);
  }

  lemma FreshJobOk(w: World)
    requires Fresh(PLZ, w, Initialized)
    ensures RunnerJobOk(PLZ, w.status)
  {
  }

  // A run with cloud output.

  const INSPECTED := Inspected(1, true, false)

  lemma CloudInitialization() returns (w: World)
    ensures Fresh(CLOUD, w, Initialization)
  {
    ArgumentsOfCloud();
    w := Initializes(CLOUD);
  }

  lemma InitializationFacts(w: World)
    requires Fresh(CLOUD, w, Initialization)
    ensures Reachable(CLOUD, w) && w.present && w.clock == 2 && w.status.stage == Initialization
    ensures w.cluster == Cluster(true, {}, {}, false, false)
    ensures !IsCloudTestRun(w.status) && LastUpdate(w.status.conditions, TestRunRunning, 0) == 1
    ensures TestRunRunning in w.status.conditions
  {
    hide Reachable;
  }

  lemma InspectedOk(w: World, o: Oracle)
    requires w.present && o.found && w.status.stage == Initialization && HasCloudOut(CLOUD) && o.inspect1 == INSPECTED
    ensures Validates(CLOUD, w, o)
  {
    hide HasCloudOut;
  }

  /** The finding that there is cloud output cannot be stored, five minutes on. */
  lemma EventWithoutClient() returns (w: World, o: Oracle)
    ensures Reachable(CLOUD, w) && Honest(w, o) && SendsWithoutClient(w, o) && Panics(CLOUD, w, o)
  {
    hide Reachable, Reconcile, HasCloudOut, Panics, Fresh, IsCloudTestRun, InitialConditions, Validates;
    ArgumentsOfCloud();
    w := CloudInitialization();
    InitializationFacts(w);
    o := QUIET.(inspect1 := INSPECTED, patch1 := PatchFailed, wait2 := 301 * SECOND);
    InspectedOk(w, o);
    PanicsExactly(CLOUD, w, o);
  }

  /** The second inspection takes five seconds. */
  lemma CreationWithoutClient() returns (w: World, o: Oracle)
    ensures Reachable(CLOUD, w) && Honest(w, o) && CreatesBadly(w, o) && !IsCloudTestRun(w.status)
    ensures Panics(CLOUD, w, o)
  {
    hide Reachable, Reconcile, HasCloudOut, Panics, Fresh, IsCloudTestRun, InitialConditions, Validates;
    ArgumentsOfCloud();
    w := CloudInitialization();
    InitializationFacts(w);
    o := QUIET.(inspect1 := INSPECTED, inspect2 := INSPECTED, wait2 := 5 * SECOND);
    InspectedOk(w, o);
    PanicsExactly(CLOUD, w, o);
  }

  const KNOWN := Status(InitialConditions(false, 1)[CloudTestRun := Cond(ConditionTrue, 3)]
                        [CloudTestRunCreated := Cond(ConditionFalse, 3)]
                        [CloudTestRunFinalized := Cond(ConditionFalse, 3)], Initialization, "", "")

  ghost predicate ToBeCreated(w: World) {
    && Reachable(CLOUD, w) && w.present && w.clock == 4 && w.status == KNOWN
    && w.cluster == Cluster(true, {}, {}, false, false)
  }

  lemma CloudKnown() returns (w: World)
    ensures ToBeCreated(w)
  {
    hide Reachable, HasCloudOut, Fresh, Reconcile, OnInitialization, IsCloudTestRun, Honest, Classified, UpdateStatus,
         KNOWN;
    ArgumentsOfCloud();
    var w0 := CloudInitialization();
    InitializationFacts(w0);
    var o := QUIET.(inspect1 := INSPECTED);
    QuietIsHonest(w0, o);
    StepReachable(CLOUD, w0, o);
    w := Reconcile(CLOUD, w0, o);
    ReconcilesInitialization(w0, o);
    FirstClassified(w0, w0.(clock := 4));
    FirstValidated(w0.status, w0.(clock := 4), o);
  }

  lemma QuietIsHonest(w: World, o: Oracle)
    requires w.cluster == Cluster(true, {}, {}, false, false) && o == QUIET.(inspect1 := INSPECTED)
    ensures Honest(w, o)
  {
  }

  lemma ReconcilesInitialization(w: World, o: Oracle)
    requires w.present && w.clock == 2 && w.status.stage == Initialization && !IsCloudTestRun(w.status)
    requires o == QUIET.(inspect1 := INSPECTED)
    ensures Reconcile(CLOUD, w, o) == OnInitialization(CLOUD, w.(clock := 4), w.status, o, 3, 4)
  {
    hide OnInitialization, HasCloudOut, IsCloudTestRun, UpdateStatus;
  }

  lemma FirstValidated(k6: Status, now: World, o: Oracle)
    requires HasCloudOut(CLOUD) && o == QUIET.(inspect1 := INSPECTED) && Classified(CLOUD, k6, 3) == KNOWN
    requires UpdateStatus(now, KNOWN, Patched) == Updated(Stored(now, KNOWN), KNOWN, true, false)
    ensures OnInitialization(CLOUD, now, k6, o, 3, 4) == Stored(now, KNOWN)
  {
    hide HasCloudOut, UpdateStatus, Classified, IsCloudTestRun, SetupCloudTest;
    SetupWaits(Stored(now, KNOWN), KNOWN, IsCloudTestRun(k6), o);
  }

  lemma SetupWaits(w: World, k6: Status, client: bool, o: Oracle)
    requires o.inspect2 == NotReady
    ensures SetupCloudTest(CLOUD, w, k6, client, o, 4) == w
  {
  }

  lemma FirstClassified(w: World, now: World)
    requires Fresh(CLOUD, w, Initialization) && HasCloudOut(CLOUD) && now == w.(clock := 4)
    ensures Classified(CLOUD, w.status, 3) == KNOWN
    ensures UpdateStatus(now, KNOWN, Patched) == Updated(Stored(now, KNOWN), KNOWN, true, false)
  {
    hide Reachable, HasCloudOut;
    var p := Classified(CLOUD, w.status, 3);
    MergeOwn(w.status, p);
    assert CloudTestRunCreated in p.conditions && CloudTestRunCreated !in w.status.conditions;
    hide Merge;
  }

  lemma KnownFacts(w: World)
    requires ToBeCreated(w)
    ensures Reachable(CLOUD, w) && w.present && w.clock == 4 && w.status.stage == Initialization
    ensures w.cluster.initializer && w.cluster.jobs == {} && w.cluster.services == {}
    ensures IsCloudTestRun(w.status) && IsFalse(w.status.conditions, CloudTestRunCreated)
    ensures w.status.conditions[CloudTestRunCreated].since == 3
  {
    hide Reachable;
  }

  const CREATING := QUIET.(inspect1 := INSPECTED, inspect2 := INSPECTED, wait2 := 5 * SECOND)

  /** The cloud creates the test run but its reply has no configuration. */
  lemma CreationWithoutConfig() returns (w: World, o: Oracle)
    ensures Reachable(CLOUD, w) && Honest(w, o) && CreatesBadly(w, o) && IsCloudTestRun(w.status)
    ensures Panics(CLOUD, w, o)
  {
    hide Reachable, Reconcile, HasCloudOut, Panics, ToBeCreated, IsCloudTestRun, IsFalse, InitialConditions, Validates;
    ArgumentsOfCloud();
    w := CloudKnown();
    o := CREATING.(reply := Reply("1", None));
    KnownFacts(w);
    InspectedOk(w, o);
    PanicsExactly(CLOUD, w, o);
  }

  /** A status that could not be stored: the test run is created in the cloud, and is not the TestRun's. */
  lemma CreationLost() returns (w: World, o: Oracle)
    ensures Reachable(CLOUD, w) && Honest(w, o)
    ensures exists config :: CloudRunCreated("1", Some(config)) in NewEvents(w, Reconcile(CLOUD, w, o))
    ensures Reconcile(CLOUD, w, o).status == w.status
  {
    hide Reachable, HasCloudOut, Reconcile, NewEvents, EndsWith, ToBeCreated, IsCloudTestRun, IsFalse, InitialConditions;
    hide Validates;
    ArgumentsOfCloud();
    w := CloudKnown();
    KnownFacts(w);
    var config := Aggregation.RuntimeConfig("3s", "8s", "6s", 10);
    o := CREATING.(reply := Reply("1", Some(config)), patch2 := PatchFailed);
    InspectedOk(w, o);
    ReconcileEnds(CLOUD, w, o);
    NewAtEnd(CLOUD, w, o, Reconcile(CLOUD, w, o));
    assert Creation(CLOUD, w, o) == Some(CloudRunCreated("1", Some(config)));
    assert CloudRunCreated("1", Some(config)) in NewEvents(w, Reconcile(CLOUD, w, o));
    NotStored(w, o);
  }

  lemma NotStored(w: World, o: Oracle)
    requires ToBeCreated(w) && o.found && o.token && o.inspect1 == INSPECTED && o.patch2 == PatchFailed
    requires o.patch1 == Patched && HasCloudOut(CLOUD)
    ensures Reconcile(CLOUD, w, o).status == w.status
  {
    hide Reachable, HasCloudOut, Merge, IsNewer;
    var now := w.(clock := Time2(w, o));
    assert Classified(CLOUD, w.status, Time1(w, o)) == w.status;
    SelfUpdate(CLOUD, now, w.status, Patched);
  }
}
