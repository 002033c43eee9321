/** The reconciler of internal/controller, statement by statement, against the transitions of TestRunModel. */
module TestRunController {
  import opened Text
  import opened Conditions
  import opened TestRunStatus
  import opened TestRunModel
  import MergeProperties
  import Aggregation
  import K6Cli

  /** A condition list that reads as the given map, in whatever order the API server keeps it. */
  method ListOf(conditions: CondMap) returns (list: seq<Condition>)
    ensures UniqueKinds(list) && AsMap(list) == conditions
  {
    list := [];
    var rest := conditions.Keys;
    while rest != {}
      invariant rest <= conditions.Keys
      invariant UniqueKinds(list) && Entries(list).Keys == conditions.Keys - rest
      invariant forall k | k in Entries(list) :: Seen(Entries(list)[k]) == conditions[k]
      decreases |rest|
    {
      var kind :| kind in rest;
      var c := Condition(kind, conditions[kind].status, conditions[kind].since, Reason(kind, conditions[kind].status));
      MergeProperties.AppendUnique(list, c);
      list := list + [c];
      rest := rest - {kind};
    }
  }

  /** The TestRun object that a reconcile holds in memory. */
  class TestRun {
    const spec: Spec
    const status: TestRunStatus

    ghost predicate Valid()
      reads status.conditions
    {
      UniqueKinds(status.conditions.items)
    }

    /** The status as it is read. */
    function Observed(): Status
      reads status, status.conditions
    {
      View(status.Record())
    }

    constructor (spec: Spec, fetched: Status)
      ensures this.spec == spec && fresh(status) && fresh(status.conditions)
      ensures Valid() && Observed() == fetched
    {
      var items := ListOf(fetched.conditions);
      var list := new ConditionList(items);
      this.spec := spec;
      status := new TestRunStatus(list, fetched.stage, fetched.testRunID, fetched.aggregationVars);
    }

    /** Get decodes what the API server holds into this object. */
    method Fetch(fetched: Status)
      modifies status, status.conditions
      ensures Valid() && Observed() == fetched
    {
      var items := ListOf(fetched.conditions);
      status.conditions.items := items;
      status.stage, status.testRunID := fetched.stage, fetched.testRunID;
      status.aggregationVars := fetched.aggregationVars;
    }

    predicate True(kind: ConditionType)
      reads status, status.conditions
    {
      IsTrue(Observed().conditions, kind)
    }

    predicate False(kind: ConditionType)
      reads status, status.conditions
    {
      IsFalse(Observed().conditions, kind)
    }

    method UpdateCondition(kind: ConditionType, condition: ConditionStatus, now: int)
      requires Valid()
      modifies status.conditions
      ensures Valid() && Observed() == Set(old(Observed()), kind, condition, now)
    {
      status.Set(kind, condition, now);
    }

    method SetStage(stage: Stage)
      modifies status
      ensures Observed() == old(Observed()).(stage := stage)
    {
      status.stage := stage;
    }

    method Initialize(now: int)
      modifies status, status.conditions
      ensures Valid() && Observed() == TestRunModel.Initialize(spec, old(Observed()), now)
    {
      status.Initialize(spec.testRunID, now);
    }
  }

  class TestRunReconciler {
    const spec: Spec
    var w: World // the API server, the cluster and the cloud

    constructor (spec: Spec, w: World)
      ensures this.spec == spec && this.w == w
    {
      this.spec, this.w := spec, w;
    }

    method Log(e: Event)
      modifies this
      ensures w == Logged(old(w), [e])
    {
      w := w.(log := w.log + [e]);
    }

    // testrun_controller.go: UpdateStatus and ShouldAbort

    method UpdateStatus(k6: TestRun, answer: PatchAnswer) returns (happened: bool, failed: bool)
      requires k6.Valid()
      modifies this, k6.status, k6.status.conditions
      ensures k6.Valid()
      ensures Updated(w, k6.Observed(), happened, failed)
              == TestRunModel.UpdateStatus(old(w), old(k6.Observed()), answer)
    {
      var proposed := k6.status.Record();

      if !w.present || answer.Gone? {
        w := w.(present := false);
        return false, false;
      }
      if answer.GetFailed? {
        return false, true;
      }
      k6.Fetch(w.status);

      MergeRecordRefines(k6.status.Record(), proposed);
      var isNewer := k6.status.SetIfNewer(proposed);
      if !isNewer {
        return false, false;
      }

      if answer.Patched? || answer.PatchLost? {
        w := w.(status := k6.Observed(), history := w.history + [k6.Observed()]);
      }
      if !answer.Patched? {
        return false, true;
      }
      return true, false;
    }

    method ShouldAbort(k6: TestRun, aborted: bool) returns (abort: bool)
      requires k6.spec == spec
      ensures abort == (RunID(spec, k6.Observed()) != "" && aborted)
    {
      if |RunID(spec, k6.Observed())| == 0 {
        return false;
      }
      return aborted;
    }

    // job_helper.go: createJobIfNotExists, for the starter and the stopper

    method CreateStarterIfNotExists(hosts: seq<int>, answer: JobAnswer) returns (created: bool, failed: bool)
      modifies this
      ensures (w, !failed) == CreateStarter(old(w), hosts, answer)
      ensures created ==> !failed && !old(w.cluster.starter)
    {
      if answer.LookupFailed? {
        return false, true;
      }
      if w.cluster.starter {
        return false, false;
      }
      match answer.call {
        case Failed =>
          return false, true;
        case Lost =>
          w := w.(cluster := w.cluster.(starter := true));
          Log(StarterCreated(hosts));
          return false, true;
        case Done =>
          w := w.(cluster := w.cluster.(starter := true));
          Log(StarterCreated(hosts));
          return true, false;
      }
    }

    method CreateStopperIfNotExists(hosts: seq<int>, answer: JobAnswer) returns (created: bool, failed: bool)
      modifies this
      ensures (w, !failed) == CreateStopper(old(w), hosts, answer)
      ensures created ==> !failed && !old(w.cluster.stopper)
    {
      if answer.LookupFailed? {
        return false, true;
      }
      if w.cluster.stopper {
        return false, false;
      }
      match answer.call {
        case Failed =>
          return false, true;
        case Lost =>
          w := w.(cluster := w.cluster.(stopper := true));
          Log(StopperCreated(hosts));
          return false, true;
        case Done =>
          w := w.(cluster := w.cluster.(stopper := true));
          Log(StopperCreated(hosts));
          return true, false;
      }
    }

    // k6_stop.go

    method StopJobs(k6: TestRun, o: Oracle, now: int)
      requires k6.Valid()
      modifies this, k6.status, k6.status.conditions
      ensures k6.Valid()
      ensures w == TestRunModel.StopJobs(old(w), old(k6.Observed()), o, now)
    {
      if !o.servicesListed {
        return;
      }
      var hostnames := [];
      for i := 0 to |o.listed|
        invariant hostnames == o.listed[..i]
      {
        hostnames := hostnames + [o.listed[i]];
      }
      assert hostnames == o.listed;
      var created, failed := CreateStopperIfNotExists(hostnames, o.job);
      if failed {
        return;
      }
      k6.SetStage(Stopped);
      k6.UpdateCondition(TestRunRunning, ConditionFalse, now);
      k6.UpdateCondition(CloudTestRunAborted, ConditionTrue, now);
      var _, _ := UpdateStatus(k6, o.patch1);
    }

    // k6_initialize.go

    method InitializeJobs(o: Oracle)
      modifies this
      ensures w == TestRunModel.InitializeJobs(spec, old(w), o)
    {
      if !spec.scriptParses {
        return;
      }
      if w.cluster.initializer || o.initializer.Failed? {
        return;
      }
      w := w.(cluster := w.cluster.(initializer := true));
      Log(InitializerCreated);
    }

    method RunValidations(k6: TestRun, o: Oracle, now: int) returns (ready: bool)
      requires k6.spec == spec
      requires k6.Valid()
      modifies this, k6.status, k6.status.conditions
      ensures k6.Valid()
      ensures var (w', k', ready') := TestRunModel.RunValidations(spec, old(w), old(k6.Observed()), o, now);
              w == w' && ready == ready' && k6.Observed() == k'
    {
      var cli, _ := K6Cli.ParseCLI(spec.argv);
      match o.inspect1 {
        case InspectFailed =>
          if !k6.True(CloudPLZTestRun) {
            k6.SetStage(ErrorStage);
            var _, _ := UpdateStatus(k6, o.patch1);
          }
          return false;
        case NotReady =>
          return false;
        case Inspected(maxVUs, _, _) =>
          if Int32(maxVUs) < spec.parallelism {
            k6.SetStage(ErrorStage);
            var _, _ := UpdateStatus(k6, o.patch1);
            return false;
          }
      }

      if cli.hasCloudOut {
        k6.UpdateCondition(CloudTestRun, ConditionTrue, now);
        if IsUnknown(k6.Observed().conditions, CloudTestRunCreated) {
          k6.UpdateCondition(CloudTestRunCreated, ConditionFalse, now);
        }
        k6.UpdateCondition(CloudTestRunFinalized, ConditionFalse, now);
      } else {
        k6.UpdateCondition(CloudTestRun, ConditionFalse, now);
      }

      var _, failed := UpdateStatus(k6, o.patch1);
      return !failed;
    }

    method SetupCloudTest(k6: TestRun, client: bool, o: Oracle, now: int)
      requires k6.spec == spec && k6.False(CloudTestRunCreated)
      requires k6.Valid()
      modifies this, k6.status, k6.status.conditions
      ensures k6.Valid()
      ensures w == TestRunModel.SetupCloudTest(spec, old(w), old(k6.Observed()), client, o, now)
    {
      if !o.inspect2.Inspected? {
        return;
      }
      if k6.False(CloudTestRunCreated) {
        var t := LastUpdate(k6.Observed().conditions, CloudTestRunCreated, now);
        if now - t < 5 * SECOND {
          return;
        }
        if !o.inspect2.named {
          if !spec.scriptParses {
            Log(Panicked);
            return;
          }
        }
        if o.inspect2.nullThreshold || !client {
          Log(Panicked);
          return;
        }
        if o.reply.CreateError? || o.reply.id == "" {
          return;
        }
        Log(CloudRunCreated(o.reply.id, o.reply.config));
        k6.status.testRunID := o.reply.id;
        k6.UpdateCondition(CloudTestRunCreated, ConditionTrue, now);
        if o.reply.config.None? {
          Log(Panicked);
          return;
        }
        k6.status.aggregationVars := Aggregation.Encode(o.reply.config.value);
        var _, _ := UpdateStatus(k6, o.patch2);
      }
    }

    // k6_create.go

    method LaunchTest(k6: TestRun, index: int, fault: LaunchFault) returns (failed: bool)
      requires k6.spec == spec && index >= 1
      modifies this
      ensures failed ==
              (!RunnerJobOk(spec, k6.Observed())
               || (fault.JobFault? && fault.at == index) || (fault.ServiceFault? && fault.at == index))
      ensures w == if !RunnerJobOk(spec, k6.Observed()) || (fault == JobFault(index, false)) then old(w)
                   else if fault == JobFault(index, true) || fault == ServiceFault(index, false)
                   then Logged(old(w), [JobCreated(index)])
                        .(cluster := old(w).cluster.(jobs := old(w).cluster.jobs + {index}))
                   else Logged(old(w), [JobCreated(index), ServiceCreated(index)])
                        .(cluster := old(w).cluster.(jobs := old(w).cluster.jobs + {index},
                                                     services := old(w).cluster.services + {index}))
    {
      if !RunnerJobOk(spec, k6.Observed()) {
        return true;
      }
      if fault == JobFault(index, false) {
        return true;
      }
      w := w.(cluster := w.cluster.(jobs := w.cluster.jobs + {index}));
      Log(JobCreated(index));
      if fault == JobFault(index, true) {
        return true;
      }

      if fault == ServiceFault(index, false) {
        return true;
      }
      w := w.(cluster := w.cluster.(services := w.cluster.services + {index}));
      Log(ServiceCreated(index));
      assert [JobCreated(index)] + [ServiceCreated(index)] == [JobCreated(index), ServiceCreated(index)];
      assert old(w).log + [JobCreated(index)] + [ServiceCreated(index)]
             == old(w).log + [JobCreated(index), ServiceCreated(index)];
      return fault == ServiceFault(index, true);
    }

    method CreateJobSpecs(k6: TestRun, o: Oracle) returns (created: bool)
      requires k6.spec == spec && spec.parallelism >= 1
      modifies this
      ensures if !o.lookup || 1 in old(w).cluster.jobs then w == old(w) && !created
              else (w, created) == LaunchAll(spec, old(w), k6.Observed(), o.fault)
    {
      hide RunnerJobOk, View, Launched, UpTo, Launches;
      if !o.lookup || 1 in w.cluster.jobs {
        return false;
      }
      ghost var w0 := w;
      LaunchedNone(w0);
      var i := 1;
      while i <= spec.parallelism
        invariant 1 <= i <= spec.parallelism + 1
        invariant w == Launched(w0, i - 1, i - 1)
        invariant i > 1 ==> RunnerJobOk(spec, k6.Observed())
        invariant o.fault.JobFault? ==> !(1 <= o.fault.at < i)
        invariant o.fault.ServiceFault? ==> !(1 <= o.fault.at < i)
      {
        LaunchedMore(w0, i);
        var failed := LaunchTest(k6, i, o.fault);
        if failed {
          return false;
        }
        i := i + 1;
      }
      return true;
    }

    method CreateJobs(k6: TestRun, o: Oracle)
      requires k6.spec == spec && spec.parallelism >= 1
      requires k6.Valid()
      modifies this, k6.status, k6.status.conditions
      ensures k6.Valid()
      ensures w == TestRunModel.CreateJobs(spec, old(w), old(k6.Observed()), o)
    {
      if k6.True(CloudTestRun) && k6.True(CloudTestRunCreated) {
        if !o.jobToken {
          return;
        }
      }
      var created := CreateJobSpecs(k6, o);
      if !created {
        return;
      }
      k6.SetStage(Created);
      var _, _ := UpdateStatus(k6, o.patch1);
    }

    // common.go

    /** The hosts of the services that are ready; with abortOnUnready, an error unless all are. */
    method Hostnames(listedOk: bool, listed: seq<int>, ready: set<int>, abortOnUnready: bool)
      returns (hostnames: Option<seq<int>>)
      ensures hostnames.None? <==> !listedOk || (abortOnUnready && !AllReady(listed, ready))
      ensures hostnames.Some? ==> hostnames.value == ReadyHosts(listed, ready)
      ensures hostnames.Some? && abortOnUnready ==> hostnames.value == listed
    {
      if !listedOk {
        return None;
      }
      var hosts := [];
      for i := 0 to |listed|
        invariant hosts == ReadyHosts(listed[..i], ready)
        invariant abortOnUnready ==> hosts == listed[..i] && AllReady(listed[..i], ready)
      {
        assert listed[..i + 1] == listed[..i] + [listed[i]];
        assert listed[..i + 1][..i] == listed[..i];
        if listed[i] in ready {
          hosts := hosts + [listed[i]];
        } else if abortOnUnready {
          var h := listed[i];
          assert h in listed && h !in ready;
          return None;
        }
      }
      assert listed[..|listed|] == listed;
      return Some(hosts);
    }

    /** Setup on the first runner, then its data to all of them. */
    method RunSetup(hostnames: seq<int>, o: Oracle) returns (failed: bool)
      modifies this
      ensures (w, !failed) == TestRunModel.RunSetup(old(w), hostnames, o)
    {
      if hostnames == [] {
        Log(Panicked);
        return true;
      }
      if !o.setupRuns {
        return true;
      }
      Log(SetupInvoked(hostnames[0]));
      ghost var start := w.log;
      for i := 0 to |hostnames|
        invariant i <= o.delivered
        invariant w == old(w).(log := start + Deliveries(hostnames[..i]))
      {
        if i == o.delivered {
          assert start + Deliveries(hostnames[..i])
                 == old(w).log + ([SetupInvoked(hostnames[0])] + Deliveries(hostnames[..i]));
          return true;
        }
        assert Deliveries(hostnames[..i + 1]) == Deliveries(hostnames[..i]) + [SetupDelivered(hostnames[i])];
        Log(SetupDelivered(hostnames[i]));
      }
      assert hostnames[..|hostnames|] == hostnames;
      assert start + Deliveries(hostnames)
             == old(w).log + ([SetupInvoked(hostnames[0])] + Deliveries(hostnames));
      return false;
    }

    /** A failure of teardown is not reported to the caller. */
    method RunTeardown(hostnames: seq<int>, o: Oracle)
      modifies this
      ensures w == TestRunModel.RunTeardown(old(w), hostnames, o)
    {
      Log(TeardownInvoked(hostnames));
      if |hostnames| == 0 {
        return;
      }
      if o.teardownRuns {
        Log(TeardownRan(hostnames[0]));
      }
    }

    // k6_start.go

    method StartJobs(k6: TestRun, o: Oracle, now: int)
      requires k6.spec == spec
      requires k6.Valid()
      modifies this, k6.status, k6.status.conditions
      ensures k6.Valid()
      ensures w == TestRunModel.StartJobs(spec, old(w), old(k6.Observed()), o, now)
    {
      if !o.podsListed {
        return;
      }
      var count := 0;
      for i := 0 to |o.pods|
        invariant count == CountTrue(o.pods[..i])
      {
        assert o.pods[..i + 1][..i] == o.pods[..i];
        if o.pods[i] {
          count := count + 1;
        }
      }
      assert o.pods[..|o.pods|] == o.pods;
      if count != spec.parallelism {
        return;
      }

      var hostnames := Hostnames(o.servicesListed, o.listed, o.ready, true);
      if hostnames.None? {
        return;
      }

      if k6.True(CloudPLZTestRun) {
        var failed := RunSetup(hostnames.value, o);
        if failed {
          return;
        }
      }

      var created, failed := CreateStarterIfNotExists(hostnames.value, o.job);
      if failed {
        return;
      }
      k6.SetStage(Started);
      k6.UpdateCondition(TestRunRunning, ConditionTrue, now);
      var _, _ := UpdateStatus(k6, o.patch1);
    }

    // k6_finish.go and k6_stopped_jobs.go

    method FinishJobs(o: Oracle) returns (allFinished: bool)
      ensures allFinished == TestRunModel.FinishJobs(spec, o)
    {
      if !o.jobsListed {
        return false;
      }
      var finished, failed := 0, 0;
      for i := 0 to |o.jobStates|
        invariant finished == CountInactive(o.jobStates[..i])
      {
        assert o.jobStates[..i + 1][..i] == o.jobStates[..i];
        if o.jobStates[i].active == 0 {
          finished := finished + 1;
          if o.jobStates[i].failed > 0 {
            failed := failed + 1;
          }
        }
      }
      assert o.jobStates[..|o.jobStates|] == o.jobStates;
      if finished < spec.parallelism {
        return false;
      }
      return true;
    }

    /** Whether no runner is still running, with the services as they are listed. */
    method StoppedJobs(o: Oracle) returns (allStopped: bool)
      requires Honest(w, o)
      modifies this
      ensures allStopped == TestRunModel.StoppedJobs(old(w), o)
      ensures w == if allStopped then Logged(old(w), [RunnersStopped]) else old(w)
    {
      if !o.servicesListed {
        return false;
      }
      var runningJobs := 0;
      for i := 0 to |o.listed|
        invariant runningJobs >= 0
        invariant runningJobs == 0 <==> forall h | h in o.listed[..i] :: h !in o.running
      {
        assert o.listed[..i + 1] == o.listed[..i] + [o.listed[i]];
        assert forall h :: h in o.listed[..i + 1] <==> h in o.listed[..i] || h == o.listed[i];
        if o.listed[i] in o.running {
          assert o.listed[i] in o.listed[..i + 1];
          runningJobs := runningJobs + 1;
        }
      }
      assert o.listed[..|o.listed|] == o.listed;
      ListedMembers(w.cluster.services, o.listed);
      assert runningJobs == 0 <==> w.cluster.services * o.running == {} by {
        if runningJobs == 0 {
          assert forall h :: h !in w.cluster.services * o.running;
        } else {
          var h :| h in o.listed && h in o.running;
          assert h in w.cluster.services * o.running;
        }
      }
      if runningJobs > 0 {
        return false;
      }
      Log(RunnersStopped);
      return true;
    }

    /** Asks for the deletion of every runner job; a failed deletion is counted all the same. */
    method KillJobs(o: Oracle) returns (allDeleted: bool, failed: bool)
      requires multiset(o.listedJobs) == multiset(w.cluster.jobs)
      modifies this
      ensures failed == !o.jobsListed
      ensures w == if failed then old(w) else TestRunModel.KillJobs(old(w), o)
      ensures !failed ==> allDeleted
    {
      hide Killed;
      if !o.jobsListed {
        return false, true;
      }
      KilledNone(o.killed);
      var deleteCount := 0;
      for i := 0 to |o.listedJobs|
        invariant deleteCount == i
        invariant w == old(w).(cluster := old(w).cluster.(
                                 jobs := old(w).cluster.jobs - Killed(o.listedJobs[..i], o.killed)))
      {
        var job := o.listedJobs[i];
        KilledMore(o.listedJobs[..i], job, o.killed);
        assert o.listedJobs[..i + 1] == o.listedJobs[..i] + [job];
        if job in o.killed {
          w := w.(cluster := w.cluster.(jobs := w.cluster.jobs - {job}));
        }
        deleteCount := deleteCount + 1;
      }
      assert o.listedJobs[..|o.listedJobs|] == o.listedJobs;
      var deleted := Killed(o.listedJobs, o.killed);
      KilledOfAll(old(w).cluster.jobs, o.listedJobs, o.killed);
      assert old(w).cluster.jobs - deleted == old(w).cluster.jobs - o.killed;
      Log(JobsDeleted(deleted));
      return deleteCount == |o.listedJobs|, false;
    }

    // testrun_controller.go: reconcile, stage by stage

    method OnEmpty(k6: TestRun, o: Oracle, now: int)
      requires k6.spec == spec
      requires k6.Valid()
      modifies this, k6.status, k6.status.conditions
      ensures k6.Valid()
      ensures w == TestRunModel.OnEmpty(spec, old(w), old(k6.Observed()), o, now)
    {
      var cli, err := K6Cli.ParseCLI(spec.argv);
      if err.Some? {
        k6.SetStage(ErrorStage);
        var _, _ := UpdateStatus(k6, o.patch1);
        return;
      }

      k6.Initialize(now);
      var _, failed := UpdateStatus(k6, o.patch1);
      if failed {
        return;
      }

      if !cli.hasCloudOut && spec.initializerDisabled {
        k6.SetStage(Initialized);
        var _, _ := UpdateStatus(k6, o.patch2);
        return;
      }

      k6.SetStage(Initialization);
      var happened, failed2 := UpdateStatus(k6, o.patch2);
      if happened {
        InitializeJobs(o);
      }
    }

    method OnInitialization(k6: TestRun, client: bool, o: Oracle, now1: int, now2: int)
      requires k6.spec == spec && k6.Observed() == w.status && w.present && k6.Observed().stage == Initialization
      requires client == IsCloudTestRun(k6.Observed())
      requires k6.Valid()
      modifies this, k6.status, k6.status.conditions
      ensures k6.Valid()
      ensures w == TestRunModel.OnInitialization(spec, old(w), old(k6.Observed()), o, now1, now2)
    {
      hide TestRunModel.RunValidations, TestRunModel.SetupCloudTest, TestRunModel.UpdateStatus, View;
      var ready := RunValidations(k6, o, now1);
      if !ready {
        var t := LastUpdate(k6.Observed().conditions, TestRunRunning, now2);
        if now2 - t > 300 * SECOND {
          if IsCloudTestRun(k6.Observed()) {
            if !client {
              Log(Panicked);
            }
          }
        }
        return;
      }
      ValidatedStage(spec, old(w), o, now1);

      if k6.False(CloudTestRun) {
        k6.SetStage(Initialized);
        ghost var before, proposed := w, k6.Observed();
        var happened, failed := UpdateStatus(k6, o.patch2);
        if failed || happened {
          return;
        }
        StageNews(before, proposed, o.patch2);
        assert !k6.True(CloudTestRun);
      }

      if k6.True(CloudTestRun) {
        if k6.False(CloudTestRunCreated) {
          SetupCloudTest(k6, client, o, now2);
          return;
        } else {
          k6.SetStage(Initialized);
          var _, _ := UpdateStatus(k6, o.patch2);
        }
      }
    }

    method OnStarted(k6: TestRun, o: Oracle, now: int)
      requires k6.spec == spec && Honest(w, o)
      requires k6.Valid()
      modifies this, k6.status, k6.status.conditions
      ensures k6.Valid()
      ensures w == TestRunModel.OnStarted(spec, old(w), old(k6.Observed()), o, now)
    {
      hide View, TestRunModel.UpdateStatus, TestRunModel.StopJobs, TestRunModel.RunTeardown, ReadyHosts, AllReady;
      hide TestRunModel.FinishJobs, RunID;
      if k6.True(CloudTestRun) && k6.True(CloudTestRunFinalized) {
        return;
      }
      if k6.True(CloudTestRunAborted) {
        return;
      }

      if k6.True(CloudPLZTestRun) {
        var runningTime := LastUpdate(k6.Observed().conditions, TestRunRunning, now);
        if k6.False(TeardownExecuted) {
          var allJobsStopped := false;
          if now - runningTime > 30 * SECOND {
            allJobsStopped := StoppedJobs(o);
          }
          if k6.False(CloudTestRunAborted) && allJobsStopped {
            var hostnames := Hostnames(o.relisted, o.listed, o.ready, false);
            if hostnames.None? {
              return;
            }
            RunTeardown(hostnames.value, o);
            k6.UpdateCondition(TeardownExecuted, ConditionTrue, now);
            var _, _ := UpdateStatus(k6, o.patch1);
            return;
          } else {
            return;
          }
        }
      } else {
        var finished := FinishJobs(o);
        if !finished {
          if k6.True(CloudTestRun) && k6.False(CloudTestRunAborted) {
            var abort := ShouldAbort(k6, o.aborted2);
            if abort {
              StopJobs(k6, o, now);
            }
          }
          return;
        }
      }

      if k6.True(TestRunRunning) {
        k6.UpdateCondition(TestRunRunning, ConditionFalse, now);
        k6.SetStage(Stopped);
        var _, _ := UpdateStatus(k6, o.patch1);
      }
    }

    method OnStopped(k6: TestRun, o: Oracle, now1: int, now2: int)
      requires k6.spec == spec && Honest(w, o)
      requires k6.Valid()
      modifies this, k6.status, k6.status.conditions
      ensures k6.Valid()
      ensures w == TestRunModel.OnStopped(old(w), old(k6.Observed()), o, now1, now2)
    {
      if k6.True(CloudPLZTestRun) && k6.True(CloudTestRunAborted) {
        var stopped := StoppedJobs(o);
        if stopped {
          var allDeleted, killFailed := KillJobs(o);
          if killFailed {
            return;
          }
          if allDeleted {
            k6.UpdateCondition(CloudTestRunAborted, ConditionTrue, now1);
            var _, failed := UpdateStatus(k6, o.patch1);
            if failed {
              return;
            }
          }
        }
      }
      Finalize(k6, o, now2);
    }

    /** The second part of stage stopped. */
    method Finalize(k6: TestRun, o: Oracle, now: int)
      requires k6.spec == spec
      requires k6.Valid()
      modifies this, k6.status, k6.status.conditions
      ensures k6.Valid()
      ensures w == TestRunModel.Finalize(old(w), old(k6.Observed()), o, now)
    {
      if k6.True(CloudTestRun) && k6.False(CloudTestRunFinalized) {
        var t := LastUpdate(k6.Observed().conditions, TestRunRunning, now);
        if now - t < 5 * SECOND {
          return;
        }
        if o.finish.Failed? {
          return;
        }
        Log(FinishAccepted(k6.Observed().testRunID));
        if o.finish.Lost? {
          return;
        }
        k6.UpdateCondition(CloudTestRunFinalized, ConditionTrue, now);
      }
      k6.SetStage(Finished);
      var _, _ := UpdateStatus(k6, o.patch2);
    }

    method Reconcile(o: Oracle)
      requires Honest(w, o)
      modifies this
      ensures w == TestRunModel.Reconcile(spec, old(w), o)
    {
      hide TestRunModel.OnEmpty, TestRunModel.OnInitialization, TestRunModel.CreateJobs, TestRunModel.StartJobs,
           TestRunModel.OnStarted, TestRunModel.OnStopped, TestRunModel.StopJobs, View;
      var now1, now2 := Time1(w, o), Time2(w, o);
      w := w.(clock := now2);

      if !w.present || !o.found {
        return;
      }
      var k6 := new TestRun(spec, w.status);
      if spec.parallelism < 1 {
        return;
      }

      var client := false;
      if IsCloudTestRun(k6.Observed()) {
        if !o.token {
          return;
        }
        client := true;
      }

      if IsCloudTestRun(k6.Observed()) && k6.False(CloudTestRunAborted) {
        var abort := ShouldAbort(k6, o.aborted1);
        if abort {
          StopJobs(k6, o, now1);
          return;
        }
      }

      match k6.Observed().stage {
        case EmptyStage => OnEmpty(k6, o, now1);
        case Initialization => OnInitialization(k6, client, o, now1, now2);
        case Initialized => CreateJobs(k6, o);
        case Created => StartJobs(k6, o, now1);
        case Started => OnStarted(k6, o, now1);
        case Stopped => OnStopped(k6, o, now1, now2);
        case ErrorStage => Cleanup(o);
        case Finished => Cleanup(o);
      }
    }

    /** Stages error and finished: the TestRun deletes itself if it is told to. */
    method Cleanup(o: Oracle)
      modifies this
      ensures w == if spec.cleanupPost && o.deleted then old(w).(present := false) else old(w)
    {
      if spec.cleanupPost {
        if o.deleted {
          w := w.(present := false);
        }
      }
    }
  }

  function Killed(listed: seq<int>, killed: set<int>): set<int> {
    set h | h in listed && h in killed
  }

  lemma KilledOfAll(jobs: set<int>, listed: seq<int>, killed: set<int>)
    requires multiset(listed) == multiset(jobs)
    ensures Killed(listed, killed) == jobs * killed
  {
    forall h ensures h in Killed(listed, killed) <==> h in jobs * killed {
      assert h in listed <==> h in multiset(listed);
      assert h in jobs <==> h in multiset(jobs);
    }
  }

  lemma KilledNone(killed: set<int>)
    ensures Killed([], killed) == {}
  {
  }

  lemma KilledMore(listed: seq<int>, job: int, killed: set<int>)
    ensures Killed(listed + [job], killed) == Killed(listed, killed) + if job in killed then {job} else {}
  {
    assert forall h :: h in listed + [job] <==> h in listed || h == job;
  }

  lemma LaunchedNone(w: World)
    ensures Launched(w, 0, 0) == w
  {
    assert w.log + [] == w.log;
    assert Launches(0) + [] == [];
  }

  lemma LaunchedMore(w: World, i: int)
    requires i >= 1
    ensures var before := Launched(w, i - 1, i - 1);
            && Launched(w, i, i - 1)
               == Logged(before, [JobCreated(i)]).(cluster := before.cluster.(jobs := before.cluster.jobs + {i}))
            && Launched(w, i, i)
               == Logged(before, [JobCreated(i), ServiceCreated(i)])
                  .(cluster := before.cluster.(jobs := before.cluster.jobs + {i},
                                               services := before.cluster.services + {i}))
  {
    var before := Launched(w, i - 1, i - 1);
    assert Launches(i - 1) + [] == Launches(i - 1);
    assert Launches(i) + [] == Launches(i);
    assert before.log == w.log + Launches(i - 1);
    assert UpTo(i) == UpTo(i - 1) + {i};
    assert before.cluster.jobs + {i} == w.cluster.jobs + UpTo(i);
    assert before.cluster.services + {i} == w.cluster.services + UpTo(i);
  }

  lemma ListedMembers(all: set<int>, listed: seq<int>)
    requires multiset(listed) == multiset(all)
    ensures forall h :: h in listed <==> h in all
  {
    forall h ensures h in listed <==> h in all {
      assert h in listed <==> h in multiset(listed);
      assert h in all <==> h in multiset(all);
    }
  }

  /** After RunValidations the store still is in stage initialization, unless the TestRun is gone. */
  lemma ValidatedStage(spec: Spec, w: World, o: Oracle, now: int)
    requires w.present && w.status.stage == Initialization
    ensures var (w', k6, ready) := TestRunModel.RunValidations(spec, w, w.status, o, now);
            ready ==> w'.status.stage == Initialization
  {
    hide HasCloudOut, IsNewer, MapMerge, MapUpdate;
  }

  /** A stage that is later than the stored one is news. */
  lemma StageNews(w: World, k6: Status, answer: PatchAnswer)
    requires AcceptsStage(w.status.stage, k6.stage)
    ensures var u := TestRunModel.UpdateStatus(w, k6, answer);
            !u.happened && !u.failed ==> u.k6 == k6 && !u.w.present
  {
    hide MapNewer, MapMerge;
  }
}
