/**
 * The life of one TestRun as a transition system: what one reconcile of internal/controller does to the
 * API server, the cluster and the cloud, given the answers its calls get. A crash of the operator is a call
 * whose answer never arrives, so the states that crashes leave behind are among the states after a reconcile.
 */
module TestRunModel {
  import opened Text
  import opened Conditions
  import opened TestRunStatus
  import Aggregation
  import K6Cli

  const SECOND := 1_000_000_000

  /** The parts of spec that decide what happens; a spec is immutable. */
  datatype Spec = Spec(
    parallelism: int,
    argv: seq<string>,
    testRunID: string,
    initializerDisabled: bool,
    scriptParses: bool,
    cleanupPost: bool)

  /** Things that happened outside of the status, in order. Hosts are named by the index of their service. */
  datatype Event =
    | InitializerCreated
    | JobCreated(index: int)
    | ServiceCreated(index: int)
    | SetupInvoked(host: int)
    | SetupDelivered(host: int)
    | StarterCreated(hosts: seq<int>)
    | StopperCreated(hosts: seq<int>)
    | RunnersStopped // a check of all services found no runner still running
    | TeardownInvoked(hosts: seq<int>) // hosts that answered; the first of them is asked to run teardown
    | TeardownRan(host: int)
    | JobsDeleted(indices: set<int>)
    | CloudRunCreated(id: string, config: Option<Aggregation.RuntimeConfig>)
    | FinishAccepted(id: string)
    | Panicked

  /** The objects of this TestRun that exist in the cluster. */
  datatype Cluster = Cluster(initializer: bool, jobs: set<int>, services: set<int>, starter: bool, stopper: bool)

  /** `history` holds every status that was ever stored; its last element is `status`. */
  datatype World = World(
    present: bool, status: Status, history: seq<Status>, cluster: Cluster, log: seq<Event>, clock: int)

  // The answers of the environment.

  /** A call succeeds, fails without effect, or takes effect although an error comes back (or none at all). */
  datatype Call = Done | Failed | Lost

  datatype PatchAnswer = GetFailed | Gone | Patched | PatchFailed | PatchLost

  datatype JobAnswer = LookupFailed | Create(call: Call)

  /** The inspected script has a name for the test or not, and its thresholds may hold a null entry. */
  datatype Inspection = InspectFailed | NotReady | Inspected(maxVUs: nat, named: bool, nullThreshold: bool)

  datatype LaunchFault = NoFault | JobFault(at: int, lost: bool) | ServiceFault(at: int, lost: bool)

  datatype JobState = JobState(active: int, failed: int)

  datatype CloudReply = CreateError | Reply(id: string, config: Option<Aggregation.RuntimeConfig>)

  datatype Oracle = Oracle(
    found: bool, // the TestRun can be fetched
    token: bool, // the token is there
    wait1: nat, wait2: nat, // time that passes before the first and before the second write of conditions
    aborted1: bool, aborted2: bool, // the cloud wants the run to be aborted
    patch1: PatchAnswer, patch2: PatchAnswer,
    job: JobAnswer,
    initializer: Call,
    inspect1: Inspection, inspect2: Inspection,
    reply: CloudReply,
    jobToken: bool,
    lookup: bool, // looking up the first runner job gives a clear answer
    fault: LaunchFault,
    podsListed: bool, pods: seq<bool>, // for each runner pod, whether its phase is Running
    servicesListed: bool, relisted: bool, // the first and the second list of services succeeds
    listed: seq<int>, // the services, in the order of the list
    ready: set<int>, // services that answer with a status below 400
    running: set<int>, // services whose runner says it is running, or gives no readable answer
    teardownRuns: bool, // the request to run teardown succeeds
    setupRuns: bool, delivered: nat, // how many hosts take the setup data before one fails
    jobsListed: bool, jobStates: seq<JobState>,
    listedJobs: seq<int>, // the runner jobs, in the order of the list
    killed: set<int>, // runner jobs whose deletion takes effect
    finish: Call,
    deleted: bool)

  // Status of a TestRun, pkg and api level helpers.

  predicate IsPLZ(spec: Spec) {
    spec.testRunID != ""
  }

  predicate HasCloudOut(spec: Spec) {
    K6Cli.Parsed(spec.argv).0.hasCloudOut
  }

  predicate ArgumentsValid(spec: Spec) {
    K6Cli.Parsed(spec.argv).1.None?
  }

  /** TestRun.TestRunID: the ID in the spec goes first. */
  function RunID(spec: Spec, k6: Status): string {
    if spec.testRunID != "" then spec.testRunID else k6.testRunID
  }

  predicate IsCloudTestRun(k6: Status) {
    IsTrue(k6.conditions, CloudTestRun) || IsTrue(k6.conditions, CloudPLZTestRun)
  }

  function Set(k6: Status, kind: ConditionType, status: ConditionStatus, now: int): Status {
    k6.(conditions := MapUpdate(k6.conditions, kind, status, now))
  }

  /** The conversion of the maximum of VUs, a uint64, to int32. */
  function Int32(n: nat): int {
    var low := n % 0x1_0000_0000;
    if low < 0x8000_0000 then low else low - 0x1_0000_0000
  }

  function Logged(w: World, events: seq<Event>): World {
    w.(log := w.log + events)
  }

  // UpdateStatus.

  /** The world, the TestRun in memory, and the two results of UpdateStatus. */
  datatype Updated = Updated(w: World, k6: Status, happened: bool, failed: bool)

  function Stored(w: World, s: Status): World {
    w.(status := s, history := w.history + [s])
  }

  function UpdateStatus(w: World, k6: Status, answer: PatchAnswer): Updated {
    if !w.present || answer.Gone? then Updated(w.(present := false), k6, false, false)
    else if answer.GetFailed? then Updated(w, k6, false, true)
    else
      var merged := Merge(w.status, k6);
      if !IsNewer(w.status, k6) then Updated(w, merged, false, false)
      else match answer
        case Patched => Updated(Stored(w, merged), merged, true, false)
        case PatchLost => Updated(Stored(w, merged), merged, false, true)
        case _ => Updated(w, merged, false, true)
  }

  // Jobs that are created once.

  function CreateStarter(w: World, hosts: seq<int>, answer: JobAnswer): (World, bool) {
    if answer.LookupFailed? then (w, false)
    else if w.cluster.starter then (w, true)
    else if answer.call.Failed? then (w, false)
    else (Logged(w, [StarterCreated(hosts)]).(cluster := w.cluster.(starter := true)), answer.call.Done?)
  }

  function CreateStopper(w: World, hosts: seq<int>, answer: JobAnswer): (World, bool) {
    if answer.LookupFailed? then (w, false)
    else if w.cluster.stopper then (w, true)
    else if answer.call.Failed? then (w, false)
    else (Logged(w, [StopperCreated(hosts)]).(cluster := w.cluster.(stopper := true)), answer.call.Done?)
  }

  // k6_stop.go

  function StopJobs(w: World, k6: Status, o: Oracle, now: int): World {
    if !o.servicesListed then w
    else
      var (w1, created) := CreateStopper(w, o.listed, o.job);
      if !created then w1
      else
        var stopped := Set(Set(k6.(stage := Stopped), TestRunRunning, ConditionFalse, now),
                           CloudTestRunAborted, ConditionTrue, now);
        UpdateStatus(w1, stopped, o.patch1).w
  }

  // k6_initialize.go and the stages "" and initialization

  function Initialize(spec: Spec, k6: Status, now: int): Status {
    k6.(conditions := InitialConditions(IsPLZ(spec), now),
        testRunID := if IsPLZ(spec) then spec.testRunID else k6.testRunID)
  }

  function InitializeJobs(spec: Spec, w: World, o: Oracle): World {
    if !spec.scriptParses || w.cluster.initializer || o.initializer.Failed? then w
    else Logged(w, [InitializerCreated]).(cluster := w.cluster.(initializer := true))
  }

  function OnEmpty(spec: Spec, w: World, k6: Status, o: Oracle, now: int): World {
    if !ArgumentsValid(spec) then UpdateStatus(w, k6.(stage := ErrorStage), o.patch1).w
    else
      var u := UpdateStatus(w, Initialize(spec, k6, now), o.patch1);
      if u.failed then u.w
      else if !HasCloudOut(spec) && spec.initializerDisabled then
        UpdateStatus(u.w, u.k6.(stage := Initialized), o.patch2).w
      else
        var v := UpdateStatus(u.w, u.k6.(stage := Initialization), o.patch2);
        if v.happened then InitializeJobs(spec, v.w, o) else v.w
  }

  /** What RunValidations finds out about the kind of the test run. */
  function Classified(spec: Spec, k6: Status, now: int): Status {
    if HasCloudOut(spec) then
      var s := Set(k6, CloudTestRun, ConditionTrue, now);
      var t := if IsUnknown(s.conditions, CloudTestRunCreated) then Set(s, CloudTestRunCreated, ConditionFalse, now)
               else s;
      Set(t, CloudTestRunFinalized, ConditionFalse, now)
    else Set(k6, CloudTestRun, ConditionFalse, now)
  }

  /** RunValidations: the world, the status in memory in any case, and whether to go on. */
  function RunValidations(spec: Spec, w: World, k6: Status, o: Oracle, now: int): (World, Status, bool) {
    match o.inspect1
    case InspectFailed =>
      if IsTrue(k6.conditions, CloudPLZTestRun) then (w, k6, false)
      else
        var u := UpdateStatus(w, k6.(stage := ErrorStage), o.patch1);
        (u.w, u.k6, false)
    case NotReady => (w, k6, false)
    case Inspected(maxVUs, _, _) =>
      if Int32(maxVUs) < spec.parallelism then
        var u := UpdateStatus(w, k6.(stage := ErrorStage), o.patch1);
        (u.w, u.k6, false)
      else
        var u := UpdateStatus(w, Classified(spec, k6, now), o.patch1);
        (u.w, u.k6, !u.failed)
  }

  /** CreateTestRun cannot even be called: no name and no script, a null threshold, or no client. */
  predicate CreationPanics(spec: Spec, client: bool, inspected: Inspection)
    requires inspected.Inspected?
  {
    (!inspected.named && !spec.scriptParses) || inspected.nullThreshold || !client
  }

  /** A cloud test run was created, with or without a configuration in the reply. */
  function CloudCreated(w: World, k6: Status, id: string, config: Option<Aggregation.RuntimeConfig>,
                        answer: PatchAnswer, now: int): World
  {
    var w1 := Logged(w, [CloudRunCreated(id, config)]);
    if config.None? then Logged(w1, [Panicked])
    else
      var created := Set(k6.(testRunID := id, aggregationVars := Aggregation.Encode(config.value)),
                         CloudTestRunCreated, ConditionTrue, now);
      UpdateStatus(w1, created, answer).w
  }

  /** client says whether there is a cloud client; it is made before RunValidations, for cloud test runs only. */
  function SetupCloudTest(spec: Spec, w: World, k6: Status, client: bool, o: Oracle, now: int): World {
    if !o.inspect2.Inspected? then w
    else if now - LastUpdate(k6.conditions, CloudTestRunCreated, now) < 5 * SECOND then w
    else if CreationPanics(spec, client, o.inspect2) then Logged(w, [Panicked])
    else if o.reply.CreateError? || o.reply.id == "" then w
    else CloudCreated(w, k6, o.reply.id, o.reply.config, o.patch2, now)
  }

  /** Validation took too long, so an event is sent for a cloud test run, which takes a client. */
  predicate EventPanics(k1: Status, client: bool, now: int) {
    !client && IsCloudTestRun(k1) && now - LastUpdate(k1.conditions, TestRunRunning, now) > 300 * SECOND
  }

  function OnInitialization(spec: Spec, w: World, k6: Status, o: Oracle, now1: int, now2: int): World {
    var (w1, k1, ready) := RunValidations(spec, w, k6, o, now1);
    if !ready then
      if EventPanics(k1, IsCloudTestRun(k6), now2) then Logged(w1, [Panicked]) else w1
    else if IsFalse(k1.conditions, CloudTestRun) then
      UpdateStatus(w1, k1.(stage := Initialized), o.patch2).w
    else if !IsTrue(k1.conditions, CloudTestRun) then w1
    else if IsFalse(k1.conditions, CloudTestRunCreated) then
      SetupCloudTest(spec, w1, k1, IsCloudTestRun(k6), o, now2)
    else UpdateStatus(w1, k1.(stage := Initialized), o.patch2).w
  }

  // k6_create.go

  /** NewRunnerJob fails on a bad script, and on aggregation variables that do not decode. */
  predicate RunnerJobOk(spec: Spec, k6: Status) {
    && spec.scriptParses
    && (RunID(spec, k6) != "" && !IsTrue(k6.conditions, CloudPLZTestRun) ==>
          Aggregation.Decoded(k6.aggregationVars).Some?)
  }

  function UpTo(k: nat): (r: set<int>)
    ensures forall i :: i in r <==> 1 <= i <= k
  {
    if k == 0 then {} else UpTo(k - 1) + {k}
  }

  /** The events of launching runners 1..k completely. */
  function Launches(k: nat): seq<Event> {
    if k == 0 then [] else Launches(k - 1) + [JobCreated(k), ServiceCreated(k)]
  }

  /** Runner jobs 1..jobs and services 1..services come into being. */
  function Launched(w: World, jobs: nat, services: nat): World {
    Logged(w, Launches(services) + if jobs > services then [JobCreated(jobs)] else [])
    .(cluster := w.cluster.(jobs := w.cluster.jobs + UpTo(jobs), services := w.cluster.services + UpTo(services)))
  }

  /** All runners are launched in order until a creation fails. */
  function LaunchAll(spec: Spec, w: World, k6: Status, fault: LaunchFault): (World, bool)
    requires spec.parallelism >= 1
  {
    if !RunnerJobOk(spec, k6) then (w, false)
    else match fault
      case NoFault => (Launched(w, spec.parallelism, spec.parallelism), true)
      case JobFault(at, lost) =>
        if 1 <= at <= spec.parallelism then (Launched(w, if lost then at else at - 1, at - 1), false)
        else (Launched(w, spec.parallelism, spec.parallelism), true)
      case ServiceFault(at, lost) =>
        if 1 <= at <= spec.parallelism then (Launched(w, at, if lost then at else at - 1), false)
        else (Launched(w, spec.parallelism, spec.parallelism), true)
  }

  function CreateJobs(spec: Spec, w: World, k6: Status, o: Oracle): World
    requires spec.parallelism >= 1
  {
    if IsTrue(k6.conditions, CloudTestRun) && IsTrue(k6.conditions, CloudTestRunCreated) && !o.jobToken then w
    else if !o.lookup || 1 in w.cluster.jobs then w
    else
      var (w1, complete) := LaunchAll(spec, w, k6, o.fault);
      if !complete then w1 else UpdateStatus(w1, k6.(stage := Created), o.patch1).w
  }

  // common.go and k6_start.go

  function CountTrue(flags: seq<bool>): nat {
    if flags == [] then 0 else CountTrue(flags[..|flags| - 1]) + if flags[|flags| - 1] then 1 else 0
  }

  function ReadyHosts(listed: seq<int>, ready: set<int>): seq<int> {
    if listed == [] then []
    else
      var hosts := ReadyHosts(listed[..|listed| - 1], ready);
      if listed[|listed| - 1] in ready then hosts + [listed[|listed| - 1]] else hosts
  }

  predicate AllReady(listed: seq<int>, ready: set<int>) {
    forall h | h in listed :: h in ready
  }

  function Deliveries(hosts: seq<int>): seq<Event> {
    seq(|hosts|, i requires 0 <= i < |hosts| => SetupDelivered(hosts[i]))
  }

  function RunSetup(w: World, hosts: seq<int>, o: Oracle): (World, bool) {
    if hosts == [] then (Logged(w, [Panicked]), false)
    else if !o.setupRuns then (w, false)
    else if o.delivered < |hosts| then
      (Logged(w, [SetupInvoked(hosts[0])] + Deliveries(hosts[..o.delivered])), false)
    else (Logged(w, [SetupInvoked(hosts[0])] + Deliveries(hosts)), true)
  }

  function StartJobs(spec: Spec, w: World, k6: Status, o: Oracle, now: int): World {
    if !o.podsListed || CountTrue(o.pods) != spec.parallelism then w
    else if !o.servicesListed || !AllReady(o.listed, o.ready) then w
    else
      var (w1, ok) := if IsTrue(k6.conditions, CloudPLZTestRun) then RunSetup(w, o.listed, o) else (w, true);
      if !ok then w1
      else
        var (w2, created) := CreateStarter(w1, o.listed, o.job);
        if !created then w2
        else UpdateStatus(w2, Set(k6.(stage := Started), TestRunRunning, ConditionTrue, now), o.patch1).w
  }

  // k6_finish.go, k6_stopped_jobs.go and the stages started and stopped

  function CountInactive(jobs: seq<JobState>): nat {
    if jobs == [] then 0
    else CountInactive(jobs[..|jobs| - 1]) + if jobs[|jobs| - 1].active == 0 then 1 else 0
  }

  predicate FinishJobs(spec: Spec, o: Oracle) {
    o.jobsListed && CountInactive(o.jobStates) >= spec.parallelism
  }

  predicate StoppedJobs(w: World, o: Oracle) {
    o.servicesListed && w.cluster.services * o.running == {}
  }

  /** The last part of stage started: the run stops regularly. */
  function MarkStopped(w: World, k6: Status, o: Oracle, now: int): World {
    if IsTrue(k6.conditions, TestRunRunning) then
      UpdateStatus(w, Set(k6, TestRunRunning, ConditionFalse, now).(stage := Stopped), o.patch1).w
    else w
  }

  /** The first host is asked to run teardown; that nobody answers, or that it fails, is only logged. */
  function RunTeardown(w: World, hosts: seq<int>, o: Oracle): World {
    Logged(w, [TeardownInvoked(hosts)] + if hosts != [] && o.teardownRuns then [TeardownRan(hosts[0])] else [])
  }

  function WaitForTeardown(w: World, k6: Status, o: Oracle, now: int): World {
    if now - LastUpdate(k6.conditions, TestRunRunning, now) > 30 * SECOND && StoppedJobs(w, o) then
      var w1 := Logged(w, [RunnersStopped]);
      if !IsFalse(k6.conditions, CloudTestRunAborted) || !o.relisted then w1
      else
        var w2 := RunTeardown(w1, ReadyHosts(o.listed, o.ready), o);
        UpdateStatus(w2, Set(k6, TeardownExecuted, ConditionTrue, now), o.patch1).w
    else w
  }

  function OnStarted(spec: Spec, w: World, k6: Status, o: Oracle, now: int): World {
    if IsTrue(k6.conditions, CloudTestRun) && IsTrue(k6.conditions, CloudTestRunFinalized) then w
    else if IsTrue(k6.conditions, CloudTestRunAborted) then w
    else if IsTrue(k6.conditions, CloudPLZTestRun) then
      if IsFalse(k6.conditions, TeardownExecuted) then WaitForTeardown(w, k6, o, now)
      else MarkStopped(w, k6, o, now)
    else if !FinishJobs(spec, o) then
      if IsTrue(k6.conditions, CloudTestRun) && IsFalse(k6.conditions, CloudTestRunAborted)
         && RunID(spec, k6) != "" && o.aborted2
      then StopJobs(w, k6, o, now)
      else w
    else MarkStopped(w, k6, o, now)
  }

  function KillJobs(w: World, o: Oracle): World {
    Logged(w, [JobsDeleted(w.cluster.jobs * o.killed)]).(cluster := w.cluster.(jobs := w.cluster.jobs - o.killed))
  }

  /** The forced end of an aborted PLZ run; it goes on even if runners are still running. */
  function KillAborted(w: World, k6: Status, o: Oracle, now: int): Updated {
    if !StoppedJobs(w, o) then Updated(w, k6, false, false)
    else
      var w1 := Logged(w, [RunnersStopped]);
      if !o.jobsListed then Updated(w1, k6, false, true)
      else UpdateStatus(KillJobs(w1, o), Set(k6, CloudTestRunAborted, ConditionTrue, now), o.patch1)
  }

  function Finalize(w: World, k6: Status, o: Oracle, now: int): World {
    if IsTrue(k6.conditions, CloudTestRun) && IsFalse(k6.conditions, CloudTestRunFinalized) then
      if now - LastUpdate(k6.conditions, TestRunRunning, now) < 5 * SECOND then w
      else if o.finish.Failed? then w
      else
        var w1 := Logged(w, [FinishAccepted(k6.testRunID)]);
        if o.finish.Lost? then w1
        else UpdateStatus(w1, Set(k6, CloudTestRunFinalized, ConditionTrue, now).(stage := Finished), o.patch2).w
    else UpdateStatus(w, k6.(stage := Finished), o.patch2).w
  }

  function OnStopped(w: World, k6: Status, o: Oracle, now1: int, now2: int): World {
    if IsTrue(k6.conditions, CloudPLZTestRun) && IsTrue(k6.conditions, CloudTestRunAborted) then
      var u := KillAborted(w, k6, o, now1);
      if u.failed then u.w else Finalize(u.w, u.k6, o, now2)
    else Finalize(w, k6, o, now2)
  }

  // One reconcile.

  function Time1(w: World, o: Oracle): (t: int)
    ensures t > w.clock
  {
    w.clock + 1 + o.wait1
  }

  function Time2(w: World, o: Oracle): (t: int)
    ensures t > Time1(w, o)
  {
    Time1(w, o) + 1 + o.wait2
  }

  predicate WantsAbort(spec: Spec, k6: Status, o: Oracle) {
    IsCloudTestRun(k6) && IsFalse(k6.conditions, CloudTestRunAborted) && RunID(spec, k6) != "" && o.aborted1
  }

  function OnStage(spec: Spec, w: World, k6: Status, o: Oracle, now1: int, now2: int): World
    requires spec.parallelism >= 1
  {
    match k6.stage
    case EmptyStage => OnEmpty(spec, w, k6, o, now1)
    case Initialization => OnInitialization(spec, w, k6, o, now1, now2)
    case Initialized => CreateJobs(spec, w, k6, o)
    case Created => StartJobs(spec, w, k6, o, now1)
    case Started => OnStarted(spec, w, k6, o, now1)
    case Stopped => OnStopped(w, k6, o, now1, now2)
    case ErrorStage => if spec.cleanupPost && o.deleted then w.(present := false) else w
    case Finished => if spec.cleanupPost && o.deleted then w.(present := false) else w
  }

  function Reconcile(spec: Spec, w: World, o: Oracle): World {
    var now := w.(clock := Time2(w, o));
    var k6 := w.status;
    if !w.present || !o.found || spec.parallelism < 1 then now
    else if IsCloudTestRun(k6) && !o.token then now
    else if WantsAbort(spec, k6, o) then StopJobs(now, k6, o, Time1(w, o))
    else OnStage(spec, now, k6, o, Time1(w, o), Time2(w, o))
  }

  // Runs.

  /**
   * Lists are complete: they return each service and each runner job once, in any order. A script is inspected
   * only by the initializer job.
   */
  ghost predicate Honest(w: World, o: Oracle) {
    && multiset(o.listed) == multiset(w.cluster.services) && multiset(o.listedJobs) == multiset(w.cluster.jobs)
    && (o.inspect1.Inspected? || o.inspect2.Inspected? ==> w.cluster.initializer)
  }

  ghost predicate Initial(w: World) {
    && w.present && w.status == Status(map[], EmptyStage, "", "") && w.history == [w.status]
    && w.cluster == Cluster(false, {}, {}, false, false) && w.log == []
  }

  /** A reconcile with any answers, or the user deletes the TestRun. */
  ghost predicate Next(spec: Spec, w: World, w': World) {
    || (exists o :: Honest(w, o) && w' == Reconcile(spec, w, o))
    || w' == w.(present := false)
  }

  ghost predicate IsRun(spec: Spec, run: seq<World>) {
    && run != [] && Initial(run[0])
    && forall i | 0 <= i < |run| - 1 :: Next(spec, run[i], run[i + 1])
  }

  ghost predicate Reachable(spec: Spec, w: World) {
    exists run :: IsRun(spec, run) && run[|run| - 1] == w
  }
}
