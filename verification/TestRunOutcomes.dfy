/**
 * What one reconcile does in the stages created, started and stopped, and on an abort: exactly when something is
 * stored or created, and what, in terms of the answers it gets.
 */
module TestRunOutcomes {
  import opened Text
  import opened Conditions
  import opened TestRunStatus
  import opened TestRunModel
  import opened TestRunInvariants
  import opened TestRunSteps
  import opened TestRunTheorems

  // The answers that a reconcile depends on.

  /** The reconcile gets as far as the check for an abort. */
  ghost predicate Acts(spec: Spec, w: World, o: Oracle) {
    && w.present && o.found && spec.parallelism >= 1
    && (IsTrue(w.status.conditions, CloudTestRun) || IsTrue(w.status.conditions, CloudPLZTestRun) ==> o.token)
  }

  /** The cloud wants a run that it knows, and that is not aborted yet, to be aborted. */
  ghost predicate Aborts(spec: Spec, w: World, o: Oracle) {
    && (IsTrue(w.status.conditions, CloudTestRun) || IsTrue(w.status.conditions, CloudPLZTestRun))
    && IsFalse(w.status.conditions, CloudTestRunAborted)
    && (spec.testRunID != "" || w.status.testRunID != "") && o.aborted1
  }

  ghost predicate TakesEffect(answer: PatchAnswer) {
    answer == Patched || answer == PatchLost
  }

  /** After the attempt to create it, the stopper is known to exist. */
  ghost predicate StopperThere(w: World, o: Oracle) {
    o.servicesListed && o.job.Create? && (w.cluster.stopper || o.job.call == Done)
  }

  /** The attempt creates a stopper. */
  ghost predicate StopperComes(w: World, o: Oracle) {
    o.servicesListed && o.job.Create? && !w.cluster.stopper && o.job.call != Failed
  }

  ghost function RunningPods(pods: seq<bool>): set<int> {
    set i | 0 <= i < |pods| && pods[i]
  }

  ghost function InactiveJobs(jobs: seq<JobState>): set<int> {
    set i | 0 <= i < |jobs| && jobs[i].active == 0
  }

  lemma {:induction false} PodsCounted(pods: seq<bool>)
    ensures CountTrue(pods) == |RunningPods(pods)|
  {
    if pods == [] {
      assert RunningPods([]) == {};
    } else {
      var n := |pods| - 1;
      PodsCounted(pods[..n]);
      assert RunningPods(pods) == RunningPods(pods[..n]) + if pods[n] then {n} else {};
    }
  }

  lemma {:induction false} JobsCounted(jobs: seq<JobState>)
    ensures CountInactive(jobs) == |InactiveJobs(jobs)|
  {
    if jobs == [] {
      assert InactiveJobs([]) == {};
    } else {
      var n := |jobs| - 1;
      JobsCounted(jobs[..n]);
      assert InactiveJobs(jobs) == InactiveJobs(jobs[..n]) + if jobs[n].active == 0 then {n} else {};
    }
  }

  lemma ListedAre(listed: seq<int>, all: set<int>)
    requires multiset(listed) == multiset(all)
    ensures |listed| == |all| && forall h :: h in listed <==> h in all
  {
    assert |multiset(listed)| == |multiset(all)|;
    forall h ensures h in listed <==> h in all {
      assert h in listed <==> h in multiset(listed);
      assert h in all <==> h in multiset(all);
    }
  }

  // What UpdateStatus stores of a proposal that only moves on.

  function StoredIf(w: World, p: Status, answer: PatchAnswer): World {
    if answer == Patched || answer == PatchLost then Stored(w, p)
    else if answer == Gone then w.(present := false)
    else w
  }

  lemma NoNews(c: CondMap, p: CondMap)
    requires Forward(c, p) && !MapNewer(c, p)
    ensures p == c
  {
    assert p.Keys == c.Keys;
  }

  lemma ProposalStored(w: World, p: Status, answer: PatchAnswer)
    requires w.present && p != w.status
    requires p.testRunID == w.status.testRunID && p.aggregationVars == w.status.aggregationVars
    requires Forward(w.status.conditions, p.conditions)
    requires p.stage == w.status.stage || AcceptsStage(w.status.stage, p.stage)
    ensures UpdateStatus(w, p, answer)
            == Updated(StoredIf(w, p, answer), p, answer == Patched, answer != Patched && answer != Gone)
  {
    MergeOwn(w.status, p);
    if !MapNewer(w.status.conditions, p.conditions) {
      NoNews(w.status.conditions, p.conditions);
    }
    hide Merge, MapNewer, Forward, AcceptsStage;
  }

  // Nothing happens without these answers.

  lemma NothingWithoutActing(spec: Spec, w: World, o: Oracle)
    requires !Acts(spec, w, o)
    ensures Reconcile(spec, w, o) == w.(clock := Time2(w, o))
  {
    hide StopJobs, OnStage;
  }

  lemma ActsOnStage(spec: Spec, w: World, o: Oracle)
    requires Acts(spec, w, o) && !Aborts(spec, w, o)
    ensures w.present && spec.parallelism >= 1
    ensures Reconcile(spec, w, o)
            == OnStage(spec, w.(clock := Time2(w, o)), w.status, o, Time1(w, o), Time2(w, o))
  {
    hide StopJobs, OnStage;
  }

  /** The status of a reachable world and its times, as the parts of a reconcile need them. */
  lemma StatusOfReachable(spec: Spec, w: World, o: Oracle)
    requires Reachable(spec, w)
    ensures StatusOk(spec, w.status)
    ensures NotAfter(w.status, Time1(w, o) - 1) && NotAfter(w.status, Time2(w, o) - 1)
  {
    hide StatusOk, ClusterOk, LogOk, Follows, Reachable;
    ReachableInv(spec, w);
    StatusOfInv(spec, w);
    NotAfterLater(w.status, w.clock, Time1(w, o) - 1);
    NotAfterLater(w.status, w.clock, Time2(w, o) - 1);
  }

  lemma NewIs(w: World, w': World, more: seq<Event>)
    requires w'.log == w.log + more
    ensures NewEvents(w, w') == more
  {
  }

  // An abort.

  function Aborted(s: Status, t: int): Status {
    s.(stage := if s.stage == Finished || s.stage == ErrorStage then s.stage else Stopped,
       conditions := s.conditions[TestRunRunning := if IsFalse(s.conditions, TestRunRunning)
                                                    then s.conditions[TestRunRunning] else Cond(ConditionFalse, t)]
                                 [CloudTestRunAborted := Cond(ConditionTrue, t)])
  }

  lemma StopJobsStores(w: World, k6: Status, o: Oracle, now: int)
    requires k6 == w.status && w.present && NotAfter(k6, now - 1)
    requires IsFalse(k6.conditions, CloudTestRunAborted)
    ensures var w' := StopJobs(w, k6, o, now);
            && w'.status == (if StopperThere(w, o) && TakesEffect(o.patch1) then Aborted(k6, now) else k6)
            && w'.present == !(StopperThere(w, o) && o.patch1 == Gone)
            && w'.cluster == w.cluster.(stopper := w.cluster.stopper || StopperComes(w, o))
            && w'.log == w.log + if StopperComes(w, o) then [StopperCreated(o.listed)] else []
  {
    AbortMerges(k6, now);
    hide Merge, MapNewer, Aborted, IsFalse, NotAfter, TakesEffect;
    assert w.log + [] == w.log;
    if o.servicesListed {
      var (w1, created) := CreateStopper(w, o.listed, o.job);
      AbortStores(w1, k6, o.patch1, now);
      hide UpdateStatus;
    }
  }

  lemma AbortMerges(s: Status, now: int)
    requires NotAfter(s, now - 1) && IsFalse(s.conditions, CloudTestRunAborted)
    ensures Merge(s, StopProposal(s, now)) == Aborted(s, now)
    ensures MapNewer(s.conditions, StopProposal(s, now).conditions)
  {
    var p, m := StopProposal(s, now), Aborted(s, now);
    assert p.conditions == m.conditions;
    assert Forward(s.conditions, p.conditions);
    assert Newer(s.conditions[CloudTestRunAborted], p.conditions[CloudTestRunAborted]);
    MergeOwn(s, p);
    AcceptsOnlyLaterStages(s.stage, Stopped);
    hide Forward, Merge;
  }

  lemma AbortStores(w: World, k6: Status, answer: PatchAnswer, now: int)
    requires k6 == w.status && w.present
    requires Merge(k6, StopProposal(k6, now)) == Aborted(k6, now)
    requires MapNewer(k6.conditions, StopProposal(k6, now).conditions)
    ensures UpdateStatus(w, StopProposal(k6, now), answer).w == StoredIf(w, Aborted(k6, now), answer)
  {
    hide Merge, MapNewer, StopProposal, Aborted;
  }

  /** An abort stops the run if the stopper is there and the status can be stored, and changes nothing else. */
  lemma AbortsExactly(spec: Spec, w: World, o: Oracle)
    requires Reachable(spec, w) && Acts(spec, w, o) && Aborts(spec, w, o)
    ensures var w' := Reconcile(spec, w, o);
            && w'.status == (if StopperThere(w, o) && TakesEffect(o.patch1) then Aborted(w.status, Time1(w, o))
                             else w.status)
            && w'.present == !(StopperThere(w, o) && o.patch1 == Gone)
            && w'.cluster == w.cluster.(stopper := w.cluster.stopper || StopperComes(w, o))
            && NewEvents(w, w') == if StopperComes(w, o) then [StopperCreated(o.listed)] else []
  {
    hide StatusOk, OnStage, StopJobs, Aborted, StopperThere, StopperComes, NotAfter, Reachable;
    StatusOfReachable(spec, w, o);
    var now := w.(clock := Time2(w, o));
    StopJobsStores(now, w.status, o, Time1(w, o));
    assert StopperThere(now, o) == StopperThere(w, o) && StopperComes(now, o) == StopperComes(w, o) by {
      SameStopper(w, now, o);
    }
  }

  lemma SameStopper(w: World, now: World, o: Oracle)
    requires now.cluster == w.cluster
    ensures StopperThere(now, o) == StopperThere(w, o) && StopperComes(now, o) == StopperComes(w, o)
  {
  }

  // Stage created.

  /** All runner pods are running, as many as there are runners, and every service answers. */
  ghost predicate RunnersAnswer(spec: Spec, w: World, o: Oracle) {
    && o.podsListed && |RunningPods(o.pods)| == spec.parallelism
    && o.servicesListed && w.cluster.services <= o.ready
  }

  /** For a PLZ run, setup ran on a runner and every service took its data. */
  ghost predicate SetUp(spec: Spec, w: World, o: Oracle) {
    spec.testRunID != "" ==> o.setupRuns && o.delivered >= |w.cluster.services|
  }

  ghost predicate StarterComes(w: World, o: Oracle) {
    o.job.Create? && !w.cluster.starter && o.job.call != Failed
  }

  /** What setup does: it runs on the first host and its data goes to the hosts in order. */
  function SetupEvents(o: Oracle): seq<Event> {
    var taken := if o.delivered < |o.listed| then o.delivered else |o.listed|;
    (if o.listed == [] then [] else [SetupInvoked(o.listed[0])])
    + seq(taken, i requires 0 <= i < taken => SetupDelivered(o.listed[i]))
  }

  function Running(s: Status, t: int): Status {
    s.(stage := Started, conditions := s.conditions[TestRunRunning := Cond(ConditionTrue, t)])
  }

  lemma StartedStored(spec: Spec, w: World, k6: Status, answer: PatchAnswer, now: int)
    requires k6 == w.status && w.present && StatusOk(spec, k6) && NotAfter(k6, now - 1) && k6.stage == Created
    ensures UpdateStatus(w, Set(k6.(stage := Started), TestRunRunning, ConditionTrue, now), answer).w
            == StoredIf(w, Running(k6, now), answer)
  {
    hide HasCloudOut;
    var p := Set(k6.(stage := Started), TestRunRunning, ConditionTrue, now);
    assert p == Running(k6, now);
    ProposalStored(w, p, answer);
  }

  lemma HostsReady(spec: Spec, w: World, o: Oracle)
    requires Inv(spec, w) && Honest(w, o) && w.status.stage == Created && spec.parallelism >= 1
    ensures |o.listed| == |w.cluster.services| && o.listed != []
    ensures AllReady(o.listed, o.ready) <==> w.cluster.services <= o.ready
  {
    SomeService(spec, w, o);
    ListedAre(o.listed, w.cluster.services);
  }

  lemma SetupLogs(w: World, o: Oracle)
    requires o.listed != []
    ensures var (w1, ok) := RunSetup(w, o.listed, o);
            && (ok <==> o.setupRuns && o.delivered >= |o.listed|)
            && w1 == Logged(w, if o.setupRuns then SetupEvents(o) else [])
  {
    if !o.setupRuns {
      assert w.log + [] == w.log;
    } else if o.delivered < |o.listed| {
      assert [SetupInvoked(o.listed[0])] + Deliveries(o.listed[..o.delivered]) == SetupEvents(o);
    } else {
      assert [SetupInvoked(o.listed[0])] + Deliveries(o.listed) == SetupEvents(o);
    }
  }

  /**
   * In stage created, stage started is stored exactly if all runner pods run, all services answer, setup is done,
   * the starter is there, and the status can be stored; setup and starter come only after that much of it holds.
   */
  lemma StartsExactly(spec: Spec, w: World, o: Oracle)
    requires Reachable(spec, w) && Honest(w, o) && w.status.stage == Created
    requires Acts(spec, w, o) && !Aborts(spec, w, o)
    ensures var w' := Reconcile(spec, w, o);
            var answer, setUp := RunnersAnswer(spec, w, o), SetUp(spec, w, o);
            && w'.status == (if answer && setUp && o.job.Create? && (w.cluster.starter || o.job.call == Done)
                                && TakesEffect(o.patch1)
                             then Running(w.status, Time1(w, o)) else w.status)
            && w'.cluster == w.cluster.(starter := w.cluster.starter || (answer && setUp && StarterComes(w, o)))
            && NewEvents(w, w')
               == (if answer && spec.testRunID != "" && o.setupRuns then SetupEvents(o) else [])
                  + (if answer && setUp && StarterComes(w, o) then [StarterCreated(o.listed)] else [])
  {
    hide *;
    var now, t := w.(clock := Time2(w, o)), Time1(w, o);
    StatusOfReachable(spec, w, o);
    ReachableInv(spec, w);
    ActsOnStage(spec, w, o);
    CreatedReconciles(spec, w, o);
    HostsReady(spec, w, o);
    PLZOfStage(spec, w.status);
    StartsWith(spec, now, w.status, o, t);
    SameAnswers(spec, w, now, o);
    NewIs(w, Reconcile(spec, w, o),
          (if RunnersAnswer(spec, w, o) && spec.testRunID != "" && o.setupRuns then SetupEvents(o) else [])
          + if RunnersAnswer(spec, w, o) && SetUp(spec, w, o) && StarterComes(w, o) then [StarterCreated(o.listed)]
            else []);
  }

  lemma CreatedReconciles(spec: Spec, w: World, o: Oracle)
    requires Acts(spec, w, o) && !Aborts(spec, w, o) && w.status.stage == Created
    ensures Reconcile(spec, w, o) == StartJobs(spec, w.(clock := Time2(w, o)), w.status, o, Time1(w, o))
  {
    hide StartJobs, StopJobs;
  }

  lemma SameAnswers(spec: Spec, w: World, now: World, o: Oracle)
    requires now == w.(clock := now.clock)
    ensures RunnersAnswer(spec, now, o) == RunnersAnswer(spec, w, o) && SetUp(spec, now, o) == SetUp(spec, w, o)
    ensures StarterComes(now, o) == StarterComes(w, o)
  {
  }

  lemma StartsWith(spec: Spec, w: World, k6: Status, o: Oracle, now: int)
    requires k6 == w.status && w.present && StatusOk(spec, k6) && NotAfter(k6, now - 1) && k6.stage == Created
    requires |o.listed| == |w.cluster.services| && o.listed != []
    requires AllReady(o.listed, o.ready) <==> w.cluster.services <= o.ready
    requires IsTrue(k6.conditions, CloudPLZTestRun) <==> IsPLZ(spec)
    ensures var w' := StartJobs(spec, w, k6, o, now);
            var answer, setUp := RunnersAnswer(spec, w, o), SetUp(spec, w, o);
            && w'.status == (if answer && setUp && o.job.Create? && (w.cluster.starter || o.job.call == Done)
                                && TakesEffect(o.patch1)
                             then Running(k6, now) else k6)
            && w'.cluster == w.cluster.(starter := w.cluster.starter || (answer && setUp && StarterComes(w, o)))
            && w'.log == w.log
                         + ((if answer && spec.testRunID != "" && o.setupRuns then SetupEvents(o) else [])
                            + (if answer && setUp && StarterComes(w, o) then [StarterCreated(o.listed)] else []))
  {
    hide StatusOk, NotAfter, Running, Set, UpdateStatus, AllReady, RunSetup, SetupEvents, IsTrue, CountTrue, RunningPods,
         StoredIf, TakesEffect;
    PodsCounted(o.pods);
    if RunnersAnswer(spec, w, o) {
      var setup := if spec.testRunID != "" && o.setupRuns then SetupEvents(o) else [];
      var (w1, ok) := if IsTrue(k6.conditions, CloudPLZTestRun) then RunSetup(w, o.listed, o) else (w, true);
      SetupGives(spec, w, o, w1, ok);
      assert RunnersAnswer(spec, w, o);
      hide RunnersAnswer, SetUp, StarterComes;
      StarterStores(spec, w1, k6, o, now);
      SameStarter(w, w1, o);
      StarterLogged(w.log, setup, o.listed);
      hide CreateStarter;
    } else {
      assert w.log + ([] + []) == w.log;
    }
  }

  lemma SameStarter(w: World, now: World, o: Oracle)
    requires now.cluster == w.cluster
    ensures StarterComes(now, o) == StarterComes(w, o)
  {
  }

  lemma StarterStores(spec: Spec, w: World, k6: Status, o: Oracle, now: int)
    requires k6 == w.status && w.present && StatusOk(spec, k6) && NotAfter(k6, now - 1) && k6.stage == Created
    ensures var (w1, created) := CreateStarter(w, o.listed, o.job);
            var p := Set(k6.(stage := Started), TestRunRunning, ConditionTrue, now);
            var w' := if !created then w1 else UpdateStatus(w1, p, o.patch1).w;
            && w'.status == (if o.job.Create? && (w.cluster.starter || o.job.call == Done) && TakesEffect(o.patch1)
                             then Running(k6, now) else k6)
            && w'.cluster == w.cluster.(starter := w.cluster.starter || StarterComes(w, o))
            && w'.log == w.log + if StarterComes(w, o) then [StarterCreated(o.listed)] else []
  {
    hide StatusOk, NotAfter, Running, Set, UpdateStatus, StoredIf, TakesEffect;
    var (w1, created) := CreateStarter(w, o.listed, o.job);
    StartedStored(spec, w1, k6, o.patch1, now);
    StoredIfIs(w1, Running(k6, now), o.patch1);
    assert w.log + [] == w.log;
  }

  lemma StarterLogged(log: seq<Event>, setup: seq<Event>, hosts: seq<int>)
    ensures log + setup + [StarterCreated(hosts)] == log + (setup + [StarterCreated(hosts)])
    ensures setup + [] == setup
  {
  }

  lemma SetupGives(spec: Spec, w: World, o: Oracle, w1: World, ok: bool)
    requires |o.listed| == |w.cluster.services| && o.listed != []
    requires (w1, ok) == if spec.testRunID != "" then RunSetup(w, o.listed, o) else (w, true)
    ensures w1 == w.(log := w.log + if spec.testRunID != "" && o.setupRuns then SetupEvents(o) else [])
    ensures ok == SetUp(spec, w, o)
  {
    hide RunSetup, SetupEvents;
    SetupLogs(w, o);
    assert w.log + [] == w.log;
  }

  // Stage started.

  function Ended(s: Status, t: int): Status {
    s.(stage := Stopped, conditions := s.conditions[TestRunRunning := Cond(ConditionFalse, t)])
  }

  lemma MarkStoppedStores(spec: Spec, w: World, k6: Status, o: Oracle, now: int)
    requires k6 == w.status && w.present && StatusOk(spec, k6) && NotAfter(k6, now - 1) && k6.stage == Started
    ensures MarkStopped(w, k6, o, now) == StoredIf(w, Ended(k6, now), o.patch1)
  {
    hide HasCloudOut;
    var p := Set(k6, TestRunRunning, ConditionFalse, now).(stage := Stopped);
    assert p == Ended(k6, now);
    ProposalStored(w, p, o.patch1);
  }

  lemma StartedFacts(spec: Spec, s: Status)
    requires StatusOk(spec, s) && s.stage == Started
    ensures IsFalse(s.conditions, CloudTestRunAborted) && !IsTrue(s.conditions, CloudTestRunAborted)
    ensures !IsTrue(s.conditions, CloudTestRunFinalized) && IsTrue(s.conditions, TestRunRunning)
    ensures IsTrue(s.conditions, CloudPLZTestRun) <==> IsPLZ(spec)
    ensures IsTrue(s.conditions, CloudTestRun) ==> s.testRunID != ""
    ensures TestRunRunning in s.conditions
    ensures IsTrue(s.conditions, TeardownExecuted) || IsFalse(s.conditions, TeardownExecuted)
  {
    hide HasCloudOut;
  }

  /** The jobs are listed, and at least as many of them as there are runners have no active pod. */
  ghost predicate RunnersDone(spec: Spec, o: Oracle) {
    o.jobsListed && |InactiveJobs(o.jobStates)| >= spec.parallelism
  }

  /** While the jobs go on, the cloud is asked once more whether to abort. */
  ghost predicate AbortsLate(spec: Spec, w: World, o: Oracle) {
    !RunnersDone(spec, o) && IsTrue(w.status.conditions, CloudTestRun) && o.aborted2
  }

  lemma StartedReconciles(spec: Spec, w: World, o: Oracle)
    requires Acts(spec, w, o) && !Aborts(spec, w, o) && w.status.stage == Started
    ensures Reconcile(spec, w, o) == OnStarted(spec, w.(clock := Time2(w, o)), w.status, o, Time1(w, o))
  {
    hide OnStarted, StopJobs;
  }

  /**
   * A run that is not a PLZ run waits for its jobs: stage stopped is stored exactly if the status can be stored and
   * the runners are done, or the abort is wanted while they go on and the stopper is there.
   */
  lemma StopsExactly(spec: Spec, w: World, o: Oracle)
    requires Reachable(spec, w) && w.status.stage == Started && spec.testRunID == ""
    requires Acts(spec, w, o) && !Aborts(spec, w, o)
    ensures var w', t := Reconcile(spec, w, o), Time1(w, o);
            && w'.status == (if !TakesEffect(o.patch1) then w.status
                             else if RunnersDone(spec, o) then Ended(w.status, t)
                             else if AbortsLate(spec, w, o) && StopperThere(w, o) then Aborted(w.status, t)
                             else w.status)
            && w'.cluster == w.cluster.(stopper :=
                               w.cluster.stopper || (AbortsLate(spec, w, o) && StopperComes(w, o)))
            && NewEvents(w, w')
               == if AbortsLate(spec, w, o) && StopperComes(w, o) then [StopperCreated(o.listed)] else []
  {
    hide *;
    var now, t := w.(clock := Time2(w, o)), Time1(w, o);
    StatusOfReachable(spec, w, o);
    ActsOnStage(spec, w, o);
    StartedReconciles(spec, w, o);
    StopsWith(spec, now, w.status, o, t);
    SameStopper(w, now, o);
    assert AbortsLate(spec, now, o) == AbortsLate(spec, w, o) by { hide *; SameLate(spec, w, now, o); }
    NewIs(w, Reconcile(spec, w, o),
          if AbortsLate(spec, w, o) && StopperComes(w, o) then [StopperCreated(o.listed)] else []);
  }

  lemma SameLate(spec: Spec, w: World, now: World, o: Oracle)
    requires now.status == w.status
    ensures AbortsLate(spec, now, o) == AbortsLate(spec, w, o)
  {
  }

  lemma StopsWith(spec: Spec, w: World, k6: Status, o: Oracle, now: int)
    requires k6 == w.status && w.present && StatusOk(spec, k6) && NotAfter(k6, now - 1) && k6.stage == Started
    requires spec.testRunID == ""
    ensures var w' := OnStarted(spec, w, k6, o, now);
            && w'.status == (if !TakesEffect(o.patch1) then w.status
                             else if RunnersDone(spec, o) then Ended(k6, now)
                             else if AbortsLate(spec, w, o) && StopperThere(w, o) then Aborted(k6, now)
                             else w.status)
            && w'.cluster == w.cluster.(stopper :=
                               w.cluster.stopper || (AbortsLate(spec, w, o) && StopperComes(w, o)))
            && w'.log == w.log
                         + if AbortsLate(spec, w, o) && StopperComes(w, o) then [StopperCreated(o.listed)] else []
  {
    hide StatusOk, NotAfter, Ended, Aborted, IsTrue, IsFalse, StopperThere, StopperComes, StopJobs, MarkStopped,
         CountInactive, InactiveJobs;
    StartedFacts(spec, k6);
    JobsCounted(o.jobStates);
    StopJobsStores(w, k6, o, now);
    MarkStoppedStores(spec, w, k6, o, now);
    assert w.log + [] == w.log;
  }

  /** The hosts that answer, each as often as it is listed. */
  lemma {:induction false} ReadyHostsAre(listed: seq<int>, ready: set<int>)
    ensures forall h :: multiset(ReadyHosts(listed, ready))[h] == if h in ready then multiset(listed)[h] else 0
  {
    if listed == [] {
    } else {
      var n := |listed| - 1;
      ReadyHostsAre(listed[..n], ready);
      assert listed == listed[..n] + [listed[n]];
    }
  }

  /** The first of the hosts that answer comes first. */
  lemma {:induction false} FirstReadyHost(listed: seq<int>, ready: set<int>)
    ensures ReadyHosts(listed, ready) == [] <==> forall i | 0 <= i < |listed| :: listed[i] !in ready
    ensures ReadyHosts(listed, ready) != [] ==> exists i :: FirstReady(listed, ready, i, ReadyHosts(listed, ready)[0])
  {
    if listed == [] {
    } else {
      var n := |listed| - 1;
      var front := listed[..n];
      FirstReadyHost(front, ready);
      var before := ReadyHosts(front, ready);
      if before != [] {
        var i :| FirstReady(front, ready, i, before[0]);
        assert ReadyHosts(listed, ready)[0] == before[0];
        assert FirstReady(listed, ready, i, ReadyHosts(listed, ready)[0]);
      } else if listed[n] in ready {
        assert forall j | 0 <= j < n :: front[j] == listed[j];
        assert ReadyHosts(listed, ready) == [listed[n]];
        assert FirstReady(listed, ready, n, ReadyHosts(listed, ready)[0]);
      }
    }
  }

  ghost predicate FirstReady(listed: seq<int>, ready: set<int>, i: int, host: int) {
    0 <= i < |listed| && listed[i] == host && host in ready && forall j | 0 <= j < i :: listed[j] !in ready
  }

  /** Long enough after the start, every runner has stopped. */
  ghost predicate RunnersStoppedBy(w: World, o: Oracle) {
    && TestRunRunning in w.status.conditions
    && Time1(w, o) - w.status.conditions[TestRunRunning].since > 30_000_000_000
    && o.servicesListed && w.cluster.services !! o.running
  }

  function TornDown(s: Status, t: int): Status {
    s.(conditions := s.conditions[TeardownExecuted := Cond(ConditionTrue, t)])
  }

  /** Teardown is asked for on the first of the hosts that answer. */
  function TeardownEvents(o: Oracle): seq<Event> {
    var hosts := ReadyHosts(o.listed, o.ready);
    [TeardownInvoked(hosts)] + if hosts != [] && o.teardownRuns then [TeardownRan(hosts[0])] else []
  }

  /**
   * A PLZ run waits for its runners and then for teardown: stage stopped is stored exactly if teardown counts as
   * executed, and it comes to count so exactly half a minute or more after the start, with all runners stopped.
   */
  lemma TearsDownExactly(spec: Spec, w: World, o: Oracle)
    requires Reachable(spec, w) && w.status.stage == Started && spec.testRunID != ""
    requires Acts(spec, w, o) && !Aborts(spec, w, o)
    ensures var w', t := Reconcile(spec, w, o), Time1(w, o);
            var torn, due := IsTrue(w.status.conditions, TeardownExecuted), RunnersStoppedBy(w, o);
            && w'.status == (if !TakesEffect(o.patch1) then w.status
                             else if torn then Ended(w.status, t)
                             else if due && o.relisted then TornDown(w.status, t)
                             else w.status)
            && w'.cluster == w.cluster
            && NewEvents(w, w') == if torn || !due then []
                                   else [RunnersStopped] + if o.relisted then TeardownEvents(o) else []
  {
    hide *;
    var now, t := w.(clock := Time2(w, o)), Time1(w, o);
    StatusOfReachable(spec, w, o);
    ActsOnStage(spec, w, o);
    StartedReconciles(spec, w, o);
    TearsDownWith(spec, now, w.status, o, t);
    assert TestRunRunning in w.status.conditions by { StartedFacts(spec, w.status); }
    DueBy(w, now, o);
    NewIs(w, Reconcile(spec, w, o),
          if IsTrue(w.status.conditions, TeardownExecuted) || !RunnersStoppedBy(w, o) then []
          else [RunnersStopped] + if o.relisted then TeardownEvents(o) else []);
  }

  lemma Disjoint(a: set<int>, b: set<int>)
    ensures a * b == {} <==> a !! b
  {
    if a * b == {} {
      forall h | h in a ensures h !in b {
        assert h in b ==> h in a * b;
      }
    }
  }

  lemma DueBy(w: World, now: World, o: Oracle)
    requires now == w.(clock := now.clock) && TestRunRunning in w.status.conditions
    ensures RunnersStoppedBy(w, o)
            <==> Time1(w, o) - LastUpdate(w.status.conditions, TestRunRunning, Time1(w, o)) > 30_000_000_000
                 && o.servicesListed && now.cluster.services !! o.running
  {
  }

  lemma TearsDownWith(spec: Spec, w: World, k6: Status, o: Oracle, now: int)
    requires k6 == w.status && w.present && StatusOk(spec, k6) && NotAfter(k6, now - 1) && k6.stage == Started
    requires spec.testRunID != ""
    ensures var w' := OnStarted(spec, w, k6, o, now);
            var torn := IsTrue(k6.conditions, TeardownExecuted);
            var due := now - LastUpdate(k6.conditions, TestRunRunning, now) > 30_000_000_000
                       && o.servicesListed && w.cluster.services !! o.running;
            && w'.status == (if !TakesEffect(o.patch1) then k6
                             else if torn then Ended(k6, now)
                             else if due && o.relisted then TornDown(k6, now)
                             else k6)
            && w'.cluster == w.cluster
            && w'.log == w.log + if torn || !due then []
                                 else [RunnersStopped] + if o.relisted then TeardownEvents(o) else []
  {
    hide StatusOk, NotAfter, Ended, TornDown, IsTrue, IsFalse, MarkStopped, UpdateStatus, ReadyHosts, Set;
    StartedFacts(spec, k6);
    MarkStoppedStores(spec, w, k6, o, now);
    assert StoppedJobs(w, o) <==> o.servicesListed && w.cluster.services !! o.running by {
      Disjoint(w.cluster.services, o.running);
    }
    var w1 := Logged(w, [RunnersStopped]);
    var w2 := RunTeardown(w1, ReadyHosts(o.listed, o.ready), o);
    TeardownStores(spec, w2, k6, o.patch1, now);
    assert w2.log == w.log + ([RunnersStopped] + TeardownEvents(o));
    assert w.log + [] == w.log && [RunnersStopped] + [] == [RunnersStopped];
    NotBoth(k6.conditions, TeardownExecuted);
  }

  lemma NotBoth(c: CondMap, kind: ConditionType)
    ensures !(IsTrue(c, kind) && IsFalse(c, kind))
  {
  }

  lemma TeardownStores(spec: Spec, w: World, k6: Status, answer: PatchAnswer, now: int)
    requires k6 == w.status && w.present && StatusOk(spec, k6) && NotAfter(k6, now - 1) && k6.stage == Started
    ensures IsFalse(k6.conditions, TeardownExecuted) ==>
              UpdateStatus(w, Set(k6, TeardownExecuted, ConditionTrue, now), answer).w
              == StoredIf(w, TornDown(k6, now), answer)
  {
    hide HasCloudOut;
    if IsFalse(k6.conditions, TeardownExecuted) {
      var p := Set(k6, TeardownExecuted, ConditionTrue, now);
      assert p == TornDown(k6, now);
      ProposalStored(w, p, answer);
    }
  }

  // Stage stopped.

  /** An aborted PLZ run, all of whose runners have stopped, has its jobs killed. */
  ghost predicate Kills(spec: Spec, w: World, o: Oracle) {
    && spec.testRunID != "" && IsTrue(w.status.conditions, CloudTestRunAborted)
    && o.servicesListed && w.cluster.services !! o.running
  }

  /** The cloud is told that the run is over, five seconds or more after it stopped. */
  ghost predicate Reports(spec: Spec, w: World, o: Oracle) {
    && (Kills(spec, w, o) ==> o.jobsListed && o.patch1 != GetFailed)
    && IsTrue(w.status.conditions, CloudTestRun)
    && TestRunRunning in w.status.conditions
    && Time2(w, o) - w.status.conditions[TestRunRunning].since >= 5_000_000_000
    && o.finish != Failed
  }

  /** Stage finished is proposed. */
  ghost predicate Finishes(spec: Spec, w: World, o: Oracle) {
    && (Kills(spec, w, o) ==> o.jobsListed && o.patch1 != GetFailed)
    && (IsTrue(w.status.conditions, CloudTestRun) ==> Reports(spec, w, o) && o.finish == Done)
  }

  function Finalized(s: Status, t: int): Status {
    s.(stage := Finished,
       conditions := if IsTrue(s.conditions, CloudTestRun)
                     then s.conditions[CloudTestRunFinalized := Cond(ConditionTrue, t)] else s.conditions)
  }

  lemma StoppedFacts(spec: Spec, s: Status)
    requires StatusOk(spec, s) && s.stage == Stopped
    ensures IsTrue(s.conditions, CloudPLZTestRun) <==> IsPLZ(spec)
    ensures TestRunRunning in s.conditions
    ensures IsTrue(s.conditions, CloudTestRun) ==> IsFalse(s.conditions, CloudTestRunFinalized)
  {
    hide HasCloudOut;
  }

  lemma FinalizedStored(spec: Spec, w: World, k6: Status, answer: PatchAnswer, now: int)
    requires k6 == w.status && w.present && StatusOk(spec, k6) && NotAfter(k6, now - 1) && k6.stage == Stopped
    ensures var p := if IsTrue(k6.conditions, CloudTestRun)
                     then Set(k6, CloudTestRunFinalized, ConditionTrue, now).(stage := Finished)
                     else k6.(stage := Finished);
            UpdateStatus(w, p, answer).w == StoredIf(w, Finalized(k6, now), answer)
  {
    hide HasCloudOut;
    StoppedFacts(spec, k6);
    var p := if IsTrue(k6.conditions, CloudTestRun)
             then Set(k6, CloudTestRunFinalized, ConditionTrue, now).(stage := Finished)
             else k6.(stage := Finished);
    assert p == Finalized(k6, now);
    ProposalStored(w, p, answer);
  }

  lemma FinalizeStores(spec: Spec, w: World, k6: Status, o: Oracle, now: int)
    requires k6 == w.status && StatusOk(spec, k6) && NotAfter(k6, now - 1) && k6.stage == Stopped
    ensures var w' := Finalize(w, k6, o, now);
            var cloud := IsTrue(k6.conditions, CloudTestRun);
            var late := now - LastUpdate(k6.conditions, TestRunRunning, now) >= 5_000_000_000;
            var goes := cloud ==> late && o.finish == Done;
            && w'.status == (if w.present && goes && TakesEffect(o.patch2) then Finalized(k6, now) else k6)
            && w'.present == (w.present && !(goes && o.patch2 == Gone))
            && w'.cluster == w.cluster
            && w'.log == w.log + if cloud && late && o.finish != Failed then [FinishAccepted(k6.testRunID)] else []
  {
    hide StatusOk, NotAfter, Finalized, IsTrue, IsFalse, Set, UpdateStatus, TakesEffect;
    StoppedFacts(spec, k6);
    assert w.log + [] == w.log;
    var told := Logged(w, [FinishAccepted(k6.testRunID)]);
    if w.present {
      FinalizedStored(spec, w, k6, o.patch2, now);
      FinalizedStored(spec, told, k6, o.patch2, now);
    }
    AbsentStays(w, k6.(stage := Finished), o.patch2);
    AbsentStays(told, Set(k6, CloudTestRunFinalized, ConditionTrue, now).(stage := Finished), o.patch2);
    StoredIfIs(w, Finalized(k6, now), o.patch2);
    StoredIfIs(told, Finalized(k6, now), o.patch2);
    hide StoredIf;
  }

  lemma AbsentStays(w: World, p: Status, answer: PatchAnswer)
    ensures !w.present ==> UpdateStatus(w, p, answer).w == w
  {
  }

  lemma StoredIfIs(w: World, p: Status, answer: PatchAnswer)
    ensures var w' := StoredIf(w, p, answer);
            && w'.status == (if TakesEffect(answer) then p else w.status)
            && w'.present == (w.present && answer != Gone)
            && w'.cluster == w.cluster && w'.log == w.log
  {
  }

  lemma KillStores(spec: Spec, w: World, k6: Status, o: Oracle, now: int)
    requires k6 == w.status && w.present && IsTrue(k6.conditions, CloudTestRunAborted)
    ensures var u := KillAborted(w, k6, o, now);
            var kills := o.servicesListed && w.cluster.services !! o.running;
            && u.failed == (kills && (!o.jobsListed || o.patch1 == GetFailed))
            && u.k6 == k6
            && u.w == w.(present := !(kills && o.jobsListed && o.patch1 == Gone), cluster := u.w.cluster, log := u.w.log)
            && u.w.cluster == w.cluster.(jobs := if kills && o.jobsListed then w.cluster.jobs - o.killed
                                                 else w.cluster.jobs)
            && u.w.log == w.log + if !kills then []
                                  else [RunnersStopped]
                                       + if o.jobsListed then [JobsDeleted(w.cluster.jobs * o.killed)] else []
  {
    Disjoint(w.cluster.services, o.running);
    assert Set(k6, CloudTestRunAborted, ConditionTrue, now) == k6;
    var w1 := Logged(w, [RunnersStopped]);
    SelfStored(KillJobs(w1, o), o.patch1);
    hide UpdateStatus, Set, IsTrue;
    assert w.log + [] == w.log && [RunnersStopped] + [] == [RunnersStopped];
    assert w.log + [RunnersStopped] + [JobsDeleted(w.cluster.jobs * o.killed)]
           == w.log + ([RunnersStopped] + [JobsDeleted(w.cluster.jobs * o.killed)]);
  }

  lemma SelfStored(w: World, answer: PatchAnswer)
    requires w.present
    ensures var u := UpdateStatus(w, w.status, answer);
            u.w == w.(present := answer != Gone) && u.k6 == w.status && (u.failed <==> answer == GetFailed)
  {
    MergeOwn(w.status, w.status);
    assert !IsNewer(w.status, w.status);
  }

  lemma StoppedReconciles(spec: Spec, w: World, o: Oracle)
    requires Acts(spec, w, o) && !Aborts(spec, w, o) && w.status.stage == Stopped
    ensures Reconcile(spec, w, o)
            == OnStopped(w.(clock := Time2(w, o)), w.status, o, Time1(w, o), Time2(w, o))
  {
    hide OnStopped, StopJobs;
  }

  /**
   * In stage stopped, the jobs of an aborted PLZ run are killed once its runners have stopped, though the run does
   * not wait for that; a run with cloud output is reported to the cloud; and then stage finished is stored.
   */
  lemma FinishesExactly(spec: Spec, w: World, o: Oracle)
    requires Reachable(spec, w) && w.status.stage == Stopped
    requires Acts(spec, w, o) && !Aborts(spec, w, o)
    ensures var w' := Reconcile(spec, w, o);
            var kills, gone := Kills(spec, w, o), Kills(spec, w, o) && o.patch1 == Gone;
            && w'.status == (if Finishes(spec, w, o) && !gone && TakesEffect(o.patch2)
                             then Finalized(w.status, Time2(w, o)) else w.status)
            && w'.cluster == w.cluster.(jobs := if kills && o.jobsListed then w.cluster.jobs - o.killed
                                                else w.cluster.jobs)
            && NewEvents(w, w')
               == (if !kills then []
                   else [RunnersStopped] + if o.jobsListed then [JobsDeleted(w.cluster.jobs * o.killed)] else [])
                  + if Reports(spec, w, o) then [FinishAccepted(w.status.testRunID)] else []
  {
    hide *;
    var now := w.(clock := Time2(w, o));
    StatusOfReachable(spec, w, o);
    ActsOnStage(spec, w, o);
    StoppedReconciles(spec, w, o);
    FinishesWith(spec, w, now, o);
    NewIs(w, Reconcile(spec, w, o),
          (if !Kills(spec, w, o) then []
           else [RunnersStopped] + if o.jobsListed then [JobsDeleted(w.cluster.jobs * o.killed)] else [])
          + if Reports(spec, w, o) then [FinishAccepted(w.status.testRunID)] else []);
  }

  lemma FinishesWith(spec: Spec, w: World, now: World, o: Oracle)
    requires StatusOk(spec, w.status) && NotAfter(w.status, Time2(w, o) - 1) && w.status.stage == Stopped
    requires w.present && now == w.(clock := Time2(w, o))
    ensures var w' := OnStopped(now, w.status, o, Time1(w, o), Time2(w, o));
            var kills, gone := Kills(spec, w, o), Kills(spec, w, o) && o.patch1 == Gone;
            && w'.status == (if Finishes(spec, w, o) && !gone && TakesEffect(o.patch2)
                             then Finalized(w.status, Time2(w, o)) else w.status)
            && w'.cluster == w.cluster.(jobs := if kills && o.jobsListed then w.cluster.jobs - o.killed
                                                else w.cluster.jobs)
            && w'.log
               == w.log + ((if !kills then []
                            else [RunnersStopped] + if o.jobsListed then [JobsDeleted(w.cluster.jobs * o.killed)] else [])
                           + if Reports(spec, w, o) then [FinishAccepted(w.status.testRunID)] else [])
  {
    hide StatusOk, NotAfter, Finalized, IsTrue, Finalize, KillAborted, TakesEffect;
    var k6 := w.status;
    StoppedFacts(spec, k6);
    if spec.testRunID != "" && IsTrue(k6.conditions, CloudTestRunAborted) {
      KillStores(spec, now, k6, o, Time1(w, o));
      var u := KillAborted(now, k6, o, Time1(w, o));
      FinalizeStores(spec, u.w, k6, o, Time2(w, o));
    } else {
      FinalizeStores(spec, now, k6, o, Time2(w, o));
    }
  }

  // Stages error and finished.

  /** The TestRun is deleted if it is to be cleaned up; nothing else happens any more. */
  lemma CleansUpExactly(spec: Spec, w: World, o: Oracle)
    requires w.status.stage == Finished || w.status.stage == ErrorStage
    requires Acts(spec, w, o) && !Aborts(spec, w, o)
    ensures Reconcile(spec, w, o) == w.(clock := Time2(w, o), present := !(spec.cleanupPost && o.deleted))
  {
    hide StopJobs, OnEmpty, OnInitialization, CreateJobs, StartJobs, OnStarted, OnStopped;
  }
}
