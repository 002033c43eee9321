/** The guarantees of the TestRun controller, over every run: any length, any answers, any crashes. */
module TestRunTheorems {
  import opened Text
  import opened Conditions
  import opened TestRunStatus
  import opened TestRunModel
  import opened TestRunInvariants
  import opened TestRunSteps
  import Aggregation

  // Statuses over time.

  /** How often the stage, a condition's status, the run ID or the aggregation variables changed. */
  ghost function Changes(history: seq<Status>): nat {
    if |history| < 2 then 0
    else
      var n := |history| - 1;
      Changes(history[..n]) + if SameView(history[n - 1], history[n]) then 0 else 1
  }

  lemma {:induction false} ChangesAreMilestones(history: seq<Status>)
    requires history != []
    requires forall i, j | 0 <= i && j == i + 1 < |history| :: Follows(history[i], history[j])
    ensures Changes(history) <= Milestones(history[|history| - 1])
  {
    hide SameView;
    if |history| >= 2 {
      var n := |history| - 1;
      var front := history[..n];
      assert forall i | 0 <= i < n :: front[i] == history[i];
      ChangesAreMilestones(front);
      assert Follows(history[n - 1], history[n]);
      if SameView(history[n - 1], history[n]) {
        SameMilestones(history[n - 1], history[n]);
      }
    }
  }

  lemma SameMilestones(a: Status, b: Status)
    requires SameView(a, b)
    ensures Milestones(a) == Milestones(b)
  {
    assert a.conditions == map[] <==> b.conditions == map[] by {
      assert a.conditions == map[] <==> a.conditions.Keys == {};
      assert b.conditions == map[] <==> b.conditions.Keys == {};
    }
  }

  /** However long a run is, what its status says changes at most eleven times. */
  lemma StatusChangesBounded(spec: Spec, w: World)
    requires Reachable(spec, w)
    ensures Changes(w.history) <= 11
  {
    ReachableInv(spec, w);
    ChangesAreMilestones(w.history);
  }

  lemma {:induction false} FollowsLater(spec: Spec, history: seq<Status>, i: nat, j: nat)
    requires forall a, b | 0 <= a && b == a + 1 < |history| :: Follows(history[a], history[b])
    requires i <= j < |history|
    ensures StageRank(history[i].stage) <= StageRank(history[j].stage)
    ensures history[i].stage in {Finished, ErrorStage} ==> history[j].stage == history[i].stage
    ensures history[i].testRunID != "" ==> history[j].testRunID == history[i].testRunID
    ensures history[i].aggregationVars != "" ==> history[j].aggregationVars == history[i].aggregationVars
    decreases j - i
  {
    hide SameView, Milestones;
    if i < j {
      FollowsLater(spec, history, i, j - 1);
      assert Follows(history[j - 1], history[j]);
    }
  }

  /**
   * Stages only move on, finished and error are final, and the run ID and the aggregation variables are
   * written at most once.
   */
  lemma StatusOnlyMovesOn(spec: Spec, w: World, i: nat, j: nat)
    requires Reachable(spec, w) && i <= j < |w.history|
    ensures StageRank(w.history[i].stage) <= StageRank(w.history[j].stage)
    ensures w.history[i].stage in {Finished, ErrorStage} ==> w.history[j].stage == w.history[i].stage
    ensures w.history[i].testRunID != "" ==> w.history[j].testRunID == w.history[i].testRunID
    ensures w.history[i].aggregationVars != "" ==> w.history[j].aggregationVars == w.history[i].aggregationVars
  {
    ReachableInv(spec, w);
    FollowsLater(spec, w.history, i, j);
  }

  lemma StoredOk(spec: Spec, w: World, i: nat)
    requires Reachable(spec, w) && i < |w.history|
    ensures StatusOk(spec, w.history[i]) && w.history[|w.history| - 1] == w.status
  {
    hide StatusOk, WorldOk, Follows, Reachable;
    ReachableInv(spec, w);
  }

  /** In every status ever stored, TestRunRunning agrees with the stage. */
  lemma RunningTracksStage(spec: Spec, w: World, i: nat)
    requires Reachable(spec, w) && i < |w.history|
    ensures RunningMatchesStage(w.history[i])
  {
    StoredOk(spec, w, i);
  }

  /**
   * In every status ever stored, CloudTestRunCreated is True exactly when there is a run ID. A PLZ run has the
   * ID of its spec; any other ID was handed out by the cloud, and its aggregation settings were kept with it.
   */
  lemma RunIDTracksCreation(spec: Spec, w: World, i: nat)
    requires Reachable(spec, w) && i < |w.history|
    ensures RunIDRecorded(spec, w.history[i])
    ensures !IsPLZ(spec) && w.status.testRunID != "" ==>
              exists config :: CloudRunCreated(w.status.testRunID, Some(config)) in w.log
                               && w.status.aggregationVars == Aggregation.Encode(config)
  {
    StoredOk(spec, w, i);
    ReachableInv(spec, w);
  }

  /** A finished cloud run was finalized, with its own ID, and only finished runs are. */
  lemma FinishedMeansFinalized(spec: Spec, w: World)
    requires Reachable(spec, w)
    ensures IsTrue(w.status.conditions, CloudTestRunFinalized)
            <==> w.status.stage == Finished && IsTrue(w.status.conditions, CloudTestRun)
    ensures w.status.stage == Finished && IsTrue(w.status.conditions, CloudTestRun) ==>
              w.status.testRunID != "" && FinishAccepted(w.status.testRunID) in w.log
  {
    ReachableInv(spec, w);
    StatusOfInv(spec, w);
  }

  /**
   * A PLZ run that stopped was torn down or aborted; it counts as torn down only if teardown was asked for
   * after a check that found no runner still running.
   */
  lemma StoppedMeansTeardownOrAbort(spec: Spec, w: World)
    requires Reachable(spec, w)
    ensures IsPLZ(spec) && w.status.stage in {Stopped, Finished} ==>
              IsTrue(w.status.conditions, TeardownExecuted) || IsTrue(w.status.conditions, CloudTestRunAborted)
    ensures IsTrue(w.status.conditions, TeardownExecuted) ==>
              exists i, j :: 0 <= i < j < |w.log| && w.log[i] == RunnersStopped && w.log[j].TeardownInvoked?
  {
    hide Reachable, HistoryOk, ClusterOk, NotAfter, StarterJustified, Prepared, RunningMatchesStage, RunIDRecorded;
    ReachableInv(spec, w);
    StatusOfInv(spec, w);
    if IsTrue(w.status.conditions, TeardownExecuted) {
      var hosts :| TeardownInvoked(hosts) in w.log;
      var j :| 0 <= j < |w.log| && w.log[j] == TeardownInvoked(hosts);
      assert EventJustified(spec, w.log[..j], w.log[j]);
      var i :| 0 <= i < j && w.log[..j][i] == RunnersStopped;
      assert w.log[i] == RunnersStopped && w.log[j].TeardownInvoked?;
    }
  }

  /** This reconcile of a started PLZ run stores that teardown was executed. */
  ghost predicate MarksTeardown(spec: Spec, w: World, o: Oracle) {
    && o.found && o.token && spec.parallelism >= 1 && !WantsAbort(spec, w.status, o)
    && Time1(w, o) - LastUpdate(w.status.conditions, TestRunRunning, Time1(w, o)) > 30 * SECOND
    && StoppedJobs(w, o) && o.relisted && o.patch1 in {Patched, PatchLost}
  }

  /**
   * Whether a started PLZ run is marked as torn down has nothing to do with teardown running on a runner: that
   * happens exactly if some service answers at that moment and the request succeeds.
   */
  lemma TeardownReachesRunner(spec: Spec, w: World, o: Oracle)
    requires Reachable(spec, w) && Honest(w, o) && w.present && w.status.stage == Started
    requires IsPLZ(spec) && IsFalse(w.status.conditions, TeardownExecuted)
    ensures IsTrue(Reconcile(spec, w, o).status.conditions, TeardownExecuted) <==> MarksTeardown(spec, w, o)
    ensures MarksTeardown(spec, w, o) ==>
              ((exists h :: TeardownRan(h) in NewEvents(w, Reconcile(spec, w, o)))
               <==> o.teardownRuns && exists h :: h in w.cluster.services && h in o.ready)
  {
    hide StatusOk, HistoryOk, LogOk, ClusterOk, StopJobs, WaitForTeardown, HasCloudOut, MapUpdate, NewEvents, StoppedJobs;
    ReachableInv(spec, w);
    StatusOfInv(spec, w);
    var t1, now, k6 := Time1(w, o), w.(clock := Time2(w, o)), w.status;
    NotAfterLater(k6, w.clock, t1 - 1);
    StartedPLZ(spec, k6);
    SameServices(w, now, o);
    if o.found && o.token && spec.parallelism >= 1 {
      if WantsAbort(spec, k6, o) {
        StopKeepsTeardown(spec, now, k6, o, t1);
      } else {
        assert Reconcile(spec, w, o) == WaitForTeardown(now, k6, o, t1);
        TeardownStored(spec, now, k6, o, t1);
        TeardownLogged(w, WaitForTeardown(now, k6, o, t1), o);
      }
    }
  }

  lemma TeardownLogged(w: World, w': World, o: Oracle)
    requires Honest(w, o)
    ensures var hosts := ReadyHosts(o.listed, o.ready);
            w'.log == w.log + [RunnersStopped]
                      + ([TeardownInvoked(hosts)]
                         + if hosts != [] && o.teardownRuns then [TeardownRan(hosts[0])] else []) ==>
              ((exists h :: TeardownRan(h) in NewEvents(w, w'))
               <==> o.teardownRuns && exists h :: h in w.cluster.services && h in o.ready)
  {
    var hosts := ReadyHosts(o.listed, o.ready);
    var more := [TeardownInvoked(hosts)] + if hosts != [] && o.teardownRuns then [TeardownRan(hosts[0])] else [];
    ListedServices(w, o);
    hide ReadyHosts;
    if w'.log == w.log + [RunnersStopped] + more {
      assert NewEvents(w, w') == [RunnersStopped] + more;
      assert hosts != [] && o.teardownRuns ==> TeardownRan(hosts[0]) in NewEvents(w, w');
    }
  }

  lemma SameServices(w: World, now: World, o: Oracle)
    requires now.cluster == w.cluster
    ensures StoppedJobs(now, o) <==> StoppedJobs(w, o)
  {
  }

  lemma StartedPLZ(spec: Spec, s: Status)
    requires StatusOk(spec, s) && s.stage == Started && IsPLZ(spec)
    ensures IsTrue(s.conditions, CloudPLZTestRun) && !IsTrue(s.conditions, CloudTestRunFinalized)
    ensures IsFalse(s.conditions, CloudTestRunAborted) && !IsTrue(s.conditions, CloudTestRunAborted)
  {
    hide HasCloudOut;
  }

  lemma StopKeepsTeardown(spec: Spec, w: World, k6: Status, o: Oracle, now: int)
    requires k6 == w.status && StatusOk(spec, k6) && NotAfter(k6, now - 1) && WantsAbort(spec, k6, o)
    requires IsFalse(k6.conditions, TeardownExecuted)
    ensures IsFalse(StopJobs(w, k6, o, now).status.conditions, TeardownExecuted)
  {
    hide IsNewer, Merge, StatusOk, MapUpdate, IsFalse;
    var (w1, created) := CreateStopper(w, o.listed, o.job);
    StopsOnly(k6, now);
  }

  lemma StopsOnly(s: Status, now: int)
    requires IsFalse(s.conditions, TeardownExecuted)
    ensures IsFalse(Merge(s, StopProposal(s, now)).conditions, TeardownExecuted)
  {
  }

  lemma TeardownStored(spec: Spec, w: World, k6: Status, o: Oracle, now: int)
    requires k6 == w.status && w.present && StatusOk(spec, k6) && NotAfter(k6, now - 1)
    requires k6.stage == Started && IsPLZ(spec) && IsFalse(k6.conditions, TeardownExecuted)
    ensures var w' := WaitForTeardown(w, k6, o, now);
            var due := now - LastUpdate(k6.conditions, TestRunRunning, now) > 30 * SECOND
                       && StoppedJobs(w, o) && o.relisted;
            var hosts := ReadyHosts(o.listed, o.ready);
            && (IsTrue(w'.status.conditions, TeardownExecuted) <==> due && o.patch1 in {Patched, PatchLost})
            && (due ==> w'.log == w.log + [RunnersStopped]
                                  + ([TeardownInvoked(hosts)]
                                     + if hosts != [] && o.teardownRuns then [TeardownRan(hosts[0])] else []))
  {
    StartedPLZ(spec, k6);
    var w2 := RunTeardown(Logged(w, [RunnersStopped]), ReadyHosts(o.listed, o.ready), o);
    assert w2.status == k6 && w2.present;
    MarkStored(spec, w2, k6, o.patch1, now);
    hide StoppedJobs, ReadyHosts, StatusOk, UpdateStatus, Set, Calm;
  }

  lemma MarkStored(spec: Spec, w: World, k6: Status, answer: PatchAnswer, now: int)
    requires k6 == w.status && w.present && StatusOk(spec, k6) && NotAfter(k6, now - 1)
    requires k6.stage == Started && IsPLZ(spec) && IsFalse(k6.conditions, TeardownExecuted)
    ensures var w' := UpdateStatus(w, Set(k6, TeardownExecuted, ConditionTrue, now), answer).w;
            && (IsTrue(w'.status.conditions, TeardownExecuted) <==> answer in {Patched, PatchLost})
            && w'.log == w.log
  {
    var p := Set(k6, TeardownExecuted, ConditionTrue, now);
    TeardownMerged(spec, k6, now);
    assert TeardownExecuted in p.conditions && Newer(k6.conditions[TeardownExecuted], p.conditions[TeardownExecuted]);
    hide StatusOk, Merge;
  }

  lemma ListedServices(w: World, o: Oracle)
    requires Honest(w, o)
    ensures ReadyHosts(o.listed, o.ready) != [] <==> exists h :: h in w.cluster.services && h in o.ready
  {
    ReadyHostsSome(o.listed, o.ready);
    forall h ensures h in o.listed <==> h in w.cluster.services {
      assert h in o.listed <==> h in multiset(o.listed);
      assert h in w.cluster.services <==> h in multiset(w.cluster.services);
    }
  }

  lemma {:induction false} ReadyHostsSome(listed: seq<int>, ready: set<int>)
    ensures ReadyHosts(listed, ready) != [] <==> exists h :: h in listed && h in ready
  {
    if listed == [] {
    } else {
      var n := |listed| - 1;
      var front := listed[..n];
      ReadyHostsSome(front, ready);
      assert listed == front + [listed[n]];
      if listed[n] in ready {
        var h := listed[n];
        assert h in listed && h in ready;
        assert |ReadyHosts(listed, ready)| > 0;
      } else if h :| h in front && h in ready {
        assert h in listed;
      }
    }
  }

  // Runners and the starter.

  lemma {:induction false} LaunchesHave(k: nat, i: int)
    ensures JobCreated(i) in Launches(k) <==> 1 <= i <= k
    ensures ServiceCreated(i) in Launches(k) <==> 1 <= i <= k
  {
    if k == 0 {
    } else {
      LaunchesHave(k - 1, i);
    }
  }

  lemma {:induction false} LaunchesOfMembers(log: seq<Event>, e: Event)
    ensures e in LaunchesOf(log) <==> e in log && IsLaunch(e)
  {
    if log == [] {
    } else {
      var n := |log| - 1;
      LaunchesOfMembers(log[..n], e);
      assert log == log[..n] + [log[n]];
    }
  }

  lemma LaunchingMembers(log: seq<Event>, jobs: nat, services: nat)
    requires services <= jobs <= services + 1 && LaunchesOf(log) == Launching(jobs, services)
    ensures forall i :: JobCreated(i) in log <==> 1 <= i <= jobs
    ensures forall i :: ServiceCreated(i) in log <==> 1 <= i <= services
  {
    forall i ensures JobCreated(i) in log <==> 1 <= i <= jobs {
      LaunchesOfMembers(log, JobCreated(i));
      LaunchesHave(services, i);
    }
    forall i ensures ServiceCreated(i) in log <==> 1 <= i <= services {
      LaunchesOfMembers(log, ServiceCreated(i));
      LaunchesHave(services, i);
    }
  }

  /**
   * At every point, crashes included, the runner jobs created are 1..jobs and the services 1..services, with at
   * most one service missing. Only a complete set of runners gets past stage initialized.
   */
  lemma RunnersFormPrefix(spec: Spec, w: World) returns (jobs: nat, services: nat)
    requires Reachable(spec, w)
    ensures services <= jobs <= services + 1 && (jobs > 0 ==> jobs <= spec.parallelism)
    ensures forall i :: JobCreated(i) in w.log <==> 1 <= i <= jobs
    ensures forall i :: ServiceCreated(i) in w.log <==> 1 <= i <= services
    ensures w.cluster.services == UpTo(services) && w.cluster.jobs <= UpTo(jobs)
    ensures w.status.stage !in {Stopped, Finished} ==> w.cluster.jobs == UpTo(jobs)
    ensures w.status.stage in {Created, Started} ==> jobs == services == spec.parallelism
  {
    hide HistoryOk, LogOk, NotAfter;
    ReachableInv(spec, w);
    jobs, services :| LaunchedSoFar(spec, w.cluster, w.log, w.status, jobs, services);
    LaunchingMembers(w.log, jobs, services);
  }

  /** Whatever the starter was told, it was told after all runners were there, with each runner's host once. */
  lemma StarterComesLast(spec: Spec, w: World, j: nat)
    requires Reachable(spec, w) && j < |w.log| && w.log[j].StarterCreated?
    ensures forall i | 1 <= i <= spec.parallelism :: JobCreated(i) in w.log[..j] && ServiceCreated(i) in w.log[..j]
    ensures spec.parallelism >= 1 && multiset(w.log[j].hosts) == multiset(UpTo(spec.parallelism))
    ensures IsPLZ(spec) ==>
              forall i | 1 <= i <= spec.parallelism :: SetupDelivered(i) in w.log[..j]
  {
    ReachableInv(spec, w);
    var before, hosts := w.log[..j], w.log[j].hosts;
    assert EventJustified(spec, before, w.log[j]);
    forall i | 1 <= i <= spec.parallelism
      ensures JobCreated(i) in before && ServiceCreated(i) in before
      ensures IsPLZ(spec) ==> SetupDelivered(i) in before
    {
      LaunchesHave(spec.parallelism, i);
      LaunchesOfMembers(before, JobCreated(i));
      LaunchesOfMembers(before, ServiceCreated(i));
      assert i in multiset(UpTo(spec.parallelism));
      assert i in hosts;
    }
  }

  lemma {:induction false} CountedOnce(log: seq<Event>, i: nat, j: nat)
    requires i < j < |log| && log[i].StarterCreated? && log[j].StarterCreated?
    ensures CountStarters(log) >= 2
  {
    var n := |log| - 1;
    if j < n {
      CountedOnce(log[..n], i, j);
    } else {
      CountedPositive(log[..n], i);
    }
  }

  lemma {:induction false} CountedPositive(log: seq<Event>, i: nat)
    requires i < |log| && log[i].StarterCreated?
    ensures CountStarters(log) >= 1
  {
    if i < |log| - 1 {
      CountedPositive(log[..|log| - 1], i);
    }
  }

  /** The starter is never created twice. */
  lemma OneStarter(spec: Spec, w: World, i: nat, j: nat)
    requires Reachable(spec, w) && i < |w.log| && j < |w.log|
    requires w.log[i].StarterCreated? && w.log[j].StarterCreated?
    ensures i == j
  {
    ReachableInv(spec, w);
    if i < j {
      CountedOnce(w.log, i, j);
    } else if j < i {
      CountedOnce(w.log, j, i);
    }
  }

  lemma {:induction false} CountedInitializers(log: seq<Event>, i: nat, j: nat)
    requires i <= j < |log| && log[i].InitializerCreated? && log[j].InitializerCreated?
    ensures CountInitializers(log) >= if i < j then 2 else 1
  {
    var n := |log| - 1;
    if j < n {
      CountedInitializers(log[..n], i, j);
    } else if i < n {
      CountedInitializers(log[..n], i, i);
    }
  }

  /** The initializer is never created twice, and it is there exactly if it was created. */
  lemma OneInitializer(spec: Spec, w: World, i: nat, j: nat)
    requires Reachable(spec, w) && i < |w.log| && j < |w.log|
    requires w.log[i].InitializerCreated? && w.log[j].InitializerCreated?
    ensures i == j && w.cluster.initializer
  {
    ReachableInv(spec, w);
    CountedInitializers(w.log, if i < j then i else j, if i < j then j else i);
  }

  // An interrupted creation of runners.

  /** Stage initialized, but the first runner job is already there or cannot be built; or the run was stopped. */
  ghost predicate Barred(spec: Spec, w: World) {
    || (w.status.stage == Initialized && (1 in w.cluster.jobs || !RunnerJobOk(spec, w.status)))
    || w.status.stage in {Stopped, Finished}
  }

  /** No runner is added, and runner jobs go only once the run is stopped. */
  ghost predicate NothingAdded(w: World, w': World) {
    && w'.cluster.services == w.cluster.services && w'.cluster.jobs <= w.cluster.jobs
    && w'.cluster.initializer == w.cluster.initializer && w'.cluster.starter == w.cluster.starter
    && (w'.status.stage == Initialized ==> w'.cluster.jobs == w.cluster.jobs)
    && (w.status.stage in {Stopped, Finished} ==> w'.status.stage in {Stopped, Finished})
  }

  lemma UpdateStage(w: World, k6: Status, answer: PatchAnswer)
    ensures var u := UpdateStatus(w, k6, answer);
            && u.w.cluster == w.cluster
            && (u.w.status == w.status || u.w.status.stage == MergeStage(w.status.stage, k6.stage))
  {
    hide IsNewer, MapMerge;
  }

  lemma BarredStep(spec: Spec, w: World, o: Oracle)
    requires Barred(spec, w)
    ensures Barred(spec, Reconcile(spec, w, o)) && NothingAdded(w, Reconcile(spec, w, o))
  {
    hide UpdateStatus, HasCloudOut, RunnerJobOk;
    var now, k6 := w.(clock := Time2(w, o)), w.status;
    var (w1, created) := CreateStopper(now, o.listed, o.job);
    UpdateStage(w1, StopProposal(k6, Time1(w, o)), o.patch1);
    if w.status.stage == Stopped {
      StoppedStage(now, k6, o, Time1(w, o), Time2(w, o));
    }
  }

  lemma StoppedStage(w: World, k6: Status, o: Oracle, now1: int, now2: int)
    requires w.status == k6 && k6.stage == Stopped
    ensures var w' := OnStopped(w, k6, o, now1, now2);
            && w'.status.stage in {Stopped, Finished}
            && w'.cluster == w.cluster.(jobs := w'.cluster.jobs) && w'.cluster.jobs <= w.cluster.jobs
  {
    hide UpdateStatus, StoppedJobs, Finalize;
    var u := KillAborted(w, k6, o, now1);
    UpdateStage(KillJobs(Logged(w, [RunnersStopped]), o), Set(k6, CloudTestRunAborted, ConditionTrue, now1), o.patch1);
    assert u.w.status.stage == Stopped;
    FinalizeStage(u.w, u.k6, o, now2);
    FinalizeStage(w, k6, o, now2);
  }

  lemma FinalizeStage(w: World, k6: Status, o: Oracle, now: int)
    requires w.status.stage == Stopped
    ensures Finalize(w, k6, o, now).status.stage in {Stopped, Finished}
    ensures Finalize(w, k6, o, now).cluster == w.cluster
  {
    hide UpdateStatus;
    var p := Set(k6, CloudTestRunFinalized, ConditionTrue, now).(stage := Finished);
    UpdateStage(Logged(w, [FinishAccepted(k6.testRunID)]), p, o.patch2);
    UpdateStage(w, k6.(stage := Finished), o.patch2);
  }

  /** What may come after a world. */
  ghost predicate Continues(spec: Spec, w: World, run: seq<World>) {
    run != [] && run[0] == w && forall i | 0 <= i < |run| - 1 :: Next(spec, run[i], run[i + 1])
  }

  lemma {:induction false} BarredStays(spec: Spec, w: World, run: seq<World>, j: nat)
    requires Barred(spec, w) && Continues(spec, w, run) && j < |run|
    ensures Barred(spec, run[j]) && NothingAdded(w, run[j])
  {
    hide Reconcile, Honest, RunnerJobOk;
    if j == 0 {
    } else {
      BarredStays(spec, w, run, j - 1);
      assert Next(spec, run[j - 1], run[j - 1 + 1]);
      if run[j] != run[j - 1].(present := false) {
        var o :| Honest(run[j - 1], o) && run[j] == Reconcile(spec, run[j - 1], o);
        BarredStep(spec, run[j - 1], o);
      }
    }
  }

  /**
   * A creation of runners that was interrupted is never resumed and never repeated: whatever comes after it,
   * no job and no service is added, and the run can only be stopped.
   */
  lemma InterruptedStays(spec: Spec, w: World, run: seq<World>, j: nat)
    requires w.status.stage == Initialized && 1 in w.cluster.jobs && Continues(spec, w, run) && j < |run|
    ensures run[j].status.stage in {Initialized, Stopped, Finished} && NothingAdded(w, run[j])
  {
    hide RunnerJobOk, Next;
    BarredStays(spec, w, run, j);
  }

  const QUIET := Oracle(
    true, true, 0, 0, false, false, Patched, Patched, Create(Done), Done, NotReady, NotReady, CreateError, true,
    true, NoFault, true, [], true, true, [], {}, {}, true, true, 0, true, [], [], {}, Done, true)

  function Indices(k: nat): seq<int> {
    if k == 0 then [] else Indices(k - 1) + [k]
  }

  lemma {:induction false} IndicesList(k: nat)
    ensures multiset(Indices(k)) == multiset(UpTo(k))
  {
    if k == 0 {
    } else {
      IndicesList(k - 1);
      UpToStep(k);
      MultisetInsert(UpTo(k - 1), k);
      hide UpTo;
      assert multiset(Indices(k - 1) + [k]) == multiset(Indices(k - 1)) + multiset{k};
    }
  }

  lemma UpToStep(k: nat)
    requires k >= 1
    ensures k !in UpTo(k - 1) && UpTo(k) == UpTo(k - 1) + {k}
  {
  }

  lemma MultisetInsert(below: set<int>, k: int)
    requires k !in below
    ensures multiset(below + {k}) == multiset(below) + multiset{k}
  {
  }

  /** Answers under which nothing goes wrong. */
  lemma FairOracle(spec: Spec, w: World) returns (o: Oracle)
    requires Reachable(spec, w) && w.status.stage !in {Stopped, Finished}
    ensures Honest(w, o)
    ensures o == QUIET.(listed := o.listed, listedJobs := o.listedJobs)
  {
    var jobs, services := RunnersFormPrefix(spec, w);
    IndicesList(jobs);
    IndicesList(services);
    o := QUIET.(listed := Indices(services), listedJobs := Indices(jobs));
  }

  /**
   * From stage initialized, some continuation gets to stage created exactly if the first runner job is not
   * there yet and the runner jobs can be built.
   */
  lemma CanLaunchExactly(spec: Spec, w: World)
    requires Reachable(spec, w) && w.present && w.status.stage == Initialized && spec.parallelism >= 1
    ensures (exists run: seq<World> :: Continues(spec, w, run) && run[|run| - 1].status.stage == Created)
            <==> 1 !in w.cluster.jobs && RunnerJobOk(spec, w.status)
  {
    hide Reachable, Reconcile, RunnerJobOk, Honest;
    if 1 !in w.cluster.jobs && RunnerJobOk(spec, w.status) {
      var o := FairOracle(spec, w);
      LaunchesNow(spec, w, o);
      var run := [w, Reconcile(spec, w, o)];
      assert Next(spec, run[0], run[0 + 1]);
      assert Continues(spec, w, run);
    } else {
      forall run: seq<World> | Continues(spec, w, run) ensures run[|run| - 1].status.stage != Created {
        BarredStays(spec, w, run, |run| - 1);
      }
    }
  }

  lemma LaunchesNow(spec: Spec, w: World, o: Oracle)
    requires Reachable(spec, w) && w.present && w.status.stage == Initialized && spec.parallelism >= 1
    requires 1 !in w.cluster.jobs && RunnerJobOk(spec, w.status)
    requires o == QUIET.(listed := o.listed, listedJobs := o.listedJobs)
    ensures Reconcile(spec, w, o).status.stage == Created
  {
    hide HistoryOk, StatusOk, LogOk, ClusterOk, RunnerJobOk, Launched;
    ReachableInv(spec, w);
    StatusOfInv(spec, w);
    var now, k6 := w.(clock := Time2(w, o)), w.status;
    LaunchedStatus(now, spec.parallelism, spec.parallelism);
    NotAfterLater(k6, w.clock, now.clock);
    CreatedSound(spec, k6, now.clock);
    assert IsNewer(k6, k6.(stage := Created));
    assert Reconcile(spec, w, o) == CreateJobs(spec, now, k6, o);
  }

  // Runner jobs of a cloud run can always be built.

  /** The stored aggregation variables of a run that the cloud created never stop a runner job from being built. */
  lemma RunnerJobsBuild(spec: Spec, w: World)
    requires Reachable(spec, w) && w.status.stage == Initialized
    requires forall id, config | CloudRunCreated(id, Some(config)) in w.log :: Aggregation.Separable(config)
    ensures RunnerJobOk(spec, w.status) <==> spec.scriptParses
  {
    hide HasCloudOut;
    ReachableInv(spec, w);
    StatusOfInv(spec, w);
    if !IsPLZ(spec) && w.status.testRunID != "" {
      var config :| CloudRunCreated(w.status.testRunID, Some(config)) in w.log
                    && w.status.aggregationVars == Aggregation.Encode(config);
      Aggregation.DecodeOfEncode(config);
    }
  }

  // When all runners are finished.

  lemma {:induction false} InactiveCount(jobs: seq<JobState>)
    ensures CountInactive(jobs) <= |jobs|
    ensures CountInactive(jobs) == |jobs| <==> forall j | j in jobs :: j.active == 0
  {
    if jobs == [] {
    } else {
      var n := |jobs| - 1;
      InactiveCount(jobs[..n]);
      assert jobs == jobs[..n] + [jobs[n]];
      assert jobs[n] in jobs;
    }
  }

  /** With one job per runner listed, the run is finished exactly when none of them is active. */
  lemma FinishedExactly(spec: Spec, o: Oracle)
    requires o.jobsListed && |o.jobStates| == spec.parallelism
    ensures FinishJobs(spec, o) <==> forall j | j in o.jobStates :: j.active == 0
  {
    InactiveCount(o.jobStates);
  }

  // Where the code does less than its comments say.

  lemma FinalizeReaches(spec: Spec, w: World, o: Oracle, now: int)
    requires w.present && w.status.stage == Stopped && StatusOk(spec, w.status) && NotAfter(w.status, now - 1)
    ensures Finalize(w, w.status, o, now).status.stage == Finished
            <==> && o.patch2 in {Patched, PatchLost}
                 && (IsTrue(w.status.conditions, CloudTestRun) ==>
                       && now - LastUpdate(w.status.conditions, TestRunRunning, now) >= 5 * SECOND
                       && o.finish == Done)
  {
    hide StatusOk, Sound, Merge, MapUpdate, MapNewer, IsTrue, IsFalse;
    var k6 := w.status;
    var p := if IsTrue(k6.conditions, CloudTestRun)
             then Set(k6, CloudTestRunFinalized, ConditionTrue, now).(stage := Finished)
             else k6.(stage := Finished);
    FinishMerged(spec, k6, p, now);
    StoppedCloud(spec, k6);
    assert IsNewer(k6, p);
  }

  /**
   * An aborted PLZ run does not wait for its runners: with runners still running, a reconcile in stage
   * stopped stores stage finished exactly when the cloud accepts the end of the run, if it has to be told,
   * and the status can be stored.
   */
  lemma AbortDoesNotWait(spec: Spec, w: World, o: Oracle)
    requires Reachable(spec, w) && w.present && w.status.stage == Stopped
    requires IsPLZ(spec) && spec.parallelism >= 1 && IsTrue(w.status.conditions, CloudTestRunAborted)
    requires o.found && o.token && !StoppedJobs(w, o)
    ensures Reconcile(spec, w, o).status.stage == Finished
            <==> && o.patch2 in {Patched, PatchLost}
                 && (IsTrue(w.status.conditions, CloudTestRun) ==>
                       && Time2(w, o) - LastUpdate(w.status.conditions, TestRunRunning, Time2(w, o)) >= 5 * SECOND
                       && o.finish == Done)
  {
    hide StatusOk, Finalize, UpdateStatus, HistoryOk, LogOk, ClusterOk;
    ReachableInv(spec, w);
    StatusOfInv(spec, w);
    var now := w.(clock := Time2(w, o));
    NotAfterLater(w.status, w.clock, Time2(w, o) - 1);
    assert !StoppedJobs(now, o);
    assert Reconcile(spec, w, o) == Finalize(now, w.status, o, Time2(w, o));
    FinalizeReaches(spec, now, o, Time2(w, o));
  }

  // When a reconcile panics, and when a cloud test run gets lost.

  function NewEvents(w: World, w': World): seq<Event> {
    if |w.log| <= |w'.log| then w'.log[|w.log|..] else []
  }

  ghost predicate Panics(spec: Spec, w: World, o: Oracle) {
    Panicked in NewEvents(w, Reconcile(spec, w, o))
  }

  /** In stage initialization, the script was inspected well, and the arguments ask for cloud output. */
  ghost predicate Validates(spec: Spec, w: World, o: Oracle) {
    && w.present && o.found && spec.parallelism >= 1 && w.status.stage == Initialization && HasCloudOut(spec)
    && o.inspect1.Inspected? && Int32(o.inspect1.maxVUs) >= spec.parallelism
  }

  /**
   * The reconcile that first finds out about the cloud output has made no client. If it cannot store that
   * finding, and the run was initialized more than five minutes ago, it sends an event to the cloud.
   */
  ghost predicate SendsWithoutClient(w: World, o: Oracle) {
    && !IsCloudTestRun(w.status) && o.patch1 !in {Patched, Gone}
    && Time2(w, o) - LastUpdate(w.status.conditions, TestRunRunning, Time2(w, o)) > 300 * SECOND
  }

  /** It goes on to create a cloud test run, five seconds or more after it was found that there is none. */
  ghost predicate ReachesCreation(w: World, o: Oracle) {
    && o.inspect2.Inspected?
    && (if IsCloudTestRun(w.status) then
          && o.token && IsFalse(w.status.conditions, CloudTestRunCreated) && o.patch1 != GetFailed
          && Time2(w, o) - w.status.conditions[CloudTestRunCreated].since >= 5 * SECOND
        else o.patch1 in {Patched, Gone} && Time2(w, o) - Time1(w, o) >= 5 * SECOND)
  }

  /** Creation without a client, with a null among the thresholds, or with a reply that has no configuration. */
  ghost predicate CreatesBadly(w: World, o: Oracle) {
    && ReachesCreation(w, o)
    && (!IsCloudTestRun(w.status) || o.inspect2.nullThreshold
        || (o.reply.Reply? && o.reply.id != "" && o.reply.config.None?))
  }

  predicate Quiet(e: Event) {
    !e.Panicked? && !e.CloudRunCreated?
  }

  /** The log grew by events that are neither panics nor creations in the cloud. */
  ghost predicate Calm(w: World, w': World) {
    w.log <= w'.log && forall e | e in w'.log[|w.log|..] :: Quiet(e)
  }

  lemma CalmWith(w: World, w': World, more: seq<Event>)
    requires w'.log == w.log + more && forall e | e in more :: Quiet(e)
    ensures Calm(w, w')
  {
    assert w'.log[|w.log|..] == more;
  }

  lemma CalmThen(a: World, b: World, c: World)
    requires Calm(a, b) && Calm(b, c)
    ensures Calm(a, c)
  {
    assert c.log[|a.log|..] == b.log[|a.log|..] + c.log[|b.log|..];
  }

  lemma SameLogCalm(w: World, w': World)
    requires w'.log == w.log
    ensures Calm(w, w')
  {
    CalmWith(w, w', []);
  }

  lemma UpdateLog(w: World, k6: Status, answer: PatchAnswer)
    ensures UpdateStatus(w, k6, answer).w.log == w.log
  {
    hide IsNewer, Merge;
  }

  lemma UpdateCalm(w: World, w1: World, k6: Status, answer: PatchAnswer)
    requires Calm(w, w1)
    ensures Calm(w, UpdateStatus(w1, k6, answer).w)
  {
    UpdateLog(w1, k6, answer);
    hide UpdateStatus;
    SameLogCalm(w1, UpdateStatus(w1, k6, answer).w);
    CalmThen(w, w1, UpdateStatus(w1, k6, answer).w);
  }

  lemma StopCalm(w: World, k6: Status, o: Oracle, now: int)
    ensures Calm(w, StopJobs(w, k6, o, now))
  {
    hide UpdateStatus, MapUpdate, Calm;
    var (w1, created) := CreateStopper(w, o.listed, o.job);
    SameLogCalm(w, w);
    CalmWith(w, Logged(w, [StopperCreated(o.listed)]), [StopperCreated(o.listed)]);
    SameLogCalm(Logged(w, [StopperCreated(o.listed)]), w1.(log := w.log + [StopperCreated(o.listed)]));
    assert Calm(w, w1) by {
      CalmWith(w, w1, if w1.log == w.log then [] else [StopperCreated(o.listed)]);
    }
    UpdateCalm(w, w1, StopProposal(k6, now), o.patch1);
  }

  lemma EmptyCalm(spec: Spec, w: World, k6: Status, o: Oracle, now: int)
    ensures Calm(w, OnEmpty(spec, w, k6, o, now))
  {
    hide UpdateStatus, HasCloudOut, ArgumentsValid, Initialize, Calm;
    SameLogCalm(w, w);
    UpdateCalm(w, w, k6.(stage := ErrorStage), o.patch1);
    UpdateCalm(w, w, Initialize(spec, k6, now), o.patch1);
    var u := UpdateStatus(w, Initialize(spec, k6, now), o.patch1);
    UpdateCalm(w, u.w, u.k6.(stage := Initialized), o.patch2);
    UpdateCalm(w, u.w, u.k6.(stage := Initialization), o.patch2);
    var v := UpdateStatus(u.w, u.k6.(stage := Initialization), o.patch2);
    var w1 := InitializeJobs(spec, v.w, o);
    CalmWith(v.w, w1, if w1.log == v.w.log then [] else [InitializerCreated]);
    CalmThen(w, v.w, w1);
  }

  lemma LaunchedCalm(w: World, jobs: nat, services: nat)
    requires services <= jobs <= services + 1
    ensures Calm(w, Launched(w, jobs, services))
  {
    LaunchesAreLaunches(services);
    CalmWith(w, Launched(w, jobs, services), Launching(jobs, services));
  }

  lemma CreateCalm(spec: Spec, w: World, k6: Status, o: Oracle)
    requires spec.parallelism >= 1
    ensures Calm(w, CreateJobs(spec, w, k6, o))
  {
    hide UpdateStatus, RunnerJobOk, Launched, Calm;
    SameLogCalm(w, w);
    var p := spec.parallelism;
    LaunchedCalm(w, p, p);
    if o.fault.JobFault? && 1 <= o.fault.at <= p {
      LaunchedCalm(w, if o.fault.lost then o.fault.at else o.fault.at - 1, o.fault.at - 1);
    }
    if o.fault.ServiceFault? && 1 <= o.fault.at <= p {
      LaunchedCalm(w, o.fault.at, if o.fault.lost then o.fault.at else o.fault.at - 1);
    }
    UpdateCalm(w, Launched(w, p, p), k6.(stage := Created), o.patch1);
  }

  lemma SetupCalm(w: World, hosts: seq<int>, o: Oracle)
    requires hosts != []
    ensures Calm(w, RunSetup(w, hosts, o).0)
  {
    hide Calm;
    SameLogCalm(w, w);
    DeliveriesCalm(w, hosts[0], hosts);
    if o.delivered < |hosts| {
      DeliveriesCalm(w, hosts[0], hosts[..o.delivered]);
    }
  }

  lemma StartCalm(spec: Spec, w: World, k6: Status, o: Oracle, now: int)
    requires o.listed != []
    ensures Calm(w, StartJobs(spec, w, k6, o, now))
  {
    hide UpdateStatus, MapUpdate, RunSetup, CountTrue, Calm;
    SameLogCalm(w, w);
    SetupCalm(w, o.listed, o);
    var (w1, ok) := if IsTrue(k6.conditions, CloudPLZTestRun) then RunSetup(w, o.listed, o) else (w, true);
    var (w2, created) := CreateStarter(w1, o.listed, o.job);
    CalmWith(w1, w2, if w2.log == w1.log then [] else [StarterCreated(o.listed)]);
    CalmThen(w, w1, w2);
    UpdateCalm(w, w2, Set(k6.(stage := Started), TestRunRunning, ConditionTrue, now), o.patch1);
  }

  lemma DeliveriesCalm(w: World, host: int, hosts: seq<int>)
    ensures Calm(w, Logged(w, [SetupInvoked(host)] + Deliveries(hosts)))
  {
    CalmWith(w, Logged(w, [SetupInvoked(host)] + Deliveries(hosts)), [SetupInvoked(host)] + Deliveries(hosts));
  }

  lemma TeardownCalm(w: World, k6: Status, o: Oracle, now: int)
    ensures Calm(w, WaitForTeardown(w, k6, o, now))
  {
    hide UpdateStatus, MapUpdate, StoppedJobs, Calm, ReadyHosts;
    var hosts := ReadyHosts(o.listed, o.ready);
    SameLogCalm(w, w);
    var w1 := Logged(w, [RunnersStopped]);
    CalmWith(w, w1, [RunnersStopped]);
    var w2 := RunTeardown(w1, hosts, o);
    CalmWith(w1, w2, [TeardownInvoked(hosts)] + if hosts != [] && o.teardownRuns then [TeardownRan(hosts[0])] else []);
    CalmThen(w, w1, w2);
    UpdateCalm(w, w2, Set(k6, TeardownExecuted, ConditionTrue, now), o.patch1);
  }

  lemma StartedCalm(spec: Spec, w: World, k6: Status, o: Oracle, now: int)
    ensures Calm(w, OnStarted(spec, w, k6, o, now))
  {
    hide UpdateStatus, MapUpdate, StopJobs, FinishJobs, WaitForTeardown, Calm;
    SameLogCalm(w, w);
    StopCalm(w, k6, o, now);
    TeardownCalm(w, k6, o, now);
    UpdateCalm(w, w, Set(k6, TestRunRunning, ConditionFalse, now).(stage := Stopped), o.patch1);
  }

  lemma FinalizeCalm(w: World, k6: Status, o: Oracle, now: int)
    ensures Calm(w, Finalize(w, k6, o, now))
  {
    hide UpdateStatus, MapUpdate, Calm;
    SameLogCalm(w, w);
    UpdateCalm(w, w, k6.(stage := Finished), o.patch2);
    var w1 := Logged(w, [FinishAccepted(k6.testRunID)]);
    CalmWith(w, w1, [FinishAccepted(k6.testRunID)]);
    UpdateCalm(w, w1, Set(k6, CloudTestRunFinalized, ConditionTrue, now).(stage := Finished), o.patch2);
  }

  lemma StoppedCalm(w: World, k6: Status, o: Oracle, now1: int, now2: int)
    ensures Calm(w, OnStopped(w, k6, o, now1, now2))
  {
    hide UpdateStatus, MapUpdate, Finalize, StoppedJobs, Calm;
    SameLogCalm(w, w);
    var w1 := Logged(w, [RunnersStopped]);
    CalmWith(w, w1, [RunnersStopped]);
    CalmWith(w1, KillJobs(w1, o), [JobsDeleted(w1.cluster.jobs * o.killed)]);
    CalmThen(w, w1, KillJobs(w1, o));
    UpdateCalm(w, KillJobs(w1, o), Set(k6, CloudTestRunAborted, ConditionTrue, now1), o.patch1);
    var u := KillAborted(w, k6, o, now1);
    FinalizeCalm(u.w, u.k6, o, now2);
    CalmThen(w, u.w, Finalize(u.w, u.k6, o, now2));
    FinalizeCalm(w, k6, o, now2);
  }

  /** What RunValidations finds out and what becomes of it. */
  lemma ClassifiedUpdate(spec: Spec, w: World, k6: Status, answer: PatchAnswer, now: int)
    requires k6 == w.status && StatusOk(spec, k6) && NotAfter(k6, now - 1) && w.present
    requires k6.stage == Initialization
    ensures var p := Classified(spec, k6, now);
            var u := UpdateStatus(w, p, answer);
            && u.k6 == p
            && (IsTrue(p.conditions, CloudTestRun) <==> HasCloudOut(spec))
            && IsCloudTestRun(p) == (IsCloudTestRun(k6) || HasCloudOut(spec))
            && TestRunRunning in k6.conditions && TestRunRunning in p.conditions
            && p.conditions[TestRunRunning] == k6.conditions[TestRunRunning]
            && (!IsCloudTestRun(k6) && HasCloudOut(spec) ==>
                  && (u.failed <==> answer !in {Patched, Gone})
                  && p.conditions.Keys >= {CloudTestRunCreated}
                  && p.conditions[CloudTestRunCreated] == Cond(ConditionFalse, now))
  {
    hide HasCloudOut;
    var p := Classified(spec, k6, now);
    ClassifiedMerged(spec, k6, now);
    if !IsCloudTestRun(k6) && HasCloudOut(spec) {
      assert CloudTestRunCreated in p.conditions && CloudTestRunCreated !in k6.conditions;
    }
  }

  /** A cloud run that is known as such and was not created yet is classified as it is. */
  lemma ClassifiedAgain(spec: Spec, w: World, k6: Status, answer: PatchAnswer, now: int)
    requires k6 == w.status && StatusOk(spec, k6) && NotAfter(k6, now - 1) && w.present
    requires k6.stage == Initialization && IsCloudTestRun(k6) && HasCloudOut(spec)
    ensures IsFalse(k6.conditions, CloudTestRunCreated) ==>
              && Classified(spec, k6, now) == k6
              && (UpdateStatus(w, Classified(spec, k6, now), answer).failed <==> answer == GetFailed)
    ensures !IsFalse(k6.conditions, CloudTestRunCreated) ==>
              !IsFalse(Classified(spec, k6, now).conditions, CloudTestRunCreated)
    ensures IsFalse(k6.conditions, CloudTestRunCreated) ==> RunID(spec, k6) == ""
  {
    hide HasCloudOut;
    if IsFalse(k6.conditions, CloudTestRunCreated) {
      assert Classified(spec, k6, now) == k6;
      ClassifiedMerged(spec, k6, now);
    }
  }

  /** In stage initialization: the last event says what happened in the end. */
  ghost predicate EndsWith(w: World, w': World, panics: bool, created: Option<Event>) {
    match created
    case None => if panics then w'.log == w.log + [Panicked] else Calm(w, w')
    case Some(e) => w'.log == w.log + [e] + if panics then [Panicked] else []
  }

  lemma SetupEnds(spec: Spec, w: World, k6: Status, client: bool, o: Oracle, now: int)
    requires o.inspect2.Inspected? ==> spec.scriptParses
    requires CloudTestRunCreated in k6.conditions
    ensures var w' := SetupCloudTest(spec, w, k6, client, o, now);
            var reached := o.inspect2.Inspected? && now - k6.conditions[CloudTestRunCreated].since >= 5 * SECOND;
            var fails := reached && (o.inspect2.nullThreshold || !client);
            var replied := reached && !fails && o.reply.Reply? && o.reply.id != "";
            EndsWith(w, w', fails || (replied && o.reply.config.None?),
                     if replied then Some(CloudRunCreated(o.reply.id, o.reply.config)) else None)
  {
    hide UpdateStatus, MapUpdate;
    SameLogCalm(w, w);
    if o.reply.Reply? {
      var w1 := Logged(w, [CloudRunCreated(o.reply.id, o.reply.config)]);
      if o.reply.config.Some? {
        var vars := Aggregation.Encode(o.reply.config.value);
        UpdateLog(w1, Set(k6.(testRunID := o.reply.id, aggregationVars := vars), CloudTestRunCreated, ConditionTrue, now),
                  o.patch2);
      }
      assert w1.log + [] == w1.log;
    }
  }

  /** The creation that this reconcile causes in the cloud, if any. */
  ghost function Creation(spec: Spec, w: World, o: Oracle): Option<Event> {
    if Validates(spec, w, o) && ReachesCreation(w, o) && IsCloudTestRun(w.status) && !o.inspect2.nullThreshold
       && o.reply.Reply? && o.reply.id != ""
    then Some(CloudRunCreated(o.reply.id, o.reply.config)) else None
  }

  lemma NotReadyEnds(spec: Spec, w: World, k6: Status, o: Oracle, now1: int, now2: int)
    requires k6 == w.status && StatusOk(spec, k6) && NotAfter(k6, now1 - 1) && w.present && spec.parallelism >= 1
    requires k6.stage == Initialization
    requires !o.inspect1.Inspected? || Int32(o.inspect1.maxVUs) < spec.parallelism
    ensures Calm(w, OnInitialization(spec, w, k6, o, now1, now2))
  {
    hide UpdateStatus, HasCloudOut, Int32, StatusOk;
    var p := k6.(stage := ErrorStage);
    UpdateLog(w, p, o.patch1);
    SameLogCalm(w, w);
    SameLogCalm(w, UpdateStatus(w, p, o.patch1).w);
    ErrorKeepsKind(w, k6, o.patch1);
  }

  lemma ErrorKeepsKind(w: World, k6: Status, answer: PatchAnswer)
    requires k6 == w.status
    ensures UpdateStatus(w, k6.(stage := ErrorStage), answer).k6.conditions == k6.conditions
  {
    StageMerged(k6, ErrorStage);
    hide Merge;
  }

  lemma WithoutCloudEnds(spec: Spec, w: World, k6: Status, o: Oracle, now1: int, now2: int)
    requires k6 == w.status && StatusOk(spec, k6) && NotAfter(k6, now1 - 1) && w.present && spec.parallelism >= 1
    requires k6.stage == Initialization && !HasCloudOut(spec)
    requires o.inspect1.Inspected? && Int32(o.inspect1.maxVUs) >= spec.parallelism
    ensures Calm(w, OnInitialization(spec, w, k6, o, now1, now2))
  {
    var p := Classified(spec, k6, now1);
    ClassifiedUpdate(spec, w, k6, o.patch1, now1);
    UpdateLog(w, p, o.patch1);
    hide UpdateStatus, HasCloudOut, Int32, StatusOk, Classified;
    var u := UpdateStatus(w, p, o.patch1);
    SameLogCalm(w, u.w);
    UpdateCalm(w, u.w, u.k6.(stage := Initialized), o.patch2);
  }

  /** Stage initialization of a run with cloud output, up to what comes after RunValidations. */
  lemma ValidatedEnds(spec: Spec, w: World, k6: Status, o: Oracle, now1: int, now2: int)
    requires k6 == w.status && StatusOk(spec, k6) && NotAfter(k6, now1 - 1) && w.present && spec.parallelism >= 1
    requires k6.stage == Initialization && HasCloudOut(spec)
    requires o.inspect1.Inspected? && Int32(o.inspect1.maxVUs) >= spec.parallelism
    ensures var p := Classified(spec, k6, now1);
            var u := UpdateStatus(w, p, o.patch1);
            var w' := OnInitialization(spec, w, k6, o, now1, now2);
            && u.w.log == w.log
            && (if u.failed then
                  if !IsCloudTestRun(k6) && now2 - LastUpdate(k6.conditions, TestRunRunning, now2) > 300 * SECOND
                  then w'.log == w.log + [Panicked] else w'.log == w.log
                else if IsFalse(p.conditions, CloudTestRunCreated) then
                  w' == SetupCloudTest(spec, u.w, p, IsCloudTestRun(k6), o, now2)
                else w'.log == w.log)
  {
    var p := Classified(spec, k6, now1);
    ClassifiedUpdate(spec, w, k6, o.patch1, now1);
    UpdateLog(w, p, o.patch1);
    hide UpdateStatus, HasCloudOut, Int32, StatusOk, Classified, SetupCloudTest, NotAfter, Merge;
    var u := UpdateStatus(w, p, o.patch1);
    UpdateLog(u.w, u.k6.(stage := Initialized), o.patch2);
    assert w.log + [] == w.log;
  }

  lemma InitializationEnds(spec: Spec, w: World, o: Oracle)
    requires StatusOk(spec, w.status) && NotAfter(w.status, w.clock)
    requires o.inspect2.Inspected? ==> spec.scriptParses
    requires w.present && o.found && spec.parallelism >= 1 && w.status.stage == Initialization
    requires IsCloudTestRun(w.status) ==> o.token
    ensures var now := w.(clock := Time2(w, o));
            var w' := OnInitialization(spec, now, w.status, o, Time1(w, o), Time2(w, o));
            EndsWith(w, w', Validates(spec, w, o) && (SendsWithoutClient(w, o) || CreatesBadly(w, o)),
                     Creation(spec, w, o))
  {
    hide StatusOk, HasCloudOut, Int32, OnInitialization, UpdateStatus, Classified, SetupCloudTest;
    var t1, t2, now, k6 := Time1(w, o), Time2(w, o), w.(clock := Time2(w, o)), w.status;
    NotAfterLater(k6, w.clock, t1 - 1);
    var w' := OnInitialization(spec, now, k6, o, t1, t2);
    if !o.inspect1.Inspected? || Int32(o.inspect1.maxVUs) < spec.parallelism {
      NotReadyEnds(spec, now, k6, o, t1, t2);
    } else if !HasCloudOut(spec) {
      WithoutCloudEnds(spec, now, k6, o, t1, t2);
    } else {
      ValidatedEnds(spec, now, k6, o, t1, t2);
      ClassifiedUpdate(spec, now, k6, o.patch1, t1);
      var p := Classified(spec, k6, t1);
      var u := UpdateStatus(now, p, o.patch1);
      assert now.log + [] == now.log;
      hide EndsWith;
      if IsCloudTestRun(k6) {
        ClassifiedAgain(spec, now, k6, o.patch1, t1);
      }
      if w'.log == w.log {
        EndsSame(w, w');
      }
      assert Validates(spec, w, o);
      if u.failed {
        assert Creation(spec, w, o).None? && !CreatesBadly(w, o);
        if SendsWithoutClient(w, o) {
          EndsPanicking(w, w');
        }
      } else if IsFalse(p.conditions, CloudTestRunCreated) {
        SetupEnds(spec, u.w, p, IsCloudTestRun(k6), o, t2);
        assert p.conditions[CloudTestRunCreated].since
               == if IsCloudTestRun(k6) then k6.conditions[CloudTestRunCreated].since else t1;
        EndsSince(w, u.w, w');
      }
    }
  }

  lemma EndsSame(w: World, w': World)
    requires w'.log == w.log
    ensures EndsWith(w, w', false, None)
  {
    SameLogCalm(w, w');
  }

  lemma EndsPanicking(w: World, w': World)
    requires w'.log == w.log + [Panicked]
    ensures EndsWith(w, w', true, None)
  {
  }

  lemma EndsSince(w: World, w1: World, w': World)
    requires w1.log == w.log
    ensures forall panics, created :: EndsWith(w1, w', panics, created) ==> EndsWith(w, w', panics, created)
  {
  }

  lemma OtherStagesCalm(spec: Spec, w: World, k6: Status, o: Oracle, now1: int, now2: int)
    requires spec.parallelism >= 1 && k6.stage != Initialization
    requires k6.stage == Created ==> o.listed != []
    ensures Calm(w, OnStage(spec, w, k6, o, now1, now2))
  {
    hide OnEmpty, OnInitialization, CreateJobs, StartJobs, OnStarted, OnStopped, Calm;
    match k6.stage {
      case EmptyStage => EmptyCalm(spec, w, k6, o, now1);
      case Initialization =>
      case Initialized => CreateCalm(spec, w, k6, o);
      case Created => StartCalm(spec, w, k6, o, now1);
      case Started => StartedCalm(spec, w, k6, o, now1);
      case Stopped => StoppedCalm(w, k6, o, now1, now2);
      case ErrorStage => SameLogCalm(w, OnStage(spec, w, k6, o, now1, now2));
      case Finished => SameLogCalm(w, OnStage(spec, w, k6, o, now1, now2));
    }
  }

  /** How any reconcile of a reachable world ends. */
  lemma ReconcileEnds(spec: Spec, w: World, o: Oracle)
    requires Reachable(spec, w) && Honest(w, o)
    ensures EndsWith(w, Reconcile(spec, w, o),
                     Validates(spec, w, o) && (SendsWithoutClient(w, o) || CreatesBadly(w, o)),
                     Creation(spec, w, o))
  {
    hide HasCloudOut, OnStage, OnInitialization, StopJobs, HistoryOk, LogOk, StatusOk, Int32, Calm;
    ReachableInv(spec, w);
    StatusOfInv(spec, w);
    var t1, t2, now, k6 := Time1(w, o), Time2(w, o), w.(clock := Time2(w, o)), w.status;
    if !w.present || !o.found || spec.parallelism < 1 || (IsCloudTestRun(k6) && !o.token) {
      SameLogCalm(w, now);
      NoCreation(spec, w, o);
    } else if WantsAbort(spec, k6, o) {
      StopCalm(now, k6, o, t1);
      CalmSince(w, now, StopJobs(now, k6, o, t1));
      if k6.stage == Initialization && HasCloudOut(spec) {
        NotAfterLater(k6, w.clock, t1 - 1);
        ClassifiedAgain(spec, now, k6, o.patch1, t1);
      }
    } else if k6.stage == Initialization {
      InitializationEnds(spec, w, o);
      StageIsInitialization(spec, now, k6, o, t1, t2);
    } else {
      if k6.stage == Created {
        SomeService(spec, w, o);
      }
      OtherStagesCalm(spec, now, k6, o, t1, t2);
      CalmSince(w, now, OnStage(spec, now, k6, o, t1, t2));
    }
  }

  lemma NoCreation(spec: Spec, w: World, o: Oracle)
    requires !w.present || !o.found || spec.parallelism < 1 || (IsCloudTestRun(w.status) && !o.token)
    ensures Creation(spec, w, o).None?
    ensures !(Validates(spec, w, o) && (SendsWithoutClient(w, o) || CreatesBadly(w, o)))
  {
    hide HasCloudOut, Int32;
  }

  lemma CalmSince(w: World, now: World, w': World)
    requires now.log == w.log && Calm(now, w')
    ensures Calm(w, w')
  {
  }

  /**
   * In every reachable state, a reconcile panics in exactly these cases: it sends an event or creates a cloud
   * test run without a client, or it creates one from bad data or with a reply that is not complete.
   */
  lemma PanicsExactly(spec: Spec, w: World, o: Oracle)
    requires Reachable(spec, w) && Honest(w, o)
    ensures Panics(spec, w, o)
            <==> Validates(spec, w, o) && (SendsWithoutClient(w, o) || CreatesBadly(w, o))
  {
    ReconcileEnds(spec, w, o);
    hide Reconcile, Validates, SendsWithoutClient, CreatesBadly, Reachable;
    NewAtEnd(spec, w, o, Reconcile(spec, w, o));
  }

  lemma NewAtEnd(spec: Spec, w: World, o: Oracle, w': World)
    requires EndsWith(w, w', Validates(spec, w, o) && (SendsWithoutClient(w, o) || CreatesBadly(w, o)),
                      Creation(spec, w, o))
    ensures Panicked in NewEvents(w, w')
            <==> Validates(spec, w, o) && (SendsWithoutClient(w, o) || CreatesBadly(w, o))
    ensures forall id, config :: CloudRunCreated(id, config) in NewEvents(w, w')
                                 <==> Creation(spec, w, o) == Some(CloudRunCreated(id, config))
  {
    hide Validates, SendsWithoutClient, CreatesBadly, ReachesCreation;
    var panics := Validates(spec, w, o) && (SendsWithoutClient(w, o) || CreatesBadly(w, o));
    match Creation(spec, w, o) {
      case None =>
        if panics {
          assert NewEvents(w, w') == [Panicked];
        }
      case Some(e) =>
        assert NewEvents(w, w') == [e] + if panics then [Panicked] else [];
    }
  }

  /**
   * A test run that the cloud created is the run of this TestRun exactly if its reply held a configuration and
   * the patch right after it took effect. Otherwise the TestRun still has none.
   */
  lemma CreatedRunKept(spec: Spec, w: World, o: Oracle, id: string, config: Option<Aggregation.RuntimeConfig>)
    requires Reachable(spec, w) && Honest(w, o)
    requires CloudRunCreated(id, config) in NewEvents(w, Reconcile(spec, w, o))
    ensures w.status.testRunID == "" && id != ""
    ensures Reconcile(spec, w, o).status.testRunID
            == if config.Some? && o.patch1 != Gone && o.patch2 in {Patched, PatchLost} then id else ""
  {
    ReconcileEnds(spec, w, o);
    ReachableInv(spec, w);
    StatusOfInv(spec, w);
    assert spec.scriptParses;
    hide Reachable, Honest, Inv, StatusOk, EndsWith, NewEvents, Reconcile, Validates, UpdateStatus, CloudCreated;
    NewAtEnd(spec, w, o, Reconcile(spec, w, o));
    NotAfterLater(w.status, w.clock, Time1(w, o) - 1);
    NotAfterLater(w.status, w.clock, Time2(w, o) - 1);
    UncreatedHasNoID(spec, w.status);
    var now := CreationReached(spec, w, o, id, config);
    if config.Some? {
      CreatedStored(spec, now, w.status, id, config.value, o.patch2, Time2(w, o));
    } else {
      assert CloudCreated(now, w.status, id, None, o.patch2, Time2(w, o)).status == now.status by {
        NotConfigured(now, w.status, id, o.patch2, Time2(w, o));
      }
    }
  }

  lemma NotConfigured(w: World, k6: Status, id: string, answer: PatchAnswer, now: int)
    ensures CloudCreated(w, k6, id, None, answer, now).status == w.status
  {
  }

  /** The world in which a reconcile creates a cloud test run: only the TestRun may be gone by then. */
  lemma CreationReached(spec: Spec, w: World, o: Oracle, id: string, config: Option<Aggregation.RuntimeConfig>)
    returns (now: World)
    requires StatusOk(spec, w.status) && NotAfter(w.status, Time1(w, o) - 1) && spec.scriptParses
    requires Creation(spec, w, o) == Some(CloudRunCreated(id, config))
    ensures Reconcile(spec, w, o) == CloudCreated(now, w.status, id, config, o.patch2, Time2(w, o))
    ensures now.status == w.status && now.present == (o.patch1 != Gone)
    ensures w.status.stage == Initialization && IsFalse(w.status.conditions, CloudTestRunCreated) && id != ""
  {
    hide HasCloudOut, Int32, UpdateStatus, OnInitialization, StatusOk, Classified;
    var t1, t2, k6 := Time1(w, o), Time2(w, o), w.status;
    now := w.(clock := t2);
    ClassifiedAgain(spec, now, k6, o.patch1, t1);
    ValidatedEnds(spec, now, k6, o, t1, t2);
    StageIsInitialization(spec, now, k6, o, t1, t2);
    SelfUpdate(spec, now, k6, o.patch1);
    hide OnStage;
    var u := UpdateStatus(now, k6, o.patch1);
    assert Reconcile(spec, w, o) == SetupCloudTest(spec, u.w, k6, true, o, t2);
    now := u.w;
  }

  lemma UncreatedHasNoID(spec: Spec, s: Status)
    requires StatusOk(spec, s) && IsFalse(s.conditions, CloudTestRunCreated)
    ensures s.testRunID == "" && RunID(spec, s) == "" && !IsPLZ(spec)
  {
    hide HasCloudOut;
  }

  lemma SelfUpdate(spec: Spec, w: World, k6: Status, answer: PatchAnswer)
    requires k6 == w.status && w.present
    ensures var u := UpdateStatus(w, k6, answer);
            u.w == if answer == Gone then w.(present := false) else w
  {
    assert !IsNewer(k6, k6);
  }

  lemma CreatedStored(spec: Spec, w: World, k6: Status, id: string, config: Aggregation.RuntimeConfig,
                      answer: PatchAnswer, now: int)
    requires k6 == w.status && StatusOk(spec, k6) && NotAfter(k6, now - 1) && k6.stage == Initialization
    requires IsFalse(k6.conditions, CloudTestRunCreated) && k6.testRunID == "" && id != ""
    ensures CloudCreated(w, k6, id, Some(config), answer, now).status.testRunID
            == if w.present && answer in {Patched, PatchLost} then id else ""
  {
    CreatedMerged(spec, k6, id, Aggregation.Encode(config), now);
    hide StatusOk, Merge, Sound;
  }

  lemma StageIsInitialization(spec: Spec, w: World, k6: Status, o: Oracle, now1: int, now2: int)
    requires k6.stage == Initialization && spec.parallelism >= 1
    ensures OnStage(spec, w, k6, o, now1, now2) == OnInitialization(spec, w, k6, o, now1, now2)
  {
    hide OnInitialization;
  }

  lemma SomeService(spec: Spec, w: World, o: Oracle)
    requires Inv(spec, w) && w.status.stage == Created && Honest(w, o) && spec.parallelism >= 1
    ensures o.listed != []
  {
    CreatedStage(spec, w);
    assert 1 in multiset(w.cluster.services);
    assert 1 in o.listed;
  }
}
