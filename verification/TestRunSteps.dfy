/** Every part of a reconcile keeps the invariant of TestRunInvariants. */
module TestRunSteps {
  import opened Text
  import opened Conditions
  import opened TestRunStatus
  import opened TestRunModel
  import opened TestRunInvariants
  import Aggregation

  // Appending to the log.

  lemma AppendOne(spec: Spec, log: seq<Event>, e: Event)
    ensures LaunchesOf(log + [e]) == if IsLaunch(e) then LaunchesOf(log) + [e] else LaunchesOf(log)
    ensures CountStarters(log + [e]) == CountStarters(log) + One(e.StarterCreated?)
    ensures CountInitializers(log + [e]) == CountInitializers(log) + One(e.InitializerCreated?)
    ensures EventsJustified(spec, log) && EventJustified(spec, log, e) ==> EventsJustified(spec, log + [e])
  {
    var longer := log + [e];
    assert longer[..|longer| - 1] == log;
    if EventsJustified(spec, log) && EventJustified(spec, log, e) {
      forall j | 0 <= j < |longer| ensures EventJustified(spec, longer[..j], longer[j]) {
        assert longer[..j] == log[..j];
        assert j == |log| ==> log[..j] == log;
      }
    }
  }

  lemma StatusJustifiedLater(spec: Spec, log: seq<Event>, more: seq<Event>, s: Status)
    requires StatusJustified(spec, log, s)
    ensures StatusJustified(spec, log + more, s)
  {
    if IsTrue(s.conditions, TeardownExecuted) {
      var hosts :| TeardownInvoked(hosts) in log;
      assert TeardownInvoked(hosts) in log + more;
    }
    if !IsPLZ(spec) && s.testRunID != "" {
      var config :| CloudRunCreated(s.testRunID, Some(config)) in log
                    && s.aggregationVars == Aggregation.Encode(config);
      assert CloudRunCreated(s.testRunID, Some(config)) in log + more;
    }
  }

  /** Events that no other fact depends on. */
  predicate Neutral(e: Event) {
    !IsLaunch(e) && !e.StarterCreated? && !e.InitializerCreated? && !e.TeardownInvoked?
  }

  lemma {:induction false} AppendNeutral(spec: Spec, c: Cluster, log: seq<Event>, more: seq<Event>, clock: int, s: Status)
    requires WorldOk(spec, c, log, clock, s)
    requires forall e | e in more :: Neutral(e)
    ensures WorldOk(spec, c, log + more, clock, s)
    ensures LaunchesOf(log + more) == LaunchesOf(log)
  {
    hide ClusterOk, EventsJustified, StatusJustified;
    if more == [] {
      assert log + more == log;
    } else {
      var n := |more| - 1;
      AppendNeutral(spec, c, log, more[..n], clock, s);
      var longer := log + more[..n];
      assert log + more == longer + [more[n]];
      assert more[n] in more;
      AppendOne(spec, longer, more[n]);
      StatusJustifiedLater(spec, longer, [more[n]], s);
      AppendCluster(spec, c, longer, more[n], s);
    }
  }

  lemma AppendCluster(spec: Spec, c: Cluster, log: seq<Event>, e: Event, s: Status)
    requires ClusterOk(spec, c, log, s) && !IsLaunch(e)
    ensures ClusterOk(spec, c, log + [e], s)
  {
    AppendOne(spec, log, e);
    var jobs: nat, services: nat :| LaunchedSoFar(spec, c, log, s, jobs, services);
    assert LaunchedSoFar(spec, c, log + [e], s, jobs, services);
  }

  /** The world does not mind which stopper there is. */
  lemma IgnoresStopper(spec: Spec, c: Cluster, log: seq<Event>, clock: int, s: Status, stopper: bool)
    requires WorldOk(spec, c, log, clock, s)
    ensures WorldOk(spec, c.(stopper := stopper), log, clock, s)
  {
    var jobs: nat, services: nat :| LaunchedSoFar(spec, c, log, s, jobs, services);
    assert LaunchedSoFar(spec, c.(stopper := stopper), log, s, jobs, services);
  }

  // Changing the status.

  ghost predicate StageMoves(a: Stage, b: Stage) {
    || a == b
    || b in {Stopped, Finished}
    || (a in {EmptyStage, Initialization} && b in {Initialization, Initialized, ErrorStage})
    || (a == Created && b == Started)
  }

  lemma ClusterCarries(spec: Spec, c: Cluster, log: seq<Event>, s: Status, m: Status)
    requires ClusterOk(spec, c, log, s) && StageMoves(s.stage, m.stage)
    ensures ClusterOk(spec, c, log, m)
  {
    var jobs: nat, services: nat :| LaunchedSoFar(spec, c, log, s, jobs, services);
    assert LaunchedSoFar(spec, c, log, m, jobs, services);
  }

  /** The new status claims nothing that the old one did not. */
  ghost predicate SameClaims(spec: Spec, s: Status, m: Status) {
    && (IsTrue(m.conditions, TeardownExecuted) ==> IsTrue(s.conditions, TeardownExecuted))
    && (IsTrue(m.conditions, CloudTestRunFinalized) ==>
          IsTrue(s.conditions, CloudTestRunFinalized) && m.testRunID == s.testRunID)
    && (!IsPLZ(spec) ==> m.testRunID == s.testRunID && m.aggregationVars == s.aggregationVars)
  }

  /** A stage that moves on, without a new claim about what happened, fits the same world. */
  lemma Carries(spec: Spec, c: Cluster, log: seq<Event>, clock: int, s: Status, m: Status)
    requires WorldOk(spec, c, log, clock, s) && NotAfter(m, clock)
    requires StageMoves(s.stage, m.stage) && SameClaims(spec, s, m)
    ensures WorldOk(spec, c, log, clock, m)
  {
    ClusterCarries(spec, c, log, s, m);
  }

  /** StatusOk and Follows for a merged status, and that it fits the same world. */
  ghost predicate Sound(spec: Spec, s: Status, m: Status, now: int) {
    && StatusOk(spec, m) && Follows(s, m) && NotAfter(m, now)
  }

  /** UpdateStatus with a proposal that makes no new claim keeps the invariant. */
  lemma UpdateCarries(spec: Spec, w: World, k6: Status, answer: PatchAnswer, now: int)
    requires Inv(spec, w) && now <= w.clock
    requires Sound(spec, w.status, Merge(w.status, k6), now)
    requires StageMoves(w.status.stage, Merge(w.status, k6).stage) && SameClaims(spec, w.status, Merge(w.status, k6))
    ensures Inv(spec, UpdateStatus(w, k6, answer).w)
  {
    hide Merge, StatusOk, Follows, ClusterOk, LogOk;
    var m := Merge(w.status, k6);
    Carries(spec, w.cluster, w.log, w.clock, w.status, m);
    UpdateKeeps(spec, w, k6, answer);
  }

  // k6_stop.go

  function StopProposal(s: Status, now: int): Status {
    Set(Set(s.(stage := Stopped), TestRunRunning, ConditionFalse, now), CloudTestRunAborted, ConditionTrue, now)
  }

  lemma StopMerged(spec: Spec, s: Status, now: int)
    requires StatusOk(spec, s) && NotAfter(s, now - 1)
    requires IsCloudTestRun(s) && IsFalse(s.conditions, CloudTestRunAborted) && RunID(spec, s) != ""
    ensures var m := Merge(s, StopProposal(s, now));
            Sound(spec, s, m, now) && StageMoves(s.stage, m.stage) && SameClaims(spec, s, m)
  {
    hide HasCloudOut;
    var p := StopProposal(s, now);
    MergeOwn(s, p);
    AcceptsOnlyLaterStages(s.stage, Stopped);
    StopSound(spec, s, p.(stage := MergeStage(s.stage, Stopped)), now);
  }

  lemma StopSound(spec: Spec, s: Status, m: Status, now: int)
    requires StatusOk(spec, s) && NotAfter(s, now - 1)
    requires IsCloudTestRun(s) && IsFalse(s.conditions, CloudTestRunAborted) && RunID(spec, s) != ""
    requires m == StopProposal(s, now).(stage := if StageRank(s.stage) < 5 then Stopped else s.stage)
    ensures Sound(spec, s, m, now) && StageMoves(s.stage, m.stage) && SameClaims(spec, s, m)
  {
    hide StatusOk, Follows, NotAfter, StageMoves, SameClaims, StopProposal, IsCloudTestRun, RunID;
    StopStatusOk(spec, s, m, now);
    StopFollows(spec, s, m, now);
  }

  lemma StopStatusOk(spec: Spec, s: Status, m: Status, now: int)
    requires StatusOk(spec, s) && IsCloudTestRun(s) && RunID(spec, s) != ""
    requires IsFalse(s.conditions, CloudTestRunAborted)
    requires m == StopProposal(s, now).(stage := if StageRank(s.stage) < 5 then Stopped else s.stage)
    ensures StatusOk(spec, m)
  {
    hide HasCloudOut;
  }

  lemma StopFollows(spec: Spec, s: Status, m: Status, now: int)
    requires StatusOk(spec, s) && NotAfter(s, now - 1) && IsCloudTestRun(s)
    requires IsFalse(s.conditions, CloudTestRunAborted)
    requires m == StopProposal(s, now).(stage := if StageRank(s.stage) < 5 then Stopped else s.stage)
    ensures Follows(s, m) && NotAfter(m, now) && StageMoves(s.stage, m.stage) && SameClaims(spec, s, m)
  {
    hide HasCloudOut;
  }

  lemma StopJobsKeeps(spec: Spec, w: World, k6: Status, o: Oracle, now: int)
    requires Inv(spec, w) && k6 == w.status && NotAfter(k6, now - 1) && now <= w.clock
    requires IsCloudTestRun(k6) && IsFalse(k6.conditions, CloudTestRunAborted) && RunID(spec, k6) != ""
    ensures Inv(spec, StopJobs(w, k6, o, now))
  {
    hide WorldOk, StatusOk, Merge, Sound, SameClaims, IsNewer;
    if o.servicesListed {
      var (w1, created) := CreateStopper(w, o.listed, o.job);
      AppendNeutral(spec, w.cluster, w.log, [StopperCreated(o.listed)], w.clock, w.status);
      IgnoresStopper(spec, w.cluster, w.log + [StopperCreated(o.listed)], w.clock, w.status, true);
      assert Inv(spec, w1);
      if created {
        StatusOfInv(spec, w);
        StopMerged(spec, k6, now);
        UpdateCarries(spec, w1, StopProposal(k6, now), o.patch1, now);
      }
    }
  }

  lemma StatusOfInv(spec: Spec, w: World)
    requires Inv(spec, w)
    ensures StatusOk(spec, w.status)
  {
    assert StatusOk(spec, w.history[|w.history| - 1]);
  }

  lemma StageMerged(s: Status, stage: Stage)
    ensures Merge(s, s.(stage := stage)) == s.(stage := MergeStage(s.stage, stage))
  {
    MergeOwn(s, s.(stage := stage));
  }

  /** If a proposal leaves the aggregation variables alone, memory and store agree after UpdateStatus. */
  lemma UpdateSyncs(w: World, k6: Status, answer: PatchAnswer)
    requires k6.aggregationVars == w.status.aggregationVars
    ensures var u := UpdateStatus(w, k6, answer);
            !u.failed && u.w.present ==> u.k6 == u.w.status && u.k6 == Merge(w.status, k6)
  {
    if !IsNewer(w.status, k6) {
      MergeUnchanged(w.status, k6);
    }
  }

  // The regular end of stage started.

  lemma MarkStoppedKeeps(spec: Spec, w: World, k6: Status, o: Oracle, now: int)
    requires Inv(spec, w) && k6 == w.status && NotAfter(k6, now - 1) && now <= w.clock
    requires k6.stage == Started && (IsPLZ(spec) ==> !IsFalse(k6.conditions, TeardownExecuted))
    ensures Inv(spec, MarkStopped(w, k6, o, now))
  {
    hide HasCloudOut, WorldOk;
    StatusOfInv(spec, w);
    var p := Set(k6, TestRunRunning, ConditionFalse, now).(stage := Stopped);
    MergeOwn(k6, p);
    MarkStoppedSound(spec, k6, p, now);
    UpdateCarries(spec, w, p, o.patch1, now);
  }

  lemma MarkStoppedSound(spec: Spec, s: Status, m: Status, now: int)
    requires StatusOk(spec, s) && NotAfter(s, now - 1)
    requires s.stage == Started && (IsPLZ(spec) ==> !IsFalse(s.conditions, TeardownExecuted))
    requires m == Set(s, TestRunRunning, ConditionFalse, now).(stage := Stopped)
    ensures Sound(spec, s, m, now) && StageMoves(s.stage, m.stage) && SameClaims(spec, s, m)
  {
    hide HasCloudOut;
  }

  // Teardown.

  lemma TeardownWorld(spec: Spec, c: Cluster, log: seq<Event>, clock: int, s: Status, hosts: seq<int>, ran: seq<Event>)
    requires WorldOk(spec, c, log, clock, s)
    requires forall e | e in ran :: e.TeardownRan?
    ensures WorldOk(spec, c, log + [RunnersStopped], clock, s)
    ensures WorldOk(spec, c, log + [RunnersStopped] + [TeardownInvoked(hosts)], clock, s)
    ensures WorldOk(spec, c, log + [RunnersStopped] + [TeardownInvoked(hosts)] + ran, clock, s)
  {
    hide ClusterOk, StatusJustified, EventsJustified, LaunchesOf, CountStarters, CountInitializers, NotAfter;
    var log1, invoked := log + [RunnersStopped], TeardownInvoked(hosts);
    AppendNeutral(spec, c, log, [RunnersStopped], clock, s);
    assert RunnersStopped in log1;
    AppendOne(spec, log1, invoked);
    AppendCluster(spec, c, log1, invoked, s);
    StatusJustifiedLater(spec, log1, [invoked], s);
    AppendNeutral(spec, c, log1 + [invoked], ran, clock, s);
  }

  lemma TeardownClaimed(spec: Spec, c: Cluster, log: seq<Event>, clock: int, s: Status, m: Status, hosts: seq<int>)
    requires WorldOk(spec, c, log, clock, s) && TeardownInvoked(hosts) in log
    requires NotAfter(m, clock) && m.stage == s.stage
    requires IsTrue(m.conditions, CloudTestRunFinalized) <==> IsTrue(s.conditions, CloudTestRunFinalized)
    requires m.testRunID == s.testRunID && m.aggregationVars == s.aggregationVars
    ensures WorldOk(spec, c, log, clock, m)
  {
    ClusterCarries(spec, c, log, s, m);
  }

  lemma WaitForTeardownKeeps(spec: Spec, w: World, k6: Status, o: Oracle, now: int)
    requires Inv(spec, w) && k6 == w.status && NotAfter(k6, now - 1) && now <= w.clock
    requires k6.stage == Started && IsPLZ(spec) && IsFalse(k6.conditions, TeardownExecuted)
    ensures Inv(spec, WaitForTeardown(w, k6, o, now))
  {
    hide StatusOk, Follows, WorldOk, Merge, IsNewer;
    StatusOfInv(spec, w);
    var hosts := ReadyHosts(o.listed, o.ready);
    var p := Set(k6, TeardownExecuted, ConditionTrue, now);
    var w1 := Logged(w, [RunnersStopped]);
    var w2 := RunTeardown(w1, hosts, o);
    var ran := if hosts != [] && o.teardownRuns then [TeardownRan(hosts[0])] else [];
    TeardownWorld(spec, w.cluster, w.log, w.clock, k6, hosts, ran);
    assert w2.log == w.log + [RunnersStopped] + [TeardownInvoked(hosts)] + ran;
    assert TeardownInvoked(hosts) in w2.log;
    TeardownMerged(spec, k6, now);
    TeardownClaimed(spec, w.cluster, w2.log, w.clock, k6, p, hosts);
    UpdateKeeps(spec, w2, p, o.patch1);
  }

  lemma TeardownMerged(spec: Spec, s: Status, now: int)
    requires StatusOk(spec, s) && NotAfter(s, now - 1)
    requires s.stage == Started && IsPLZ(spec) && IsFalse(s.conditions, TeardownExecuted)
    ensures var m := Set(s, TeardownExecuted, ConditionTrue, now);
            && Merge(s, m) == m && Sound(spec, s, m, now) && m.stage == s.stage
            && (IsTrue(m.conditions, CloudTestRunFinalized) <==> IsTrue(s.conditions, CloudTestRunFinalized))
            && m.testRunID == s.testRunID && m.aggregationVars == s.aggregationVars
  {
    hide HasCloudOut;
    MergeOwn(s, Set(s, TeardownExecuted, ConditionTrue, now));
  }

  lemma OnStartedKeeps(spec: Spec, w: World, k6: Status, o: Oracle, now: int)
    requires Inv(spec, w) && k6 == w.status && NotAfter(k6, now - 1) && now <= w.clock
    requires k6.stage == Started
    ensures Inv(spec, OnStarted(spec, w, k6, o, now))
  {
    hide HasCloudOut, WorldOk, StopJobs, MarkStopped, WaitForTeardown, FinishJobs;
    StatusOfInv(spec, w);
    if IsTrue(k6.conditions, CloudPLZTestRun) {
      if IsFalse(k6.conditions, TeardownExecuted) {
        WaitForTeardownKeeps(spec, w, k6, o, now);
      } else {
        MarkStoppedKeeps(spec, w, k6, o, now);
      }
    } else if FinishJobs(spec, o) {
      MarkStoppedKeeps(spec, w, k6, o, now);
    } else if IsTrue(k6.conditions, CloudTestRun) && IsFalse(k6.conditions, CloudTestRunAborted)
              && RunID(spec, k6) != "" {
      StopJobsKeeps(spec, w, k6, o, now);
    }
  }

  // Stage stopped.

  lemma FinishMerged(spec: Spec, s: Status, p: Status, now: int)
    requires StatusOk(spec, s) && NotAfter(s, now - 1) && s.stage == Stopped
    requires if IsTrue(s.conditions, CloudTestRun)
             then p == Set(s, CloudTestRunFinalized, ConditionTrue, now).(stage := Finished)
             else p == s.(stage := Finished)
    ensures Merge(s, p) == p && Sound(spec, s, p, now)
    ensures IsTrue(p.conditions, TeardownExecuted) <==> IsTrue(s.conditions, TeardownExecuted)
    ensures IsTrue(p.conditions, CloudTestRunFinalized) ==> IsTrue(s.conditions, CloudTestRun)
  {
    MergeOwn(s, p);
    hide StatusOk, Follows, Merge;
    FinishStatusOk(spec, s, p, now);
    FinishFollows(spec, s, p, now);
  }

  lemma FinishStatusOk(spec: Spec, s: Status, p: Status, now: int)
    requires StatusOk(spec, s) && NotAfter(s, now - 1) && s.stage == Stopped
    requires if IsTrue(s.conditions, CloudTestRun)
             then p == Set(s, CloudTestRunFinalized, ConditionTrue, now).(stage := Finished)
             else p == s.(stage := Finished)
    ensures StatusOk(spec, p)
  {
    hide HasCloudOut;
  }

  lemma FinishFollows(spec: Spec, s: Status, p: Status, now: int)
    requires StatusOk(spec, s) && NotAfter(s, now - 1) && s.stage == Stopped
    requires if IsTrue(s.conditions, CloudTestRun)
             then p == Set(s, CloudTestRunFinalized, ConditionTrue, now).(stage := Finished)
             else p == s.(stage := Finished)
    ensures Follows(s, p) && NotAfter(p, now)
  {
    hide HasCloudOut;
  }

  lemma FinalizeKeeps(spec: Spec, w: World, k6: Status, o: Oracle, now: int)
    requires Inv(spec, w) && w.status.stage == Stopped && NotAfter(w.status, now - 1) && now <= w.clock
    requires w.present ==> k6 == w.status
    ensures Inv(spec, Finalize(w, k6, o, now))
  {
    hide HasCloudOut, StatusOk, Follows, ClusterOk, EventsJustified, Merge, IsNewer, MapUpdate;
    StatusOfInv(spec, w);
    var accepted := FinishAccepted(k6.testRunID);
    var log1 := w.log + [accepted];
    AppendNeutral(spec, w.cluster, w.log, [accepted], w.clock, w.status);
    if w.present {
      StoppedCloud(spec, k6);
      var p := if IsTrue(k6.conditions, CloudTestRun)
               then Set(k6, CloudTestRunFinalized, ConditionTrue, now).(stage := Finished)
               else k6.(stage := Finished);
      FinishMerged(spec, k6, p, now);
      assert accepted in log1;
      if IsTrue(k6.conditions, CloudTestRun) {
        ClusterCarries(spec, w.cluster, log1, k6, p);
        assert WorldOk(spec, w.cluster, log1, w.clock, p);
        UpdateKeeps(spec, w.(log := log1), p, o.patch2);
      } else {
        Carries(spec, w.cluster, w.log, w.clock, k6, p);
        UpdateKeeps(spec, w, p, o.patch2);
      }
    }
  }

  lemma StoppedCloud(spec: Spec, s: Status)
    requires StatusOk(spec, s) && s.stage == Stopped
    ensures IsTrue(s.conditions, CloudTestRun) <==>
            IsTrue(s.conditions, CloudTestRun) && IsFalse(s.conditions, CloudTestRunFinalized)
    ensures !IsTrue(s.conditions, CloudTestRunFinalized)
  {
    hide HasCloudOut;
  }

  lemma KillKeeps(spec: Spec, w: World, o: Oracle)
    requires Inv(spec, w) && w.status.stage == Stopped
    ensures Inv(spec, KillJobs(w, o))
  {
    hide StatusOk, Follows, EventsJustified, StatusJustified;
    var deleted := [JobsDeleted(w.cluster.jobs * o.killed)];
    AppendNeutral(spec, w.cluster, w.log, deleted, w.clock, w.status);
    var c := w.cluster.(jobs := w.cluster.jobs - o.killed);
    var jobs: nat, services: nat :| LaunchedSoFar(spec, w.cluster, w.log + deleted, w.status, jobs, services);
    assert LaunchedSoFar(spec, c, w.log + deleted, w.status, jobs, services);
  }

  /** Proposing the stored status itself changes nothing. */
  lemma UpdateSelf(w: World, answer: PatchAnswer)
    ensures var u := UpdateStatus(w, w.status, answer);
            u.w == w.(present := u.w.present) && u.k6 == w.status && !u.happened
  {
    MergeOwn(w.status, w.status);
  }

  lemma KillAbortedKeeps(spec: Spec, w: World, k6: Status, o: Oracle, now: int)
    requires Inv(spec, w) && k6 == w.status && k6.stage == Stopped
    requires IsTrue(k6.conditions, CloudTestRunAborted)
    ensures var u := KillAborted(w, k6, o, now);
            Inv(spec, u.w) && u.w.status == w.status && u.k6 == w.status && u.w.clock == w.clock
  {
    hide StatusOk, Follows, WorldOk, IsNewer, Merge;
    var w1 := Logged(w, [RunnersStopped]);
    AppendNeutral(spec, w.cluster, w.log, [RunnersStopped], w.clock, w.status);
    assert Inv(spec, w1);
    KillKeeps(spec, w1, o);
    var w2 := KillJobs(w1, o);
    assert Set(k6, CloudTestRunAborted, ConditionTrue, now) == k6;
    UpdateSelf(w2, o.patch1);
  }

  lemma OnStoppedKeeps(spec: Spec, w: World, k6: Status, o: Oracle, now1: int, now2: int)
    requires Inv(spec, w) && k6 == w.status && NotAfter(k6, now2 - 1) && now2 <= w.clock
    requires k6.stage == Stopped
    ensures Inv(spec, OnStopped(w, k6, o, now1, now2))
  {
    hide Inv, KillAborted, Finalize, HasCloudOut;
    if IsTrue(k6.conditions, CloudPLZTestRun) && IsTrue(k6.conditions, CloudTestRunAborted) {
      KillAbortedKeeps(spec, w, k6, o, now1);
      var u := KillAborted(w, k6, o, now1);
      FinalizeKeeps(spec, u.w, u.k6, o, now2);
    } else {
      FinalizeKeeps(spec, w, k6, o, now2);
    }
  }

  // Stage "".

  lemma InitMerged(spec: Spec, s: Status, now: int)
    requires StatusOk(spec, s) && NotAfter(s, now - 1) && s.stage == EmptyStage
    ensures var m := Merge(s, Initialize(spec, s, now));
            && Sound(spec, s, m, now) && SameClaims(spec, s, m)
            && m.stage == EmptyStage && Prepared(spec, m)
  {
    hide HasCloudOut, Sound, SameClaims;
    var p := Initialize(spec, s, now);
    if Untouched(s) {
      MergeForward(s.conditions, p.conditions);
      InitSound(spec, s, p, now);
    } else {
      InitAgain(spec, s, p, now);
      SoundAgain(spec, s, now);
    }
  }

  /** Proposing the initial conditions once more changes nothing. */
  lemma InitAgain(spec: Spec, s: Status, p: Status, now: int)
    requires Prepared(spec, s) && RunIDRecorded(spec, s) && s.stage == EmptyStage && p == Initialize(spec, s, now)
    ensures Merge(s, p) == s
  {
    hide HasCloudOut, StatusOk, Merge;
    assert p.conditions.Keys <= s.conditions.Keys && SameStatuses(s.conditions, p.conditions);
    hide Prepared, RunIDRecorded, InitialConditions;
    SameStatusesMerge(s.conditions, p.conditions);
    MergesTo(s, p);
  }

  lemma MergesTo(s: Status, p: Status)
    requires MapMerge(s.conditions, p.conditions) == s.conditions && s.stage == p.stage
    requires p.testRunID == s.testRunID && p.aggregationVars == s.aggregationVars
    ensures Merge(s, p) == s
  {
    hide MapMerge;
  }

  predicate SameStatuses(current: CondMap, proposed: CondMap) {
    forall k | k in proposed :: k in current && current[k].status == proposed[k].status
  }

  lemma SameStatusesMerge(current: CondMap, proposed: CondMap)
    requires SameStatuses(current, proposed)
    ensures MapMerge(current, proposed) == current
  {
  }

  lemma SoundAgain(spec: Spec, s: Status, now: int)
    requires StatusOk(spec, s) && NotAfter(s, now - 1)
    ensures Sound(spec, s, s, now) && SameClaims(spec, s, s)
  {
    hide StatusOk;
  }

  lemma InitSound(spec: Spec, s: Status, m: Status, now: int)
    requires StatusOk(spec, s) && Untouched(s) && s.stage == EmptyStage
    requires m == Initialize(spec, s, now)
    ensures Sound(spec, s, m, now) && SameClaims(spec, s, m) && Prepared(spec, m)
  {
    hide HasCloudOut;
  }

  lemma StageSound(spec: Spec, s: Status, stage: Stage, now: int)
    requires StatusOk(spec, s) && NotAfter(s, now)
    requires || (s.stage in {EmptyStage, Initialization} && stage == ErrorStage)
             || (s.stage == EmptyStage && Prepared(spec, s) && stage == Initialization)
             || (s.stage == EmptyStage && Prepared(spec, s) && stage == Initialized)
             || (s.stage == Initialization && stage == Initialized
                 && (IsTrue(s.conditions, CloudTestRun) ==> s.testRunID != ""))
    ensures var m := Merge(s, s.(stage := stage));
            && m == s.(stage := stage)
            && Sound(spec, s, m, now) && SameClaims(spec, s, m) && StageMoves(s.stage, m.stage)
  {
    hide HasCloudOut;
    StageMerged(s, stage);
  }

  /** A change of the stage alone, from the early stages. */
  lemma StageUpdateKeeps(spec: Spec, w: World, stage: Stage, answer: PatchAnswer)
    requires Inv(spec, w)
    requires var s := w.status;
             || (s.stage in {EmptyStage, Initialization} && stage == ErrorStage)
             || (s.stage == EmptyStage && Prepared(spec, s) && stage == Initialization)
             || (s.stage == EmptyStage && Prepared(spec, s) && stage == Initialized)
             || (s.stage == Initialization && stage == Initialized
                 && (IsTrue(s.conditions, CloudTestRun) ==> s.testRunID != ""))
    ensures Inv(spec, UpdateStatus(w, w.status.(stage := stage), answer).w)
  {
    hide Merge, StatusOk, ClusterOk, LogOk, Prepared, Follows;
    StatusOfInv(spec, w);
    StageSound(spec, w.status, stage, w.clock);
    UpdateCarries(spec, w, w.status.(stage := stage), answer, w.clock);
  }

  lemma InitializerCluster(spec: Spec, c: Cluster, log: seq<Event>, s: Status)
    requires ClusterOk(spec, c, log, s) && s.stage != EmptyStage && spec.scriptParses
    ensures ClusterOk(spec, c.(initializer := true), log + [InitializerCreated], s)
  {
    AppendCluster(spec, c, log, InitializerCreated, s);
    var jobs: nat, services: nat :| LaunchedSoFar(spec, c, log + [InitializerCreated], s, jobs, services);
    assert LaunchedSoFar(spec, c.(initializer := true), log + [InitializerCreated], s, jobs, services);
  }

  lemma InitializerWorld(spec: Spec, c: Cluster, log: seq<Event>, clock: int, s: Status)
    requires WorldOk(spec, c, log, clock, s) && s.stage != EmptyStage && !c.initializer && spec.scriptParses
    ensures WorldOk(spec, c.(initializer := true), log + [InitializerCreated], clock, s)
  {
    hide ClusterOk, EventsJustified, StatusJustified, NotAfter;
    AppendOne(spec, log, InitializerCreated);
    StatusJustifiedLater(spec, log, [InitializerCreated], s);
    InitializerCluster(spec, c, log, s);
  }

  lemma InitializeJobsKeeps(spec: Spec, w: World, o: Oracle)
    requires Inv(spec, w) && w.status.stage != EmptyStage
    ensures Inv(spec, InitializeJobs(spec, w, o))
  {
    hide StatusOk, Follows, WorldOk;
    if !w.cluster.initializer && spec.scriptParses {
      InitializerWorld(spec, w.cluster, w.log, w.clock, w.status);
    }
  }

  lemma OnEmptyKeeps(spec: Spec, w: World, k6: Status, o: Oracle, now: int)
    requires Inv(spec, w) && w.present && k6 == w.status && NotAfter(k6, now - 1) && now <= w.clock
    requires k6.stage == EmptyStage
    ensures Inv(spec, OnEmpty(spec, w, k6, o, now))
  {
    hide Merge, StatusOk, WorldOk, HasCloudOut, ArgumentsValid, IsNewer, Prepared, Follows, NotAfter;
    StatusOfInv(spec, w);
    if !ArgumentsValid(spec) {
      StageUpdateKeeps(spec, w, ErrorStage, o.patch1);
    } else {
      var p := Initialize(spec, k6, now);
      InitMerged(spec, k6, now);
      UpdateCarries(spec, w, p, o.patch1, now);
      UpdateSyncs(w, p, o.patch1);
      var u := UpdateStatus(w, p, o.patch1);
      if !u.failed && u.w.present {
        StageUpdateKeeps(spec, u.w, Initialized, o.patch2);
        StageUpdateKeeps(spec, u.w, Initialization, o.patch2);
        var v := UpdateStatus(u.w, u.k6.(stage := Initialization), o.patch2);
        if v.happened {
          StageMerged(u.k6, Initialization);
          InitializeJobsKeeps(spec, v.w, o);
        }
      }
    }
  }

  // Stage initialization.

  lemma ClassifiedMerged(spec: Spec, s: Status, now: int)
    requires StatusOk(spec, s) && NotAfter(s, now - 1) && s.stage == Initialization
    ensures var m := Classified(spec, s, now);
            && Merge(s, m) == m
            && Sound(spec, s, m, now) && SameClaims(spec, s, m)
            && m.stage == Initialization && m.aggregationVars == s.aggregationVars
            && Decided(m.conditions, CloudTestRun)
            && (IsTrue(m.conditions, CloudTestRun) ==> CloudTestRunCreated in m.conditions)
  {
    hide HasCloudOut;
    MergeOwn(s, Classified(spec, s, now));
    ClassifiedSound(spec, s, Classified(spec, s, now), now);
  }

  lemma ClassifiedSound(spec: Spec, s: Status, m: Status, now: int)
    requires StatusOk(spec, s) && NotAfter(s, now - 1) && s.stage == Initialization
    requires m == Classified(spec, s, now)
    ensures Sound(spec, s, m, now) && SameClaims(spec, s, m)
    ensures Decided(m.conditions, CloudTestRun)
    ensures IsTrue(m.conditions, CloudTestRun) ==> CloudTestRunCreated in m.conditions
  {
    hide StatusOk, Follows, NotAfter, SameClaims, Classified;
    ClassifiedStatusOk(spec, s, m, now);
    ClassifiedFollows(spec, s, m, now);
  }

  lemma ClassifiedStatusOk(spec: Spec, s: Status, m: Status, now: int)
    requires StatusOk(spec, s) && s.stage == Initialization && m == Classified(spec, s, now)
    ensures StatusOk(spec, m) && Decided(m.conditions, CloudTestRun)
    ensures IsTrue(m.conditions, CloudTestRun) ==> CloudTestRunCreated in m.conditions
  {
    hide HasCloudOut;
  }

  lemma ClassifiedFollows(spec: Spec, s: Status, m: Status, now: int)
    requires StatusOk(spec, s) && NotAfter(s, now - 1) && s.stage == Initialization && m == Classified(spec, s, now)
    ensures Follows(s, m) && NotAfter(m, now) && SameClaims(spec, s, m)
  {
    hide HasCloudOut;
  }

  lemma ClassifiedStored(spec: Spec, w: World, k6: Status, answer: PatchAnswer, now: int)
    requires Inv(spec, w) && k6 == w.status && NotAfter(k6, now - 1) && now <= w.clock
    requires k6.stage == Initialization
    ensures var u := UpdateStatus(w, Classified(spec, k6, now), answer);
            && Inv(spec, u.w) && u.w.clock == w.clock && NotAfter(u.w.status, now)
            && (!u.failed && u.w.present ==>
                  && u.k6 == u.w.status && u.k6.stage == Initialization
                  && (IsTrue(u.k6.conditions, CloudTestRun) ==> CloudTestRunCreated in u.k6.conditions))
  {
    hide Merge, StatusOk, WorldOk, Classified, IsNewer, Prepared, Follows, SameClaims;
    StatusOfInv(spec, w);
    var p := Classified(spec, k6, now);
    ClassifiedMerged(spec, k6, now);
    UpdateCarries(spec, w, p, answer, now);
    UpdateSyncs(w, p, answer);
    NotAfterLater(k6, now - 1, now);
  }

  lemma RunValidationsKeeps(spec: Spec, w: World, k6: Status, o: Oracle, now: int)
    requires Inv(spec, w) && k6 == w.status && NotAfter(k6, now - 1) && now <= w.clock
    requires k6.stage == Initialization
    ensures var (w1, k1, ready) := RunValidations(spec, w, k6, o, now);
            && Inv(spec, w1) && w1.clock == w.clock
            && (ready ==> NotAfter(w1.status, now))
            && (ready && w1.present ==>
                  && k1 == w1.status && k1.stage == Initialization
                  && (IsTrue(k1.conditions, CloudTestRun) ==> CloudTestRunCreated in k1.conditions))
  {
    hide Inv, Classified, Int32, NotAfter, UpdateStatus, HasCloudOut, IsTrue;
    StageUpdateKeeps(spec, w, ErrorStage, o.patch1);
    UpdateClock(w, w.status.(stage := ErrorStage), o.patch1);
    ClassifiedStored(spec, w, k6, o.patch1, now);
  }

  lemma UpdateClock(w: World, k6: Status, answer: PatchAnswer)
    ensures UpdateStatus(w, k6, answer).w.clock == w.clock
  {
    hide Merge, IsNewer;
  }

  lemma CreatedMerged(spec: Spec, s: Status, id: string, vars: string, now: int)
    requires StatusOk(spec, s) && NotAfter(s, now - 1) && s.stage == Initialization
    requires IsFalse(s.conditions, CloudTestRunCreated) && id != "" && vars != ""
    ensures var m := Set(s.(testRunID := id, aggregationVars := vars), CloudTestRunCreated, ConditionTrue, now);
            && Merge(s, m) == m && Sound(spec, s, m, now) && m.stage == s.stage && !IsPLZ(spec)
            && !IsTrue(m.conditions, TeardownExecuted) && !IsTrue(m.conditions, CloudTestRunFinalized)
  {
    hide HasCloudOut;
    var m := Set(s.(testRunID := id, aggregationVars := vars), CloudTestRunCreated, ConditionTrue, now);
    MergeForward(s.conditions, m.conditions);
  }

  lemma CloudCreatedKeeps(spec: Spec, w: World, k6: Status, id: string, config: Option<Aggregation.RuntimeConfig>,
                          answer: PatchAnswer, now: int)
    requires Inv(spec, w) && (w.present ==> k6 == w.status && k6.stage == Initialization)
    requires NotAfter(w.status, now - 1) && now <= w.clock
    requires IsFalse(k6.conditions, CloudTestRunCreated) && id != ""
    ensures Inv(spec, CloudCreated(w, k6, id, config, answer, now))
  {
    hide Merge, StatusOk, ClusterOk, EventsJustified, HasCloudOut, IsNewer, Prepared, Follows, NotAfter, MapUpdate;
    var e := CloudRunCreated(id, config);
    var w1 := Logged(w, [e]);
    AppendNeutral(spec, w.cluster, w.log, [e], w.clock, w.status);
    AppendNeutral(spec, w.cluster, w1.log, [Panicked], w.clock, w.status);
    if w.present && config.Some? {
      StatusOfInv(spec, w);
      var vars := Aggregation.Encode(config.value);
      var m := Set(k6.(testRunID := id, aggregationVars := vars), CloudTestRunCreated, ConditionTrue, now);
      CreatedMerged(spec, k6, id, vars, now);
      ClusterCarries(spec, w.cluster, w1.log, k6, m);
      assert e in w1.log;
      assert NotAfter(m, w.clock) by { NotAfterLater(m, now, w.clock); }
      assert WorldOk(spec, w.cluster, w1.log, w.clock, m);
      UpdateKeeps(spec, w1, m, answer);
    }
  }

  lemma PanicKeeps(spec: Spec, w: World)
    requires Inv(spec, w)
    ensures Inv(spec, Logged(w, [Panicked]))
  {
    hide HistoryOk, WorldOk;
    AppendNeutral(spec, w.cluster, w.log, [Panicked], w.clock, w.status);
  }

  lemma SetupCloudTestKeeps(spec: Spec, w: World, k6: Status, client: bool, o: Oracle, now: int)
    requires Inv(spec, w) && (w.present ==> k6 == w.status && k6.stage == Initialization)
    requires NotAfter(w.status, now - 1) && now <= w.clock
    requires IsFalse(k6.conditions, CloudTestRunCreated)
    ensures Inv(spec, SetupCloudTest(spec, w, k6, client, o, now))
  {
    hide Inv, NotAfter, CloudCreated;
    PanicKeeps(spec, w);
    if o.reply.Reply? && o.reply.id != "" {
      CloudCreatedKeeps(spec, w, k6, o.reply.id, o.reply.config, o.patch2, now);
    }
  }

  lemma NotAfterLater(s: Status, t: int, u: int)
    requires NotAfter(s, t) && t <= u
    ensures NotAfter(s, u)
  {
  }

  lemma OnInitializationKeeps(spec: Spec, w: World, k6: Status, o: Oracle, now1: int, now2: int)
    requires Inv(spec, w) && k6 == w.status && NotAfter(k6, now1 - 1) && now1 < now2 <= w.clock
    requires k6.stage == Initialization
    ensures Inv(spec, OnInitialization(spec, w, k6, o, now1, now2))
  {
    hide Merge, WorldOk, HasCloudOut, IsNewer, Follows, SetupCloudTest, RunValidations;
    RunValidationsKeeps(spec, w, k6, o, now1);
    var (w1, k1, ready) := RunValidations(spec, w, k6, o, now1);
    PanicKeeps(spec, w1);
    if ready {
      NotAfterLater(w1.status, now1, now2 - 1);
      if w1.present {
        StatusOfInv(spec, w1);
      }
      if IsFalse(k1.conditions, CloudTestRun) {
        if w1.present {
          StageUpdateKeeps(spec, w1, Initialized, o.patch2);
        }
      } else if IsTrue(k1.conditions, CloudTestRun) {
        if IsFalse(k1.conditions, CloudTestRunCreated) {
          SetupCloudTestKeeps(spec, w1, k1, IsCloudTestRun(k6), o, now2);
        } else if w1.present {
          StageUpdateKeeps(spec, w1, Initialized, o.patch2);
        }
      }
    }
  }

  // k6_create.go

  lemma LaunchStep(log: seq<Event>, e: Event)
    ensures LaunchesOf(log + [e]) == if IsLaunch(e) then LaunchesOf(log) + [e] else LaunchesOf(log)
  {
    assert (log + [e])[..|log|] == log;
  }

  lemma {:induction false} AppendLaunches(log: seq<Event>, more: seq<Event>)
    requires forall e | e in more :: IsLaunch(e)
    ensures LaunchesOf(log + more) == LaunchesOf(log) + more
  {
    if more == [] {
      assert log + more == log;
    } else {
      var n := |more| - 1;
      AppendLaunches(log, more[..n]);
      assert log + more == (log + more[..n]) + [more[n]];
      assert more[n] in more;
      LaunchStep(log + more[..n], more[n]);
      hide LaunchesOf, IsLaunch;
      assert (LaunchesOf(log) + more[..n]) + [more[n]] == LaunchesOf(log) + more;
    }
  }

  /** Nothing but the order of launches depends on launches. */
  lemma {:induction false} AppendLaunchesElse(spec: Spec, log: seq<Event>, more: seq<Event>)
    requires forall e | e in more :: IsLaunch(e)
    ensures CountStarters(log + more) == CountStarters(log)
    ensures CountInitializers(log + more) == CountInitializers(log)
    ensures EventsJustified(spec, log) ==> EventsJustified(spec, log + more)
  {
    hide EventsJustified;
    if more == [] {
      assert log + more == log;
    } else {
      var n := |more| - 1;
      AppendLaunchesElse(spec, log, more[..n]);
      assert log + more == (log + more[..n]) + [more[n]];
      assert more[n] in more;
      AppendOne(spec, log + more[..n], more[n]);
    }
  }

  lemma {:induction false} LaunchesAreLaunches(k: nat)
    ensures forall e | e in Launches(k) :: IsLaunch(e)
  {
    if k == 0 {
    } else {
      LaunchesAreLaunches(k - 1);
    }
  }

  lemma NothingLaunched(spec: Spec, c: Cluster, log: seq<Event>, s: Status)
    requires ClusterOk(spec, c, log, s) && s.stage == Initialized && 1 !in c.jobs
    ensures LaunchedSoFar(spec, c, log, s, 0, 0) && !c.starter
  {
    var jobs: nat, services: nat :| LaunchedSoFar(spec, c, log, s, jobs, services);
    assert jobs == 0;
  }

  lemma LaunchedCluster(spec: Spec, c: Cluster, log: seq<Event>, s: Status, c': Cluster, jobs: nat, services: nat)
    requires ClusterOk(spec, c, log, s) && s.stage == Initialized && 1 !in c.jobs
    requires services <= jobs <= services + 1 && jobs <= spec.parallelism
    requires c' == c.(jobs := c.jobs + UpTo(jobs), services := c.services + UpTo(services))
    ensures LaunchedSoFar(spec, c', log + Launching(jobs, services), s, jobs, services)
    ensures ClusterOk(spec, c', log + Launching(jobs, services), s)
  {
    NothingLaunched(spec, c, log, s);
    LaunchesAreLaunches(services);
    AppendLaunches(log, Launching(jobs, services));
    assert [] + Launching(jobs, services) == Launching(jobs, services);
    assert LaunchedSoFar(spec, c', log + Launching(jobs, services), s, jobs, services);
  }

  lemma LaunchedKeeps(spec: Spec, w: World, jobs: nat, services: nat)
    requires Inv(spec, w) && w.status.stage == Initialized && 1 !in w.cluster.jobs
    requires services <= jobs <= services + 1 && jobs <= spec.parallelism
    ensures var w1 := Launched(w, jobs, services);
            Inv(spec, w1) && LaunchedSoFar(spec, w1.cluster, w1.log, w1.status, jobs, services)
  {
    hide HistoryOk, EventsJustified, StatusJustified, NotAfter, ClusterOk, LaunchedSoFar, UpTo, Launches;
    var more := Launching(jobs, services);
    LaunchesAreLaunches(services);
    AppendLaunchesElse(spec, w.log, more);
    StatusJustifiedLater(spec, w.log, more, w.status);
    LaunchedCluster(spec, w.cluster, w.log, w.status, Launched(w, jobs, services).cluster, jobs, services);
    assert Launched(w, jobs, services).log == w.log + more;
  }

  lemma CreatedSound(spec: Spec, s: Status, now: int)
    requires StatusOk(spec, s) && NotAfter(s, now) && s.stage == Initialized
    ensures var m := s.(stage := Created);
            Merge(s, m) == m && Sound(spec, s, m, now) && SameClaims(spec, s, m)
  {
    hide HasCloudOut;
    StageMerged(s, Created);
  }

  lemma CreateJobsKeeps(spec: Spec, w: World, k6: Status, o: Oracle)
    requires Inv(spec, w) && k6 == w.status && k6.stage == Initialized && spec.parallelism >= 1
    ensures Inv(spec, CreateJobs(spec, w, k6, o))
  {
    hide Inv, UpdateStatus, RunnerJobOk, Launched;
    if 1 !in w.cluster.jobs {
      var p := spec.parallelism;
      CreatedKeeps(spec, w, k6, o.patch1);
      if o.fault.JobFault? && 1 <= o.fault.at <= p {
        LaunchedKeeps(spec, w, if o.fault.lost then o.fault.at else o.fault.at - 1, o.fault.at - 1);
      }
      if o.fault.ServiceFault? && 1 <= o.fault.at <= p {
        LaunchedKeeps(spec, w, o.fault.at, if o.fault.lost then o.fault.at else o.fault.at - 1);
      }
    }
  }

  /** All runners are launched, and the stage is stored, or not. */
  lemma CreatedKeeps(spec: Spec, w: World, k6: Status, answer: PatchAnswer)
    requires Inv(spec, w) && k6 == w.status && k6.stage == Initialized && spec.parallelism >= 1
    requires 1 !in w.cluster.jobs
    ensures Inv(spec, Launched(w, spec.parallelism, spec.parallelism))
    ensures var w1 := Launched(w, spec.parallelism, spec.parallelism);
            Inv(spec, UpdateStatus(w1, k6.(stage := Created), answer).w)
  {
    hide StatusOk, Follows, LogOk, NotAfter, Merge, IsNewer, Launched, HistoryOk;
    var p := spec.parallelism;
    LaunchedKeeps(spec, w, p, p);
    var w1 := Launched(w, p, p);
    StatusOfInv(spec, w);
    LaunchedStatus(w, p, p);
    var m := k6.(stage := Created);
    CreatedSound(spec, k6, w.clock);
    assert LaunchedSoFar(spec, w1.cluster, w1.log, m, p, p);
    assert LogOk(spec, w1.cluster, w1.log, m) by { SameLog(spec, w1.cluster, w1.log, k6, m); }
    UpdateKeeps(spec, w1, m, answer);
  }

  lemma LaunchedStatus(w: World, jobs: nat, services: nat)
    ensures var w1 := Launched(w, jobs, services);
            && w1.status == w.status && w1.clock == w.clock && w1.present == w.present
            && w1.cluster.starter == w.cluster.starter && w1.cluster.initializer == w.cluster.initializer
  {
  }

  lemma SameLog(spec: Spec, c: Cluster, log: seq<Event>, s: Status, m: Status)
    requires LogOk(spec, c, log, s) && SameClaims(spec, s, m)
    ensures LogOk(spec, c, log, m)
  {
  }

  // k6_start.go

  lemma SetupKeeps(spec: Spec, w: World, hosts: seq<int>, o: Oracle)
    requires Inv(spec, w)
    ensures var (w1, ok) := RunSetup(w, hosts, o);
            && Inv(spec, w1) && w1 == w.(log := w1.log)
            && LaunchesOf(w1.log) == LaunchesOf(w.log)
            && (ok ==> forall h | h in hosts :: SetupDelivered(h) in w1.log)
  {
    hide WorldOk, HistoryOk;
    if hosts == [] {
      AppendNeutral(spec, w.cluster, w.log, [Panicked], w.clock, w.status);
    } else if o.setupRuns {
      var taken := if o.delivered < |hosts| then hosts[..o.delivered] else hosts;
      var more := [SetupInvoked(hosts[0])] + Deliveries(taken);
      AppendNeutral(spec, w.cluster, w.log, more, w.clock, w.status);
      assert Logged(w, more) == w.(log := w.log + more);
      forall h | h in taken ensures SetupDelivered(h) in w.log + more {
        var i :| 0 <= i < |taken| && taken[i] == h;
        assert Deliveries(taken)[i] == SetupDelivered(h);
        assert more[i + 1] == SetupDelivered(h);
        assert SetupDelivered(h) in more;
      }
    }
  }

  lemma StarterKeeps(spec: Spec, w: World, hosts: seq<int>, answer: JobAnswer)
    requires Inv(spec, w) && w.status.stage == Created
    requires StarterJustified(spec, w.log, hosts)
    ensures var (w1, created) := CreateStarter(w, hosts, answer);
            Inv(spec, w1) && w1.status == w.status && w1.clock == w.clock && w1.present == w.present
  {
    hide HistoryOk, StarterJustified, NotAfter, EventsJustified, StatusJustified, ClusterOk;
    var e := StarterCreated(hosts);
    AppendOne(spec, w.log, e);
    StatusJustifiedLater(spec, w.log, [e], w.status);
    StarterCluster(spec, w.cluster, w.log, w.status, e);
  }

  lemma StarterCluster(spec: Spec, c: Cluster, log: seq<Event>, s: Status, e: Event)
    requires ClusterOk(spec, c, log, s) && s.stage == Created && e.StarterCreated?
    ensures ClusterOk(spec, c.(starter := true), log + [e], s)
  {
    AppendCluster(spec, c, log, e, s);
    var jobs: nat, services: nat :| LaunchedSoFar(spec, c, log + [e], s, jobs, services);
    assert LaunchedSoFar(spec, c.(starter := true), log + [e], s, jobs, services);
  }

  lemma StartedMerged(spec: Spec, s: Status, now: int)
    requires StatusOk(spec, s) && NotAfter(s, now - 1) && s.stage == Created
    ensures var m := Set(s.(stage := Started), TestRunRunning, ConditionTrue, now);
            Merge(s, m) == m && Sound(spec, s, m, now) && SameClaims(spec, s, m) && StageMoves(s.stage, m.stage)
  {
    hide HasCloudOut;
    var m := Set(s.(stage := Started), TestRunRunning, ConditionTrue, now);
    MergeOwn(s, m);
    StartedSound(spec, s, m, now);
  }

  lemma StartedSound(spec: Spec, s: Status, m: Status, now: int)
    requires StatusOk(spec, s) && NotAfter(s, now - 1) && s.stage == Created
    requires m == Set(s.(stage := Started), TestRunRunning, ConditionTrue, now)
    ensures Sound(spec, s, m, now) && SameClaims(spec, s, m)
  {
    hide HasCloudOut;
  }

  lemma CreatedStage(spec: Spec, w: World)
    requires Inv(spec, w) && w.status.stage == Created
    ensures spec.parallelism >= 0
    ensures LaunchesOf(w.log) == Launches(spec.parallelism) && w.cluster.services == UpTo(spec.parallelism)
  {
    var jobs: nat, services: nat :| LaunchedSoFar(spec, w.cluster, w.log, w.status, jobs, services);
    assert Launches(services) + [] == Launches(services);
  }

  lemma StartJobsKeeps(spec: Spec, w: World, k6: Status, o: Oracle, now: int)
    requires Inv(spec, w) && Honest(w, o) && k6 == w.status && NotAfter(k6, now - 1) && now <= w.clock
    requires k6.stage == Created && spec.parallelism >= 1
    ensures Inv(spec, StartJobs(spec, w, k6, o, now))
  {
    hide Inv, StatusOk, Merge, IsNewer, SameClaims, RunSetup, Sound, NotAfter, UpdateStatus, MapUpdate;
    StatusOfInv(spec, w);
    CreatedStage(spec, w);
    PLZOfStage(spec, k6);
    SetupKeeps(spec, w, o.listed, o);
    var (w1, ok) := if IsTrue(k6.conditions, CloudPLZTestRun) then RunSetup(w, o.listed, o) else (w, true);
    if ok {
      StarterKeeps(spec, w1, o.listed, o.job);
      var (w2, created) := CreateStarter(w1, o.listed, o.job);
      StartedMerged(spec, k6, now);
      UpdateCarries(spec, w2, Set(k6.(stage := Started), TestRunRunning, ConditionTrue, now), o.patch1, now);
    }
  }

  lemma PLZOfStage(spec: Spec, s: Status)
    requires StatusOk(spec, s) && s.stage !in {EmptyStage, ErrorStage}
    ensures IsTrue(s.conditions, CloudPLZTestRun) <==> IsPLZ(spec)
  {
    hide HasCloudOut;
  }

  // One reconcile, and every run.

  lemma TickKeeps(spec: Spec, w: World, clock: int)
    requires Inv(spec, w) && w.clock <= clock
    ensures Inv(spec, w.(clock := clock)) && NotAfter(w.status, w.clock)
  {
    hide HistoryOk, ClusterOk, LogOk;
  }

  lemma ReconcileKeeps(spec: Spec, w: World, o: Oracle)
    requires Inv(spec, w) && Honest(w, o)
    ensures Inv(spec, Reconcile(spec, w, o))
  {
    hide Inv, NotAfter, StopJobs, OnEmpty, OnInitialization, CreateJobs, StartJobs, OnStarted, OnStopped;
    var t1, t2, now, k6 := Time1(w, o), Time2(w, o), w.(clock := Time2(w, o)), w.status;
    TickKeeps(spec, w, t2);
    NotAfterLater(k6, w.clock, t1 - 1);
    NotAfterLater(k6, w.clock, t2 - 1);
    if w.present && spec.parallelism >= 1 {
      if WantsAbort(spec, k6, o) {
        StopJobsKeeps(spec, now, k6, o, t1);
      } else {
        match k6.stage {
          case EmptyStage => OnEmptyKeeps(spec, now, k6, o, t1);
          case Initialization => OnInitializationKeeps(spec, now, k6, o, t1, t2);
          case Initialized => CreateJobsKeeps(spec, now, k6, o);
          case Created => StartJobsKeeps(spec, now, k6, o, t1);
          case Started => OnStartedKeeps(spec, now, k6, o, t1);
          case Stopped => OnStoppedKeeps(spec, now, k6, o, t1, t2);
          case ErrorStage => GoneKeeps(spec, now);
          case Finished => GoneKeeps(spec, now);
        }
      }
    }
  }

  lemma GoneKeeps(spec: Spec, w: World)
    requires Inv(spec, w)
    ensures Inv(spec, w.(present := false))
  {
    hide HistoryOk, WorldOk;
  }

  lemma InitialHolds(spec: Spec, w: World)
    requires Initial(w)
    ensures Inv(spec, w)
  {
    assert LaunchedSoFar(spec, w.cluster, w.log, w.status, 0, 0);
  }

  lemma NextKeeps(spec: Spec, w: World, w': World)
    requires Inv(spec, w) && Next(spec, w, w')
    ensures Inv(spec, w')
  {
    hide Inv, Reconcile, Honest;
    if w' == w.(present := false) {
      GoneKeeps(spec, w);
    } else {
      var o :| Honest(w, o) && w' == Reconcile(spec, w, o);
      ReconcileKeeps(spec, w, o);
    }
  }

  lemma {:induction false} RunKeeps(spec: Spec, run: seq<World>, i: nat)
    requires IsRun(spec, run) && i < |run|
    ensures Inv(spec, run[i])
  {
    hide Inv, Initial, Next;
    if i == 0 {
      InitialHolds(spec, run[0]);
    } else {
      RunKeeps(spec, run, i - 1);
      assert Next(spec, run[i - 1], run[i - 1 + 1]);
      NextKeeps(spec, run[i - 1], run[i]);
    }
  }

  lemma ReachableInv(spec: Spec, w: World)
    requires Reachable(spec, w)
    ensures Inv(spec, w)
  {
    var run :| IsRun(spec, run) && run[|run| - 1] == w;
    RunKeeps(spec, run, |run| - 1);
  }
}
