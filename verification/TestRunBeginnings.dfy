/** What one reconcile does in the stages up to initialized: exactly when something is stored or created, and what. */
module TestRunBeginnings {
  import opened Text
  import opened Conditions
  import opened TestRunStatus
  import opened TestRunModel
  import opened TestRunInvariants
  import opened TestRunSteps
  import opened TestRunTheorems
  import opened TestRunOutcomes
  import Aggregation
  import K6Cli

  // Stage "".

  /** The arguments parse. */
  ghost predicate Valid(spec: Spec) {
    K6Cli.Parsed(spec.argv).1 == None
  }

  ghost predicate CloudOut(spec: Spec) {
    K6Cli.Parsed(spec.argv).0.hasCloudOut
  }

  /** The initial conditions, and the run ID of a PLZ run. */
  function FirstStatus(spec: Spec, t: int): Status {
    if spec.testRunID == "" then
      Status(map[CloudTestRun := Cond(ConditionUnknown, t), TestRunRunning := Cond(ConditionUnknown, t),
                 TeardownExecuted := Cond(ConditionFalse, t), CloudTestRunAborted := Cond(ConditionFalse, t),
                 CloudPLZTestRun := Cond(ConditionFalse, t)],
             EmptyStage, "", "")
    else
      Status(map[CloudTestRun := Cond(ConditionUnknown, t), TestRunRunning := Cond(ConditionUnknown, t),
                 TeardownExecuted := Cond(ConditionFalse, t), CloudTestRunAborted := Cond(ConditionFalse, t),
                 CloudPLZTestRun := Cond(ConditionTrue, t), CloudTestRunCreated := Cond(ConditionTrue, t),
                 CloudTestRunFinalized := Cond(ConditionFalse, t)],
             EmptyStage, spec.testRunID, "")
  }

  lemma InitializeStores(spec: Spec, w: World, k6: Status, answer: PatchAnswer, now: int)
    requires k6 == w.status && w.present && StatusOk(spec, k6) && NotAfter(k6, now - 1) && k6.stage == EmptyStage
    ensures var first := if k6.conditions == map[] then FirstStatus(spec, now) else k6;
            var u := UpdateStatus(w, Initialize(spec, k6, now), answer);
            && u.w == StoredIf(w, first, answer)
            && u.happened == (answer == Patched) && u.failed == (answer != Patched && answer != Gone)
            && (u.happened ==> u.k6 == first)
  {
    var p := Initialize(spec, k6, now);
    assert MapNewer(k6.conditions, p.conditions) by {
      assert TeardownExecuted in p.conditions;
      assert k6.conditions != map[] ==> Newer(k6.conditions[TeardownExecuted], p.conditions[TeardownExecuted]);
    }
    if k6.conditions == map[] {
      assert p == FirstStatus(spec, now);
      MergeForward(k6.conditions, p.conditions);
      assert Merge(k6, p) == p;
    } else {
      InitAgain(spec, k6, p, now);
    }
    hide Merge, MapNewer, StatusOk, FirstStatus, Initialize;
  }

  lemma EmptyReconciles(spec: Spec, w: World, o: Oracle)
    requires Acts(spec, w, o) && !Aborts(spec, w, o) && w.status.stage == EmptyStage
    ensures Reconcile(spec, w, o) == OnEmpty(spec, w.(clock := Time2(w, o)), w.status, o, Time1(w, o))
  {
    hide OnEmpty, StopJobs;
  }

  /** The stage that follows the first one: there is no need to inspect a script that stays out of the cloud. */
  ghost function SecondStage(spec: Spec): Stage {
    if !CloudOut(spec) && spec.initializerDisabled then Initialized else Initialization
  }

  ghost predicate InitializerComes(spec: Spec, o: Oracle) {
    && Valid(spec) && SecondStage(spec) == Initialization && o.patch1 == Patched && o.patch2 == Patched
    && spec.scriptParses && o.initializer != Failed
  }

  /**
   * In stage "", invalid arguments lead to stage error. Else the initial conditions are stored, then the next stage,
   * and then the initializer comes, each only after the status before it was stored and known to be.
   */
  lemma InitializesExactly(spec: Spec, w: World, o: Oracle)
    requires Reachable(spec, w) && w.status.stage == EmptyStage
    requires Acts(spec, w, o) && !Aborts(spec, w, o)
    ensures var w' := Reconcile(spec, w, o);
            var first := if w.status.conditions == map[] then FirstStatus(spec, Time1(w, o)) else w.status;
            && w'.status == (if !TakesEffect(o.patch1) then w.status
                             else if !Valid(spec) then w.status.(stage := ErrorStage)
                             else if o.patch1 == Patched && TakesEffect(o.patch2)
                             then first.(stage := SecondStage(spec)) else first)
            && w'.cluster == w.cluster.(initializer := w.cluster.initializer || InitializerComes(spec, o))
            && NewEvents(w, w') == if InitializerComes(spec, o) then [InitializerCreated] else []
  {
    hide *;
    var now := w.(clock := Time2(w, o));
    StatusOfReachable(spec, w, o);
    ActsOnStage(spec, w, o);
    EmptyReconciles(spec, w, o);
    NoInitializer(spec, w);
    InitializesWith(spec, now, w.status, o, Time1(w, o));
    NewIs(w, Reconcile(spec, w, o), if InitializerComes(spec, o) then [InitializerCreated] else []);
  }

  lemma NoInitializer(spec: Spec, w: World)
    requires Reachable(spec, w) && w.status.stage == EmptyStage
    ensures !w.cluster.initializer
  {
    hide Reachable, HistoryOk, LogOk, LaunchedSoFar;
    ReachableInv(spec, w);
  }

  lemma StageStores(w: World, stage: Stage, answer: PatchAnswer)
    requires w.present && AcceptsStage(w.status.stage, stage)
    ensures var p := w.status.(stage := stage);
            UpdateStatus(w, p, answer) == Updated(StoredIf(w, p, answer), p, answer == Patched,
                                                  answer != Patched && answer != Gone)
  {
    ProposalStored(w, w.status.(stage := stage), answer);
  }

  lemma InitializesWith(spec: Spec, w: World, k6: Status, o: Oracle, now: int)
    requires k6 == w.status && w.present && StatusOk(spec, k6) && NotAfter(k6, now - 1) && k6.stage == EmptyStage
    requires !w.cluster.initializer
    ensures var w' := OnEmpty(spec, w, k6, o, now);
            var first := if k6.conditions == map[] then FirstStatus(spec, now) else k6;
            && w'.status == (if !TakesEffect(o.patch1) then k6
                             else if !Valid(spec) then k6.(stage := ErrorStage)
                             else if o.patch1 == Patched && TakesEffect(o.patch2)
                             then first.(stage := SecondStage(spec)) else first)
            && w'.cluster == w.cluster.(initializer := w.cluster.initializer || InitializerComes(spec, o))
            && w'.log == w.log + if InitializerComes(spec, o) then [InitializerCreated] else []
  {
    hide UpdateStatus, FirstStatus, StatusOk, NotAfter, Initialize, InitializeJobs, HasCloudOut, StoredIf;
    assert HasCloudOut(spec) == CloudOut(spec) by { SameCloudOut(spec); }
    hide CloudOut;
    assert w.log + [] == w.log;
    if !ArgumentsValid(spec) {
      StageStores(w, ErrorStage, o.patch1);
      StoredIfIs(w, k6.(stage := ErrorStage), o.patch1);
    } else {
      var first := if k6.conditions == map[] then FirstStatus(spec, now) else k6;
      InitializeStores(spec, w, k6, o.patch1, now);
      var u := UpdateStatus(w, Initialize(spec, k6, now), o.patch1);
      StoredIfIs(w, first, o.patch1);
      if o.patch1 == Patched {
        FirstStage(spec, now);
        StageStores(u.w, SecondStage(spec), o.patch2);
        StoredIfIs(u.w, first.(stage := SecondStage(spec)), o.patch2);
        var v := UpdateStatus(u.w, first.(stage := SecondStage(spec)), o.patch2);
        assert InitializeJobs(spec, v.w, o)
               == if !spec.scriptParses || o.initializer.Failed? then v.w
                  else Logged(v.w, [InitializerCreated]).(cluster := v.w.cluster.(initializer := true)) by {
          InitializerCreates(spec, v.w, o);
        }
      } else if o.patch1 == Gone {
        AbsentUpdate(u.w, u.k6.(stage := Initialized), o.patch2);
        AbsentUpdate(u.w, u.k6.(stage := Initialization), o.patch2);
      }
    }
  }

  lemma SameCloudOut(spec: Spec)
    ensures HasCloudOut(spec) == CloudOut(spec)
  {
  }

  lemma FirstStage(spec: Spec, t: int)
    ensures FirstStatus(spec, t).stage == EmptyStage
  {
  }

  lemma InitializerCreates(spec: Spec, w: World, o: Oracle)
    requires !w.cluster.initializer
    ensures InitializeJobs(spec, w, o)
            == if !spec.scriptParses || o.initializer.Failed? then w
               else Logged(w, [InitializerCreated]).(cluster := w.cluster.(initializer := true))
  {
  }

  lemma AbsentUpdate(w: World, p: Status, answer: PatchAnswer)
    ensures !w.present ==> UpdateStatus(w, p, answer) == Updated(w, p, false, false)
  {
  }

  // Stage initialization.

  /** The conversion to a signed integer of 32 bits. */
  function Wrapped(n: nat): int {
    (n + 0x8000_0000) % 0x1_0000_0000 - 0x8000_0000
  }

  lemma WrappedIs(n: nat)
    ensures Int32(n) == Wrapped(n)
  {
  }

  /** The script was inspected, and there are enough VUs for every runner to have one. */
  ghost predicate Fits(spec: Spec, o: Oracle) {
    o.inspect1.Inspected? && Wrapped(o.inspect1.maxVUs) >= spec.parallelism
  }

  /** Inspection ends the run: it failed outside of PLZ runs, or there are not enough VUs. */
  ghost predicate Unfit(spec: Spec, o: Oracle) {
    || (o.inspect1.InspectFailed? && spec.testRunID == "")
    || (o.inspect1.Inspected? && Wrapped(o.inspect1.maxVUs) < spec.parallelism)
  }

  /** Whether the run has cloud output is already known. */
  ghost predicate Known(w: World) {
    IsTrue(w.status.conditions, CloudTestRun) || IsFalse(w.status.conditions, CloudTestRun)
  }

  /** What is known of the run after its script was inspected: a new cloud run still has to be created. */
  ghost function KnownStatus(spec: Spec, s: Status, t: int): Status {
    if IsTrue(s.conditions, CloudTestRun) || IsFalse(s.conditions, CloudTestRun) then s
    else if !CloudOut(spec) then s.(conditions := s.conditions[CloudTestRun := Cond(ConditionFalse, t)])
    else if spec.testRunID != "" then s.(conditions := s.conditions[CloudTestRun := Cond(ConditionTrue, t)])
    else s.(conditions := s.conditions[CloudTestRun := Cond(ConditionTrue, t)]
                                      [CloudTestRunCreated := Cond(ConditionFalse, t)]
                                      [CloudTestRunFinalized := Cond(ConditionFalse, t)])
  }

  /** The finding is there in memory, and the API server did not refuse it. */
  ghost predicate GoesOn(w: World, o: Oracle) {
    if Known(w) then o.patch1 != GetFailed else o.patch1 == Patched || o.patch1 == Gone
  }

  /** A run without cloud output, or that the cloud already knows, needs nothing more. */
  ghost predicate ReadyToLaunch(spec: Spec, w: World) {
    !CloudOut(spec) || IsTrue(w.status.conditions, CloudTestRunCreated)
  }

  lemma ClassifiedIs(spec: Spec, s: Status, now: int)
    requires StatusOk(spec, s) && s.stage == Initialization
    ensures Classified(spec, s, now) == KnownStatus(spec, s, now)
    ensures IsTrue(s.conditions, CloudPLZTestRun) <==> IsPLZ(spec)
    ensures var c := KnownStatus(spec, s, now).conditions;
            && (IsFalse(c, CloudTestRun) <==> !CloudOut(spec)) && (IsTrue(c, CloudTestRun) <==> CloudOut(spec))
            && (CloudOut(spec) ==> (IsFalse(c, CloudTestRunCreated) <==> !IsTrue(s.conditions, CloudTestRunCreated)))
  {
    assert HasCloudOut(spec) == CloudOut(spec);
    hide HasCloudOut, CloudOut;
  }

  lemma ClassifiedStores(spec: Spec, w: World, k6: Status, answer: PatchAnswer, now: int)
    requires k6 == w.status && w.present && StatusOk(spec, k6) && NotAfter(k6, now - 1) && k6.stage == Initialization
    ensures var p := KnownStatus(spec, k6, now);
            var u := UpdateStatus(w, Classified(spec, k6, now), answer);
            && u.k6 == p
            && u.failed == (if Known(w) then answer == GetFailed else answer != Patched && answer != Gone)
            && u.w.status == (if TakesEffect(answer) then p else k6)
            && u.w.present == (answer != Gone)
            && u.w.cluster == w.cluster && u.w.log == w.log
  {
    ClassifiedIs(spec, k6, now);
    var p := KnownStatus(spec, k6, now);
    if Known(w) {
      SelfStored(w, answer);
      KnownAlready(spec, k6, now);
    } else {
      KnownMovesOn(spec, k6, now);
      ProposalStored(w, p, answer);
    }
    hide UpdateStatus, StatusOk, KnownStatus, Classified, Forward;
  }

  lemma KnownMovesOn(spec: Spec, s: Status, now: int)
    requires StatusOk(spec, s) && NotAfter(s, now - 1) && s.stage == Initialization
    requires !IsTrue(s.conditions, CloudTestRun) && !IsFalse(s.conditions, CloudTestRun)
    ensures var p := KnownStatus(spec, s, now);
            p != s && Forward(s.conditions, p.conditions)
            && p.testRunID == s.testRunID && p.aggregationVars == s.aggregationVars && p.stage == s.stage
  {
    hide HasCloudOut, CloudOut;
  }

  lemma InitializationReconciles(spec: Spec, w: World, o: Oracle)
    requires Acts(spec, w, o) && !Aborts(spec, w, o) && w.status.stage == Initialization
    ensures Reconcile(spec, w, o)
            == OnInitialization(spec, w.(clock := Time2(w, o)), w.status, o, Time1(w, o), Time2(w, o))
  {
    hide OnInitialization, StopJobs;
  }

  /** A creation in the cloud is due: five seconds or more after it was found that there is none, with a client. */
  ghost predicate Creates(spec: Spec, w: World, o: Oracle) {
    && Fits(spec, o) && CloudOut(spec) && IsTrue(w.status.conditions, CloudTestRun)
    && IsFalse(w.status.conditions, CloudTestRunCreated) && o.patch1 != GetFailed
    && Time2(w, o) - w.status.conditions[CloudTestRunCreated].since >= 5_000_000_000
    && o.inspect2.Inspected? && !o.inspect2.nullThreshold && o.reply.Reply? && o.reply.id != ""
  }

  ghost function WithRun(s: Status, id: string, config: Aggregation.RuntimeConfig, t: int): Status {
    s.(testRunID := id, aggregationVars := Aggregation.Encode(config),
       conditions := s.conditions[CloudTestRunCreated := Cond(ConditionTrue, t)])
  }

  /**
   * In stage initialization, stage error is stored exactly if the script is unfit; else what was found about cloud
   * output is stored, and stage initialized exactly if the run needs nothing more from the cloud, or what the cloud
   * created for it.
   */
  lemma ValidatesExactly(spec: Spec, w: World, o: Oracle)
    requires Reachable(spec, w) && Honest(w, o) && w.status.stage == Initialization
    requires Acts(spec, w, o) && !Aborts(spec, w, o)
    ensures var w' := Reconcile(spec, w, o);
            var found := if TakesEffect(o.patch1) then KnownStatus(spec, w.status, Time1(w, o)) else w.status;
            && w'.status
               == (if Unfit(spec, o) then
                     if TakesEffect(o.patch1) then w.status.(stage := ErrorStage) else w.status
                   else if !Fits(spec, o) then w.status
                   else if GoesOn(w, o) && o.patch1 != Gone && ReadyToLaunch(spec, w) && TakesEffect(o.patch2)
                   then found.(stage := Initialized)
                   else if Creates(spec, w, o) && o.patch1 != Gone && o.reply.config.Some? && TakesEffect(o.patch2)
                   then WithRun(w.status, o.reply.id, o.reply.config.value, Time2(w, o))
                   else found)
            && w'.cluster == w.cluster
            && forall e | e in NewEvents(w, w') :: e.Panicked? || e.CloudRunCreated?
  {
    hide *;
    var now := w.(clock := Time2(w, o));
    StatusOfReachable(spec, w, o);
    ActsOnStage(spec, w, o);
    InitializationReconciles(spec, w, o);
    ScriptParses(spec, w, o);
    ValidatesWith(spec, w, now, o);
  }

  lemma ScriptParses(spec: Spec, w: World, o: Oracle)
    requires Reachable(spec, w) && Honest(w, o)
    ensures o.inspect2.Inspected? ==> spec.scriptParses
  {
    hide Reachable, HistoryOk, LogOk, LaunchedSoFar;
    ReachableInv(spec, w);
  }

  ghost predicate CloudEventsOnly(w: World, w': World) {
    && w.log <= w'.log
    && forall e | e in w'.log[|w.log|..] :: e.Panicked? || e.CloudRunCreated?
  }

  lemma CloudEventsSince(w: World, now: World, w': World)
    requires now.log == w.log && CloudEventsOnly(now, w')
    ensures forall e | e in NewEvents(w, w') :: e.Panicked? || e.CloudRunCreated?
  {
  }

  lemma SameLogEvents(w: World, w': World)
    requires w'.log == w.log
    ensures CloudEventsOnly(w, w')
  {
  }

  lemma LoggedEvents(w: World, w': World, more: seq<Event>)
    requires w'.log == w.log + more && forall e | e in more :: e.Panicked? || e.CloudRunCreated?
    ensures CloudEventsOnly(w, w')
  {
  }

  lemma RunStored(spec: Spec, w: World, k6: Status, id: string, config: Aggregation.RuntimeConfig,
                  answer: PatchAnswer, now: int)
    requires k6 == w.status && w.present && StatusOk(spec, k6) && NotAfter(k6, now - 1) && k6.stage == Initialization
    requires IsFalse(k6.conditions, CloudTestRunCreated) && id != ""
    ensures var w' := CloudCreated(w, k6, id, Some(config), answer, now);
            && w'.status == (if TakesEffect(answer) then WithRun(k6, id, config, now) else k6)
            && w'.cluster == w.cluster && w'.log == w.log + [CloudRunCreated(id, Some(config))]
  {
    var vars := Aggregation.Encode(config);
    var p := Set(k6.(testRunID := id, aggregationVars := vars), CloudTestRunCreated, ConditionTrue, now);
    CreatedMerged(spec, k6, id, vars, now);
    assert p == WithRun(k6, id, config, now);
    assert Newer(k6.conditions[CloudTestRunCreated], p.conditions[CloudTestRunCreated]);
    hide Merge, StatusOk, NotAfter, Sound, Set, WithRun, Aggregation.Encode;
  }

  /** The cloud creates the run. */
  ghost predicate RunComes(k6: Status, client: bool, o: Oracle, now: int)
    requires CloudTestRunCreated in k6.conditions
  {
    && o.inspect2.Inspected? && now - k6.conditions[CloudTestRunCreated].since >= 5_000_000_000
    && client && !o.inspect2.nullThreshold && o.reply.Reply? && o.reply.id != ""
  }

  lemma SetupStores(spec: Spec, w: World, k6: Status, client: bool, o: Oracle, now: int)
    requires CloudTestRunCreated in k6.conditions && (o.inspect2.Inspected? ==> spec.scriptParses)
    ensures var w' := SetupCloudTest(spec, w, k6, client, o, now);
            if RunComes(k6, client, o, now) then
              w' == CloudCreated(w, k6, o.reply.id, o.reply.config, o.patch2, now)
            else w' == w.(log := w'.log) && CloudEventsOnly(w, w')
  {
    hide CloudCreated;
  }

  lemma CreatedEvents(w: World, k6: Status, id: string, config: Option<Aggregation.RuntimeConfig>,
                      answer: PatchAnswer, now: int)
    ensures var w' := CloudCreated(w, k6, id, config, answer, now);
            && w'.cluster == w.cluster && CloudEventsOnly(w, w')
            && (!w.present || config.None? ==> w'.status == w.status)
  {
    hide Merge, IsNewer, Set, Aggregation.Encode;
    var w' := CloudCreated(w, k6, id, config, answer, now);
    if config.None? {
      assert w'.log == w.log + ([CloudRunCreated(id, config)] + [Panicked]);
      LoggedEvents(w, w', [CloudRunCreated(id, config)] + [Panicked]);
    } else {
      LoggedEvents(w, w', [CloudRunCreated(id, config)]);
    }
  }

  lemma UnfitStores(spec: Spec, w: World, k6: Status, o: Oracle, now1: int, now2: int)
    requires k6 == w.status && w.present && StatusOk(spec, k6) && k6.stage == Initialization && !Fits(spec, o)
    ensures var w' := OnInitialization(spec, w, k6, o, now1, now2);
            && w'.status == (if Unfit(spec, o) && TakesEffect(o.patch1) then k6.(stage := ErrorStage) else k6)
            && w'.cluster == w.cluster && CloudEventsOnly(w, w')
  {
    hide HasCloudOut;
    PLZOfStage(spec, k6);
    StageStores(w, ErrorStage, o.patch1);
    StoredIfIs(w, k6.(stage := ErrorStage), o.patch1);
    if o.inspect1.Inspected? {
      WrappedIs(o.inspect1.maxVUs);
    }
    hide UpdateStatus, StatusOk, IsTrue, Int32, Wrapped, TakesEffect, StoredIf, IsCloudTestRun, LastUpdate, Classified;
    var w' := OnInitialization(spec, w, k6, o, now1, now2);
    var w1 := RunValidations(spec, w, k6, o, now1).0;
    assert w1.log == w.log && (w' == w1 || w' == Logged(w1, [Panicked]));
    hide RunValidations, OnInitialization, CloudEventsOnly;
    assert CloudEventsOnly(w, w') by { NotGoingOn(w, w1, w'); }
  }

  /** The reconcile is past the first update. */
  ghost predicate Passed(spec: Spec, w: World, p: Status, o: Oracle, now: World) {
    && now.status == (if TakesEffect(o.patch1) then p else w.status) && now.present == (o.patch1 != Gone)
    && now.cluster == w.cluster && now.log == w.log
  }

  lemma FitReconciles(spec: Spec, w: World, k6: Status, o: Oracle, now1: int, now2: int) returns (now: World)
    requires k6 == w.status && w.present && StatusOk(spec, k6) && NotAfter(k6, now1 - 1) && k6.stage == Initialization
    requires Fits(spec, o)
    ensures var p := KnownStatus(spec, k6, now1);
            var w' := OnInitialization(spec, w, k6, o, now1, now2);
            && Passed(spec, w, p, o, now)
            && (!GoesOn(w, o) ==> w' == now || w' == Logged(now, [Panicked]))
            && (GoesOn(w, o) ==>
                  w' == if ReadyToLaunch(spec, w) then UpdateStatus(now, p.(stage := Initialized), o.patch2).w
                        else SetupCloudTest(spec, now, p, IsCloudTestRun(k6), o, now2))
  {
    WrappedIs(o.inspect1.maxVUs);
    ClassifiedStores(spec, w, k6, o.patch1, now1);
    ClassifiedIs(spec, k6, now1);
    now := UpdateStatus(w, Classified(spec, k6, now1), o.patch1).w;
    hide UpdateStatus, StatusOk, Classified, KnownStatus, Int32, Wrapped, TakesEffect, IsTrue, IsFalse, SetupCloudTest,
         CloudOut;
    NotBoth(KnownStatus(spec, k6, now1).conditions, CloudTestRun);
  }

  lemma ValidatesWith(spec: Spec, w: World, now: World, o: Oracle)
    requires w.present && StatusOk(spec, w.status) && w.status.stage == Initialization
    requires NotAfter(w.status, Time1(w, o) - 1) && NotAfter(w.status, Time2(w, o) - 1)
    requires now == w.(clock := Time2(w, o)) && (o.inspect2.Inspected? ==> spec.scriptParses)
    ensures var w' := OnInitialization(spec, now, w.status, o, Time1(w, o), Time2(w, o));
            var found := if TakesEffect(o.patch1) then KnownStatus(spec, w.status, Time1(w, o)) else w.status;
            && w'.status
               == (if Unfit(spec, o) then
                     if TakesEffect(o.patch1) then w.status.(stage := ErrorStage) else w.status
                   else if !Fits(spec, o) then w.status
                   else if GoesOn(w, o) && o.patch1 != Gone && ReadyToLaunch(spec, w) && TakesEffect(o.patch2)
                   then found.(stage := Initialized)
                   else if Creates(spec, w, o) && o.patch1 != Gone && o.reply.config.Some? && TakesEffect(o.patch2)
                   then WithRun(w.status, o.reply.id, o.reply.config.value, Time2(w, o))
                   else found)
            && w'.cluster == w.cluster
            && forall e | e in NewEvents(w, w') :: e.Panicked? || e.CloudRunCreated?
  {
    var k6, t1, t2 := w.status, Time1(w, o), Time2(w, o);
    var w' := OnInitialization(spec, now, k6, o, t1, t2);
    hide OnInitialization, StatusOk, NotAfter, NewEvents, KnownStatus, WithRun, ReadyToLaunch, UpdateStatus, Wrapped,
         SetupCloudTest, CloudOut, IsTrue, IsFalse, CloudEventsOnly, RunComes, CloudCreated, IsCloudTestRun, GoesOn,
         Creates;
    if !Fits(spec, o) {
      UnfitStores(spec, now, k6, o, t1, t2);
      CloudEventsSince(w, now, w');
    } else {
      assert !Unfit(spec, o);
      var passed := FitReconciles(spec, now, k6, o, t1, t2);
      SameReadiness(spec, w, now, o);
      CreatesOnlyThen(spec, w, o);
      if !GoesOn(w, o) {
        NotGoingOn(now, passed, w');
      } else if ReadyToLaunch(spec, w) {
        ReadyStores(spec, now, passed, o, t1);
      } else {
        CreationStores(spec, w, passed, o);
        EventsAs(now, w, w');
      }
      CloudEventsSince(w, now, w');
    }
  }

  lemma CreatesOnlyThen(spec: Spec, w: World, o: Oracle)
    ensures Creates(spec, w, o) ==> GoesOn(w, o) && !ReadyToLaunch(spec, w)
  {
  }

  lemma SameReadiness(spec: Spec, w: World, now: World, o: Oracle)
    requires now.status == w.status
    ensures ReadyToLaunch(spec, now) == ReadyToLaunch(spec, w) && GoesOn(now, o) == GoesOn(w, o)
  {
  }

  lemma NotGoingOn(now: World, passed: World, w': World)
    requires passed.log == now.log && (w' == passed || w' == Logged(passed, [Panicked]))
    ensures CloudEventsOnly(now, w')
  {
  }

  lemma KnownAlready(spec: Spec, s: Status, t: int)
    ensures IsTrue(s.conditions, CloudTestRun) || IsFalse(s.conditions, CloudTestRun) ==> KnownStatus(spec, s, t) == s
    ensures KnownStatus(spec, s, t).stage == s.stage
  {
  }

  lemma ReadyStores(spec: Spec, now: World, passed: World, o: Oracle, t: int)
    requires now.present && now.status.stage == Initialization && GoesOn(now, o)
    requires Passed(spec, now, KnownStatus(spec, now.status, t), o, passed)
    ensures var p := KnownStatus(spec, now.status, t);
            var w' := UpdateStatus(passed, p.(stage := Initialized), o.patch2).w;
            && w'.status == (if o.patch1 != Gone && TakesEffect(o.patch2) then p.(stage := Initialized)
                             else passed.status)
            && w'.cluster == passed.cluster && CloudEventsOnly(now, w')
            && (o.patch1 != Gone ==> passed.status == p)
  {
    hide KnownStatus, UpdateStatus, IsTrue, IsFalse;
    var p := KnownStatus(spec, now.status, t);
    KnownAlready(spec, now.status, t);
    if o.patch1 == Gone {
      AbsentStays(passed, p.(stage := Initialized), o.patch2);
    } else {
      assert passed.status == p;
      StageStores(passed, Initialized, o.patch2);
      StoredIfIs(passed, p.(stage := Initialized), o.patch2);
    }
    SameLogEvents(now, UpdateStatus(passed, p.(stage := Initialized), o.patch2).w);
  }

  lemma NotReadyFacts(spec: Spec, s: Status, t: int)
    requires StatusOk(spec, s) && s.stage == Initialization
    requires CloudOut(spec) && !IsTrue(s.conditions, CloudTestRunCreated)
    ensures IsCloudTestRun(s) == IsTrue(s.conditions, CloudTestRun)
    ensures IsTrue(s.conditions, CloudTestRun) ==> IsFalse(s.conditions, CloudTestRunCreated)
    ensures !IsFalse(s.conditions, CloudTestRun) && CloudTestRunCreated in KnownStatus(spec, s, t).conditions
  {
    assert HasCloudOut(spec) == CloudOut(spec);
    hide HasCloudOut, CloudOut;
  }

  lemma CreationStores(spec: Spec, w: World, now: World, o: Oracle)
    requires w.present && StatusOk(spec, w.status) && w.status.stage == Initialization
    requires NotAfter(w.status, Time2(w, o) - 1) && (o.inspect2.Inspected? ==> spec.scriptParses)
    requires Fits(spec, o) && GoesOn(w, o) && !ReadyToLaunch(spec, w)
    requires Passed(spec, w, KnownStatus(spec, w.status, Time1(w, o)), o, now)
    ensures var p, t2 := KnownStatus(spec, w.status, Time1(w, o)), Time2(w, o);
            var w' := SetupCloudTest(spec, now, p, IsCloudTestRun(w.status), o, t2);
            && w'.status == (if Creates(spec, w, o) && o.patch1 != Gone && o.reply.config.Some? && TakesEffect(o.patch2)
                             then WithRun(w.status, o.reply.id, o.reply.config.value, t2) else now.status)
            && w'.cluster == w.cluster && CloudEventsOnly(w, w')
  {
    var k6, p, t2 := w.status, KnownStatus(spec, w.status, Time1(w, o)), Time2(w, o);
    hide StatusOk, NotAfter, KnownStatus, WithRun, SetupCloudTest, IsTrue, IsFalse, CloudCreated, CloudEventsOnly,
         IsCloudTestRun, CloudOut, Wrapped, TakesEffect;
    NotReadyFacts(spec, k6, Time1(w, o));
    KnownAlready(spec, k6, Time1(w, o));
    SetupStores(spec, now, p, IsCloudTestRun(k6), o, t2);
    if IsTrue(k6.conditions, CloudTestRun) && RunComes(p, true, o, t2) {
      CreatedEvents(now, p, o.reply.id, o.reply.config, o.patch2, t2);
      if now.present && o.reply.config.Some? {
        RunStored(spec, now, k6, o.reply.id, o.reply.config.value, o.patch2, t2);
      }
    }
    var w' := SetupCloudTest(spec, now, p, IsCloudTestRun(k6), o, t2);
    EventsAs(w, now, w');
  }

  lemma EventsAs(w: World, now: World, w': World)
    requires now.log == w.log && CloudEventsOnly(now, w')
    ensures CloudEventsOnly(w, w')
  {
  }

  // Stage initialized.

  /** The runners start to be launched: none was before, and their jobs can be built. */
  ghost predicate Begins(spec: Spec, w: World, o: Oracle) {
    && (IsTrue(w.status.conditions, CloudTestRun) && IsTrue(w.status.conditions, CloudTestRunCreated) ==> o.jobToken)
    && o.lookup && 1 !in w.cluster.jobs && spec.scriptParses
    && (spec.testRunID == "" && w.status.testRunID != "" ==> Aggregation.Decoded(w.status.aggregationVars).Some?)
  }

  /** Some creation of a job or a service does not succeed. */
  ghost predicate Interrupted(spec: Spec, o: Oracle) {
    || (o.fault.JobFault? && 1 <= o.fault.at <= spec.parallelism)
    || (o.fault.ServiceFault? && 1 <= o.fault.at <= spec.parallelism)
  }

  /** How many jobs and services come: the one whose answer is lost comes all the same. */
  ghost function JobsUntil(spec: Spec, o: Oracle): nat
    requires spec.parallelism >= 1
  {
    if Interrupted(spec, o) && o.fault == JobFault(o.fault.at, false) then o.fault.at - 1
    else if Interrupted(spec, o) then o.fault.at
    else spec.parallelism
  }

  ghost function ServicesUntil(spec: Spec, o: Oracle): nat
    requires spec.parallelism >= 1
  {
    if Interrupted(spec, o) && o.fault == ServiceFault(o.fault.at, true) then o.fault.at
    else if Interrupted(spec, o) then o.fault.at - 1
    else spec.parallelism
  }

  /** One job and its service after the other, from the first runner on. */
  ghost predicate InTurn(events: seq<Event>, jobs: nat, services: nat) {
    && |events| == jobs + services
    && (forall i | 1 <= i <= jobs :: 2 * i - 2 < |events| && events[2 * i - 2] == JobCreated(i))
    && (forall i | 1 <= i <= services :: 2 * i - 1 < |events| && events[2 * i - 1] == ServiceCreated(i))
  }

  lemma {:induction false} LaunchesInTurn(k: nat)
    ensures InTurn(Launches(k), k, k)
  {
    if k == 0 {
    } else {
      LaunchesInTurn(k - 1);
    }
  }

  lemma LaunchingInTurn(jobs: nat, services: nat)
    requires services <= jobs <= services + 1
    ensures InTurn(Launching(jobs, services), jobs, services)
  {
    LaunchesInTurn(services);
  }

  lemma InitializedReconciles(spec: Spec, w: World, o: Oracle)
    requires Acts(spec, w, o) && !Aborts(spec, w, o) && w.status.stage == Initialized
    ensures Reconcile(spec, w, o) == CreateJobs(spec, w.(clock := Time2(w, o)), w.status, o)
  {
    hide CreateJobs, StopJobs;
  }

  /**
   * In stage initialized, the runners are launched in turn up to the first failure, if they can be at all; stage
   * created is stored exactly if all of them were, in this very reconcile, and the status can be stored.
   */
  lemma LaunchesExactly(spec: Spec, w: World, o: Oracle)
    requires Reachable(spec, w) && w.status.stage == Initialized
    requires Acts(spec, w, o) && !Aborts(spec, w, o)
    ensures var w' := Reconcile(spec, w, o);
            var begins := Begins(spec, w, o);
            var jobs, services := if begins then JobsUntil(spec, o) else 0, if begins then ServicesUntil(spec, o) else 0;
            && w'.status == (if begins && !Interrupted(spec, o) && TakesEffect(o.patch1)
                             then w.status.(stage := Created) else w.status)
            && (forall i :: i in w'.cluster.jobs <==> i in w.cluster.jobs || 1 <= i <= jobs)
            && (forall i :: i in w'.cluster.services <==> i in w.cluster.services || 1 <= i <= services)
            && w'.cluster == w.cluster.(jobs := w'.cluster.jobs, services := w'.cluster.services)
            && InTurn(NewEvents(w, w'), jobs, services)
  {
    hide *;
    var now := w.(clock := Time2(w, o));
    StatusOfReachable(spec, w, o);
    ActsOnStage(spec, w, o);
    InitializedReconciles(spec, w, o);
    PLZOfStage(spec, w.status);
    LaunchesWith(spec, w, now, o);
    LaunchedEvents(spec, w, Reconcile(spec, w, o), o);
  }

  lemma LaunchedEvents(spec: Spec, w: World, w': World, o: Oracle)
    requires spec.parallelism >= 1
    requires var begins := Begins(spec, w, o);
             w'.log == w.log + if begins then Launching(JobsUntil(spec, o), ServicesUntil(spec, o)) else []
    ensures var begins := Begins(spec, w, o);
            InTurn(NewEvents(w, w'), if begins then JobsUntil(spec, o) else 0,
                   if begins then ServicesUntil(spec, o) else 0)
  {
    if Begins(spec, w, o) {
      LaunchingInTurn(JobsUntil(spec, o), ServicesUntil(spec, o));
      hide Launching, InTurn;
      NewIs(w, w', Launching(JobsUntil(spec, o), ServicesUntil(spec, o)));
    } else {
      NewIs(w, w', []);
    }
  }

  lemma LaunchesWith(spec: Spec, w: World, now: World, o: Oracle)
    requires w.present && now == w.(clock := now.clock) && w.status.stage == Initialized && spec.parallelism >= 1
    requires IsTrue(w.status.conditions, CloudPLZTestRun) <==> IsPLZ(spec)
    ensures var w' := CreateJobs(spec, now, w.status, o);
            var begins := Begins(spec, w, o);
            var jobs, services := if begins then JobsUntil(spec, o) else 0, if begins then ServicesUntil(spec, o) else 0;
            && w'.status == (if begins && !Interrupted(spec, o) && TakesEffect(o.patch1)
                             then w.status.(stage := Created) else w.status)
            && (forall i :: i in w'.cluster.jobs <==> i in w.cluster.jobs || 1 <= i <= jobs)
            && (forall i :: i in w'.cluster.services <==> i in w.cluster.services || 1 <= i <= services)
            && w'.cluster == w.cluster.(jobs := w'.cluster.jobs, services := w'.cluster.services)
            && w'.log == w.log + if begins then Launching(JobsUntil(spec, o), ServicesUntil(spec, o)) else []
  {
    hide Launched, Launching, UpdateStatus, IsTrue, TakesEffect, Aggregation.Decoded, StoredIf;
    var k6 := w.status;
    assert w.log + [] == w.log;
    if Begins(spec, w, o) {
      var jobs, services := JobsUntil(spec, o), ServicesUntil(spec, o);
      LaunchedIs(now, jobs, services);
      var w1 := Launched(now, jobs, services);
      LaunchAllIs(spec, now, k6, o);
      hide LaunchAll, JobsUntil, ServicesUntil, Interrupted;
      StageStores(w1, Created, o.patch1);
      StoredIfIs(w1, k6.(stage := Created), o.patch1);
    }
  }

  lemma LaunchAllIs(spec: Spec, w: World, k6: Status, o: Oracle)
    requires spec.parallelism >= 1 && RunnerJobOk(spec, k6)
    ensures LaunchAll(spec, w, k6, o.fault)
            == (Launched(w, JobsUntil(spec, o), ServicesUntil(spec, o)), !Interrupted(spec, o))
  {
    hide Launched, RunnerJobOk;
  }

  lemma LaunchedIs(w: World, jobs: nat, services: nat)
    ensures var w' := Launched(w, jobs, services);
            && w'.status == w.status && w'.present == w.present && w'.log == w.log + Launching(jobs, services)
            && w'.cluster == w.cluster.(jobs := w'.cluster.jobs, services := w'.cluster.services)
            && (forall i :: i in w'.cluster.jobs <==> i in w.cluster.jobs || 1 <= i <= jobs)
            && (forall i :: i in w'.cluster.services <==> i in w.cluster.services || 1 <= i <= services)
  {
  }
}
