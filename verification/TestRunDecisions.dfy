/** When exactly the status moves to a stage, and when exactly something happens in the cluster or the cloud. */
module TestRunDecisions {
  import opened Text
  import opened Conditions
  import opened TestRunStatus
  import opened TestRunModel
  import opened TestRunInvariants
  import opened TestRunSteps
  import opened TestRunTheorems
  import opened TestRunOutcomes
  import opened TestRunBeginnings
  import Aggregation

  /** This reconcile does what its stage is for. */
  ghost predicate Works(spec: Spec, w: World, o: Oracle) {
    Acts(spec, w, o) && !Aborts(spec, w, o)
  }

  /** The cloud wants the run to be aborted, and that is not stored yet. */
  ghost predicate AbortWanted(spec: Spec, w: World, o: Oracle) {
    && Acts(spec, w, o)
    && (Aborts(spec, w, o) || (w.status.stage == Started && spec.testRunID == "" && AbortsLate(spec, w, o)))
  }

  /** All that stage started waits for, but for the patch. */
  ghost predicate Starts(spec: Spec, w: World, o: Oracle) {
    && Works(spec, w, o) && w.status.stage == Created && RunnersAnswer(spec, w, o) && SetUp(spec, w, o)
    && o.job.Create? && (w.cluster.starter || o.job.call == Done)
  }

  /** The runners of a started run have come to their end. */
  ghost predicate Ends(spec: Spec, w: World, o: Oracle) {
    && Works(spec, w, o) && w.status.stage == Started
    && if spec.testRunID == "" then RunnersDone(spec, o) else IsTrue(w.status.conditions, TeardownExecuted)
  }

  /** The stage that a reconcile moves to, if it can store it. */
  ghost predicate MovesTo(spec: Spec, w: World, o: Oracle, stage: Stage) {
    match stage
    case EmptyStage => false
    case Initialization =>
      && Works(spec, w, o) && w.status.stage == EmptyStage && Valid(spec) && o.patch1 == Patched
      && (CloudOut(spec) || !spec.initializerDisabled) && TakesEffect(o.patch2)
    case Initialized =>
      && Works(spec, w, o) && TakesEffect(o.patch2)
      && ((w.status.stage == EmptyStage && Valid(spec) && o.patch1 == Patched
           && !CloudOut(spec) && spec.initializerDisabled)
          || (w.status.stage == Initialization && Fits(spec, o) && GoesOn(w, o) && o.patch1 != Gone
              && ReadyToLaunch(spec, w)))
    case Created =>
      && Works(spec, w, o) && w.status.stage == Initialized && Begins(spec, w, o) && !Interrupted(spec, o)
      && TakesEffect(o.patch1)
    case Started => Starts(spec, w, o) && TakesEffect(o.patch1)
    case Stopped =>
      && w.status.stage !in {Stopped, Finished, ErrorStage} && TakesEffect(o.patch1)
      && if AbortWanted(spec, w, o) then StopperThere(w, o) else Ends(spec, w, o)
    case Finished =>
      && Works(spec, w, o) && w.status.stage == Stopped && Finishes(spec, w, o) && TakesEffect(o.patch2)
      && !(Kills(spec, w, o) && o.patch1 == Gone)
    case ErrorStage =>
      && Works(spec, w, o) && TakesEffect(o.patch1)
      && ((w.status.stage == EmptyStage && !Valid(spec)) || (w.status.stage == Initialization && Unfit(spec, o)))
  }

  /** A reconcile of a reachable world moves to a stage exactly if what that stage is preceded by holds. */
  lemma MovesExactly(spec: Spec, w: World, o: Oracle, stage: Stage)
    requires Reachable(spec, w) && Honest(w, o) && stage != w.status.stage
    ensures Reconcile(spec, w, o).status.stage == stage <==> MovesTo(spec, w, o, stage)
  {
    hide *;
    if !Acts(spec, w, o) {
      NothingWithoutActing(spec, w, o);
      StandsStill(spec, w, o, stage);
    } else if Aborts(spec, w, o) {
      AbortsExactly(spec, w, o);
      AbortMoves(spec, w, o, stage);
    } else {
      match w.status.stage {
        case EmptyStage =>
          InitializesExactly(spec, w, o);
          EmptyMoves(spec, w, o, stage);
        case Initialization =>
          ValidatesExactly(spec, w, o);
          InitializationMoves(spec, w, o, stage);
        case Initialized =>
          LaunchesExactly(spec, w, o);
          InitializedMoves(spec, w, o, stage);
        case Created =>
          StartsExactly(spec, w, o);
          CreatedMoves(spec, w, o, stage);
        case Started =>
          if spec.testRunID == "" {
            StopsExactly(spec, w, o);
          } else {
            TearsDownExactly(spec, w, o);
          }
          StartedMoves(spec, w, o, stage);
        case Stopped =>
          FinishesExactly(spec, w, o);
          StoppedMoves(spec, w, o, stage);
        case Finished =>
          CleansUpExactly(spec, w, o);
          LastMoves(spec, w, o, stage);
        case ErrorStage =>
          CleansUpExactly(spec, w, o);
          LastMoves(spec, w, o, stage);
      }
    }
  }

  lemma StandsStill(spec: Spec, w: World, o: Oracle, stage: Stage)
    requires !Acts(spec, w, o)
    ensures !MovesTo(spec, w, o, stage)
  {
    hide Acts, Aborts;
  }

  lemma AbortMoves(spec: Spec, w: World, o: Oracle, stage: Stage)
    requires Acts(spec, w, o) && Aborts(spec, w, o) && stage != w.status.stage
    ensures MovesTo(spec, w, o, stage)
            <==> (if StopperThere(w, o) && TakesEffect(o.patch1) then Aborted(w.status, Time1(w, o)) else w.status).stage
                 == stage
  {
    hide Acts, Aborts, StopperThere, TakesEffect;
  }

  lemma EmptyMoves(spec: Spec, w: World, o: Oracle, stage: Stage)
    requires Acts(spec, w, o) && !Aborts(spec, w, o) && w.status.stage == EmptyStage && stage != EmptyStage
    ensures var first := if w.status.conditions == map[] then FirstStatus(spec, Time1(w, o)) else w.status;
            MovesTo(spec, w, o, stage)
            <==> (if !TakesEffect(o.patch1) then w.status
                  else if !Valid(spec) then w.status.(stage := ErrorStage)
                  else if o.patch1 == Patched && TakesEffect(o.patch2)
                  then first.(stage := SecondStage(spec)) else first).stage == stage
  {
    hide Acts, Aborts, Valid, CloudOut, StopperThere;
  }

  lemma InitializationMoves(spec: Spec, w: World, o: Oracle, stage: Stage)
    requires Acts(spec, w, o) && !Aborts(spec, w, o) && w.status.stage == Initialization && stage != Initialization
    ensures var found := if TakesEffect(o.patch1) then KnownStatus(spec, w.status, Time1(w, o)) else w.status;
            MovesTo(spec, w, o, stage)
            <==> (if Unfit(spec, o) then
                    if TakesEffect(o.patch1) then w.status.(stage := ErrorStage) else w.status
                  else if !Fits(spec, o) then w.status
                  else if GoesOn(w, o) && o.patch1 != Gone && ReadyToLaunch(spec, w) && TakesEffect(o.patch2)
                  then found.(stage := Initialized)
                  else if Creates(spec, w, o) && o.patch1 != Gone && o.reply.config.Some? && TakesEffect(o.patch2)
                  then WithRun(w.status, o.reply.id, o.reply.config.value, Time2(w, o))
                  else found).stage == stage
  {
    KnownAlready(spec, w.status, Time1(w, o));
    hide Acts, Aborts, StopperThere, GoesOn, Creates, ReadyToLaunch, KnownStatus, Wrapped;
  }

  lemma InitializedMoves(spec: Spec, w: World, o: Oracle, stage: Stage)
    requires Acts(spec, w, o) && !Aborts(spec, w, o) && w.status.stage == Initialized && stage != Initialized
    ensures MovesTo(spec, w, o, stage)
            <==> (if Begins(spec, w, o) && !Interrupted(spec, o) && TakesEffect(o.patch1)
                  then w.status.(stage := Created) else w.status).stage == stage
  {
    hide Acts, Aborts, StopperThere, Begins, Interrupted;
  }

  lemma CreatedMoves(spec: Spec, w: World, o: Oracle, stage: Stage)
    requires Acts(spec, w, o) && !Aborts(spec, w, o) && w.status.stage == Created && stage != Created
    ensures MovesTo(spec, w, o, stage)
            <==> (if RunnersAnswer(spec, w, o) && SetUp(spec, w, o) && o.job.Create?
                     && (w.cluster.starter || o.job.call == Done) && TakesEffect(o.patch1)
                  then Running(w.status, Time1(w, o)) else w.status).stage == stage
  {
    hide Acts, Aborts, StopperThere, RunnersAnswer, SetUp;
  }

  lemma StartedMoves(spec: Spec, w: World, o: Oracle, stage: Stage)
    requires Acts(spec, w, o) && !Aborts(spec, w, o) && w.status.stage == Started && stage != Started
    ensures spec.testRunID == "" ==>
              (MovesTo(spec, w, o, stage)
               <==> (if !TakesEffect(o.patch1) then w.status
                     else if RunnersDone(spec, o) then Ended(w.status, Time1(w, o))
                     else if AbortsLate(spec, w, o) && StopperThere(w, o) then Aborted(w.status, Time1(w, o))
                     else w.status).stage == stage)
    ensures spec.testRunID != "" ==>
              (MovesTo(spec, w, o, stage)
               <==> (if !TakesEffect(o.patch1) then w.status
                     else if IsTrue(w.status.conditions, TeardownExecuted) then Ended(w.status, Time1(w, o))
                     else if RunnersStoppedBy(w, o) && o.relisted then TornDown(w.status, Time1(w, o))
                     else w.status).stage == stage)
  {
    hide Acts, Aborts, StopperThere, RunnersDone, RunnersStoppedBy, IsTrue;
  }

  lemma StoppedMoves(spec: Spec, w: World, o: Oracle, stage: Stage)
    requires Acts(spec, w, o) && !Aborts(spec, w, o) && w.status.stage == Stopped && stage != Stopped
    ensures MovesTo(spec, w, o, stage)
            <==> (if Finishes(spec, w, o) && !(Kills(spec, w, o) && o.patch1 == Gone) && TakesEffect(o.patch2)
                  then Finalized(w.status, Time2(w, o)) else w.status).stage == stage
  {
    hide Acts, Aborts, StopperThere, Kills, Finishes;
  }

  lemma LastMoves(spec: Spec, w: World, o: Oracle, stage: Stage)
    requires Acts(spec, w, o) && !Aborts(spec, w, o) && w.status.stage in {Finished, ErrorStage}
    requires stage != w.status.stage
    ensures !MovesTo(spec, w, o, stage)
  {
    hide Acts, Aborts;
  }

  // Events.

  /** What a reconcile makes happen. */
  ghost predicate Happens(spec: Spec, w: World, o: Oracle, e: Event) {
    match e
    case InitializerCreated => Works(spec, w, o) && w.status.stage == EmptyStage && InitializerComes(spec, o)
    case JobCreated(i) =>
      Works(spec, w, o) && w.status.stage == Initialized && Begins(spec, w, o) && 1 <= i <= JobsUntil(spec, o)
    case ServiceCreated(i) =>
      Works(spec, w, o) && w.status.stage == Initialized && Begins(spec, w, o) && 1 <= i <= ServicesUntil(spec, o)
    case SetupInvoked(host) =>
      && Works(spec, w, o) && w.status.stage == Created && RunnersAnswer(spec, w, o)
      && spec.testRunID != "" && o.setupRuns && o.listed != [] && host == o.listed[0]
    case SetupDelivered(host) =>
      && Works(spec, w, o) && w.status.stage == Created && RunnersAnswer(spec, w, o)
      && spec.testRunID != "" && o.setupRuns
      && exists i :: 0 <= i < |o.listed| && i < o.delivered && o.listed[i] == host
    case StarterCreated(hosts) =>
      && Works(spec, w, o) && w.status.stage == Created && RunnersAnswer(spec, w, o) && SetUp(spec, w, o)
      && StarterComes(w, o) && hosts == o.listed
    case StopperCreated(hosts) => AbortWanted(spec, w, o) && StopperComes(w, o) && hosts == o.listed
    case RunnersStopped =>
      || (StopsForTeardown(spec, w, o))
      || (Works(spec, w, o) && w.status.stage == Stopped && Kills(spec, w, o))
    case TeardownInvoked(hosts) =>
      StopsForTeardown(spec, w, o) && o.relisted && hosts == ReadyHosts(o.listed, o.ready)
    case TeardownRan(host) =>
      && StopsForTeardown(spec, w, o) && o.relisted && o.teardownRuns
      && ReadyHosts(o.listed, o.ready) != [] && host == ReadyHosts(o.listed, o.ready)[0]
    case JobsDeleted(indices) =>
      && Works(spec, w, o) && w.status.stage == Stopped && Kills(spec, w, o) && o.jobsListed
      && indices == w.cluster.jobs * o.killed
    case FinishAccepted(id) =>
      Works(spec, w, o) && w.status.stage == Stopped && Reports(spec, w, o) && id == w.status.testRunID
    case CloudRunCreated(id, config) =>
      && Works(spec, w, o) && w.status.stage == Initialization && Creates(spec, w, o)
      && id == o.reply.id && config == o.reply.config
    case Panicked =>
      && Works(spec, w, o) && w.status.stage == Initialization && Fits(spec, o) && CloudOut(spec)
      && spec.testRunID == "" && TestRunRunning in w.status.conditions
      && if IsTrue(w.status.conditions, CloudTestRun) then Misfires(w, o)
         else SendsUnprepared(w, o) || CreatesUnprepared(w, o)
  }

  /** The finding that there is cloud output is refused more than five minutes after the start. */
  ghost predicate SendsUnprepared(w: World, o: Oracle)
    requires TestRunRunning in w.status.conditions
  {
    && o.patch1 != Patched && o.patch1 != Gone
    && Time2(w, o) - w.status.conditions[TestRunRunning].since > 300_000_000_000
  }

  /** The finding is followed by a creation in the same reconcile. */
  ghost predicate CreatesUnprepared(w: World, o: Oracle) {
    && (o.patch1 == Patched || o.patch1 == Gone) && o.inspect2.Inspected?
    && Time2(w, o) - Time1(w, o) >= 5_000_000_000
  }

  /** A creation with a null threshold, or one whose reply has no configuration. */
  ghost predicate Misfires(w: World, o: Oracle) {
    && IsFalse(w.status.conditions, CloudTestRunCreated) && o.patch1 != GetFailed && o.inspect2.Inspected?
    && Time2(w, o) - w.status.conditions[CloudTestRunCreated].since >= 5_000_000_000
    && (o.inspect2.nullThreshold || (o.reply.Reply? && o.reply.id != "" && o.reply.config.None?))
  }

  ghost predicate StopsForTeardown(spec: Spec, w: World, o: Oracle) {
    && Works(spec, w, o) && w.status.stage == Started && spec.testRunID != ""
    && !IsTrue(w.status.conditions, TeardownExecuted) && RunnersStoppedBy(w, o)
  }

  lemma UnpreparedFacts(spec: Spec, s: Status)
    requires StatusOk(spec, s) && s.stage == Initialization
    ensures IsTrue(s.conditions, CloudPLZTestRun) <==> spec.testRunID != ""
    ensures TestRunRunning in s.conditions && CloudTestRun in s.conditions
    ensures IsFalse(s.conditions, CloudTestRunCreated) ==> spec.testRunID == "" && s.testRunID == ""
  {
    hide HasCloudOut;
  }

  lemma CloudEventsExactly(spec: Spec, w: World, o: Oracle, id: string, config: Option<Aggregation.RuntimeConfig>)
    requires Reachable(spec, w) && Honest(w, o)
    ensures var events := NewEvents(w, Reconcile(spec, w, o));
            && (Panicked in events <==> Happens(spec, w, o, Panicked))
            && (CloudRunCreated(id, config) in events <==> Happens(spec, w, o, CloudRunCreated(id, config)))
  {
    hide *;
    StatusOfReachable(spec, w, o);
    ReconcileEnds(spec, w, o);
    NewAtEnd(spec, w, o, Reconcile(spec, w, o));
    PanicsAre(spec, w, o);
    CreationIs(spec, w, o, id, config);
  }

  lemma PanicsAre(spec: Spec, w: World, o: Oracle)
    requires StatusOk(spec, w.status)
    ensures Validates(spec, w, o) && (SendsWithoutClient(w, o) || CreatesBadly(w, o))
            <==> Happens(spec, w, o, Panicked)
  {
    if w.status.stage == Initialization {
      hide IsTrue, IsFalse, StatusOk, Fits, CloudOut, HasCloudOut, Int32;
      UnpreparedFacts(spec, w.status);
      ValidatesIs(spec, w, o);
    }
  }

  lemma CreationIs(spec: Spec, w: World, o: Oracle, id: string, config: Option<Aggregation.RuntimeConfig>)
    requires StatusOk(spec, w.status)
    ensures Creation(spec, w, o) == Some(CloudRunCreated(id, config))
            <==> Happens(spec, w, o, CloudRunCreated(id, config))
  {
    if w.status.stage == Initialization {
      hide IsTrue, IsFalse, StatusOk, Fits, CloudOut, HasCloudOut, Int32;
      UnpreparedFacts(spec, w.status);
      ValidatesIs(spec, w, o);
      NotBoth(w.status.conditions, CloudTestRunCreated);
    }
  }

  lemma ValidatesIs(spec: Spec, w: World, o: Oracle)
    requires w.status.stage == Initialization
    ensures Validates(spec, w, o)
            <==> w.present && o.found && spec.parallelism >= 1 && Fits(spec, o) && CloudOut(spec)
  {
    hide HasCloudOut, Int32, Wrapped;
    SameCloudOut(spec);
    if o.inspect1.Inspected? {
      WrappedIs(o.inspect1.maxVUs);
    }
  }

  // Every event.

  predicate OfCloud(e: Event) {
    e.Panicked? || e.CloudRunCreated?
  }

  /** An event is caused by a reconcile of a reachable world exactly if what it needs holds. */
  lemma EventsExactly(spec: Spec, w: World, o: Oracle, e: Event)
    requires Reachable(spec, w) && Honest(w, o)
    ensures e in NewEvents(w, Reconcile(spec, w, o)) <==> Happens(spec, w, o, e)
  {
    hide *;
    var events := NewEvents(w, Reconcile(spec, w, o));
    if OfCloud(e) {
      CloudEvent(spec, w, o, e);
    } else if !Acts(spec, w, o) {
      NothingWithoutActing(spec, w, o);
      NewIs(w, Reconcile(spec, w, o), []);
      NothingHappens(spec, w, o, e);
    } else if Aborts(spec, w, o) {
      AbortsExactly(spec, w, o);
      AbortEvents(spec, w, o, e);
    } else {
      match w.status.stage {
        case EmptyStage =>
          InitializesExactly(spec, w, o);
          EmptyEvents(spec, w, o, e);
        case Initialization =>
          ValidatesExactly(spec, w, o);
          InitializationEvents(spec, w, o, e, events);
        case Initialized =>
          LaunchesExactly(spec, w, o);
          ActsOnStage(spec, w, o);
          InitializedEvents(spec, w, o, e, events);
        case Created =>
          StartsExactly(spec, w, o);
          StartEvents(spec, w, o, e);
        case Started =>
          if spec.testRunID == "" {
            StopsExactly(spec, w, o);
          } else {
            TearsDownExactly(spec, w, o);
          }
          StartedEvents(spec, w, o, e);
        case Stopped =>
          FinishesExactly(spec, w, o);
          StoppedEvents(spec, w, o, e);
        case Finished =>
          CleansUpExactly(spec, w, o);
          NewIs(w, Reconcile(spec, w, o), []);
          LastEvents(spec, w, o, e);
        case ErrorStage =>
          CleansUpExactly(spec, w, o);
          NewIs(w, Reconcile(spec, w, o), []);
          LastEvents(spec, w, o, e);
      }
    }
  }

  lemma CloudEvent(spec: Spec, w: World, o: Oracle, e: Event)
    requires Reachable(spec, w) && Honest(w, o) && OfCloud(e)
    ensures e in NewEvents(w, Reconcile(spec, w, o)) <==> Happens(spec, w, o, e)
  {
    hide Reachable, Reconcile, Honest, NewEvents, Happens;
    if e.Panicked? {
      CloudEventsExactly(spec, w, o, "", None);
    } else {
      CloudEventsExactly(spec, w, o, e.id, e.config);
    }
  }

  lemma NothingHappens(spec: Spec, w: World, o: Oracle, e: Event)
    requires !Acts(spec, w, o)
    ensures !Happens(spec, w, o, e)
  {
    hide Acts, Aborts;
  }

  lemma AbortEvents(spec: Spec, w: World, o: Oracle, e: Event)
    requires Acts(spec, w, o) && Aborts(spec, w, o) && !OfCloud(e)
    ensures e in (if StopperComes(w, o) then [StopperCreated(o.listed)] else []) <==> Happens(spec, w, o, e)
  {
    hide Acts, Aborts, StopperComes;
  }

  lemma EmptyEvents(spec: Spec, w: World, o: Oracle, e: Event)
    requires Acts(spec, w, o) && !Aborts(spec, w, o) && w.status.stage == EmptyStage && !OfCloud(e)
    ensures e in (if InitializerComes(spec, o) then [InitializerCreated] else []) <==> Happens(spec, w, o, e)
  {
    hide Acts, Aborts, InitializerComes;
  }

  lemma InitializationEvents(spec: Spec, w: World, o: Oracle, e: Event, events: seq<Event>)
    requires Acts(spec, w, o) && !Aborts(spec, w, o) && w.status.stage == Initialization && !OfCloud(e)
    requires forall x | x in events :: x.Panicked? || x.CloudRunCreated?
    ensures e in events <==> Happens(spec, w, o, e)
  {
    hide Acts, Aborts;
  }

  lemma TurnsHold(events: seq<Event>, jobs: nat, services: nat, e: Event)
    requires InTurn(events, jobs, services) && services <= jobs <= services + 1
    ensures e in events <==> (e.JobCreated? && 1 <= e.index <= jobs) || (e.ServiceCreated? && 1 <= e.index <= services)
  {
    if e.JobCreated? && 1 <= e.index <= jobs {
      assert events[2 * e.index - 2] == e;
    }
    if e.ServiceCreated? && 1 <= e.index <= services {
      assert events[2 * e.index - 1] == e;
    }
    if e in events {
      var k :| 0 <= k < |events| && events[k] == e;
      if k % 2 == 0 {
        assert events[2 * (k / 2 + 1) - 2] == JobCreated(k / 2 + 1);
      } else {
        assert events[2 * (k / 2 + 1) - 1] == ServiceCreated(k / 2 + 1);
      }
    }
  }

  lemma InitializedEvents(spec: Spec, w: World, o: Oracle, e: Event, events: seq<Event>)
    requires Acts(spec, w, o) && !Aborts(spec, w, o) && w.status.stage == Initialized && !OfCloud(e)
    requires spec.parallelism >= 1
    requires var begins := Begins(spec, w, o);
             InTurn(events, if begins then JobsUntil(spec, o) else 0, if begins then ServicesUntil(spec, o) else 0)
    ensures e in events <==> Happens(spec, w, o, e)
  {
    var begins := Begins(spec, w, o);
    hide Acts, Aborts, InTurn, Begins;
    TurnsHold(events, if begins then JobsUntil(spec, o) else 0, if begins then ServicesUntil(spec, o) else 0, e);
  }

  lemma SetupMembers(o: Oracle, e: Event)
    ensures e in SetupEvents(o)
            <==> || (e.SetupInvoked? && o.listed != [] && e.host == o.listed[0])
                 || (e.SetupDelivered?
                     && exists i :: 0 <= i < |o.listed| && i < o.delivered && o.listed[i] == e.host)
  {
    var taken := if o.delivered < |o.listed| then o.delivered else |o.listed|;
    var first := if o.listed == [] then [] else [SetupInvoked(o.listed[0])];
    var rest := seq(taken, i requires 0 <= i < taken => SetupDelivered(o.listed[i]));
    assert SetupEvents(o) == first + rest;
    assert e in SetupEvents(o) <==> e in first || e in rest;
    if e.SetupDelivered? {
      if i :| 0 <= i < |o.listed| && i < o.delivered && o.listed[i] == e.host {
        assert rest[i] == e;
      }
      if e in rest {
        var i :| 0 <= i < |rest| && rest[i] == e;
        assert o.listed[i] == e.host;
      }
    }
  }

  lemma StartEvents(spec: Spec, w: World, o: Oracle, e: Event)
    requires Acts(spec, w, o) && !Aborts(spec, w, o) && w.status.stage == Created && !OfCloud(e)
    ensures e in (if RunnersAnswer(spec, w, o) && spec.testRunID != "" && o.setupRuns then SetupEvents(o) else [])
                 + (if RunnersAnswer(spec, w, o) && SetUp(spec, w, o) && StarterComes(w, o)
                    then [StarterCreated(o.listed)] else [])
            <==> Happens(spec, w, o, e)
  {
    SetupMembers(o, e);
    hide Acts, Aborts, RunnersAnswer, SetUp, StarterComes, SetupEvents;
  }

  lemma TeardownMembers(o: Oracle, e: Event)
    ensures var hosts := ReadyHosts(o.listed, o.ready);
            e in [RunnersStopped] + (if o.relisted then TeardownEvents(o) else [])
            <==> || e.RunnersStopped?
                 || (o.relisted && e == TeardownInvoked(hosts))
                 || (o.relisted && o.teardownRuns && hosts != [] && e == TeardownRan(hosts[0]))
  {
    hide ReadyHosts;
    var hosts := ReadyHosts(o.listed, o.ready);
    var ran := if hosts != [] && o.teardownRuns then [TeardownRan(hosts[0])] else [];
    assert TeardownEvents(o) == [TeardownInvoked(hosts)] + ran;
    assert e in TeardownEvents(o) <==> e == TeardownInvoked(hosts) || e in ran;
  }

  lemma StartedEvents(spec: Spec, w: World, o: Oracle, e: Event)
    requires Acts(spec, w, o) && !Aborts(spec, w, o) && w.status.stage == Started && !OfCloud(e)
    ensures spec.testRunID == "" ==>
              (e in (if AbortsLate(spec, w, o) && StopperComes(w, o) then [StopperCreated(o.listed)] else [])
               <==> Happens(spec, w, o, e))
    ensures spec.testRunID != "" ==>
              (e in (if IsTrue(w.status.conditions, TeardownExecuted) || !RunnersStoppedBy(w, o) then []
                     else [RunnersStopped] + if o.relisted then TeardownEvents(o) else [])
               <==> Happens(spec, w, o, e))
  {
    TeardownMembers(o, e);
    hide Acts, Aborts, AbortsLate, StopperComes, RunnersStoppedBy, TeardownEvents, ReadyHosts, IsTrue;
  }

  lemma StoppedEvents(spec: Spec, w: World, o: Oracle, e: Event)
    requires Acts(spec, w, o) && !Aborts(spec, w, o) && w.status.stage == Stopped && !OfCloud(e)
    ensures e in (if !Kills(spec, w, o) then []
                  else [RunnersStopped] + if o.jobsListed then [JobsDeleted(w.cluster.jobs * o.killed)] else [])
                 + (if Reports(spec, w, o) then [FinishAccepted(w.status.testRunID)] else [])
            <==> Happens(spec, w, o, e)
  {
    hide Acts, Aborts, Kills, Reports;
  }

  lemma LastEvents(spec: Spec, w: World, o: Oracle, e: Event)
    requires Acts(spec, w, o) && !Aborts(spec, w, o) && w.status.stage in {Finished, ErrorStage} && !OfCloud(e)
    ensures !Happens(spec, w, o, e)
  {
    hide Acts, Aborts;
  }
}
