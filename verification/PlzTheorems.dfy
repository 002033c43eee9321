/** What holds of every run of the PLZ controller and its pollers. */
module PlzTheorems {
  import opened Text
  import opened Conditions
  import opened TestRunStatus
  import opened PlzModel
  import Poller

  // Invariants.

  /** Only the poller of the stored worker may be running. */
  ghost predicate PollersOk(w: World) {
    && WorkerBuilt(w)
    && (forall i | 0 <= i < |w.pollers| :: w.pollers[i].running ==> w.worker == Some(i))
    && (forall i | 0 <= i < |w.pollers| :: Poller.AnyUse(w.pollers[i]))
  }

  ghost predicate PlzOk(w: World) {
    w.plz.Some? ==>
      var plz := w.plz.value;
      && plz.uid < w.created
      && (plz.conditions != map[] ==> plz.Registered())
      && (plz.finalizer || plz.Registered() ==> CloudRegistered(plz.uid) in w.log)
      && (plz.Registered() ==> plz.finalizer || (plz.deleting && plz.foreign))
      && (plz.deleting ==> plz.finalizer || plz.foreign)
  }

  /** Each removal of the finalizer in the log comes right after stopping a factory and trying to deregister. */
  ghost predicate RemovalsOk(log: seq<Event>) {
    forall k | 0 <= k < |log| && log[k].FinalizerRemoved? ::
      k >= 2 && log[k - 1] == DeregistrationTried(log[k].uid) && log[k - 2].FactoryStopped?
  }

  ghost predicate Inv(w: World) {
    PollersOk(w) && PlzOk(w) && RemovalsOk(w.log)
  }

  lemma RegisteredStatusIs(now: int)
    ensures RegisteredStatus(now) == map[PLZRegistered := Cond(ConditionTrue, now)]
  {
  }

  lemma MarkRegisteredAdds(w: World, plz: PrivateLoadZone, o: Oracle)
    requires plz.conditions == map[]
    ensures var (marked, goesOn) := MarkRegistered(w, plz, o);
            && (goesOn <==> o.refetched && o.patch == Succeeds)
            && marked == if o.refetched && o.patch != Fails
                         then w.(plz := Some(plz.(conditions := RegisteredStatus(o.now)))) else w
  {
    RegisteredStatusIs(o.now);
    assert PLZRegistered in RegisteredStatus(o.now) && PLZRegistered !in plz.conditions;
    assert MapNewer(plz.conditions, RegisteredStatus(o.now));
    assert MapMerge(plz.conditions, RegisteredStatus(o.now)) == RegisteredStatus(o.now);
  }

  lemma PollerChanged(w: World, i: nat, p: Poller.State)
    requires PollersOk(w) && i < |w.pollers| && Poller.AnyUse(p)
    requires p.running ==> w.worker == Some(i)
    ensures PollersOk(w.(pollers := w.pollers[i := p]))
  {
  }

  lemma PollerBuilt(w: World)
    requires PollersOk(w)
    ensures PollersOk(w.(pollers := w.pollers + [Poller.NEW]))
    ensures w.worker.None? ==> PollersOk(w.(pollers := w.pollers + [Poller.NEW], worker := Some(|w.pollers|)))
  {
  }

  lemma StartKeepsUse(p: Poller.State)
    requires Poller.AnyUse(p)
    ensures Poller.AnyUse(Poller.FactoryStarted(p)) && Poller.AnyUse(Poller.Stopped(p))
    ensures !Poller.Stopped(p).running
  {
    Poller.StartKeepsAnyUse(p);
  }

  lemma KeepPollingKeeps(w: World, o: Oracle)
    requires Inv(w) && w.plz.Some?
    ensures Inv(KeepPolling(w, o))
  {
    if w.plz.value.Registered() {
      PollerBuilt(w);
      if w.worker.Some? {
        var i := w.worker.value;
        StartKeepsUse(w.pollers[i]);
        PollerChanged(w, i, Poller.FactoryStarted(w.pollers[i]));
      }
    }
  }

  lemma RemovalKeeps(w: World, plz: PrivateLoadZone, o: Oracle)
    requires Inv(w) && w.plz == Some(plz) && w.worker.Some? && plz.deleting && plz.finalizer
    ensures Inv(Removal(w, plz, o))
  {
    hide Poller.AnyUse, Poller.Stopped, MapMerge;
    var i := w.worker.value;
    StartKeepsUse(w.pollers[i]);
    PollerChanged(w, i, Poller.Stopped(w.pollers[i]));
    var r := Removal(w, plz, o);
    var events := [FactoryStopped(i), DeregistrationTried(plz.uid)];
    RemovalLogged(w.log, i, plz.uid);
    assert r.log == w.log + events || r.log == (w.log + events) + [FinalizerRemoved(plz.uid)];
  }

  lemma RemovalLogged(log: seq<Event>, i: nat, uid: nat)
    requires RemovalsOk(log)
    ensures var events := [FactoryStopped(i), DeregistrationTried(uid)];
            RemovalsOk(log + events) && RemovalsOk((log + events) + [FinalizerRemoved(uid)])
  {
  }

  lemma FirstRegistrationKeeps(w: World, plz: PrivateLoadZone, o: Oracle)
    requires Inv(w) && w.plz == Some(plz) && !plz.deleting && !plz.finalizer && !plz.Registered()
    ensures Inv(FirstRegistration(w, plz, o))
  {
    PollerBuilt(w);
  }

  lemma ReconcileKeeps(w: World, o: Oracle)
    requires Inv(w)
    ensures Inv(Reconcile(w, o))
  {
    if w.plz.Some? && o.found {
      var plz := w.plz.value;
      if !plz.deleting && !plz.Registered() {
        if plz.finalizer {
          MarkRegisteredAdds(w, plz, o);
          RegisteredStatusIs(o.now);
          var (marked, goesOn) := MarkRegistered(w, plz, o);
          if goesOn {
            KeepPollingKeeps(marked, o);
          }
        } else {
          FirstRegistrationKeeps(w, plz, o);
        }
      } else if plz.deleting && plz.finalizer && w.worker.Some? {
        RemovalKeeps(w, plz, o);
      } else {
        KeepPollingKeeps(w, o);
      }
    }
  }

  lemma StepKeeps(w: World, a: Action)
    requires Inv(w) && Enabled(w, a)
    ensures Inv(Apply(w, a))
  {
    match a {
      case Reconciles(o) => ReconcileKeeps(w, o);
      case Works(i, step) =>
        Poller.StepKeepsAnyUse(w.pollers[i], step);
        PollerChanged(w, i, Poller.Apply(w.pollers[i], step));
      case _ =>
    }
  }

  lemma {:induction false} RunKeeps(w: World, actions: seq<Action>)
    requires Inv(w) && IsRun(w, actions)
    ensures Inv(After(w, actions))
    decreases |actions|
  {
    if actions == [] {
    } else {
      StepKeeps(w, actions[0]);
      RunKeeps(Apply(w, actions[0]), actions[1..]);
    }
  }

  // Registration.

  /**
   * A PLZ is only ever marked as registered after the cloud registered it, and it is marked with the finalizer
   * in place; the finalizer is gone only if the operator took it off and another finalizer kept the object.
   */
  lemma RegisteredMeans(actions: seq<Action>)
    requires IsRun(INITIAL, actions)
    ensures var w := After(INITIAL, actions);
            w.plz.Some? && w.plz.value.Registered() ==>
              && CloudRegistered(w.plz.value.uid) in w.log
              && (w.plz.value.finalizer || (w.plz.value.deleting && w.plz.value.foreign))
  {
    RunKeeps(INITIAL, actions);
  }

  /** At any time one poller at most is running, and it belongs to the worker stored under the name. */
  lemma OnePollerRuns(actions: seq<Action>, i: nat, j: nat)
    requires IsRun(INITIAL, actions)
    requires i < |After(INITIAL, actions).pollers| && j < |After(INITIAL, actions).pollers|
    requires After(INITIAL, actions).pollers[i].running && After(INITIAL, actions).pollers[j].running
    ensures i == j && After(INITIAL, actions).worker == Some(i)
  {
    RunKeeps(INITIAL, actions);
  }

  ghost predicate HasFinalizer(w: World, uid: nat) {
    w.plz.Some? && w.plz.value.uid == uid && w.plz.value.finalizer
  }

  /**
   * A step that takes the finalizer off is a reconcile of an object under deletion. It stops the poller of the
   * stored worker and then tries to deregister; afterwards no poller is running.
   */
  lemma FinalizerGoesLast(actions: seq<Action>, a: Action, uid: nat)
    requires IsRun(INITIAL, actions) && Enabled(After(INITIAL, actions), a)
    requires HasFinalizer(After(INITIAL, actions), uid) && !HasFinalizer(Apply(After(INITIAL, actions), a), uid)
    ensures var w := After(INITIAL, actions);
            var w' := Apply(w, a);
            && a.Reconciles? && w.plz.value.deleting && w.worker.Some?
            && w'.log == w.log + [FactoryStopped(w.worker.value), DeregistrationTried(uid), FinalizerRemoved(uid)]
            && forall i | 0 <= i < |w'.pollers| :: !w'.pollers[i].running
  {
    var w := After(INITIAL, actions);
    RunKeeps(INITIAL, actions);
    StepKeeps(w, a);
    match a {
      case Reconciles(o) =>
        var plz := w.plz.value;
        if !plz.deleting && !plz.Registered() {
          MarkRegisteredAdds(w, plz, o);
        }
        StartKeepsUse(w.pollers[w.worker.value]);
      case _ =>
    }
  }

  /** In the whole log, every removal of the finalizer directly follows the stop and the deregistration. */
  lemma RemovalsFollowStops(actions: seq<Action>)
    requires IsRun(INITIAL, actions)
    ensures RemovalsOk(After(INITIAL, actions).log)
  {
    RunKeeps(INITIAL, actions);
  }

  // Pollers are not started again, unless another finalizer keeps the object.

  ghost predicate NoForeign(actions: seq<Action>) {
    forall a: Action | a in actions :: (a.Creates? ==> !a.foreign) && (a.Deletes? ==> !a.foreground)
  }

  /** A stored worker that was stopped belongs to a PLZ on its way out, or to one that cannot use it. */
  ghost predicate StoppedOk(w: World) {
    && WorkerBuilt(w)
    && (forall i | 0 <= i < |w.pollers| :: Poller.SingleStart(w.pollers[i]))
    && (w.plz.Some? ==> !w.plz.value.foreign)
    && (w.worker.Some? && w.plz.Some? && Poller.Cancelled(w.pollers[w.worker.value]) ==>
          var plz := w.plz.value;
          (plz.deleting && plz.finalizer) || (!plz.Registered() && !plz.finalizer))
    && (w.worker.Some? && w.pollers[w.worker.value].running ==> w.plz.Some? && w.plz.value.finalizer)
  }

  lemma KeepPollingStarts(w: World, o: Oracle)
    requires Inv(w) && StoppedOk(w) && w.plz.Some? && !w.plz.value.deleting
    ensures StoppedOk(KeepPolling(w, o))
  {
    if w.plz.value.Registered() && w.worker.Some? {
      var p := w.pollers[w.worker.value];
      if !p.panicked {
        Poller.StepKeepsSingle(p, Poller.Start);
      }
    }
  }

  lemma RemovalStops(w: World, plz: PrivateLoadZone, o: Oracle)
    requires Inv(w) && StoppedOk(w) && w.plz == Some(plz) && w.worker.Some? && plz.deleting && plz.finalizer
    ensures StoppedOk(Removal(w, plz, o))
  {
    Poller.StepKeepsSingle(w.pollers[w.worker.value], Poller.Stop);
  }

  lemma NewIsSingle()
    ensures Poller.SingleStart(Poller.NEW) && !Poller.Cancelled(Poller.NEW)
  {
  }

  lemma ReconcileStops(w: World, o: Oracle)
    requires Inv(w) && StoppedOk(w)
    ensures StoppedOk(Reconcile(w, o))
  {
    hide Poller.SingleStart, Poller.AnyUse, MapMerge, RegisteredStatus, KeepPolling, Removal;
    NewIsSingle();
    if w.plz.Some? && o.found {
      var plz := w.plz.value;
      if !plz.deleting && !plz.Registered() {
        if plz.finalizer {
          MarkRegisteredAdds(w, plz, o);
          RegisteredStatusIs(o.now);
          ReconcileKeeps(w, o.(patch := Lost));
          var (marked, goesOn) := MarkRegistered(w, plz, o);
          if goesOn {
            KeepPollingStarts(marked, o);
          }
        }
      } else if plz.deleting && plz.finalizer && w.worker.Some? {
        RemovalStops(w, plz, o);
      } else if !plz.deleting {
        KeepPollingStarts(w, o);
      } else {
        KeepPollingBuilds(w, o);
      }
    }
  }

  lemma KeepPollingBuilds(w: World, o: Oracle)
    requires Inv(w) && StoppedOk(w) && w.plz.Some? && w.plz.value.deleting && w.worker.None?
    ensures StoppedOk(KeepPolling(w, o))
  {
    hide Poller.SingleStart, Poller.AnyUse;
    NewIsSingle();
  }

  lemma StepStops(w: World, a: Action)
    requires Inv(w) && StoppedOk(w) && Enabled(w, a) && NoForeign([a])
    ensures StoppedOk(Apply(w, a))
  {
    hide Poller.SingleStart, Poller.AnyUse, MapMerge;
    match a {
      case Reconciles(o) => ReconcileStops(w, o);
      case Works(i, step) =>
        Poller.StepKeepsSingle(w.pollers[i], step);
      case Creates(foreign) =>
        assert a in [a];
      case Deletes(foreground) =>
        assert a in [a];
      case _ =>
    }
  }

  lemma {:induction false} RunStops(w: World, actions: seq<Action>)
    requires Inv(w) && StoppedOk(w) && IsRun(w, actions) && NoForeign(actions)
    ensures StoppedOk(After(w, actions))
    decreases |actions|
  {
    if actions == [] {
    } else {
      StepKeeps(w, actions[0]);
      StepStops(w, actions[0]);
      RunStops(Apply(w, actions[0]), actions[1..]);
    }
  }

  /**
   * As long as no PLZ has a finalizer besides the operator's: over all interleavings of reconciles, failures,
   * restarts, users and goroutines, every poller was started once at most, never panics for whatever its
   * goroutines do next, and hands over a prefix of what it polled for as long as it is not stopped.
   */
  lemma PollersAreSafe(actions: seq<Action>, i: nat)
    requires IsRun(INITIAL, actions) && NoForeign(actions) && i < |After(INITIAL, actions).pollers|
    ensures var p := After(INITIAL, actions).pollers[i];
            && |p.contexts| <= 1 && |p.loops| == |p.contexts| && p.closed <= 1 && !p.panicked
            && !Poller.CanPanic(p)
            && (!Poller.Cancelled(p) ==> Poller.Received(p) <= Poller.Concat(p.polled))
  {
    RunKeeps(INITIAL, actions);
    RunStops(INITIAL, actions);
    var p := After(INITIAL, actions).pollers[i];
    if !Poller.Cancelled(p) {
      Poller.ReceivedIsPrefix(p);
    }
    forall more | Poller.IsRun(p, more) && Poller.WithoutStart(more) ensures !Poller.After(p, more).panicked {
      Poller.WithoutRestart(p, more);
      Poller.SingleStartIsSafe(p, more);
    }
  }

  // One step after another, for the runs that are given explicitly.

  lemma OneStep(w: World, a: Action)
    requires Enabled(w, a)
    ensures IsRun(w, [a]) && After(w, [a]) == Apply(w, a)
  {
    assert IsRun(Apply(w, a), [a][1..]);
  }

  lemma {:induction false} Extended(w: World, actions: seq<Action>, a: Action)
    requires IsRun(w, actions) && Enabled(After(w, actions), a)
    ensures IsRun(w, actions + [a]) && After(w, actions + [a]) == Apply(After(w, actions), a)
    decreases |actions|
  {
    if actions == [] {
      assert actions + [a] == [a];
      OneStep(w, a);
    } else {
      Extended(Apply(w, actions[0]), actions[1..], a);
      assert (actions + [a])[1..] == actions[1..] + [a];
    }
  }

  const GOOD := Oracle(true, true, Succeeds, Succeeds, true, Succeeds, 1)

  /** A PLZ that is registered and polled for. */
  lemma Polling() returns (actions: seq<Action>)
    ensures IsRun(INITIAL, actions)
    ensures var w := After(INITIAL, actions);
            && w.plz.Some? && w.plz.value.Registered()
            && !w.plz.value.deleting && w.plz.value.finalizer
            && w.pollers == [Poller.FactoryStarted(Poller.NEW)] && w.worker == Some(0)
  {
    var reconcile := Reconciles(GOOD);
    actions := [Creates(false)];
    OneStep(INITIAL, actions[0]);
    Extended(INITIAL, actions, reconcile);
    actions := actions + [reconcile];
    var w := After(INITIAL, actions);
    assert w.pollers == [Poller.NEW] && w.worker == Some(0);
    MarkRegisteredAdds(w, w.plz.value, GOOD);
    RegisteredStatusIs(GOOD.now);
    Extended(INITIAL, actions, reconcile);
    actions := actions + [reconcile];
  }

  /**
   * A PLZ is deleted with foreground propagation, and its dependents keep it: the operator stops the poller, takes
   * its own finalizer off without hearing so, and the next reconcile starts the stopped poller of the worker that
   * is still stored.
   */
  lemma StartedAgain() returns (actions: seq<Action>)
    ensures IsRun(INITIAL, actions)
    ensures var w := After(INITIAL, actions);
            |w.pollers| == 1 && |w.pollers[0].contexts| == 2 && Alive(w)
  {
    hide IsTrue, RegisteredStatus;
    var lost := Reconciles(GOOD.(update := Lost));
    actions := Polling();
    Extended(INITIAL, actions, Deletes(true));
    actions := actions + [Deletes(true)];
    Extended(INITIAL, actions, lost);
    actions := actions + [lost];
    var w := After(INITIAL, actions);
    assert w.pollers == [Poller.Stopped(Poller.FactoryStarted(Poller.NEW))] && w.worker == Some(0);
    Extended(INITIAL, actions, Reconciles(GOOD));
    actions := actions + [Reconciles(GOOD)];
  }

  /** Every poller of every run stays free of panics exactly if PLZs cannot have other finalizers. */
  lemma PollersSafeExactly(foreignAllowed: bool)
    ensures (forall actions: seq<Action>, i: nat |
               IsRun(INITIAL, actions) && (foreignAllowed || NoForeign(actions))
               && Alive(After(INITIAL, actions)) && i < |After(INITIAL, actions).pollers| ::
               !Poller.CanPanic(After(INITIAL, actions).pollers[i]))
            <==> !foreignAllowed
  {
    if foreignAllowed {
      var actions := StartedAgain();
      RunKeeps(INITIAL, actions);
      var p := After(INITIAL, actions).pollers[0];
      var more := Poller.RestartCanPanic(p);
      assert Poller.CanPanic(p);
    } else {
      forall actions: seq<Action>, i: nat | IsRun(INITIAL, actions) && NoForeign(actions)
                                            && i < |After(INITIAL, actions).pollers|
        ensures !Poller.CanPanic(After(INITIAL, actions).pollers[i])
      {
        PollersAreSafe(actions, i);
      }
    }
  }

  ghost predicate Polled(w: World, i: nat) {
    i < |w.pollers| && w.pollers[i].running
  }

  /** A run without any failure, in which a poller goes on after its PLZ is gone. */
  lemma PolledForNobody() returns (actions: seq<Action>)
    ensures IsRun(INITIAL, actions)
    ensures After(INITIAL, actions).plz.None? && Polled(After(INITIAL, actions), 1)
  {
    hide IsTrue, RegisteredStatus;
    var reconcile := Reconciles(GOOD);
    actions := Polling();
    Extended(INITIAL, actions, Deletes(true));
    actions := actions + [Deletes(true)];
    Extended(INITIAL, actions, reconcile);
    actions := actions + [reconcile];
    var w := After(INITIAL, actions);
    assert w.worker.None? && |w.pollers| == 1 && w.plz.Some? && !w.plz.value.finalizer;
    Extended(INITIAL, actions, reconcile);
    actions := actions + [reconcile];
    w := After(INITIAL, actions);
    assert w.worker == Some(1) && |w.pollers| == 2 && w.pollers[1] == Poller.NEW;
    Extended(INITIAL, actions, reconcile);
    actions := actions + [reconcile];
    Extended(INITIAL, actions, ForeignDone);
    actions := actions + [ForeignDone];
  }

  /** A poller only ever runs while there is a PLZ with the finalizer, exactly if there are no other finalizers. */
  lemma PolledForSomebodyExactly(foreignAllowed: bool)
    ensures (forall actions: seq<Action>, i: nat |
               IsRun(INITIAL, actions) && (foreignAllowed || NoForeign(actions)) && Polled(After(INITIAL, actions), i) ::
               var w := After(INITIAL, actions);
               w.plz.Some? && w.plz.value.finalizer)
            <==> !foreignAllowed
  {
    if foreignAllowed {
      var actions := PolledForNobody();
      assert Polled(After(INITIAL, actions), 1);
    } else {
      forall actions: seq<Action>, i: nat | IsRun(INITIAL, actions) && NoForeign(actions)
                                            && Polled(After(INITIAL, actions), i)
        ensures After(INITIAL, actions).plz.Some? && After(INITIAL, actions).plz.value.finalizer
      {
        RunKeeps(INITIAL, actions);
        RunStops(INITIAL, actions);
      }
    }
  }

  // Where a PLZ can get stuck.

  ghost predicate NoRestart(actions: seq<Action>) {
    forall a: Action | a in actions :: !a.Restarts?
  }

  ghost predicate IsRegistered(w: World) {
    w.plz.Some? && w.plz.value.Registered()
  }

  /** A worker is stored although the PLZ of the name, if there is one, was not given the finalizer. */
  ghost predicate Wedged(w: World) {
    w.worker.Some? && (w.plz.Some? ==> !w.plz.value.finalizer && !w.plz.value.Registered())
  }

  lemma {:induction false} WedgedStays(w: World, actions: seq<Action>)
    requires Wedged(w) && IsRun(w, actions) && NoRestart(actions)
    ensures Wedged(After(w, actions))
    decreases |actions|
  {
    if actions == [] {
    } else {
      assert actions[0] in actions;
      assert Wedged(Apply(w, actions[0]));
      WedgedStays(Apply(w, actions[0]), actions[1..]);
    }
  }

  /**
   * A PLZ that is not being deleted can become registered while the operator keeps running exactly if it
   * has the finalizer or no worker is stored. A failed Update in its first reconcile leaves it without
   * either, and so every later PLZ of that name.
   */
  lemma CanRegisterExactly(history: seq<Action>)
    requires IsRun(INITIAL, history) && Alive(After(INITIAL, history))
    requires var w := After(INITIAL, history); w.plz.Some? && !w.plz.value.deleting && !w.plz.value.Registered()
    ensures var w := After(INITIAL, history);
            (exists actions :: IsRun(w, actions) && NoRestart(actions) && IsRegistered(After(w, actions)))
            <==> w.plz.value.finalizer || w.worker.None?
  {
    var w := After(INITIAL, history);
    RunKeeps(INITIAL, history);
    if w.plz.value.finalizer {
      MarkRegisteredAdds(w, w.plz.value, GOOD);
      RegisteredStatusIs(GOOD.now);
      OneStep(w, Reconciles(GOOD));
      assert NoRestart([Reconciles(GOOD)]) && IsRegistered(After(w, [Reconciles(GOOD)]));
    } else if w.worker.None? {
      OneStep(w, Reconciles(GOOD));
      var w1 := Apply(w, Reconciles(GOOD));
      MarkRegisteredAdds(w1, w1.plz.value, GOOD);
      RegisteredStatusIs(GOOD.now);
      Extended(w, [Reconciles(GOOD)], Reconciles(GOOD));
      var both := [Reconciles(GOOD)] + [Reconciles(GOOD)];
      assert NoRestart(both) && IsRegistered(After(w, both));
    } else {
      forall actions | IsRun(w, actions) && NoRestart(actions) ensures !IsRegistered(After(w, actions)) {
        WedgedStays(w, actions);
      }
    }
  }

  /** The first registration ends wedged exactly if the worker was stored and the Update did not take effect. */
  lemma FailedUpdateWedges(w: World, o: Oracle)
    requires Inv(w) && w.plz.Some? && w.worker.None? && o.found
    requires !w.plz.value.deleting && !w.plz.value.Registered() && !w.plz.value.finalizer
    ensures Wedged(Reconcile(w, o)) <==> o.token && o.register == Succeeds && o.update == Fails
  {
  }

  /** Under deletion, not registered, and the worker lost: nothing takes the finalizer off any more. */
  ghost predicate Orphaned(w: World, uid: nat) {
    HasFinalizer(w, uid) && w.plz.value.deleting && !w.plz.value.Registered() && w.worker.None?
  }

  lemma {:induction false} OrphanedStays(w: World, actions: seq<Action>, uid: nat)
    requires Orphaned(w, uid) && IsRun(w, actions)
    ensures Orphaned(After(w, actions), uid)
    decreases |actions|
  {
    if actions == [] {
    } else {
      assert Orphaned(Apply(w, actions[0]), uid);
      OrphanedStays(Apply(w, actions[0]), actions[1..], uid);
    }
  }

  /**
   * The finalizer of a PLZ under deletion can still be taken off exactly if the PLZ is marked as registered or
   * its worker is in memory. A restart between adding the finalizer and marking the PLZ, followed by a
   * deletion, leaves it in place forever.
   */
  lemma CanBeRemovedExactly(history: seq<Action>, uid: nat)
    requires IsRun(INITIAL, history) && Alive(After(INITIAL, history))
    requires HasFinalizer(After(INITIAL, history), uid) && After(INITIAL, history).plz.value.deleting
    ensures var w := After(INITIAL, history);
            (exists actions :: IsRun(w, actions) && !HasFinalizer(After(w, actions), uid))
            <==> w.plz.value.Registered() || w.worker.Some?
  {
    var w := After(INITIAL, history);
    RunKeeps(INITIAL, history);
    if w.worker.Some? {
      OneStep(w, Reconciles(GOOD));
      assert !HasFinalizer(After(w, [Reconciles(GOOD)]), uid);
    } else if w.plz.value.Registered() {
      OneStep(w, Reconciles(GOOD));
      Extended(w, [Reconciles(GOOD)], Reconciles(GOOD));
      assert !HasFinalizer(After(w, [Reconciles(GOOD)] + [Reconciles(GOOD)]), uid);
    } else {
      forall actions | IsRun(w, actions) ensures HasFinalizer(After(w, actions), uid) {
        OrphanedStays(w, actions, uid);
      }
    }
  }

  /** A run into the state from which no PLZ of the name gets registered: the first Update fails. */
  lemma WedgedRun() returns (actions: seq<Action>)
    ensures IsRun(INITIAL, actions)
    ensures var w := After(INITIAL, actions);
            w.plz.Some? && !w.plz.value.deleting && Wedged(w) && Alive(w)
  {
    var failing := Reconciles(GOOD.(update := Fails));
    actions := [Creates(false)];
    OneStep(INITIAL, actions[0]);
    Extended(INITIAL, actions, failing);
    actions := actions + [failing];
  }

  /** A run into the state in which the finalizer stays forever: a restart after it was added, then a deletion. */
  lemma OrphanedRun() returns (actions: seq<Action>)
    ensures IsRun(INITIAL, actions)
    ensures Orphaned(After(INITIAL, actions), 0) && Alive(After(INITIAL, actions))
  {
    actions := [Creates(false)];
    OneStep(INITIAL, actions[0]);
    Extended(INITIAL, actions, Reconciles(GOOD));
    actions := actions + [Reconciles(GOOD)];
    var w := After(INITIAL, actions);
    assert HasFinalizer(w, 0) && !w.plz.value.Registered();
    Extended(INITIAL, actions, Restarts);
    actions := actions + [Restarts];
    Extended(INITIAL, actions, Deletes(false));
    actions := actions + [Deletes(false)];
  }
}
