/** What exactly one reconcile of a PrivateLoadZone does, in terms of the answers it gets. */
module PlzOutcomes {
  import opened Text
  import opened Conditions
  import opened PlzModel
  import PlzTheorems
  import Poller

  ghost predicate Marked(plz: PrivateLoadZone) {
    PLZRegistered in plz.conditions && plz.conditions[PLZRegistered].status == ConditionTrue
  }

  /** The first reconcile of an object: it has no finalizer yet, and the token is there. */
  ghost predicate Registers(w: World, o: Oracle) {
    && w.plz.Some? && o.found && o.token
    && !w.plz.value.deleting && !w.plz.value.finalizer && !Marked(w.plz.value)
  }

  /** The worker that the first reconcile builds is stored: the cloud took the registration, and there was none. */
  ghost predicate StoresWorker(w: World, o: Oracle) {
    Registers(w, o) && o.register == Succeeds && w.worker == None
  }

  /** An object with the finalizer is marked as registered. */
  ghost predicate Marks(w: World, o: Oracle) {
    && w.plz.Some? && o.found && o.refetched && o.patch != Fails
    && !w.plz.value.deleting && w.plz.value.finalizer && !Marked(w.plz.value)
  }

  /** An object that is being deleted gives up its worker. */
  ghost predicate Removes(w: World, o: Oracle) {
    w.plz.Some? && o.found && w.plz.value.deleting && w.plz.value.finalizer && w.worker.Some?
  }

  /** The object is registered, and is to be polled for. */
  ghost predicate Serves(w: World, o: Oracle) {
    && w.plz.Some? && o.found
    && if Marked(w.plz.value) then !Removes(w, o) else Marks(w, o) && o.patch == Succeeds
  }

  /** A worker is built for an object that has none: the operator was restarted. */
  ghost predicate Rebuilds(w: World, o: Oracle) {
    Serves(w, o) && w.worker == None && o.token
  }

  ghost function PlzAfter(w: World, o: Oracle): Option<PrivateLoadZone> {
    if StoresWorker(w, o) && o.update != Fails then Some(w.plz.value.(finalizer := true))
    else if Marks(w, o) then Some(w.plz.value.(conditions := map[PLZRegistered := Cond(ConditionTrue, o.now)]))
    else if Removes(w, o) && o.update != Fails then
      if w.plz.value.foreign then Some(w.plz.value.(finalizer := false)) else None
    else w.plz
  }

  ghost function PollersAfter(w: World, o: Oracle): seq<Poller.State>
    requires WorkerBuilt(w)
  {
    if Registers(w, o) || Rebuilds(w, o) then w.pollers + [Poller.NEW]
    else if Removes(w, o) then w.pollers[w.worker.value := Poller.Stopped(w.pollers[w.worker.value])]
    else if Serves(w, o) && w.worker.Some? then
      w.pollers[w.worker.value := Poller.FactoryStarted(w.pollers[w.worker.value])]
    else w.pollers
  }

  /** Registration before the finalizer, and deregistration after the poller has stopped and before it goes. */
  ghost function EventsOf(w: World, o: Oracle): seq<Event> {
    if Registers(w, o) then
      (if o.register != Fails then [CloudRegistered(w.plz.value.uid)] else [])
      + if StoresWorker(w, o) && o.update != Fails then [FinalizerAdded(w.plz.value.uid)] else []
    else if Removes(w, o) then
      [FactoryStopped(w.worker.value), DeregistrationTried(w.plz.value.uid)]
      + if o.update != Fails then [FinalizerRemoved(w.plz.value.uid)] else []
    else []
  }

  lemma EventsAppended(log: seq<Event>, a: Event, b: Event, c: Event)
    ensures log + [a] + [b] == log + ([a] + [b])
    ensures log + [a, b] + [c] == log + ([a, b] + [c])
    ensures [a] + [] == [a] && [] + [a] == [a] && [a, b] + [] == [a, b]
    ensures log + [] == log
  {
  }

  /** The object, the stored worker, the pollers and the log after one reconcile in any run. */
  lemma ReconcilesExactly(history: seq<Action>, o: Oracle)
    requires IsRun(INITIAL, history)
    ensures var w := After(INITIAL, history);
            WorkerBuilt(w)
            && var w' := Reconcile(w, o);
               && w'.plz == PlzAfter(w, o)
               && w'.worker == (if StoresWorker(w, o) || Rebuilds(w, o) then Some(|w.pollers|)
                                else if Removes(w, o) && o.update == Succeeds then None
                                else w.worker)
               && w'.pollers == PollersAfter(w, o)
               && w'.log == w.log + EventsOf(w, o)
  {
    hide IsRun, After;
    var w := After(INITIAL, history);
    PlzTheorems.RunKeeps(INITIAL, history);
    ReconcilesFrom(w, o);
  }

  lemma ReconcilesFrom(w: World, o: Oracle)
    requires PlzTheorems.Inv(w)
    ensures WorkerBuilt(w)
    ensures var w' := Reconcile(w, o);
            && w'.plz == PlzAfter(w, o)
            && w'.worker == (if StoresWorker(w, o) || Rebuilds(w, o) then Some(|w.pollers|)
                             else if Removes(w, o) && o.update == Succeeds then None
                             else w.worker)
            && w'.pollers == PollersAfter(w, o)
            && w'.log == w.log + EventsOf(w, o)
  {
    assert w.log + [] == w.log;
    if w.plz.Some? && o.found {
      hide Poller.FactoryStarted, Poller.Stopped, Poller.AnyUse, MapMerge, MapNewer, KeepPolling, FirstRegistration,
           Removal, MarkRegistered;
      var plz := w.plz.value;
      assert plz.Registered() <==> Marked(plz);
      if Marked(plz) {
        if Removes(w, o) {
          RemovesFrom(w, o);
        } else {
          ServesFrom(w, w, o);
        }
      } else if plz.deleting {
        if Removes(w, o) {
          RemovesFrom(w, o);
        } else {
          ServesFrom(w, w, o);
        }
      } else if plz.finalizer {
        assert plz.conditions == map[];
        PlzTheorems.MarkRegisteredAdds(w, plz, o);
        PlzTheorems.RegisteredStatusIs(o.now);
        var (marked, goesOn) := MarkRegistered(w, plz, o);
        if goesOn {
          ServesFrom(w, marked, o);
        }
      } else {
        RegistersFrom(w, o);
      }
    }
  }

  lemma ServesFrom(w: World, now: World, o: Oracle)
    requires WorkerBuilt(w) && now == w.(plz := now.plz) && now.plz.Some?
    ensures var w' := KeepPolling(now, o);
            && w'.plz == now.plz && w'.log == w.log
            && w'.worker == (if Marked(now.plz.value) && w.worker == None && o.token then Some(|w.pollers|) else w.worker)
            && w'.pollers == if !Marked(now.plz.value) then w.pollers
                             else if w.worker.Some? then
                               w.pollers[w.worker.value := Poller.FactoryStarted(w.pollers[w.worker.value])]
                             else if o.token then w.pollers + [Poller.NEW] else w.pollers
  {
    hide Poller.FactoryStarted;
  }

  lemma RemovesFrom(w: World, o: Oracle)
    requires WorkerBuilt(w) && Removes(w, o)
    ensures var w' := Removal(w, w.plz.value, o);
            && w'.plz == (if o.update == Fails then w.plz
                          else if w.plz.value.foreign then Some(w.plz.value.(finalizer := false)) else None)
            && w'.worker == (if o.update == Succeeds then None else w.worker)
            && w'.pollers == w.pollers[w.worker.value := Poller.Stopped(w.pollers[w.worker.value])]
            && w'.log == w.log + EventsOf(w, o)
  {
    hide Poller.Stopped;
    EventsAppended(w.log, FactoryStopped(w.worker.value), DeregistrationTried(w.plz.value.uid),
                   FinalizerRemoved(w.plz.value.uid));
  }

  lemma RegistersFrom(w: World, o: Oracle)
    requires WorkerBuilt(w) && w.plz.Some? && o.found
    requires !w.plz.value.deleting && !w.plz.value.finalizer && !Marked(w.plz.value)
    ensures var w' := FirstRegistration(w, w.plz.value, o);
            && w'.plz == (if StoresWorker(w, o) && o.update != Fails then Some(w.plz.value.(finalizer := true))
                          else w.plz)
            && w'.worker == (if StoresWorker(w, o) then Some(|w.pollers|) else w.worker)
            && w'.pollers == (if Registers(w, o) then w.pollers + [Poller.NEW] else w.pollers)
            && w'.log == w.log + EventsOf(w, o)
  {
    var uid := w.plz.value.uid;
    EventsAppended(w.log, CloudRegistered(uid), FinalizerAdded(uid), FinalizerAdded(uid));
  }
}
