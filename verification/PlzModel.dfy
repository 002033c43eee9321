/**
 * internal/controller/plz_controller.go: the life of the PrivateLoadZones of one name, as the steps that the
 * operator, its users and the goroutines of the pollers take.
 */
module PlzModel {
  import opened Text
  import opened Conditions
  import opened TestRunStatus
  import Poller

  /** `uid` tells apart the objects that successively carry the name. */
  datatype PrivateLoadZone = PrivateLoadZone(
    uid: nat,
    deleting: bool, // there is a deletion timestamp
    finalizer: bool, // the operator's
    foreign: bool, // somebody else's finalizer, or that of a foreground deletion
    conditions: CondMap)
  {
    predicate Registered() {
      IsTrue(conditions, PLZRegistered)
    }
  }

  datatype Event =
    | CloudRegistered(uid: nat) // the cloud took the registration
    | FinalizerAdded(uid: nat)
    | FactoryStopped(worker: nat)
    | DeregistrationTried(uid: nat)
    | FinalizerRemoved(uid: nat)

  /**
   * `worker` and `pollers` are the operator's memory: the worker stored under the name, as the index of its
   * poller, and the pollers of all workers built since the operator started.
   */
  datatype World = World(
    plz: Option<PrivateLoadZone>,
    worker: Option<nat>,
    pollers: seq<Poller.State>,
    created: nat,
    log: seq<Event>)

  const INITIAL := World(None, None, [], 0, [])

  /** A call succeeds, fails, or takes effect although the caller sees an error. */
  datatype Answer = Succeeds | Fails | Lost

  datatype Oracle = Oracle(
    found: bool, token: bool,
    register: Answer, update: Answer,
    refetched: bool, patch: Answer,
    now: int)

  datatype Action =
    | Reconciles(oracle: Oracle)
    | Restarts
    | Creates(foreign: bool)
    | Deletes(foreground: bool) // with foreground propagation, which adds a finalizer at that moment
    | ForeignDone // the other finalizer is taken off
    | Works(poller: nat, step: Poller.Action)

  ghost predicate WorkerBuilt(w: World) {
    w.worker.Some? ==> w.worker.value < |w.pollers|
  }

  function Logged(w: World, events: seq<Event>): World {
    w.(log := w.log + events)
  }

  /** The first reconcile: a worker is built, registered with the cloud and stored, and the finalizer added. */
  function FirstRegistration(w: World, plz: PrivateLoadZone, o: Oracle): World {
    if !o.token then w
    else
      var built := w.(pollers := w.pollers + [Poller.NEW]);
      var known := if o.register == Fails then built else Logged(built, [CloudRegistered(plz.uid)]);
      if o.register != Succeeds || w.worker.Some? then known
      else
        var stored := known.(worker := Some(|w.pollers|));
        if o.update == Fails then stored
        else Logged(stored.(plz := Some(plz.(finalizer := true))), [FinalizerAdded(plz.uid)])
  }

  function RegisteredStatus(now: int): CondMap {
    MapUpdate(map[PLZRegistered := Cond(ConditionUnknown, now)], PLZRegistered, ConditionTrue, now)
  }

  /** UpdateStatus with the condition proposed as True: the new world, and whether the reconcile goes on. */
  function MarkRegistered(w: World, plz: PrivateLoadZone, o: Oracle): (World, bool) {
    if !o.refetched then (w, false)
    else if !MapNewer(plz.conditions, RegisteredStatus(o.now)) then (w, true)
    else if o.patch == Fails then (w, false)
    else
      var conditions := MapMerge(plz.conditions, RegisteredStatus(o.now));
      (w.(plz := Some(plz.(conditions := conditions))), o.patch == Succeeds)
  }

  /** The PLZ is being deleted and its worker is at hand. */
  function Removal(w: World, plz: PrivateLoadZone, o: Oracle): World
    requires WorkerBuilt(w) && w.worker.Some?
  {
    var i := w.worker.value;
    var stopped := Logged(w.(pollers := w.pollers[i := Poller.Stopped(w.pollers[i])]),
                          [FactoryStopped(i), DeregistrationTried(plz.uid)]);
    if o.update == Fails then stopped
    else
      var left := if plz.foreign then Some(plz.(finalizer := false)) else None;
      var removed := Logged(stopped.(plz := left), [FinalizerRemoved(plz.uid)]);
      if o.update == Lost then removed else removed.(worker := None)
  }

  /** A registered PLZ gets its worker back, or its worker polls. */
  function KeepPolling(w: World, o: Oracle): World
    requires WorkerBuilt(w) && w.plz.Some?
  {
    if !w.plz.value.Registered() then w
    else if w.worker.None? then
      if o.token then w.(pollers := w.pollers + [Poller.NEW], worker := Some(|w.pollers|)) else w
    else
      var i := w.worker.value;
      w.(pollers := w.pollers[i := Poller.FactoryStarted(w.pollers[i])])
  }

  function Reconcile(w: World, o: Oracle): World
    requires WorkerBuilt(w)
  {
    if w.plz.None? || !o.found then w
    else
      var plz := w.plz.value;
      if !plz.deleting && !plz.Registered() then
        if plz.finalizer then
          var (marked, goesOn) := MarkRegistered(w, plz, o);
          if goesOn then KeepPolling(marked, o) else marked
        else FirstRegistration(w, plz, o)
      else if plz.deleting && plz.finalizer && w.worker.Some? then Removal(w, plz, o)
      else KeepPolling(w, o)
  }

  /** No goroutine has panicked, which would have ended the operator. */
  ghost predicate Alive(w: World) {
    forall i | 0 <= i < |w.pollers| :: !w.pollers[i].panicked
  }

  ghost predicate Enabled(w: World, a: Action) {
    match a
    case Reconciles(o) => Alive(w) && WorkerBuilt(w)
    case Restarts => true
    case Creates(foreign) => w.plz.None?
    case Deletes(foreground) => w.plz.Some?
    case ForeignDone => w.plz.Some? && w.plz.value.foreign
    case Works(i, step) =>
      Alive(w) && i < |w.pollers| && !step.Start? && !step.Stop? && Poller.Enabled(w.pollers[i], step)
  }

  /** The API server drops an object that is being deleted once it has no finalizers. */
  function Swept(plz: PrivateLoadZone): Option<PrivateLoadZone> {
    if plz.deleting && !plz.finalizer && !plz.foreign then None else Some(plz)
  }

  ghost function Apply(w: World, a: Action): World
    requires Enabled(w, a)
  {
    match a
    case Reconciles(o) => Reconcile(w, o)
    case Restarts => w.(worker := None, pollers := [])
    case Creates(foreign) =>
      w.(plz := Some(PrivateLoadZone(w.created, false, false, foreign, map[])), created := w.created + 1)
    case Deletes(foreground) =>
      var plz := w.plz.value;
      w.(plz := Swept(plz.(deleting := true, foreign := plz.foreign || foreground)))
    case ForeignDone => w.(plz := Swept(w.plz.value.(foreign := false)))
    case Works(i, step) => w.(pollers := w.pollers[i := Poller.Apply(w.pollers[i], step)])
  }

  ghost predicate IsRun(w: World, actions: seq<Action>)
    decreases |actions|
  {
    actions == [] || (Enabled(w, actions[0]) && IsRun(Apply(w, actions[0]), actions[1..]))
  }

  ghost function After(w: World, actions: seq<Action>): World
    requires IsRun(w, actions)
    decreases |actions|
  {
    if actions == [] then w else After(Apply(w, actions[0]), actions[1..])
  }
}
