/** The reconciler of internal/controller/plz_controller.go, statement by statement, against PlzModel. */
module PlzController {
  import opened Text
  import opened Conditions
  import opened TestRunStatus
  import opened PlzModel
  import Poller

  /** The conditions of the object in memory: a slice, that is, a reference to an array. */
  class Zone {
    var conditions: array<Condition>

    constructor ()
      ensures fresh(conditions) && conditions[..] == []
    {
      conditions := new Condition[0];
    }

    method Initialize(now: int)
      modifies this
      ensures fresh(conditions)
      ensures conditions[..] == [Condition(PLZRegistered, ConditionUnknown, now, "PLZRegisteredUnknown")]
    {
      conditions := new Condition[1](_ => Condition(PLZRegistered, ConditionUnknown, now, "PLZRegisteredUnknown"));
    }

    /**
     * The receiver is a copy of the object, which shares the array: an existing condition is edited for the
     * caller too, an appended one is lost.
     */
    method UpdateCondition(kind: ConditionType, status: ConditionStatus, now: int)
      modifies conditions
      ensures var before := old(conditions[..]);
              conditions[..] == if IndexOf(before, kind) < |before|
                                then SetStatusCondition(before, Condition(kind, status, now, Reason(kind, status)))
                                else before
    {
      var copy := conditions;
      var i := 0;
      while i < copy.Length && copy[i].kind != kind
        invariant 0 <= i <= copy.Length
        invariant forall j | 0 <= j < i :: copy[j].kind != kind
      {
        i := i + 1;
      }
      ghost var before := copy[..];
      ghost var at := IndexOf(before, kind);
      assert at < |before| ==> before[at].kind == kind;
      if i < copy.Length {
        assert before[i].kind == kind;
        assert at == i;
        copy[i] := Adopt(copy[i], Condition(kind, status, now, Reason(kind, status)));
      }
    }
  }

  class PrivateLoadZoneReconciler {
    var plz: Option<PrivateLoadZone> // what the API server holds under the name
    var worker: Option<nat> // the worker stored under the name
    var pollers: seq<Poller.TestRunPoller> // the pollers of all workers, whether stored or not
    var created: nat
    var log: seq<Event>

    ghost predicate Valid()
      reads this, pollers
    {
      && (forall i | 0 <= i < |pollers| :: pollers[i].Valid())
      && (forall i, j | 0 <= i < j < |pollers| :: pollers[i] != pollers[j])
      && (worker.Some? ==> worker.value < |pollers|)
    }

    ghost function Value(): (w: World)
      reads this, pollers
    {
      World(plz, worker, seq(|pollers|, i requires 0 <= i < |pollers| reads this, pollers => pollers[i].Value()),
            created, log)
    }

    constructor ()
      ensures Valid() && Value() == INITIAL
    {
      plz, worker, pollers, created, log := None, None, [], 0, [];
    }

    method Log(e: Event)
      requires Valid()
      modifies this
      ensures Valid() && pollers == old(pollers) && Value() == Logged(old(Value()), [e])
    {
      log := log + [e];
    }

    method NewWorker() returns (built: nat)
      requires Valid()
      modifies this
      ensures Valid() && fresh(set p | p in pollers && p !in old(pollers))
      ensures built == |old(pollers)| && |pollers| == built + 1
      ensures Value() == old(Value()).(pollers := old(Value()).pollers + [Poller.NEW])
    {
      built := |pollers|;
      var poller := new Poller.TestRunPoller();
      pollers := pollers + [poller];
    }

    /** AddWorker stores a worker unless there is one already. */
    method AddWorker(built: nat) returns (added: bool)
      requires Valid() && built < |pollers|
      modifies this
      ensures Valid() && pollers == old(pollers) && added == old(worker).None?
      ensures Value() == if added then old(Value()).(worker := Some(built)) else old(Value())
    {
      added := worker.None?;
      if added {
        worker := Some(built);
      }
    }

    method StartFactory(i: nat)
      requires Valid() && i < |pollers|
      modifies pollers[i]
      ensures Valid()
      ensures var p := old(Value()).pollers;
              Value() == old(Value()).(pollers := p[i := Poller.FactoryStarted(p[i])])
    {
      pollers[i].StartFactory();
    }

    method StopFactory(i: nat)
      requires Valid() && i < |pollers|
      modifies this, pollers[i]
      ensures Valid() && pollers == old(pollers)
      ensures var p := old(Value()).pollers;
              Value() == Logged(old(Value()).(pollers := p[i := Poller.Stopped(p[i])]), [FactoryStopped(i)])
    {
      pollers[i].StopFactory();
      ghost var stopped := Value();
      Log(FactoryStopped(i));
    }

    /** Update of the finalizers of an object as it was fetched. */
    method Update(updated: PrivateLoadZone, answer: Answer) returns (ok: bool)
      requires Valid()
      modifies this
      ensures Valid() && pollers == old(pollers) && ok == answer.Succeeds?
      ensures Value() == if answer.Fails? then old(Value()) else old(Value()).(plz := Swept(updated))
    {
      if !answer.Fails? {
        plz := Swept(updated);
      }
      ok := answer.Succeeds?;
    }

    method UpdateStatus(proposed: CondMap, o: Oracle) returns (ok: bool)
      requires Valid() && plz.Some?
      modifies this
      ensures Valid() && pollers == old(pollers) && plz.Some? && worker == old(worker)
      ensures proposed == RegisteredStatus(o.now) ==>
                (Value(), ok) == MarkRegistered(old(Value()), old(plz).value, o)
    {
      hide MapNewer, MapMerge, RegisteredStatus;
      ghost var before := Value();
      if !o.refetched {
        return false;
      }
      var fetched := plz.value;
      if !MapNewer(fetched.conditions, proposed) {
        return true;
      }
      if !o.patch.Fails? {
        plz := Some(fetched.(conditions := MapMerge(fetched.conditions, proposed)));
      }
      assert Value() == before.(plz := plz);
      ok := o.patch.Succeeds?;
    }

    method Reconcile(o: Oracle)
      requires Valid()
      modifies this, pollers
      ensures Valid() && Value() == PlzModel.Reconcile(old(Value()), o)
    {
      hide FirstRegistration, Removal, MarkRegistered, RegisteredStatus, AsMap, KeepPolling;
      if plz.None? || !o.found {
        return;
      }
      var fetched := plz.value;
      var stored := worker;

      if !fetched.deleting && !fetched.Registered() {
        if fetched.finalizer {
          var zone := new Zone();
          zone.Initialize(o.now);
          zone.UpdateCondition(PLZRegistered, ConditionTrue, o.now);
          var proposed := AsMap(zone.conditions[..]);
          ProposedIs(zone.conditions[..], o.now);
          var ok := UpdateStatus(proposed, o);
          if !ok {
            return;
          }
        } else {
          Register(fetched, o);
          return;
        }
      } else if fetched.deleting && fetched.finalizer {
        if stored.Some? {
          Remove(fetched, stored.value, o);
          return;
        }
      }

      Poll(stored, o);
    }

    /** The rest of a reconcile, with the object as it is after the status update. */
    method Poll(stored: Option<nat>, o: Oracle)
      requires Valid() && plz.Some? && worker == stored
      modifies this, pollers
      ensures Valid() && Value() == KeepPolling(old(Value()), o)
    {
      if plz.value.Registered() {
        if stored.None? {
          if !o.token {
            return;
          }
          var built := NewWorker();
          var _ := AddWorker(built);
          return;
        }
        StartFactory(stored.value);
      }
    }

    /** The first reconcile. */
    method Register(fetched: PrivateLoadZone, o: Oracle)
      requires Valid() && plz == Some(fetched) && !fetched.deleting
      modifies this
      ensures Valid() && Value() == FirstRegistration(old(Value()), fetched, o)
    {
      if !o.token {
        return;
      }
      var built := NewWorker();
      if !o.register.Fails? {
        Log(CloudRegistered(fetched.uid));
      }
      if !o.register.Succeeds? {
        return;
      }
      var added := AddWorker(built);
      if !added {
        return;
      }
      var _ := Update(fetched.(finalizer := true), o.update);
      if !o.update.Fails? {
        Log(FinalizerAdded(fetched.uid));
      }
    }

    /** The PLZ is being deleted. */
    method Remove(fetched: PrivateLoadZone, stored: nat, o: Oracle)
      requires Valid() && plz == Some(fetched) && worker == Some(stored) && fetched.deleting
      modifies this, pollers
      ensures Valid() && Value() == Removal(old(Value()), fetched, o)
    {
      hide MapMerge, Poller.Stopped;
      StopFactory(stored);
      Log(DeregistrationTried(fetched.uid));
      var ok := Update(fetched.(finalizer := false), o.update);
      if !o.update.Fails? {
        Log(FinalizerRemoved(fetched.uid));
      }
      if !ok {
        return;
      }
      DeleteWorker();
    }

    method DeleteWorker()
      requires Valid()
      modifies this
      ensures Valid() && pollers == old(pollers) && Value() == old(Value()).(worker := None)
    {
      worker := None;
    }
  }

  lemma ProposedIs(conds: seq<Condition>, now: int)
    requires conds == SetStatusCondition([Condition(PLZRegistered, ConditionUnknown, now, "PLZRegisteredUnknown")],
                                         Condition(PLZRegistered, ConditionTrue, now, "PLZRegisteredTrue"))
    ensures AsMap(conds) == RegisteredStatus(now)
  {
    assert conds == [Condition(PLZRegistered, ConditionTrue, now, "PLZRegisteredTrue")];
    assert conds[..0] == [];
    assert Entries(conds) == map[PLZRegistered := conds[0]];
  }
}
