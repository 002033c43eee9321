/**
 * handle of pkg/plz/worker.go: the goroutines that turn the test run IDs of the cloud into TestRuns, as
 * interleaved steps, whatever IDs the polls yield and however often.
 */
module PlzTestRuns {
  /** testrun.PLZTestName: the ID fixes the name, and the name the ID. */
  function TestName(id: string): string {
    "plz-test-" + id
  }

  /** So an ID is turned away by its own TestRun only. */
  lemma NamesDiffer(a: string, b: string)
    requires TestName(a) == TestName(b)
    ensures a == b
  {
    assert a == TestName(a)[|"plz-test-"|..];
    assert b == TestName(b)[|"plz-test-"|..];
  }

  datatype Event = Created(name: string) | Deleted(name: string)

  /** How far a call of handle has come: it was given an ID, found no such test, or created one without arguments. */
  datatype Handler = Given(id: string) | Absent | Outdated(name: string) | Over

  /** `tests` are the names of the TestRuns that the API server holds. */
  datatype State = State(tests: set<string>, handlers: seq<Handler>, log: seq<Event>)

  const NEW := State({}, [], [])

  /** A call succeeds, fails, or takes effect although the caller sees an error. */
  datatype Answer = Succeeds | Fails | Lost

  datatype Action =
    | Receive(id: string) // a consumer of some poller's channel gets an ID
    | LookUp(handler: nat, answered: bool)
    | GiveUp(handler: nat) // the data of the run cannot be had or prepared, or the context is cancelled
    | Create(handler: nat, id: string, answer: Answer, pruned: bool) // with the ID that the data of the run holds
    | DeletePruned(handler: nat, answer: Answer) // the server had dropped the arguments
    | Remove(name: string) // after the end of the run, or by a user
    | Restart

  predicate Enabled(s: State, a: Action) {
    match a
    case Receive(id) => true
    case LookUp(h, answered) => h < |s.handlers| && s.handlers[h].Given?
    case GiveUp(h) => h < |s.handlers| && s.handlers[h].Absent?
    case Create(h, id, answer, pruned) => h < |s.handlers| && s.handlers[h].Absent?
    case DeletePruned(h, answer) => h < |s.handlers| && s.handlers[h].Outdated?
    case Remove(name) => name in s.tests
    case Restart => true
  }

  function Stored(s: State, name: string): State {
    s.(tests := s.tests + {name}, log := s.log + [Created(name)])
  }

  function Dropped(s: State, name: string): State {
    if name in s.tests then s.(tests := s.tests - {name}, log := s.log + [Deleted(name)]) else s
  }

  function Apply(s: State, a: Action): State
    requires Enabled(s, a)
  {
    match a
    case Receive(id) => s.(handlers := s.handlers + [Given(id)])
    case LookUp(h, answered) =>
      var id := s.handlers[h].id;
      s.(handlers := s.handlers[h := if answered && TestName(id) !in s.tests then Absent else Over])
    case GiveUp(h) => s.(handlers := s.handlers[h := Over])
    case Create(h, id, answer, pruned) =>
      var name := TestName(id);
      // the API server refuses a second object of that name
      if answer == Fails || name in s.tests then s.(handlers := s.handlers[h := Over])
      else
        var next := if answer == Succeeds && pruned then Outdated(name) else Over;
        Stored(s.(handlers := s.handlers[h := next]), name)
    case DeletePruned(h, answer) =>
      var s1 := s.(handlers := s.handlers[h := Over]);
      if answer == Fails then s1 else Dropped(s1, s.handlers[h].name)
    case Remove(name) => Dropped(s, name)
    case Restart => s.(handlers := [])
  }

  ghost predicate IsRun(s: State, actions: seq<Action>)
    decreases |actions|
  {
    actions == [] || (Enabled(s, actions[0]) && IsRun(Apply(s, actions[0]), actions[1..]))
  }

  ghost function After(s: State, actions: seq<Action>): State
    requires IsRun(s, actions)
    decreases |actions|
  {
    if actions == [] then s else After(Apply(s, actions[0]), actions[1..])
  }

  // Creations and deletions of one name take turns.

  /** Whether the last event about the name is its creation. */
  predicate Live(log: seq<Event>, name: string) {
    if log == [] then false
    else
      var last := log[|log| - 1];
      if last == Created(name) then true
      else if last == Deleted(name) then false
      else Live(log[..|log| - 1], name)
  }

  ghost predicate TakeTurns(log: seq<Event>) {
    forall j | 0 <= j < |log| && log[j].Created? :: !Live(log[..j], log[j].name)
  }

  ghost predicate Inv(s: State) {
    (forall name :: name in s.tests <==> Live(s.log, name)) && TakeTurns(s.log)
  }

  lemma LiveAfter(log: seq<Event>, e: Event, name: string)
    ensures Live(log + [e], name) == if e == Created(name) then true else if e == Deleted(name) then false
                                     else Live(log, name)
  {
    assert (log + [e])[..|log|] == log;
  }

  lemma TurnsAfter(log: seq<Event>, e: Event)
    requires TakeTurns(log) && (e.Created? ==> !Live(log, e.name))
    ensures TakeTurns(log + [e])
  {
    var longer := log + [e];
    forall j | 0 <= j < |longer| && longer[j].Created? ensures !Live(longer[..j], longer[j].name) {
      assert longer[..j] == log[..j];
      assert j == |log| ==> log[..j] == log;
    }
  }

  lemma StoredKeeps(s: State, name: string)
    requires Inv(s) && name !in s.tests
    ensures Inv(Stored(s, name))
  {
    hide Live;
    TurnsAfter(s.log, Created(name));
    forall n ensures n in Stored(s, name).tests <==> Live(Stored(s, name).log, n) {
      LiveAfter(s.log, Created(name), n);
    }
  }

  lemma DroppedKeeps(s: State, name: string)
    requires Inv(s)
    ensures Inv(Dropped(s, name))
  {
    hide Live;
    if name in s.tests {
      TurnsAfter(s.log, Deleted(name));
      forall n ensures n in Dropped(s, name).tests <==> Live(Dropped(s, name).log, n) {
        LiveAfter(s.log, Deleted(name), n);
      }
    }
  }

  lemma StepKeeps(s: State, a: Action)
    requires Inv(s) && Enabled(s, a)
    ensures Inv(Apply(s, a))
  {
    hide Live, TakeTurns;
    match a {
      case Create(h, id, answer, pruned) =>
        var name := TestName(id);
        if answer != Fails && name !in s.tests {
          StoredKeeps(s.(handlers := Apply(s, a).handlers), name);
        }
      case DeletePruned(h, answer) =>
        DroppedKeeps(s.(handlers := s.handlers[h := Over]), s.handlers[h].name);
      case Remove(name) => DroppedKeeps(s, name);
      case _ =>
    }
  }

  lemma {:induction false} RunKeeps(s: State, actions: seq<Action>)
    requires Inv(s) && IsRun(s, actions)
    ensures Inv(After(s, actions))
    decreases |actions|
  {
    hide Inv, Apply;
    if actions == [] {
    } else {
      StepKeeps(s, actions[0]);
      RunKeeps(Apply(s, actions[0]), actions[1..]);
    }
  }

  lemma {:induction false} LiveUntilDeleted(log: seq<Event>, i: nat, name: string)
    requires i < |log| && log[i] == Created(name) && !Live(log, name)
    ensures exists k :: i < k < |log| && log[k] == Deleted(name)
  {
    var n := |log| - 1;
    if log[n] == Deleted(name) {
      assert i < n;
    } else {
      LiveUntilDeleted(log[..n], i, name);
      var k :| i < k < n && log[..n][k] == Deleted(name);
      assert log[k] == Deleted(name);
    }
  }

  /**
   * Over all interleavings of polls, consumers, failures and restarts: between two creations of a TestRun for
   * the same ID, that TestRun was deleted.
   */
  lemma CreatedAgainAfterDeletion(actions: seq<Action>, i: nat, j: nat, id: string)
    requires IsRun(NEW, actions) && i < j < |After(NEW, actions).log|
    requires After(NEW, actions).log[i] == Created(TestName(id)) == After(NEW, actions).log[j]
    ensures exists k :: i < k < j && After(NEW, actions).log[k] == Deleted(TestName(id))
  {
    hide TestName;
    RunKeeps(NEW, actions);
    var log := After(NEW, actions).log;
    LiveUntilDeleted(log[..j], i, TestName(id));
    var k :| i < k < j && log[..j][k] == Deleted(TestName(id));
    assert log[k] == Deleted(TestName(id));
  }

  /** No ID led to two TestRuns. */
  ghost predicate AtMostOnce(log: seq<Event>) {
    forall i, j, id | 0 <= i < j < |log| && log[i] == Created(TestName(id)) :: log[j] != Created(TestName(id))
  }

  ghost predicate NoDeletion(log: seq<Event>) {
    forall k | 0 <= k < |log| :: !log[k].Deleted?
  }

  lemma OneStep(s: State, a: Action)
    requires Enabled(s, a)
    ensures IsRun(s, [a]) && After(s, [a]) == Apply(s, a)
  {
    assert IsRun(Apply(s, a), [a][1..]);
  }

  lemma {:induction false} Extended(s: State, actions: seq<Action>, a: Action)
    requires IsRun(s, actions) && Enabled(After(s, actions), a)
    ensures IsRun(s, actions + [a]) && After(s, actions + [a]) == Apply(After(s, actions), a)
    decreases |actions|
  {
    if actions == [] {
      assert actions + [a] == [a];
      OneStep(s, a);
    } else {
      Extended(Apply(s, actions[0]), actions[1..], a);
      assert (actions + [a])[1..] == actions[1..] + [a];
    }
  }

  /** A run that ended and was cleaned up while the cloud still lists it is started once more. */
  lemma CreatedTwice() returns (actions: seq<Action>)
    ensures IsRun(NEW, actions)
    ensures var t := TestName("1");
            After(NEW, actions).log == [Created(t), Deleted(t), Created(t)]
  {
    hide TestName;
    var t := TestName("1");
    actions := [Receive("1")];
    OneStep(NEW, Receive("1"));
    Extended(NEW, actions, LookUp(0, true));
    actions := actions + [LookUp(0, true)];
    Extended(NEW, actions, Create(0, "1", Succeeds, false));
    actions := actions + [Create(0, "1", Succeeds, false)];
    Extended(NEW, actions, Remove(t));
    actions := actions + [Remove(t)];
    var s := After(NEW, actions);
    assert s.log == [Created(t)] + [Deleted(t)] && t !in s.tests && s.handlers == [Over];
    Extended(NEW, actions, Receive("1"));
    actions := actions + [Receive("1")];
    Extended(NEW, actions, LookUp(1, true));
    actions := actions + [LookUp(1, true)];
    Extended(NEW, actions, Create(1, "1", Succeeds, false));
    actions := actions + [Create(1, "1", Succeeds, false)];
  }

  /** In all runs each ID leads to one TestRun at most, exactly if no TestRun is deleted. */
  lemma AtMostOnceExactly(deletionAllowed: bool)
    ensures (forall actions: seq<Action> |
               IsRun(NEW, actions) && (deletionAllowed || NoDeletion(After(NEW, actions).log)) ::
               AtMostOnce(After(NEW, actions).log))
            <==> !deletionAllowed
  {
    hide TestName, IsRun, After;
    if deletionAllowed {
      var actions := CreatedTwice();
      var log := After(NEW, actions).log;
      assert log[0] == Created(TestName("1")) == log[2];
      assert !AtMostOnce(log);
    } else {
      forall actions: seq<Action> | IsRun(NEW, actions) && NoDeletion(After(NEW, actions).log)
        ensures AtMostOnce(After(NEW, actions).log)
      {
        var log := After(NEW, actions).log;
        forall i, j, id | 0 <= i < j < |log| && log[i] == Created(TestName(id))
          ensures log[j] != Created(TestName(id))
        {
          if log[j] == Created(TestName(id)) {
            CreatedAgainAfterDeletion(actions, i, j, id);
          }
        }
      }
    }
  }

  // handle itself, undisturbed.

  class PLZWorker {
    var tests: set<string>
    var log: seq<Event>
    var handlers: seq<Handler> // the other calls of handle

    ghost function Value(): State
      reads this
    {
      State(tests, handlers, log)
    }

    constructor ()
      ensures Value() == NEW
    {
      tests, log, handlers := {}, [], [];
    }

    /** One call of handle is a run of its steps: it looks the test up, prepares it, creates it and checks it. */
    method Handle(id: string, answered: bool, prepared: bool, data: string, create: Answer, pruned: bool, drop: Answer)
      returns (ghost actions: seq<Action>, done: bool)
      modifies this
      ensures actions != [] && actions[0] == Receive(id)
      ensures IsRun(old(Value()), actions)
      ensures After(old(Value()), actions) == Value().(handlers := old(handlers) + [Over])
      ensures handlers == old(handlers)
      ensures done <==> && answered && TestName(id) !in old(tests) && prepared
                        && TestName(data) !in old(tests) && create == Succeeds && !pruned
      ensures var name := "plz-test-" + data;
              var comes := && answered && "plz-test-" + id !in old(tests) && prepared
                           && name !in old(tests) && create != Fails;
              var goes := comes && create == Succeeds && pruned && drop != Fails;
              && tests == (if comes && !goes then old(tests) + {name} else old(tests))
              && log == old(log) + (if comes then [Created(name)] else []) + (if goes then [Deleted(name)] else [])
    {
      ghost var s, h := Value(), |handlers|;
      actions := [Receive(id)];
      OneStep(s, Receive(id));
      Extended(s, actions, LookUp(h, answered));
      actions := actions + [LookUp(h, answered)];
      if !answered || TestName(id) in tests {
        return actions, false;
      }
      if !prepared {
        Extended(s, actions, GiveUp(h));
        actions := actions + [GiveUp(h)];
        return actions, false;
      }
      Extended(s, actions, Create(h, data, create, pruned));
      actions := actions + [Create(h, data, create, pruned)];
      if TestName(data) in tests {
        return actions, false;
      }
      if create != Fails {
        tests, log := tests + {TestName(data)}, log + [Created(TestName(data))];
      }
      if create != Succeeds {
        return actions, false;
      }
      if pruned {
        Extended(s, actions, DeletePruned(h, drop));
        actions := actions + [DeletePruned(h, drop)];
        if drop != Fails {
          tests, log := tests - {TestName(data)}, log + [Deleted(TestName(data))];
        }
        return actions, false;
      }
      return actions, true;
    }
  }
}
