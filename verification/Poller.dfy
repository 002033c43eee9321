/**
 * pkg/cloud/conn/poller.go and pkg/cloud/test_runs.go: a poller with its loop goroutine, the channel on which
 * it hands over test run IDs, and the goroutines that receive them, as interleaved steps.
 */
module Poller {
  import opened Text

  /**
   * Where a loop goroutine stands: about to look up poller.ctx for its select, waiting there with the context it
   * found, handing over IDs under the context of the poll, or over.
   */
  datatype Loop =
    | Entering
    | Selecting(context: nat)
    | Sending(ids: seq<string>, next: nat, context: nat, poll: nat)
    | Ended

  datatype Consumer = Receiving | Handling(id: string) | Exited

  /**
   * `contexts` says of every context created so far whether it is cancelled; the last one is poller.ctx.
   * `polled` are the results of all polls, `taken` what was handed over of each of them.
   */
  datatype State = State(
    running: bool,
    contexts: seq<bool>,
    loops: seq<Loop>,
    consumers: seq<Consumer>,
    closed: nat, // how often the channel was closed
    panicked: bool,
    polled: seq<seq<string>>,
    taken: seq<seq<string>>)

  const NEW := State(false, [], [], [], 0, false, [], [])

  datatype Action =
    | Start // StartFactory: starts the poller and a consumer, if it is not polling
    | Stop
    | Enter(loop: nat)
    | Done(loop: nat) // the context that the loop waits with is cancelled, and it closes the channel
    | Tick(loop: nat, ids: seq<string>) // a poll that yields these IDs
    | TickFails(loop: nat)
    | Hand(loop: nat, consumer: nat) // an ID passes from the loop to a consumer
    | Abandon(loop: nat) // the loop sees that the context it captured is cancelled
    | ListEnds(loop: nat)
    | SendOnClosed(loop: nat)
    | Handled(consumer: nat)
    | ChannelEnds(consumer: nat)

  predicate Cancelled(s: State) {
    s.contexts != [] && s.contexts[|s.contexts| - 1]
  }

  /** Whether the goroutines can do this now. A panic ends the process. */
  predicate Enabled(s: State, a: Action) {
    !s.panicked &&
    match a
    case Start => true
    case Stop => true
    case Enter(i) => i < |s.loops| && s.loops[i].Entering? && s.contexts != []
    case Done(i) =>
      && i < |s.loops| && s.loops[i].Selecting?
      && s.loops[i].context < |s.contexts| && s.contexts[s.loops[i].context]
    case Tick(i, ids) => i < |s.loops| && s.loops[i].Selecting? && s.contexts != []
    case TickFails(i) => i < |s.loops| && s.loops[i].Selecting?
    case Hand(i, c) =>
      && i < |s.loops| && s.loops[i].Sending? && s.loops[i].next < |s.loops[i].ids| && s.closed == 0
      && c < |s.consumers| && s.consumers[c] == Receiving && s.loops[i].poll < |s.taken|
    case Abandon(i) =>
      && i < |s.loops| && s.loops[i].Sending? && s.loops[i].next < |s.loops[i].ids|
      && s.loops[i].context < |s.contexts| && s.contexts[s.loops[i].context]
    case ListEnds(i) => i < |s.loops| && s.loops[i].Sending? && s.loops[i].next >= |s.loops[i].ids|
    case SendOnClosed(i) =>
      i < |s.loops| && s.loops[i].Sending? && s.loops[i].next < |s.loops[i].ids| && s.closed > 0
    case Handled(c) => c < |s.consumers| && s.consumers[c].Handling?
    case ChannelEnds(c) => c < |s.consumers| && s.consumers[c] == Receiving && s.closed > 0
  }

  /** Poller.Start: a new context and a new loop, unless it is polling already. */
  function Started(s: State): State {
    if s.running then s
    else s.(running := true, contexts := s.contexts + [false], loops := s.loops + [Entering])
  }

  /** PLZWorker.StartFactory: also a goroutine that ranges over the channel. */
  function FactoryStarted(s: State): State {
    if s.running then s else Started(s).(consumers := s.consumers + [Receiving])
  }

  /** Poller.Stop: cancels the current context. */
  function Stopped(s: State): State {
    if !s.running || s.contexts == [] then s
    else s.(running := false, contexts := s.contexts[|s.contexts| - 1 := true])
  }

  function Apply(s: State, a: Action): State
    requires Enabled(s, a)
  {
    match a
    case Start => FactoryStarted(s)
    case Stop => Stopped(s)
    case Enter(i) => s.(loops := s.loops[i := Selecting(|s.contexts| - 1)])
    case Done(i) => s.(loops := s.loops[i := Ended], closed := s.closed + 1, panicked := s.closed > 0)
    case Tick(i, ids) =>
      s.(loops := s.loops[i := Sending(ids, 0, |s.contexts| - 1, |s.polled|)],
         polled := s.polled + [ids], taken := s.taken + [[]])
    case TickFails(i) => s.(loops := s.loops[i := Entering])
    case Hand(i, c) =>
      var l := s.loops[i];
      s.(loops := s.loops[i := l.(next := l.next + 1)],
         consumers := s.consumers[c := Handling(l.ids[l.next])],
         taken := s.taken[l.poll := s.taken[l.poll] + [l.ids[l.next]]])
    case Abandon(i) => s.(loops := s.loops[i := Entering])
    case ListEnds(i) => s.(loops := s.loops[i := Entering])
    case SendOnClosed(i) => s.(panicked := true)
    case Handled(c) => s.(consumers := s.consumers[c := Receiving])
    case ChannelEnds(c) => s.(consumers := s.consumers[c := Exited])
  }

  ghost predicate IsRun(s: State, actions: seq<Action>)
    decreases |actions|
  {
    actions == [] || (Enabled(s, actions[0]) && IsRun(Apply(s, actions[0]), actions[1..]))
  }

  ghost function After(s: State, actions: seq<Action>): State
    requires IsRun(s, actions)
    decreases |actions|
  {
    if actions == [] then s else After(Apply(s, actions[0]), actions[1..])
  }

  function Concat(parts: seq<seq<string>>): seq<string> {
    if parts == [] then [] else Concat(parts[..|parts| - 1]) + parts[|parts| - 1]
  }

  /** The IDs that consumers have received so far, in order. */
  function Received(s: State): seq<string> {
    Concat(s.taken)
  }

  /** A loop ends only when its context was cancelled, and each end closes the channel; nothing else ends or closes. */
  lemma LoopEndsExactly(s: State, a: Action, i: nat)
    requires Enabled(s, a) && i < |s.loops| && s.loops[i] != Ended
    ensures i < |Apply(s, a).loops|
    ensures Apply(s, a).loops[i] == Ended <==> a == Done(i)
    ensures a == Done(i) ==> s.loops[i].Selecting? && s.contexts[s.loops[i].context]
    ensures Apply(s, a).closed == s.closed + if a.Done? then 1 else 0
  {
  }

  // A poller that was started at most once.

  /** Every poll but an unfinished last one was handed over completely, unless the context was cancelled. */
  ghost predicate TakenOk(s: State) {
    && |s.taken| == |s.polled|
    && (forall k | 0 <= k < |s.polled| :: s.taken[k] <= s.polled[k])
    && (!Cancelled(s) ==>
          forall k | 0 <= k < |s.polled| ::
            (k < |s.polled| - 1 || (s.loops != [] && !s.loops[0].Sending?)) ==> s.taken[k] == s.polled[k])
    && (s.loops != [] && s.loops[0].Sending? ==>
          && s.polled != [] && s.polled[|s.polled| - 1] == s.loops[0].ids
          && s.loops[0].next <= |s.loops[0].ids|
          && s.taken[|s.taken| - 1] == s.loops[0].ids[..s.loops[0].next]
          && s.loops[0].context == 0 && s.loops[0].poll == |s.polled| - 1)
  }

  ghost predicate SingleStart(s: State) {
    && |s.contexts| <= 1
    && |s.loops| == |s.contexts| && |s.consumers| == |s.contexts|
    && (s.running <==> s.contexts != [] && !s.contexts[0])
    && s.closed == (if s.loops != [] && s.loops[0] == Ended then 1 else 0)
    && (s.closed > 0 ==> Cancelled(s))
    && !s.panicked
    && (s.loops == [] ==> s.polled == [])
    && (s.loops != [] && s.loops[0].Selecting? ==> s.loops[0].context == 0)
    && TakenOk(s)
  }

  /** Whether this action would start the poller although it was started before. */
  predicate Restarts(s: State, a: Action) {
    a.Start? && !s.running && s.contexts != []
  }

  lemma TickKeepsSingle(s: State, i: nat, ids: seq<string>)
    requires SingleStart(s) && Enabled(s, Tick(i, ids))
    ensures SingleStart(Apply(s, Tick(i, ids)))
    ensures Received(s) <= Received(Apply(s, Tick(i, ids)))
  {
    hide Concat;
    var t := Apply(s, Tick(i, ids));
    ConcatMore(s.taken, []);
    assert t.taken == s.taken + [[]];
  }

  lemma ConcatMore(parts: seq<seq<string>>, part: seq<string>)
    ensures Concat(parts + [part]) == Concat(parts) + part
  {
    assert (parts + [part])[..|parts|] == parts;
  }

  lemma HandKeepsSingle(s: State, i: nat, c: nat)
    requires SingleStart(s) && Enabled(s, Hand(i, c))
    ensures SingleStart(Apply(s, Hand(i, c)))
    ensures Received(s) <= Received(Apply(s, Hand(i, c)))
  {
    hide Concat;
    var t := Apply(s, Hand(i, c));
    var last := |s.taken| - 1;
    ConcatMore(s.taken[..last], t.taken[last]);
    ConcatMore(s.taken[..last], s.taken[last]);
    assert t.taken == s.taken[..last] + [t.taken[last]];
    assert s.taken == s.taken[..last] + [s.taken[last]];
  }

  lemma LoopEndsSingle(s: State, i: nat, a: Action)
    requires SingleStart(s) && Enabled(s, a)
    requires a == Enter(i) || a == Done(i) || a == TickFails(i) || a == Abandon(i) || a == ListEnds(i)
    ensures SingleStart(Apply(s, a))
    ensures Received(s) <= Received(Apply(s, a))
  {
    hide Concat;
    assert i == 0;
  }

  lemma StartStopSingle(s: State, a: Action)
    requires SingleStart(s) && Enabled(s, a) && (a.Start? || a.Stop?) && !Restarts(s, a)
    ensures SingleStart(Apply(s, a))
    ensures Received(s) <= Received(Apply(s, a))
  {
    hide Concat;
  }

  /** A step of a consumer. A send on the closed channel does not come up. */
  lemma ConsumerSingle(s: State, a: Action)
    requires SingleStart(s) && Enabled(s, a)
    requires a.SendOnClosed? || a.Handled? || a.ChannelEnds?
    ensures SingleStart(Apply(s, a))
    ensures Received(s) <= Received(Apply(s, a))
  {
    hide Concat;
  }

  lemma StepKeepsSingle(s: State, a: Action)
    requires SingleStart(s) && Enabled(s, a) && !Restarts(s, a)
    ensures SingleStart(Apply(s, a))
    ensures Cancelled(s) ==> Cancelled(Apply(s, a))
    ensures Received(s) <= Received(Apply(s, a))
  {
    if Cancelled(s) {
      CancelledStays(s, a);
    }
    hide Received, SingleStart, Enabled, Apply, Cancelled;
    match a {
      case Tick(i, ids) => TickKeepsSingle(s, i, ids);
      case Hand(i, c) => HandKeepsSingle(s, i, c);
      case Enter(i) => LoopEndsSingle(s, i, a);
      case Done(i) => LoopEndsSingle(s, i, a);
      case TickFails(i) => LoopEndsSingle(s, i, a);
      case Abandon(i) => LoopEndsSingle(s, i, a);
      case ListEnds(i) => LoopEndsSingle(s, i, a);
      case Start => StartStopSingle(s, a);
      case Stop => StartStopSingle(s, a);
      case _ => ConsumerSingle(s, a);
    }
  }

  lemma CancelledStays(s: State, a: Action)
    requires SingleStart(s) && Enabled(s, a) && !Restarts(s, a) && Cancelled(s)
    ensures Cancelled(Apply(s, a))
  {
    hide TakenOk;
  }

  lemma {:induction false} PrefixOfConcat(taken: seq<seq<string>>, polled: seq<seq<string>>)
    requires |taken| == |polled|
    requires forall k | 0 <= k < |polled| - 1 :: taken[k] == polled[k]
    requires polled != [] ==> taken[|taken| - 1] <= polled[|polled| - 1]
    ensures Concat(taken) <= Concat(polled)
  {
    if polled == [] {
    } else {
      var n := |polled| - 1;
      assert taken[..n] == polled[..n];
    }
  }

  /** While the poller is not stopped, what was received is a prefix of all that was polled, in order. */
  lemma ReceivedIsPrefix(s: State)
    requires SingleStart(s) && !Cancelled(s)
    ensures Received(s) <= Concat(s.polled)
  {
    PrefixOfConcat(s.taken, s.polled);
  }

  /** No action of a run restarts the poller. */
  ghost predicate NeverRestarts(s: State, actions: seq<Action>)
    requires IsRun(s, actions)
    decreases |actions|
  {
    actions != [] ==> !Restarts(s, actions[0]) && NeverRestarts(Apply(s, actions[0]), actions[1..])
  }

  /**
   * As long as a poller is not started again after it was stopped, it has one loop and one consumer, its
   * channel is closed at most once and never sent on afterwards, and nothing panics, in every interleaving.
   */
  lemma {:induction false} SingleStartIsSafe(s: State, actions: seq<Action>)
    requires SingleStart(s) && IsRun(s, actions) && NeverRestarts(s, actions)
    ensures SingleStart(After(s, actions))
    ensures Received(s) <= Received(After(s, actions))
    decreases |actions|
  {
    if actions == [] {
    } else {
      StepKeepsSingle(s, actions[0]);
      SingleStartIsSafe(Apply(s, actions[0]), actions[1..]);
    }
  }

  ghost predicate WithoutStart(actions: seq<Action>) {
    forall a: Action | a in actions :: !a.Start?
  }

  // A poller that was started again: its loops can always be driven into a panic.

  /** What holds of a poller however it is used, as long as nothing has panicked. */
  ghost predicate AnyUse(s: State) {
    && |s.loops| == |s.contexts|
    && (s.running ==> s.contexts != [] && !Cancelled(s))
    && (!s.running && s.contexts != [] ==> Cancelled(s))
    && (forall k | 0 <= k < |s.contexts| - 1 :: s.contexts[k])
    && (forall i | 0 <= i < |s.loops| && (s.loops[i].Selecting? || s.loops[i].Sending?) ::
          s.loops[i].context < |s.contexts|)
    && (s.panicked || (s.closed == CountEnded(s.loops) && s.closed <= 1))
  }

  function CountEnded(loops: seq<Loop>): nat {
    if loops == [] then 0
    else CountEnded(loops[..|loops| - 1]) + if loops[|loops| - 1] == Ended then 1 else 0
  }

  lemma {:induction false} CountSet(loops: seq<Loop>, i: nat, l: Loop)
    requires i < |loops|
    ensures CountEnded(loops[i := l])
            == CountEnded(loops) - (if loops[i] == Ended then 1 else 0) + (if l == Ended then 1 else 0)
  {
    var n := |loops| - 1;
    if i == n {
      assert loops[i := l][..n] == loops[..n];
    } else {
      CountSet(loops[..n], i, l);
      assert loops[i := l][..n] == loops[..n][i := l];
    }
  }

  lemma {:induction false} AllEnded(loops: seq<Loop>)
    requires forall i | 0 <= i < |loops| :: loops[i] == Ended
    ensures CountEnded(loops) == |loops|
  {
    if loops == [] {
    } else {
      AllEnded(loops[..|loops| - 1]);
    }
  }

  /** A loop moves on without ending. */
  lemma LoopMoves(s: State, i: nat, l: Loop)
    requires AnyUse(s) && i < |s.loops| && s.loops[i] != Ended && l != Ended
    requires l.Selecting? || l.Sending? ==> l.context < |s.contexts|
    ensures AnyUse(s.(loops := s.loops[i := l]))
  {
    CountSet(s.loops, i, l);
    hide CountEnded;
  }

  lemma DoneKeepsAnyUse(s: State, i: nat)
    requires AnyUse(s) && Enabled(s, Done(i))
    ensures AnyUse(Apply(s, Done(i)))
  {
    CountSet(s.loops, i, Ended);
    hide CountEnded;
  }

  lemma StartKeepsAnyUse(s: State)
    requires AnyUse(s)
    ensures AnyUse(FactoryStarted(s))
  {
    if !s.running {
      var t := FactoryStarted(s);
      assert t.loops[..|s.loops|] == s.loops;
      assert CountEnded(t.loops) == CountEnded(s.loops);
      hide CountEnded;
    }
  }

  lemma StepKeepsAnyUse(s: State, a: Action)
    requires AnyUse(s) && Enabled(s, a)
    ensures AnyUse(Apply(s, a))
  {
    hide CountEnded;
    match a {
      case Start => StartKeepsAnyUse(s);
      case Done(i) => DoneKeepsAnyUse(s, i);
      case Tick(i, ids) => LoopMoves(s, i, Apply(s, a).loops[i]);
      case Hand(i, c) => LoopMoves(s, i, Apply(s, a).loops[i]);
      case Enter(i) => LoopMoves(s, i, Apply(s, a).loops[i]);
      case TickFails(i) => LoopMoves(s, i, Entering);
      case Abandon(i) => LoopMoves(s, i, Entering);
      case ListEnds(i) => LoopMoves(s, i, Entering);
      case _ =>
    }
  }

  /** A loop waits and sends under the context that the poller has at that moment, cancelled unless it runs. */
  lemma LooksUpLatest(history: seq<Action>, a: Action, i: nat)
    requires IsRun(NEW, history)
    requires Enabled(After(NEW, history), a) && (a.Enter? || a.Tick?) && a.loop == i
    ensures var s := After(NEW, history);
            var l := Apply(s, a).loops[i];
            && (l.Selecting? || l.Sending?)
            && l.context == |s.contexts| - 1 && (s.contexts[l.context] <==> !s.running)
  {
    RunKeepsAnyUse(NEW, history);
  }

  lemma {:induction false} RunKeepsAnyUse(s: State, actions: seq<Action>)
    requires AnyUse(s) && IsRun(s, actions)
    ensures AnyUse(After(s, actions))
    decreases |actions|
  {
    if actions == [] {
    } else {
      StepKeepsAnyUse(s, actions[0]);
      RunKeepsAnyUse(Apply(s, actions[0]), actions[1..]);
    }
  }

  lemma {:induction false} RunsJoin(s: State, a: seq<Action>, b: seq<Action>)
    requires IsRun(s, a) && IsRun(After(s, a), b)
    ensures IsRun(s, a + b) && After(s, a + b) == After(After(s, a), b)
    decreases |a|
  {
    if a == [] {
      assert a + b == b;
    } else {
      RunsJoin(Apply(s, a[0]), a[1..], b);
      assert (a + b)[1..] == a[1..] + b;
    }
  }

  lemma OneAction(s: State, a: Action)
    requires Enabled(s, a)
    ensures IsRun(s, [a]) && After(s, [a]) == Apply(s, a)
  {
    assert [a][1..] == [];
    assert IsRun(Apply(s, a), []);
  }

  /** From its select on, with every context cancelled, a loop can end, or panic in the attempt. */
  lemma EndSelecting(s: State, i: nat)
    requires AnyUse(s) && !s.panicked && !s.running && i < |s.loops| && s.loops[i].Selecting?
    ensures IsRun(s, [Done(i)])
    ensures var t := After(s, [Done(i)]);
            t.panicked || (t.loops == s.loops[i := Ended] && !t.running && t.closed == s.closed + 1)
  {
    OneAction(s, Done(i));
  }

  lemma EndEntering(s: State, i: nat) returns (actions: seq<Action>)
    requires AnyUse(s) && !s.panicked && !s.running && i < |s.loops| && s.loops[i].Entering?
    ensures IsRun(s, actions) && WithoutStart(actions)
    ensures var t := After(s, actions);
            t.panicked || (t.loops == s.loops[i := Ended] && !t.running && t.closed == s.closed + 1)
  {
    OneAction(s, Enter(i));
    StepKeepsAnyUse(s, Enter(i));
    var t := Apply(s, Enter(i));
    EndSelecting(t, i);
    RunsJoin(s, [Enter(i)], [Done(i)]);
    actions := [Enter(i)] + [Done(i)];
    assert t.loops[i := Ended] == s.loops[i := Ended];
  }

  /** A stopped poller can end any loop that has not ended, or panic in the attempt. */
  lemma EndLoop(s: State, i: nat) returns (actions: seq<Action>)
    requires AnyUse(s) && !s.panicked && !s.running && i < |s.loops| && s.loops[i] != Ended
    ensures IsRun(s, actions) && WithoutStart(actions)
    ensures var t := After(s, actions);
            t.panicked || (t.loops == s.loops[i := Ended] && !t.running && t.closed == s.closed + 1)
  {
    match s.loops[i] {
      case Entering => actions := EndEntering(s, i);
      case Selecting(c) =>
        EndSelecting(s, i);
        actions := [Done(i)];
      case Sending(ids, next, context, poll) =>
        var first := if next >= |ids| then ListEnds(i) else Abandon(i);
        OneAction(s, first);
        StepKeepsAnyUse(s, first);
        var t := Apply(s, first);
        var rest := EndEntering(t, i);
        RunsJoin(s, [first], rest);
        actions := [first] + rest;
        assert t.loops[i := Ended] == s.loops[i := Ended];
    }
  }

  /**
   * A poller that was started a second time can be driven into a panic, by stopping it and letting its loops
   * run: the channel is closed once for each of them.
   */
  lemma RestartCanPanic(s: State) returns (actions: seq<Action>)
    requires AnyUse(s) && !s.panicked && |s.contexts| >= 2
    ensures IsRun(s, actions) && After(s, actions).panicked
    ensures WithoutStart(actions)
  {
    OneAction(s, Stop);
    StepKeepsAnyUse(s, Stop);
    var t := Apply(s, Stop);
    actions := [Stop];
    var done := 0;
    var u := t;
    while !u.panicked && done < |u.loops|
      invariant IsRun(s, actions) && After(s, actions) == u
      invariant AnyUse(u) && (u.panicked || (!u.running && |u.loops| == |s.loops| && done <= |u.loops|))
      invariant u.panicked || forall i | 0 <= i < done :: u.loops[i] == Ended
      invariant WithoutStart(actions)
      decreases |s.loops| - done, !u.panicked
    {
      if u.loops[done] != Ended {
        var more := EndLoop(u, done);
        RunKeepsAnyUse(u, more);
        RunsJoin(s, actions, more);
        assert forall a | a in actions + more :: a in actions || a in more;
        actions := actions + more;
        u := After(s, actions);
      }
      done := done + 1;
    }
    if !u.panicked {
      AllEnded(u.loops);
      assert false;
    }
  }

  // Both together: what may still happen to a poller, by how often it was started.

  lemma {:induction false} ContextsStay(s: State, actions: seq<Action>)
    requires IsRun(s, actions)
    ensures |After(s, actions).contexts| >= |s.contexts|
    decreases |actions|
  {
    if actions == [] {
    } else {
      ContextsStay(Apply(s, actions[0]), actions[1..]);
    }
  }

  lemma {:induction false} StartedOnce(s: State, actions: seq<Action>)
    requires SingleStart(s) && IsRun(s, actions) && |After(s, actions).contexts| <= 1
    ensures NeverRestarts(s, actions)
    decreases |actions|
  {
    if actions == [] {
    } else {
      ContextsStay(Apply(s, actions[0]), actions[1..]);
      StepKeepsSingle(s, actions[0]);
      StartedOnce(Apply(s, actions[0]), actions[1..]);
    }
  }

  lemma {:induction false} WithoutRestart(s: State, actions: seq<Action>)
    requires IsRun(s, actions) && WithoutStart(actions)
    ensures NeverRestarts(s, actions)
    decreases |actions|
  {
    if actions == [] {
    } else {
      WithoutRestart(Apply(s, actions[0]), actions[1..]);
    }
  }

  /** Goroutines and calls of Stop can make it panic from here on. */
  ghost predicate CanPanic(s: State) {
    exists actions :: IsRun(s, actions) && WithoutStart(actions) && After(s, actions).panicked
  }

  /**
   * For every history of a poller: it is safe for good, whatever its goroutines do, exactly if it was started
   * at most once; a second start is never harmless, even though Start itself succeeds.
   */
  lemma SafeExactly(history: seq<Action>)
    requires IsRun(NEW, history) && !After(NEW, history).panicked
    ensures CanPanic(After(NEW, history)) <==> |After(NEW, history).contexts| >= 2
  {
    var s := After(NEW, history);
    if |s.contexts| >= 2 {
      RunKeepsAnyUse(NEW, history);
      var actions := RestartCanPanic(s);
      assert CanPanic(s);
    } else {
      StartedOnce(NEW, history);
      SingleStartIsSafe(NEW, history);
      forall actions | IsRun(s, actions) && WithoutStart(actions)
        ensures !After(s, actions).panicked
      {
        WithoutRestart(s, actions);
        SingleStartIsSafe(s, actions);
      }
    }
  }

  /** Context of a poller: an index of `contexts`, or the background context, which nobody cancels. */
  datatype Context = Background | Owned(index: nat)

  /** The poller together with the worker's view of it; the goroutines it started live on in `loops` and `consumers`. */
  class TestRunPoller {
    var running: bool
    var contexts: seq<bool>
    var ctx: Context
    var loops: seq<Loop>
    var consumers: seq<Consumer>
    var closed: nat
    var panicked: bool
    var polled: seq<seq<string>>
    var taken: seq<seq<string>>

    ghost predicate Valid()
      reads this
    {
      && ctx == (if contexts == [] then Background else Owned(|contexts| - 1))
      && (running ==> contexts != [])
    }

    ghost function Value(): State
      reads this
    {
      State(running, contexts, loops, consumers, closed, panicked, polled, taken)
    }

    constructor ()
      ensures Valid() && Value() == NEW
    {
      running, contexts, ctx, loops, consumers, closed := false, [], Background, [], [], 0;
      panicked, polled, taken := false, [], [];
    }

    method IsPolling() returns (polling: bool)
      ensures polling == Value().running
    {
      polling := running;
    }

    method Start()
      requires Valid()
      modifies this
      ensures Valid() && Value() == Started(old(Value()))
    {
      if running {
        return;
      }
      contexts := contexts + [false];
      ctx := Owned(|contexts| - 1);
      running := true;
      loops := loops + [Entering];
    }

    method Stop()
      requires Valid()
      modifies this
      ensures Valid() && Value() == Stopped(old(Value()))
    {
      if !running {
        return;
      }
      contexts := contexts[ctx.index := true];
      running := false;
    }

    method StartFactory()
      requires Valid()
      modifies this
      ensures Valid() && Value() == FactoryStarted(old(Value()))
    {
      var polling := IsPolling();
      if !polling {
        Start();
        consumers := consumers + [Receiving];
      }
    }

    method StopFactory()
      requires Valid()
      modifies this
      ensures Valid() && Value() == Stopped(old(Value()))
    {
      Stop();
    }

    /** The loop looks up poller.ctx and waits for it to be cancelled, or for the ticker. */
    method Select(loop: nat)
      requires Valid() && contexts != [] && loop < |loops| && loops[loop].Entering? && !panicked
      modifies this
      ensures Valid() && Value() == Apply(old(Value()), Enter(loop))
    {
      loops := loops[loop := Selecting(ctx.index)];
    }

    /** OnInterval, with the outcome of the poll, up to where it sends the first ID. */
    method OnInterval(loop: nat, list: Option<seq<string>>)
      requires Valid() && contexts != [] && loop < |loops| && loops[loop].Selecting? && !panicked
      modifies this
      ensures Valid()
      ensures Value() == Apply(old(Value()), if list.None? then TickFails(loop) else Tick(loop, list.value))
    {
      if list.Some? {
        polled, taken := polled + [list.value], taken + [[]];
        loops := loops[loop := Sending(list.value, 0, ctx.index, |polled| - 1)];
      } else {
        loops := loops[loop := Entering];
      }
    }

    /** OnDone: closing a closed channel panics. */
    method OnDone(loop: nat)
      requires Valid() && loop < |loops| && loops[loop].Selecting? && !panicked
      requires loops[loop].context < |contexts| && contexts[loops[loop].context]
      modifies this
      ensures Valid() && Value() == Apply(old(Value()), Done(loop))
    {
      panicked := closed > 0;
      closed := closed + 1;
      loops := loops[loop := Ended];
    }
  }
}
