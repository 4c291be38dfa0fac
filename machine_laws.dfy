/** Laws of the run controller: what `start`, `emit`, the context
    pass-throughs and the callbacks left in the event loop do to a run,
    one at a time and in any sequence. */
module MachineLaws {
  import opened Common
  import opened Semantics
  import opened PipelineLaws

  // ---------------------------------------------------------------------
  // `emit`

  /** An event that the current state's chain does not handle, with every
      guard passing, changes nothing at all. */
  lemma EmitOfUnhandledEventIsInert(t: Table, w: World, name: string, payload: Value, fuel: nat)
    requires w.started && w.state.value in t && fuel > 0
    requires IgnoresEvent(t[w.state.value], w.context.value, name)
    ensures Emit(t, w, name, payload, fuel) == w
  {
    UnhandledEventIsInert(t, t[w.state.value], name, payload, w, fuel - 1);
  }

  /** `emit` runs the current state's chain with the event and only
      `onReceive` enabled; its `onEntry` and `after` calls never act. */
  lemma EmitRunsOnlyReceivePart(t: Table, w: World, name: string, payload: Value, fuel: nat)
    requires w.started && w.state.value in t && fuel > 0
    ensures Emit(t, w, name, payload, fuel)
         == Chain(t, ReceivePart(t[w.state.value]), Some(Event(name, payload)), ReceiveOnly, w, false, fuel - 1).world
  {
    EmitSkipsEntryAndAfter(t, t[w.state.value], Some(Event(name, payload)), w, false, fuel - 1);
  }

  // ---------------------------------------------------------------------
  // Callbacks in the event loop

  /** A timer armed by `after` writes its target only if the state is
      still the one it captured; otherwise it only leaves the queue. */
  lemma TimerFiresOnlyInCapturedState(t: Table, w: World, i: nat, fuel: nat)
    requires i < |w.tasks| && w.tasks[i].Timeout?
    ensures var rest := w.(tasks := RemoveAt(w.tasks, i));
            var r := Fire(t, w, i, fuel);
            && (w.state.value != w.tasks[i].expected ==> r == rest)
            && (w.state.value == w.tasks[i].expected && Changes(w.state, w.tasks[i].target) ==>
                  |r.state.notified| >= |w.state.notified| + |w.state.listeners|
                  && forall j :: 0 <= j < |w.state.listeners| ==>
                       r.state.notified[|w.state.notified| + j] == Notice(w.state.listeners[j], w.tasks[i].target))
  {
    var rest := w.(tasks := RemoveAt(w.tasks, i));
    var target := w.tasks[i].target;
    if w.state.value == w.tasks[i].expected && Changes(w.state, target) {
      var r := Write(t, rest, target, fuel);
      assert rest.state == w.state;
      assert w.state.notified + Notices(w.state.listeners, target) <= r.state.notified;
      forall j | 0 <= j < |w.state.listeners|
        ensures r.state.notified[|w.state.notified| + j] == Notice(w.state.listeners[j], target)
      {
        assert (w.state.notified + Notices(w.state.listeners, target))[|w.state.notified| + j]
            == Notices(w.state.listeners, target)[j];
      }
    }
  }

  /** A rejection calls every catch handler `start` registered; each one
      clears `started`, so the machine can be started again. */
  lemma RejectionQueuesCatchHandlers(t: Table, w: World, reason: string, fuel: nat)
    requires w.outcome.Pending? && w.catchers > 0
    ensures var r := Reject(w, reason);
            && r.outcome == Rejected(reason)
            && |r.tasks| == |w.tasks| + w.catchers
            && r.tasks[|w.tasks|] == ClearStarted
            && !Fire(t, r, |w.tasks|, fuel).started
  {
    var r := Reject(w, reason);
    assert r.tasks[|w.tasks|] == Repeat(ClearStarted, w.catchers)[0];
  }

  /** Starting a machine again after its catch handler has cleared
      `started` subscribes a second entry callback: from then on every
      state write runs the entry pipeline twice. */
  lemma RestartSubscribesAgain(t: Table, w: World, context: Context, context2: Context, fuel: nat)
    requires !w.started
    requires Start(t, w, context, fuel).outcome.Rejected?
    ensures var s := Start(t, w, context, fuel);
            var cleared := Fire(t, s, |s.tasks| - 1, fuel);
            && |s.tasks| > 0 && s.tasks[|s.tasks| - 1] == ClearStarted
            && !cleared.started
            && Start(t, cleared, context2, fuel).state.listeners == w.state.listeners + [EntryListener, EntryListener]
  {
    var s := Start(t, w, context, fuel);
    var cleared := Fire(t, s, |s.tasks| - 1, fuel);
    assert cleared.state.listeners == s.state.listeners;
  }

  // ---------------------------------------------------------------------
  // Any sequence of calls

  /** What the program or the event loop can do next. */
  datatype Action =
    | StartRun(context: Context)
    | Send(event: string, payload: Value)
    | RunTask(index: nat)
    | Put(value: Context)
    | Listen(listener: ListenerId)

  /** One action; running a callback that is not waiting does nothing. */
  function Perform(t: Table, w: World, a: Action, fuel: nat): World {
    match a
    case StartRun(context) => Start(t, w, context, fuel)
    case Send(event, payload) => Emit(t, w, event, payload, fuel)
    case RunTask(i) => if i < |w.tasks| then Fire(t, w, i, fuel) else w
    case Put(value) => SetContext(w, value)
    case Listen(l) => SubscribeContext(w, l)
  }

  function Execute(t: Table, w: World, actions: seq<Action>, fuel: nat): World
    decreases |actions|
  {
    if actions == [] then w else Execute(t, Perform(t, w, actions[0], fuel), actions[1..], fuel)
  }

  /** No single action changes a settled promise. */
  lemma PerformKeepsSettledOutcome(t: Table, w: World, a: Action, fuel: nat)
    requires !w.outcome.Pending?
    ensures Perform(t, w, a, fuel).outcome == w.outcome
  {
    match a
    case StartRun(context) =>
      if !w.started {
        var w1 := w.(started := true, context := CellSet(w.context, context));
        var w2 := w1.(state := CellSubscribe(w1.state, EntryListener));
        if fuel > 0 {
          assert Evolves(w2, Entry(t, w2, w2.state.value, fuel - 1));
        }
      }
    case Send(_, _) =>
    case RunTask(i) =>
      if i < |w.tasks| {
        var w1 := w.(tasks := RemoveAt(w.tasks, i));
        if w.tasks[i].Timeout? && w1.state.value == w.tasks[i].expected {
          assert Evolves(w1, Write(t, w1, w.tasks[i].target, fuel));
        }
      }
    case Put(_) =>
    case Listen(_) =>
  }

  /** Once the run's promise has resolved or rejected, nothing the
      program or the event loop does can settle it differently. */
  lemma {:induction false} SettledOutcomeIsFinal(t: Table, w: World, actions: seq<Action>, fuel: nat)
    requires !w.outcome.Pending?
    ensures Execute(t, w, actions, fuel).outcome == w.outcome
    decreases |actions|
  {
    if actions != [] {
      PerformKeepsSettledOutcome(t, w, actions[0], fuel);
      SettledOutcomeIsFinal(t, Perform(t, w, actions[0], fuel), actions[1..], fuel);
    }
  }

  // ---------------------------------------------------------------------
  // The terminate sentinel is never a state

  /** A builder call that names no `"$_END"` state: neither a guard's
      fallback nor an `after` target. */
  predicate StepAvoidsEnd(step: Step) {
    (IsGuard(step) ==> step.fallback != End) && (step.After? ==> step.target != End)
  }

  predicate ChainAvoidsEnd(steps: Handler) {
    forall i :: 0 <= i < |steps| ==> StepAvoidsEnd(steps[i])
  }

  predicate TableAvoidsEnd(t: Table) {
    forall s :: s in t ==> ChainAvoidsEnd(t[s])
  }

  /** The state is not `"$_END"`, no entry callback has been called with
      it, and no armed timer targets it. */
  predicate StateNeverEnd(w: World) {
    && w.state.value != End
    && (forall i :: 0 <= i < |w.state.notified| ==> w.state.notified[i].value != End)
    && (forall i :: 0 <= i < |w.tasks| && w.tasks[i].Timeout? ==> w.tasks[i].target != End)
  }

  lemma ContextChangesKeepStateNeverEnd(w: World, patches: seq<Context>)
    requires StateNeverEnd(w)
    ensures StateNeverEnd(Patches(w, patches))
    decreases |patches|
  {
    if patches != [] {
      ContextChangesKeepStateNeverEnd(MergeContext(w, patches[0]), patches[1..]);
    }
  }

  lemma SettlingKeepsStateNeverEnd(w: World, reason: string)
    requires StateNeverEnd(w)
    ensures StateNeverEnd(Resolve(w)) && StateNeverEnd(Reject(w, reason))
  {
    var r := Reject(w, reason);
    if w.outcome.Pending? {
      forall i | |w.tasks| <= i < |r.tasks|
        ensures r.tasks[i] == ClearStarted
      {
        assert r.tasks[i] == Repeat(ClearStarted, w.catchers)[i - |w.tasks|];
      }
    }
  }

  lemma {:induction false} WriteNeverEnd(t: Table, w: World, s: string, fuel: nat)
    requires TableAvoidsEnd(t) && StateNeverEnd(w) && s != End
    ensures StateNeverEnd(Write(t, w, s, fuel))
    decreases fuel, 0, 0
  {
    if Changes(w.state, s) {
      var w1 := w.(state := CellSet(w.state, s));
      assert StateNeverEnd(w1) by {
        var log := w.state.notified + Notices(w.state.listeners, s);
        assert w1.state.notified == log;
        forall i | 0 <= i < |log|
          ensures log[i].value != End
        {
          if i >= |w.state.notified| {
            assert log[i] == Notices(w.state.listeners, s)[i - |w.state.notified|];
          }
        }
      }
      if w.state.listeners != [] && fuel > 0 {
        NotifyNeverEnd(t, w1, s, |w.state.listeners|, fuel - 1);
      }
    }
  }

  lemma {:induction false} NotifyNeverEnd(t: Table, w: World, s: string, k: nat, fuel: nat)
    requires TableAvoidsEnd(t) && StateNeverEnd(w)
    ensures StateNeverEnd(Notify(t, w, s, k, fuel))
    decreases fuel, 5, k
  {
    if k > 0 {
      EntryNeverEnd(t, w, s, fuel);
      NotifyNeverEnd(t, Entry(t, w, s, fuel), s, k - 1, fuel);
    }
  }

  lemma {:induction false} EntryNeverEnd(t: Table, w: World, s: string, fuel: nat)
    requires TableAvoidsEnd(t) && StateNeverEnd(w)
    ensures StateNeverEnd(Entry(t, w, s, fuel))
    decreases fuel, 4, 0
  {
    if s in t {
      ChainNeverEnd(t, t[s], None, DefaultStages, w, false, fuel);
    }
  }

  lemma {:induction false} ChainNeverEnd(t: Table, steps: Handler, event: Option<Event>, enabled: seq<Stage>,
                                         w: World, stop: bool, fuel: nat)
    requires TableAvoidsEnd(t) && ChainAvoidsEnd(steps) && StateNeverEnd(w)
    ensures StateNeverEnd(Chain(t, steps, event, enabled, w, stop, fuel).world)
    decreases fuel, 3, |steps|
  {
    if steps != [] {
      assert StepAvoidsEnd(steps[0]);
      ApplyNeverEnd(t, steps[0], event, enabled, w, stop, fuel);
      var r1 := Apply(t, steps[0], event, enabled, w, stop, fuel);
      assert ChainAvoidsEnd(steps[1..]) by {
        forall i | 0 <= i < |steps[1..]|
          ensures StepAvoidsEnd(steps[1..][i])
        {
          assert steps[1..][i] == steps[i + 1];
        }
      }
      ChainNeverEnd(t, steps[1..], event, enabled, r1.world, r1.stop, fuel);
    }
  }

  lemma {:induction false} ApplyNeverEnd(t: Table, step: Step, event: Option<Event>, enabled: seq<Stage>,
                                         w: World, stop: bool, fuel: nat)
    requires TableAvoidsEnd(t) && StepAvoidsEnd(step) && StateNeverEnd(w)
    ensures StateNeverEnd(Apply(t, step, event, enabled, w, stop, fuel).world)
    decreases fuel, 2, 0
  {
    if IsGuard(step) {
      WriteNeverEnd(t, w, step.fallback, fuel);
      if !stop && VerdictOf(step, w.context.value).Throw? {
        SettlingKeepsStateNeverEnd(w, GuardFailure(VerdictOf(step, w.context.value).error));
      }
    } else if step.OnEntry? {
      if EntryStage in enabled && !stop {
        var run := step.action(w.context.value);
        EffectsNeverEnd(t, w, run.effects, fuel);
      }
    } else if step.OnReceive? {
      if ReceiveStage in enabled && !stop && event.Some? && event.value.name in step.handlers {
        var reaction := step.handlers[event.value.name](w.context.value, event.value.payload);
        var w1 := Patches(w, reaction.patches);
        ContextChangesKeepStateNeverEnd(w, reaction.patches);
        SettlingKeepsStateNeverEnd(w1, "");
        if reaction.reply.Goto? && reaction.reply.state != End && reaction.reply.state != "" {
          WriteNeverEnd(t, w1, reaction.reply.state, fuel);
        }
      }
    }
  }

  lemma {:induction false} EffectsNeverEnd(t: Table, w: World, effects: seq<Effect>, fuel: nat)
    requires TableAvoidsEnd(t) && StateNeverEnd(w)
    ensures StateNeverEnd(Effects(t, w, effects, fuel))
    decreases fuel, 1, |effects|
  {
    if effects != [] {
      match effects[0]
      case Patch(p) =>
        ContextChangesKeepStateNeverEnd(w, [p]);
        assert Patches(w, [p]) == Patches(MergeContext(w, p), []);
        EffectsNeverEnd(t, MergeContext(w, p), effects[1..], fuel);
      case LocalEmit(name, payload) =>
        EmitNeverEnd(t, w, name, payload, fuel);
        EffectsNeverEnd(t, Emit(t, w, name, payload, fuel), effects[1..], fuel);
    }
  }

  lemma {:induction false} EmitNeverEnd(t: Table, w: World, name: string, payload: Value, fuel: nat)
    requires TableAvoidsEnd(t) && StateNeverEnd(w)
    ensures StateNeverEnd(Emit(t, w, name, payload, fuel))
    decreases fuel, 0, 0
  {
    if w.started && w.state.value in t && fuel > 0 {
      ChainNeverEnd(t, t[w.state.value], Some(Event(name, payload)), ReceiveOnly, w, false, fuel - 1);
    }
  }

  lemma StartNeverEnd(t: Table, w: World, context: Context, fuel: nat)
    requires TableAvoidsEnd(t) && StateNeverEnd(w)
    ensures StateNeverEnd(Start(t, w, context, fuel))
  {
    if !w.started {
      var w2 := StartListening(w, context);
      assert StateNeverEnd(w2) by {
        forall i | 0 <= i < |w2.state.notified|
          ensures w2.state.notified[i].value != End
        {
          if i < |w.state.notified| {
            assert w2.state.notified[i] == w.state.notified[i];
          }
        }
      }
      if fuel > 0 {
        EntryNeverEnd(t, w2, w2.state.value, fuel - 1);
      }
    }
  }

  lemma FireNeverEnd(t: Table, w: World, i: nat, fuel: nat)
    requires TableAvoidsEnd(t) && StateNeverEnd(w) && i < |w.tasks|
    ensures StateNeverEnd(Fire(t, w, i, fuel))
  {
    var w1 := w.(tasks := RemoveAt(w.tasks, i));
    assert StateNeverEnd(w1);
    match w.tasks[i]
    case Timeout(_, expected, target) =>
      if w1.state.value == expected {
        WriteNeverEnd(t, w1, target, fuel);
      }
    case EntryFailure(reason) =>
      SettlingKeepsStateNeverEnd(w1, reason);
    case ClearStarted =>
  }

  lemma PerformNeverEnd(t: Table, w: World, a: Action, fuel: nat)
    requires TableAvoidsEnd(t) && StateNeverEnd(w)
    ensures StateNeverEnd(Perform(t, w, a, fuel))
  {
    match a
    case StartRun(context) => StartNeverEnd(t, w, context, fuel);
    case Send(event, payload) => EmitNeverEnd(t, w, event, payload, fuel);
    case RunTask(i) =>
      if i < |w.tasks| {
        FireNeverEnd(t, w, i, fuel);
      }
    case Put(_) =>
    case Listen(_) =>
  }

  /** When no guard fallback and no `after` target is `"$_END"`, the state
      never holds `"$_END"` and no entry callback is ever called with it,
      whatever the program and the event loop do: a handler's `"$_END"`
      reply ends the run without being written. */
  lemma {:induction false} EndIsNeverAState(t: Table, w: World, actions: seq<Action>, fuel: nat)
    requires TableAvoidsEnd(t) && StateNeverEnd(w)
    ensures StateNeverEnd(Execute(t, w, actions, fuel))
    decreases |actions|
  {
    if actions != [] {
      PerformNeverEnd(t, w, actions[0], fuel);
      EndIsNeverAState(t, Perform(t, w, actions[0], fuel), actions[1..], fuel);
    }
  }

  // ---------------------------------------------------------------------
  // The entry event as written

  /** The entry callback as the program writes it: the builder receives
      `null` for its event and payload, and `events[null]` reads the
      property named "null". */
  function EntryAsWritten(t: Table, w: World, s: string, fuel: nat): (r: World)
    ensures Evolves(w, r)
  {
    if s in t then Chain(t, t[s], Some(Event("null", Null)), DefaultStages, w, false, fuel).world else w
  }

  /** A one-state table whose `onReceive` has a handler named "null". */
  function NullHandlerTable(): Table {
    map["idle" := [OnReceive(map["null" := (c: Context, p: Value) => Reaction([], Goto("busy"))])]]
  }

  /** A started run in state "idle" with nobody subscribed to the state. */
  function IdleWorld(): World {
    World(true, Cell("idle", [], [], true), Cell(map[], [], [], true), Pending, 0, [], false)
  }

  /** As written, entering "idle" runs the handler named "null" and
      moves to "busy"; with no event, entering "idle" changes nothing. */
  lemma NullHandlerRunsOnEntry()
    ensures EntryAsWritten(NullHandlerTable(), IdleWorld(), "idle", 0).state.value == "busy"
    ensures Entry(NullHandlerTable(), IdleWorld(), "idle", 0) == IdleWorld()
  {
    var t := NullHandlerTable();
    var w := IdleWorld();
    var step: Step := t["idle"][0];
    assert step.OnReceive? && "null" in step.handlers;
    assert step.handlers["null"](w.context.value, Null) == Reaction([], Goto("busy"));
    var r := Apply(t, step, Some(Event("null", Null)), DefaultStages, w, false, 0);
    assert Patches(w, []) == w;
    assert r == Run(Write(t, w, "busy", 0), false);
    assert Write(t, w, "busy", 0).state.value == "busy";
    assert t["idle"][1..] == [];
    assert Apply(t, step, None, DefaultStages, w, false, 0) == Run(w, false);
  }
}
