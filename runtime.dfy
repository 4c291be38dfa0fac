/** The runtime objects: the atoms, the state builder that one run of a
    handler's chain works on, and the state machine that owns a run.

    Each method that changes state is proved to compute the function of
    module Semantics that describes it, on the abstract view `Abs()` of
    the machine. The builder and the machine call each other (a state
    write runs nested entry pipelines, an entry action may emit), so they
    share one module and one termination measure: fuel first, then a rank
    that follows the call structure of Semantics. */
module Runtime {
  import opened Common
  import opened Semantics

  /** A reactive cell: a value and an ordered list of listeners. Only its
      contract is modelled: `set` replaces the value and notifies the
      listeners in registration order, unless `skipsEqual` holds and the
      value is unchanged; `subscribe` registers a listener last and calls
      it once with the current value. */
  class Atom<T(==)> {
    var value: T
    var listeners: seq<ListenerId>
    ghost var notified: seq<Notice<T>>
    const skipsEqual: bool

    ghost function View(): Cell<T>
      reads this
    {
      Cell(value, listeners, notified, skipsEqual)
    }

    constructor (initial: T, skipsEqual: bool)
      ensures View() == Cell(initial, [], [], skipsEqual)
    {
      value := initial;
      listeners := [];
      notified := [];
      this.skipsEqual := skipsEqual;
    }

    method Get() returns (v: T)
      ensures v == View().value
    {
      v := value;
    }

    /** Returns the listeners that are to be called with `v`, in order. */
    method Set(v: T) returns (notify: seq<ListenerId>)
      modifies this
      ensures View() == CellSet(old(View()), v)
      ensures notify == if Changes(old(View()), v) then listeners else []
    {
      if !skipsEqual || value != v {
        value := v;
        notified := notified + Notices(listeners, v);
        notify := listeners;
      } else {
        notify := [];
      }
    }

    method Subscribe(l: ListenerId)
      modifies this
      ensures View() == CellSubscribe(old(View()), l)
    {
      notified := notified + [Notice(l, value)];
      listeners := listeners + [l];
    }
  }

  /** The object one run of a handler's chain works on: the triggering
      event, the enabled stages and the `stopPropagation` flag. It reaches
      the atoms, `emit`, `resolve` and `reject` through its machine. */
  class StateBuilder {
    const machine: StateMachine
    const event: Option<Event>
    const enabledEvents: seq<Stage>
    var stopPropagation: bool

    constructor (machine: StateMachine, event: Option<Event>, enabledEvents: seq<Stage>)
      ensures this.machine == machine && this.event == event && this.enabledEvents == enabledEvents
      ensures !stopPropagation
    {
      this.machine := machine;
      this.event := event;
      this.enabledEvents := enabledEvents;
      stopPropagation := false;
    }

    /** The handler applied to this builder: its calls, in order. */
    method Chain(steps: Handler, fuel: nat)
      requires machine.Valid()
      modifies this, machine, machine.stateAtom, machine.atom
      ensures Run(machine.Abs(), stopPropagation)
           == Semantics.Chain(machine.states, steps, event, enabledEvents,
                              old(machine.Abs()), old(stopPropagation), fuel)
      decreases fuel, 3, |steps|
    {
      ghost var goal := Semantics.Chain(machine.states, steps, event, enabledEvents,
                                        machine.Abs(), stopPropagation, fuel);
      var i := 0;
      while i < |steps|
        invariant 0 <= i <= |steps|
        invariant Semantics.Chain(machine.states, steps[i..], event, enabledEvents,
                                  machine.Abs(), stopPropagation, fuel) == goal
        decreases |steps| - i
      {
        assert steps[i..] == [steps[i]] + steps[i + 1..];
        match steps[i] {
          case Guard(evalGuard, fallback) => Guard(evalGuard, fallback, fuel);
          case GuardContext(property, test, fallback) => GuardContext(property, test, fallback, fuel);
          case OnEntry(action) => OnEntry(action, fuel);
          case OnReceive(handlers) => OnReceive(handlers, fuel);
          case After(timeout, target) => After(timeout, target, fuel);
        }
        i := i + 1;
      }
    }

    method Guard(evalGuard: Context -> Verdict, fallbackState: string, fuel: nat)
      requires machine.Valid()
      modifies this, machine, machine.stateAtom, machine.atom
      ensures Run(machine.Abs(), stopPropagation)
           == Apply(machine.states, Step.Guard(evalGuard, fallbackState), event, enabledEvents,
                    old(machine.Abs()), old(stopPropagation), fuel)
      decreases fuel, 2, 0
    {
      if !stopPropagation {
        var context := machine.atom.Get();
        match evalGuard(context)
        case Throw(error) =>
          machine.Reject(GuardFailure(error));
          stopPropagation := true;
          return;
        case Pass(ok) =>
          stopPropagation := !ok;
      }
      if stopPropagation {
        machine.WriteState(fallbackState, fuel);
      }
    }

    method GuardContext(property: string, evalGuard: Value -> Verdict, fallbackState: string, fuel: nat)
      requires machine.Valid()
      modifies this, machine, machine.stateAtom, machine.atom
      ensures Run(machine.Abs(), stopPropagation)
           == Apply(machine.states, Step.GuardContext(property, evalGuard, fallbackState), event,
                    enabledEvents, old(machine.Abs()), old(stopPropagation), fuel)
      decreases fuel, 2, 0
    {
      if !stopPropagation {
        var context := machine.atom.Get();
        match evalGuard(Lookup(context, property))
        case Throw(error) =>
          machine.Reject(GuardFailure(error));
          stopPropagation := true;
          return;
        case Pass(ok) =>
          stopPropagation := !ok;
      }
      if stopPropagation {
        machine.WriteState(fallbackState, fuel);
      }
    }

    method OnEntry(action: Context -> EntryRun, fuel: nat)
      requires machine.Valid()
      modifies this, machine, machine.stateAtom, machine.atom
      ensures Run(machine.Abs(), stopPropagation)
           == Apply(machine.states, Step.OnEntry(action), event, enabledEvents,
                    old(machine.Abs()), old(stopPropagation), fuel)
      decreases fuel, 2, 0
    {
      if EntryStage !in enabledEvents || stopPropagation {
        return;
      }
      var context := machine.atom.Get();
      var run := action(context);
      Act(run.effects, fuel);
      if run.failure.Some? {
        machine.Schedule(EntryFailure(run.failure.value));
      }
    }

    /** The synchronous part of an entry action: its `set` and `emit` calls. */
    method Act(effects: seq<Effect>, fuel: nat)
      requires machine.Valid()
      modifies machine, machine.stateAtom, machine.atom
      ensures machine.Abs() == Effects(machine.states, old(machine.Abs()), effects, fuel)
      decreases fuel, 1, |effects|
    {
      ghost var goal := Effects(machine.states, machine.Abs(), effects, fuel);
      var i := 0;
      while i < |effects|
        invariant 0 <= i <= |effects|
        invariant Effects(machine.states, machine.Abs(), effects[i..], fuel) == goal
        decreases |effects| - i
      {
        assert effects[i..] == [effects[i]] + effects[i + 1..];
        match effects[i] {
          case Patch(patch) => SetContext(patch);
          case LocalEmit(name, payload) => machine.Emit(name, payload, fuel);
        }
        i := i + 1;
      }
    }

    /** The `set` callback handed to entry actions and event handlers. */
    method SetContext(patch: Context)
      requires machine.Valid()
      modifies machine.atom
      ensures machine.Abs() == MergeContext(old(machine.Abs()), patch)
    {
      var current := machine.atom.Get();
      var contextListeners := machine.atom.Set(Merge(current, patch));
    }

    method OnReceive(events: map<string, (Context, Value) -> Reaction>, fuel: nat)
      requires machine.Valid()
      modifies this, machine, machine.stateAtom, machine.atom
      ensures Run(machine.Abs(), stopPropagation)
           == Apply(machine.states, Step.OnReceive(events), event, enabledEvents,
                    old(machine.Abs()), old(stopPropagation), fuel)
      decreases fuel, 2, 0
    {
      if ReceiveStage !in enabledEvents || stopPropagation {
        return;
      }
      if event.None? || event.value.name !in events {
        return;
      }
      var context := machine.atom.Get();
      var reaction := events[event.value.name](context, event.value.payload);
      ghost var patched := Patches(machine.Abs(), reaction.patches);
      var i := 0;
      while i < |reaction.patches|
        invariant 0 <= i <= |reaction.patches|
        invariant Patches(machine.Abs(), reaction.patches[i..]) == patched
        invariant !stopPropagation
      {
        assert reaction.patches[i..] == [reaction.patches[i]] + reaction.patches[i + 1..];
        SetContext(reaction.patches[i]);
        i := i + 1;
      }
      match reaction.reply
      case Stay =>
      case Goto(newState) =>
        if newState == End {
          machine.Resolve();
          stopPropagation := true;
        } else if newState != "" {
          machine.WriteState(newState, fuel);
        }
    }

    method After(timeout: int, stateType: string, fuel: nat)
      requires machine.Valid()
      modifies this, machine, machine.stateAtom, machine.atom
      ensures Run(machine.Abs(), stopPropagation)
           == Apply(machine.states, Step.After(timeout, stateType), event, enabledEvents,
                    old(machine.Abs()), old(stopPropagation), fuel)
      decreases fuel, 2, 0
    {
      if AfterStage !in enabledEvents || stopPropagation {
        return;
      }
      var expectedState := machine.stateAtom.Get();
      machine.Schedule(Timeout(timeout, expectedState, stateType));
    }
  }

  /** One machine: the handler table, the state atom it creates, the
      context atom it is given, the `started` flag and the one promise
      every pipeline settles. `pending` holds the callbacks this machine
      has left in the event loop. */
  class StateMachine {
    const stateAtom: Atom<string>
    const atom: Atom<Context>
    const states: Table
    var started: bool
    var outcome: Outcome
    var catchers: nat
    var pending: seq<Task>
    ghost var exhausted: bool

    ghost predicate Valid() {
      stateAtom as object != atom as object
    }

    ghost function Abs(): World
      reads this, stateAtom, atom
    {
      World(started, stateAtom.View(), atom.View(), outcome, catchers, pending, exhausted)
    }

    /** `skipsEqual` is the state atom's behaviour on a write of the state
        it already holds (see Atom). */
    constructor (atom: Atom<Context>, states: Table, initialState: string, skipsEqual: bool)
      ensures Valid() && fresh(stateAtom)
      ensures this.atom == atom && this.states == states
      ensures Abs() == Initial(atom.View(), initialState, skipsEqual)
    {
      stateAtom := new Atom(initialState, skipsEqual);
      this.atom := atom;
      this.states := states;
      started := false;
      outcome := Pending;
      catchers := 0;
      pending := [];
      exhausted := false;
    }

    method Start(context: Context, fuel: nat)
      requires Valid()
      modifies this, stateAtom, atom
      ensures Abs() == Semantics.Start(states, old(Abs()), context, fuel)
    {
      if started {
        return;
      }
      started := true;
      var contextListeners := atom.Set(context);
      stateAtom.Subscribe(EntryListener);
      FirstEntry(fuel);
      CatchStarted();
    }

    /** The state atom's first call of the entry listener, made by `subscribe`. */
    method FirstEntry(fuel: nat)
      requires Valid()
      modifies this, stateAtom, atom
      ensures Abs() == StartEntry(states, old(Abs()), fuel)
    {
      var current := stateAtom.Get();
      if fuel == 0 {
        exhausted := true;
      } else {
        RunEntry(current, fuel - 1);
      }
    }

    /** The catch handler `start` attaches to the promise. */
    method CatchStarted()
      modifies this
      ensures Abs() == CatchStart(old(Abs()))
    {
      catchers := catchers + 1;
      if outcome.Rejected? {
        pending := pending + [ClearStarted];
      }
    }

    /** The callback `start` subscribes to the state atom. */
    method RunEntry(state: string, fuel: nat)
      requires Valid()
      modifies this, stateAtom, atom
      ensures Abs() == Entry(states, old(Abs()), state, fuel)
      decreases fuel, 4, 0
    {
      if state in states {
        var builder := new StateBuilder(this, None, DefaultStages);
        builder.Chain(states[state], fuel);
      }
    }

    /** `$stateAtom.set(state)` with the calls of the entry callbacks it
        makes before returning. */
    method WriteState(state: string, fuel: nat)
      requires Valid()
      modifies this, stateAtom, atom
      ensures Abs() == Write(states, old(Abs()), state, fuel)
      decreases fuel, 0, 0
    {
      var notify := stateAtom.Set(state);
      if notify != [] {
        if fuel == 0 {
          exhausted := true;
        } else {
          ghost var goal := Notify(states, Abs(), state, |notify|, fuel - 1);
          var i := 0;
          while i < |notify|
            invariant 0 <= i <= |notify|
            invariant Notify(states, Abs(), state, |notify| - i, fuel - 1) == goal
          {
            RunEntry(state, fuel - 1);
            i := i + 1;
          }
        }
      }
    }

    method Emit(event: string, payload: Value, fuel: nat)
      requires Valid()
      modifies this, stateAtom, atom
      ensures Abs() == Semantics.Emit(states, old(Abs()), event, payload, fuel)
      decreases fuel, 0, 0
    {
      if !started {
        return;
      }
      var state := stateAtom.Get();
      if state !in states {
        return;
      }
      if fuel == 0 {
        exhausted := true;
        return;
      }
      var builder := new StateBuilder(this, Some(Event(event, payload)), ReceiveOnly);
      builder.Chain(states[state], fuel - 1);
    }

    method Resolve()
      modifies this
      ensures Abs() == Semantics.Resolve(old(Abs()))
    {
      if outcome.Pending? {
        outcome := Resolved;
      }
    }

    method Reject(reason: string)
      modifies this
      ensures Abs() == Semantics.Reject(old(Abs()), reason)
    {
      if outcome.Pending? {
        outcome := Rejected(reason);
        pending := pending + Repeat(ClearStarted, catchers);
      }
    }

    /** `setTimeout`, or a promise reaction: leave a callback in the event loop. */
    method Schedule(task: Task)
      modifies this
      ensures Abs() == old(Abs()).(tasks := old(Abs()).tasks + [task])
    {
      pending := pending + [task];
    }

    /** The event loop runs the `i`-th callback this machine left in it. */
    method Fire(i: nat, fuel: nat)
      requires Valid() && i < |pending|
      modifies this, stateAtom, atom
      ensures Abs() == Semantics.Fire(states, old(Abs()), i, fuel)
    {
      var task := pending[i];
      pending := RemoveAt(pending, i);
      match task
      case Timeout(_, expected, target) =>
        var current := stateAtom.Get();
        if current == expected {
          WriteState(target, fuel);
        }
      case EntryFailure(reason) =>
        Reject(reason);
      case ClearStarted =>
        started := false;
    }

    method Get() returns (context: Context)
      ensures context == Abs().context.value
    {
      context := atom.Get();
    }

    method Set(value: Context)
      requires Valid()
      modifies atom
      ensures Abs() == SetContext(old(Abs()), value)
    {
      var contextListeners := atom.Set(value);
    }

    method Subscribe(listener: ListenerId)
      requires Valid()
      modifies atom
      ensures Abs() == SubscribeContext(old(Abs()), listener)
    {
      atom.Subscribe(listener);
    }
  }
}
