/** Reference semantics of one run of a state machine.

    A `World` is everything a run can observe: the `started` flag, the
    state atom, the context atom, the run's promise, the promise's catch
    handlers and the callbacks waiting in the event loop. Every operation
    of the runtime is a function from a `World` to a `World`; the classes
    in module Runtime are proved to compute exactly these functions.

    State writes are synchronously re-entrant (a write runs the entry
    pipeline of the new state before it returns) and nothing bounds the
    depth, so the recursive functions carry a `fuel` argument: a
    notification delivered to an entry subscriber, and an `emit` that runs
    a handler, each consume one unit. When fuel runs out the nested run is
    skipped and the world is marked `exhausted`. */
module Semantics {
  import opened Common

  // ---------------------------------------------------------------------
  // Context values

  /** What a context field can hold. */
  datatype Value = Undefined | Null | Bool(b: bool) | Num(n: int) | Str(s: string)

  /** A context object: field name to value. */
  type Context = map<string, Value>

  /** Property access: a missing field reads as `undefined`. */
  function Lookup(c: Context, key: string): Value {
    if key in c then c[key] else Undefined
  }

  /** `{ ...current, ...patch }`: the fields of the patch win, every other
      field keeps its value. */
  function Merge(current: Context, patch: Context): (r: Context)
    ensures r.Keys == current.Keys + patch.Keys
    ensures forall k :: k in patch ==> r[k] == patch[k]
    ensures forall k :: k in current && k !in patch ==> r[k] == current[k]
  {
    current + patch
  }

  // ---------------------------------------------------------------------
  // Atoms (the reactive cells the runtime builds on)

  type ListenerId = nat

  /** The listener id of the subscription `start` puts on the state atom. */
  const EntryListener: ListenerId := 0

  /** One call of a listener with a value. */
  datatype Notice<T> = Notice(listener: ListenerId, value: T)

  /** An atom: its value, its listeners in registration order, every
      notification it has delivered, and whether it drops a write of a
      value equal to the one it holds. */
  datatype Cell<T> = Cell(value: T, listeners: seq<ListenerId>, notified: seq<Notice<T>>, skipsEqual: bool)

  /** The notifications a write of `v` delivers: one per listener, in order. */
  function Notices<T>(listeners: seq<ListenerId>, v: T): (r: seq<Notice<T>>)
    ensures |r| == |listeners|
    ensures forall i :: 0 <= i < |r| ==> r[i] == Notice(listeners[i], v)
  {
    if listeners == [] then [] else [Notice(listeners[0], v)] + Notices(listeners[1..], v)
  }

  /** Whether writing `v` changes the atom and notifies its listeners. */
  predicate Changes<T(==)>(c: Cell<T>, v: T) {
    !c.skipsEqual || c.value != v
  }

  /** `atom.set(v)`: replace the value, then notify every listener with it. */
  function CellSet<T(==)>(c: Cell<T>, v: T): Cell<T> {
    if Changes(c, v) then c.(value := v, notified := c.notified + Notices(c.listeners, v)) else c
  }

  /** `atom.subscribe(l)`: register `l` last and call it once with the current value. */
  function CellSubscribe<T>(c: Cell<T>, l: ListenerId): Cell<T> {
    c.(listeners := c.listeners + [l], notified := c.notified + [Notice(l, c.value)])
  }

  // ---------------------------------------------------------------------
  // The world of one run

  /** The state name an event handler returns to end the run. */
  const End := "$_END"

  /** The run's promise. */
  datatype Outcome = Pending | Resolved | Rejected(reason: string)

  /** A callback waiting in the event loop. */
  datatype Task =
    | Timeout(delay: int, expected: string, target: string)  // armed by `after`
    | EntryFailure(reason: string)                           // an entry action's promise rejected
    | ClearStarted                                           // the promise's catch handler

  datatype World = World(
    started: bool,
    state: Cell<string>,
    context: Cell<Context>,
    outcome: Outcome,
    catchers: nat,
    tasks: seq<Task>,
    exhausted: bool)

  // ---------------------------------------------------------------------
  // Handlers

  /** What a guard predicate does: return a boolean or throw. The payload
      of `Throw` is the thrown value's string form, as a template literal
      renders it: `"Error: boom"` for `new Error("boom")`. */
  datatype Verdict = Pass(ok: bool) | Throw(error: string)

  /** What an event handler returns: a state name, or `false`/`undefined`. */
  datatype Reply = Goto(state: string) | Stay

  /** An event handler's effect: its calls of `set`, in order, and its reply. */
  datatype Reaction = Reaction(patches: seq<Context>, reply: Reply)

  /** What an entry action does synchronously, in order. */
  datatype Effect = Patch(patch: Context) | LocalEmit(event: string, payload: Value)

  /** An entry action: its synchronous effects and, when its promise rejects, the reason. */
  datatype EntryRun = EntryRun(effects: seq<Effect>, failure: Option<string>)

  /** One call of the state builder's chain. */
  datatype Step =
    | Guard(evalGuard: Context -> Verdict, fallback: string)
    | GuardContext(property: string, test: Value -> Verdict, fallback: string)
    | OnEntry(action: Context -> EntryRun)
    | OnReceive(handlers: map<string, (Context, Value) -> Reaction>)
    | After(timeout: int, target: string)

  /** A state's handler: its chain of builder calls. */
  type Handler = seq<Step>

  /** The machine's handler table; a state without an entry has no handler. */
  type Table = map<string, Handler>

  /** The stages that `enabledEvents` can switch on. */
  datatype Stage = EntryStage | ReceiveStage | AfterStage

  /** The builder's default `enabledEvents`. */
  const DefaultStages: seq<Stage> := [EntryStage, ReceiveStage, AfterStage]

  /** The `enabledEvents` that `emit` passes. */
  const ReceiveOnly: seq<Stage> := [ReceiveStage]

  datatype Event = Event(name: string, payload: Value)

  /** The world after part of a chain, and the builder's `stopPropagation`. */
  datatype Run = Run(world: World, stop: bool)

  // ---------------------------------------------------------------------
  // The promise

  /** `resolve()`: settles a pending promise; a settled one ignores it. */
  function Resolve(w: World): (r: World)
    ensures Evolves(w, r) && !r.outcome.Pending?
    ensures w.outcome.Pending? ==> r.outcome == Resolved && r.tasks == w.tasks
    ensures !w.outcome.Pending? ==> r == w
  {
    if w.outcome.Pending? then w.(outcome := Resolved) else w
  }

  /** `n` copies of a task. */
  function Repeat(t: Task, n: nat): (r: seq<Task>)
    ensures |r| == n
    ensures forall i :: 0 <= i < n ==> r[i] == t
  {
    if n == 0 then [] else [t] + Repeat(t, n - 1)
  }

  /** `reject(reason)`: settles a pending promise and queues each of its
      catch handlers; a settled promise ignores it. */
  function Reject(w: World, reason: string): (r: World)
    ensures Evolves(w, r) && !r.outcome.Pending?
    ensures w.outcome.Pending? ==> r.outcome == Rejected(reason) && |r.tasks| == |w.tasks| + w.catchers
    ensures w.outcome.Pending? ==> forall k :: |w.tasks| <= k < |r.tasks| ==> r.tasks[k] == ClearStarted
    ensures !w.outcome.Pending? ==> r == w
  {
    if w.outcome.Pending? then
      w.(outcome := Rejected(reason), tasks := w.tasks + Repeat(ClearStarted, w.catchers))
    else w
  }

  const GuardFailurePrefix := "Guard evaluation failed: "

  /** The message of the error a throwing guard rejects the run with;
      `error` is the string form of the thrown value (see `Verdict`). */
  function GuardFailure(error: string): (msg: string)
    ensures |msg| == |GuardFailurePrefix| + |error|
    ensures msg[..|GuardFailurePrefix|] == GuardFailurePrefix
    ensures msg[|GuardFailurePrefix|..] == error
  {
    GuardFailurePrefix + error
  }

  // ---------------------------------------------------------------------
  // What no pipeline changes

  /** `r` is a world a pipeline can lead to from `w`: the flags, the
      subscriptions and the catch handlers are as they were, the task
      queue and the notification logs have only grown, and a settled
      promise stays settled as it was. */
  predicate Evolves(w: World, r: World) {
    && r.started == w.started
    && r.state.listeners == w.state.listeners
    && r.state.skipsEqual == w.state.skipsEqual
    && r.context.listeners == w.context.listeners
    && r.context.skipsEqual == w.context.skipsEqual
    && r.catchers == w.catchers
    && w.tasks <= r.tasks
    && w.state.notified <= r.state.notified
    && w.context.notified <= r.context.notified
    && (w.outcome.Pending? || r.outcome == w.outcome)
    && (w.exhausted ==> r.exhausted)
  }

  lemma EvolvesTransitive(a: World, b: World, c: World)
    requires Evolves(a, b) && Evolves(b, c)
    ensures Evolves(a, c)
  {
  }

  /** The `set` callback of `onEntry` and `onReceive`: merge the patch
      over the current context and write the result. */
  function MergeContext(w: World, patch: Context): (r: World)
    ensures Evolves(w, r)
  {
    w.(context := CellSet(w.context, Merge(w.context.value, patch)))
  }

  /** An event handler's calls of `set`, in order. */
  function Patches(w: World, patches: seq<Context>): (r: World)
    ensures Evolves(w, r)
    decreases |patches|
  {
    if patches == [] then w
    else
      var w1 := MergeContext(w, patches[0]);
      EvolvesTransitive(w, w1, Patches(w1, patches[1..]));
      Patches(w1, patches[1..])
  }

  // ---------------------------------------------------------------------
  // The pipeline and the run controller

  /** `$stateAtom.set(s)`: write the state and, synchronously, run the
      entry pipeline of `s` once per entry subscription. */
  function Write(t: Table, w: World, s: string, fuel: nat): (r: World)
    ensures Evolves(w, r)
    ensures Changes(w.state, s) ==> w.state.notified + Notices(w.state.listeners, s) <= r.state.notified
    ensures !Changes(w.state, s) ==> r == w
    decreases fuel, 0, 0
  {
    if !Changes(w.state, s) then w
    else
      var w1 := w.(state := CellSet(w.state, s));
      if w.state.listeners == [] then w1
      else if fuel == 0 then w1.(exhausted := true)
      else
        EvolvesTransitive(w, w1, Notify(t, w1, s, |w.state.listeners|, fuel - 1));
        Notify(t, w1, s, |w.state.listeners|, fuel - 1)
  }

  /** `k` entry subscriptions called, one after the other, with state `s`. */
  function Notify(t: Table, w: World, s: string, k: nat, fuel: nat): (r: World)
    ensures Evolves(w, r)
    decreases fuel, 5, k
  {
    if k == 0 then w
    else
      var w1 := Entry(t, w, s, fuel);
      EvolvesTransitive(w, w1, Notify(t, w1, s, k - 1, fuel));
      Notify(t, w1, s, k - 1, fuel)
  }

  /** The subscriber `start` registers: run the handler of `s`, if it has
      one, with no event and the default stages. */
  function Entry(t: Table, w: World, s: string, fuel: nat): (r: World)
    ensures Evolves(w, r)
    ensures s !in t ==> r == w
    decreases fuel, 4, 0
  {
    if s in t then Chain(t, t[s], None, DefaultStages, w, false, fuel).world else w
  }

  /** A handler's chain of builder calls, in order, on one builder. */
  function Chain(t: Table, steps: Handler, event: Option<Event>, enabled: seq<Stage>,
                 w: World, stop: bool, fuel: nat): (r: Run)
    ensures Evolves(w, r.world)
    ensures stop ==> r.stop
    decreases fuel, 3, |steps|
  {
    if steps == [] then Run(w, stop)
    else
      var r1 := Apply(t, steps[0], event, enabled, w, stop, fuel);
      EvolvesTransitive(w, r1.world, Chain(t, steps[1..], event, enabled, r1.world, r1.stop, fuel).world);
      Chain(t, steps[1..], event, enabled, r1.world, r1.stop, fuel)
  }

  predicate IsGuard(step: Step) {
    step.Guard? || step.GuardContext?
  }

  /** What a guard's predicate says about a context: `guard` applies its
      predicate to the whole context, `guardContext` to one field of it. */
  function VerdictOf(step: Step, c: Context): Verdict
    requires IsGuard(step)
  {
    if step.Guard? then step.evalGuard(c) else step.test(Lookup(c, step.property))
  }

  /** One builder call.

      `guard` and `guardContext` look at their predicate only while
      `stopPropagation` is false (the `||` short-circuits); a stopped or
      failed guard writes its fallback state, a throwing one rejects the
      run instead and writes nothing. `onEntry`, `onReceive` and `after`
      act only when their stage is enabled and `stopPropagation` is false. */
  function Apply(t: Table, step: Step, event: Option<Event>, enabled: seq<Stage>,
                 w: World, stop: bool, fuel: nat): (r: Run)
    ensures Evolves(w, r.world)
    ensures stop ==> r.stop
    ensures IsGuard(step) ==> r.stop == (stop || VerdictOf(step, w.context.value) != Pass(true))
    decreases fuel, 2, 0
  {
    if IsGuard(step) then
      if stop then Run(Write(t, w, step.fallback, fuel), true)
      else match VerdictOf(step, w.context.value)
        case Throw(e) => Run(Reject(w, GuardFailure(e)), true)
        case Pass(ok) => if ok then Run(w, false) else Run(Write(t, w, step.fallback, fuel), true)
    else if step.OnEntry? then
      if EntryStage !in enabled || stop then Run(w, stop)
      else
        var run := step.action(w.context.value);
        var w1 := Effects(t, w, run.effects, fuel);
        match run.failure
        case None => Run(w1, false)
        case Some(reason) =>
          var w2 := w1.(tasks := w1.tasks + [EntryFailure(reason)]);
          EvolvesTransitive(w, w1, w2);
          Run(w2, false)
    else if step.OnReceive? then
      if ReceiveStage !in enabled || stop then Run(w, stop)
      else if event.None? || event.value.name !in step.handlers then Run(w, false)
      else
        var reaction := step.handlers[event.value.name](w.context.value, event.value.payload);
        var w1 := Patches(w, reaction.patches);
        match reaction.reply
        case Stay => Run(w1, false)
        case Goto(s) =>
          if s == End then
            EvolvesTransitive(w, w1, Resolve(w1));
            Run(Resolve(w1), true)
          else if s == "" then Run(w1, false)
          else
            EvolvesTransitive(w, w1, Write(t, w1, s, fuel));
            Run(Write(t, w1, s, fuel), false)
    else
      if AfterStage !in enabled || stop then Run(w, stop)
      else Run(w.(tasks := w.tasks + [Timeout(step.timeout, w.state.value, step.target)]), false)
  }

  /** An entry action's synchronous effects, in order. */
  function Effects(t: Table, w: World, effects: seq<Effect>, fuel: nat): (r: World)
    ensures Evolves(w, r)
    decreases fuel, 1, |effects|
  {
    if effects == [] then w
    else match effects[0]
      case Patch(p) =>
        var w1 := MergeContext(w, p);
        EvolvesTransitive(w, w1, Effects(t, w1, effects[1..], fuel));
        Effects(t, w1, effects[1..], fuel)
      case LocalEmit(name, payload) =>
        var w1 := Emit(t, w, name, payload, fuel);
        EvolvesTransitive(w, w1, Effects(t, w1, effects[1..], fuel));
        Effects(t, w1, effects[1..], fuel)
  }

  /** `emit(name, payload)`: when started, run the current state's handler
      with the event and only `onReceive` enabled. */
  function Emit(t: Table, w: World, name: string, payload: Value, fuel: nat): (r: World)
    ensures Evolves(w, r)
    ensures !w.started || w.state.value !in t ==> r == w
    decreases fuel, 0, 0
  {
    if !w.started || w.state.value !in t then w
    else if fuel == 0 then w.(exhausted := true)
    else Chain(t, t[w.state.value], Some(Event(name, payload)), ReceiveOnly, w, false, fuel - 1).world
  }

  /** A freshly constructed machine: not started, the state atom fresh and
      holding the initial state, the promise pending. */
  function Initial(context: Cell<Context>, initialState: string, skipsEqual: bool): (r: World)
    ensures !r.started && r.outcome == Pending && r.catchers == 0 && r.tasks == []
    ensures r.state.value == initialState && r.state.listeners == [] && r.state.notified == []
    ensures r.context == context
  {
    World(false, Cell(initialState, [], [], skipsEqual), context, Pending, 0, [], false)
  }

  /** `start(context)`: listen to the state atom, run the entry pipeline
      of the current state, and attach the catch handler to the promise.
      A second `start` changes nothing. A first one sets `started`, adds
      one catch handler and subscribes the entry callback last; the
      context listeners see the new context, and the entry pipeline of
      the current state runs once, after the context write. */
  function Start(t: Table, w: World, context: Context, fuel: nat): (r: World)
    ensures w.started ==> r == w
    ensures !w.started ==> r.started && r.catchers == w.catchers + 1
    ensures !w.started ==> r.state.listeners == w.state.listeners + [EntryListener]
    ensures !w.started && Changes(w.context, context) ==>
              w.context.notified + Notices(w.context.listeners, context) <= r.context.notified
    ensures !w.started ==> w.state.notified + [Notice(EntryListener, w.state.value)] <= r.state.notified
    ensures !w.started && fuel > 0 ==>
              r == CatchStart(Entry(t, StartListening(w, context), w.state.value, fuel - 1))
    ensures w.outcome.Pending? || r.outcome == w.outcome
  {
    if w.started then w
    else CatchStart(StartEntry(t, StartListening(w, context), fuel))
  }

  /** The synchronous part of `start` before the first entry pipeline:
      mark the machine started, write the context, subscribe the entry
      listener (which the state atom calls once with its current value). */
  function StartListening(w: World, context: Context): (r: World)
    ensures r.started && r.context == CellSet(w.context, context)
    ensures r.state.value == w.state.value
    ensures r.state.listeners == w.state.listeners + [EntryListener]
    ensures r.state.notified == w.state.notified + [Notice(EntryListener, w.state.value)]
    ensures r.(started := w.started, state := w.state, context := w.context) == w
  {
    var w1 := w.(started := true, context := CellSet(w.context, context));
    w1.(state := CellSubscribe(w1.state, EntryListener))
  }

  /** That first call of the entry listener, on the state it holds. */
  function StartEntry(t: Table, w: World, fuel: nat): (r: World)
    ensures Evolves(w, r)
    ensures fuel == 0 ==> r.exhausted
    ensures fuel > 0 && w.state.value !in t ==> r == w
  {
    if fuel == 0 then w.(exhausted := true) else Entry(t, w, w.state.value, fuel - 1)
  }

  /** `.catch(...)` on the promise: one more catch handler, and when the
      promise is already rejected its callback is queued at once. */
  function CatchStart(w: World): (r: World)
    ensures r.catchers == w.catchers + 1
    ensures w.outcome.Rejected? ==> r.tasks == w.tasks + [ClearStarted]
    ensures !w.outcome.Rejected? ==> r.tasks == w.tasks
    ensures r.(catchers := w.catchers, tasks := w.tasks) == w
  {
    w.(catchers := w.catchers + 1,
       tasks := if w.outcome.Rejected? then w.tasks + [ClearStarted] else w.tasks)
  }

  /** The queue without its `i`-th task. */
  function RemoveAt(tasks: seq<Task>, i: nat): (r: seq<Task>)
    requires i < |tasks|
    ensures |r| == |tasks| - 1
    ensures forall j :: 0 <= j < i ==> r[j] == tasks[j]
    ensures forall j :: i <= j < |r| ==> r[j] == tasks[j + 1]
  {
    tasks[..i] + tasks[i + 1..]
  }

  /** The event loop runs the `i`-th waiting callback. */
  function Fire(t: Table, w: World, i: nat, fuel: nat): (r: World)
    requires i < |w.tasks|
    ensures w.tasks[i].Timeout? && w.state.value != w.tasks[i].expected ==> r == w.(tasks := RemoveAt(w.tasks, i))
    ensures w.tasks[i].EntryFailure? ==>
              && r.state == w.state && r.context == w.context && r.started == w.started
              && r.outcome == (if w.outcome.Pending? then Rejected(w.tasks[i].reason) else w.outcome)
    ensures w.tasks[i].ClearStarted? ==> r == w.(started := false, tasks := RemoveAt(w.tasks, i))
    ensures !w.tasks[i].ClearStarted? ==> Evolves(w.(tasks := RemoveAt(w.tasks, i)), r)
  {
    var w1 := w.(tasks := RemoveAt(w.tasks, i));
    match w.tasks[i]
    case Timeout(_, expected, target) =>
      if w1.state.value == expected then Write(t, w1, target, fuel) else w1
    case EntryFailure(reason) => Reject(w1, reason)
    case ClearStarted => w1.(started := false)
  }

  /** `set(value)`: pass-through to the context atom. */
  function SetContext(w: World, value: Context): (r: World)
    ensures r.context.value == value && r.context.listeners == w.context.listeners
    ensures Changes(w.context, value) ==> r.context.notified == w.context.notified + Notices(w.context.listeners, value)
    ensures !Changes(w.context, value) ==> r == w
    ensures r.(context := w.context) == w
  {
    w.(context := CellSet(w.context, value))
  }

  /** `subscribe(listener)`: pass-through to the context atom. */
  function SubscribeContext(w: World, l: ListenerId): (r: World)
    ensures r.context.value == w.context.value
    ensures r.context.listeners == w.context.listeners + [l]
    ensures r.context.notified == w.context.notified + [Notice(l, w.context.value)]
    ensures r.(context := w.context) == w
  {
    w.(context := CellSubscribe(w.context, l))
  }
}
