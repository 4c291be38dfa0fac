# A verified model of a reactive state-machine runtime

The modelled library runs state machines. A machine is a table from state
names to handlers. A handler is a chain of builder calls on a
`StateMachineStateBuilder`:

- `guard` and `guardContext` check a predicate and divert to a fallback
  state when it fails.
- `onEntry` runs an action when a state is entered.
- `onReceive` maps event names to handlers. A handler may patch the
  context and returns the next state, `false`/`undefined`, or the
  terminate sentinel `"$_END"`.
- `after` arms a timer. The timer moves to a target state only if the
  state has not changed in the meantime.

A `StateMachine` holds two reactive atoms, nanostores cells: a state atom
and a context atom. `start` subscribes to the state atom. Every state write
then runs the entry pipeline of the new state, synchronously and
re-entrantly. `emit` runs the current state's chain with the event and only
`onReceive` enabled. The run's promise resolves on `"$_END"`. It rejects
when a guard throws or an entry action's promise fails, and its catch
handler clears `started`. A separate `Graph` class collects nodes and edges
and prints a Mermaid diagram.

The project has five modules:

- **Common** (`common.dfy`) holds `Option`.
- **Semantics** (`semantics.dfy`) is the reference semantics.
  - A `World` value is everything a run can observe: the `started` flag,
    both atoms with their listeners and delivered notifications, the
    promise, its catch handlers, and the callbacks waiting in the event
    loop (`Task`).
  - Each operation is a function from `World` to `World`.
  - State writes re-enter the pipeline with no bound, so the mutually
    recursive functions (`Write`, `Notify`, `Entry`, `Chain`, `Apply`,
    `Effects`, `Emit`) take a `fuel` argument. When fuel runs out, the
    world is marked `exhausted`.
- **Runtime** (`runtime.dfy`) holds the imperative classes: `Atom`,
  `StateBuilder` (one per pipeline run, with its `stopPropagation` flag)
  and `StateMachine`.
  - Every method that changes state is proved to compute its Semantics
    function on the object graph's abstract view `Abs()`.
  - A builder's chain is a `while` loop over the steps.
  - A state write loops over the listeners the atom returns.
- **PipelineLaws** (`pipeline_laws.dfy`) and **MachineLaws**
  (`machine_laws.dfy`) state what the pipeline and the controller
  guarantee. Most of the controller's guarantees are about one call. Two
  of them hold for any sequence of calls and callbacks (`Execute`): a
  settled promise stays settled (`SettledOutcomeIsFinal`), and
  `"$_END"` never becomes a state (`EndIsNeverAState`).
- **Diagram** (`graph.dfy`) holds the `Graph` class.
  - Its insertion-ordered `Set` and `Map` become duplicate-free sequences
    and an `EdgeMap`.
  - It has a `ToMermaid` method with the source's loops.
  - It has lemmas about what the text contains and how many lines it has.

In these places the model follows the code:

- The state atom and the promise are created once, in the constructor, and
  the context atom is the one the caller passed in. A second `start` on a
  started machine does nothing. There is no fresh cell per run.
- The entry pipeline gets every stage enabled (`onEntry`, `onReceive`,
  `after`) with a `null` event, not a set without `onReceive`. See
  "## Findings".
- Once a guard has tripped `stopPropagation`, every later guard writes its
  own fallback state again, without calling its predicate
  (`StoppedChainWritesOnlyFallbacks`).
- An `onReceive` reply writes any truthy string, so the empty string,
  `false` and `undefined` write nothing.
- A restart after a rejection subscribes a second entry callback
  (`RestartSubscribesAgain`).

## Model

| member | source | states |
|---|---|---|
| Semantics.Merge | src/builder/03_02_state.ts:126 | the merged context has the keys of both objects; a patched key takes the patch's value and every other key keeps its old one |
| Semantics.GuardFailure | src/builder/03_02_state.ts:77-79 | the rejection message is "Guard evaluation failed: " followed by exactly the string form of the thrown value (`"Error: boom"` for `new Error("boom")`) |
| Semantics.MergeContext | src/builder/03_02_state.ts:126 | the `set` callback of an entry action changes no flag, subscription, catch handler or settled outcome; the logs only grow |
| Semantics.Patches | src/builder/03_02_state.ts:154-158 | a handler's calls of `set` are pipeline-safe in the same sense (`Evolves`) |
| Semantics.Write | src/builder/03_02_state.ts:76 | a state write that the atom does not skip delivers the new state to every entry listener, in order, before anything else is logged; a skipped write changes nothing |
| Semantics.Notify | src/builder/99_state_machine.ts:52-64 | the entry callbacks run by one write keep flags, subscriptions and a settled outcome |
| Semantics.Entry | src/builder/99_state_machine.ts:52-64 | the entry callback keeps flags, subscriptions and a settled outcome; for a state without a handler it changes nothing |
| Semantics.Chain | src/builder/99_state_machine.ts:53-63 | a chain keeps those, and once `stopPropagation` is set it stays set |
| Semantics.Apply | src/builder/03_02_state.ts:64-181 | after a guard, `stopPropagation` is set exactly when it was already set or the predicate did not return true; no step clears it |
| Semantics.Effects | src/builder/03_02_state.ts:123-129 | an entry action's synchronous `set` and `emit` calls keep flags, subscriptions and a settled outcome |
| Semantics.Emit | src/builder/99_state_machine.ts:81-100 | `emit` on a machine that is not started, or whose state has no handler, changes nothing |
| Semantics.Resolve | src/builder/99_state_machine.ts:40-43 | `resolve` settles a pending promise as resolved and queues nothing; on a settled promise it changes nothing |
| Semantics.Reject | src/builder/99_state_machine.ts:40-43 | `reject` settles a pending promise with the reason and queues one `started`-clearing callback per catch handler; on a settled promise it changes nothing |
| Semantics.Initial | src/builder/99_state_machine.ts:23-44 | a new machine is not started, its state atom holds the initial state with no listeners, the promise is pending with no catch handler, nothing is queued, and the context atom is the caller's |
| Semantics.Start | src/builder/99_state_machine.ts:46-71 | a second `start` changes nothing; a first one sets `started`, adds one catch handler, subscribes the entry callback last, writes the context, delivers the current state to the entry callback, and runs the current state's entry pipeline once after the context write; a settled promise stays settled |
| Semantics.StartListening | src/builder/99_state_machine.ts:50-52 | before the first entry pipeline, `start` has set the flag, written the context and subscribed the entry listener, which got one notice with the current state; nothing else has changed |
| Semantics.StartEntry | src/builder/99_state_machine.ts:52-64 | the first call of the entry listener keeps flags, subscriptions and a settled outcome; for a state without a handler it changes nothing |
| Semantics.CatchStart | src/builder/99_state_machine.ts:66-68 | the catch handler adds one to the handler count and queues its callback at once exactly when the promise is already rejected; nothing else changes |
| Semantics.Fire | src/builder/99_state_machine.ts:66-68 | running a waiting callback removes it from the queue; a stale timer does nothing else; an entry failure rejects a pending promise without touching the atoms or `started`; a catch callback only clears `started`; the others keep flags, subscriptions and a settled outcome |
| Semantics.SetContext | src/builder/99_state_machine.ts:77-79 | `set` leaves the context atom holding the value with the same listeners, notifies them when the atom does not skip the write, and changes nothing else |
| Semantics.SubscribeContext | src/builder/99_state_machine.ts:102-104 | `subscribe` registers the listener last, calls it once with the current context, and changes nothing else |
| Runtime.StateBuilder.constructor | src/builder/03_02_state.ts:29-47 | a new builder has `stopPropagation` false and the given event and stages |
| Runtime.StateBuilder.Chain | src/builder/99_state_machine.ts:53-63 | calling the chain's builder methods one by one on one builder computes `Semantics.Chain` |
| Runtime.StateBuilder.Guard | src/builder/03_02_state.ts:64-82 | the method computes the guard step of `Apply`: skipped predicate when stopped, rejection and stop on a throw, fallback write on false |
| Runtime.StateBuilder.GuardContext | src/builder/03_02_state.ts:84-110 | the same, with the predicate applied to one context property |
| Runtime.StateBuilder.OnEntry | src/builder/03_02_state.ts:112-131 | gated by stage and `stopPropagation`; runs the action's effects and queues its failure |
| Runtime.StateBuilder.Act | src/builder/03_02_state.ts:123-129 | the loop over an action's synchronous effects computes `Effects` |
| Runtime.StateBuilder.SetContext | src/builder/03_02_state.ts:126 | the `set` callback merges the patch over the current context |
| Runtime.StateBuilder.OnReceive | src/builder/03_02_state.ts:133-168 | gated; looks up the event; `"$_END"` resolves and stops, a truthy name is written, anything else writes nothing |
| Runtime.StateBuilder.After | src/builder/03_02_state.ts:170-181 | gated; queues a timer that captures the current state |
| Runtime.StateMachine.constructor | src/builder/99_state_machine.ts:23-44 | a new machine is not started, has a fresh state atom holding the initial state and a pending promise |
| Runtime.StateMachine.Start | src/builder/99_state_machine.ts:46-71 | computes `Semantics.Start`: nothing on a started machine, otherwise the flag, the context write, the subscription, the first entry call and the catch handler, in that order |
| Runtime.StateMachine.FirstEntry | src/builder/99_state_machine.ts:52-64 | the state atom's first call of the new entry listener computes `StartEntry` on the current state |
| Runtime.StateMachine.CatchStarted | src/builder/99_state_machine.ts:66-68 | attaching the catch handler adds one handler, and queues its callback at once when the promise is already rejected |
| Runtime.StateMachine.RunEntry | src/builder/99_state_machine.ts:52-64 | the subscribed callback computes `Entry` on a fresh builder with no event |
| Runtime.StateMachine.WriteState | src/builder/03_02_state.ts:76 | the write with its nested entry callbacks computes `Write` |
| Runtime.StateMachine.Emit | src/builder/99_state_machine.ts:81-100 | computes `Semantics.Emit` on a fresh builder with only `onReceive` enabled |
| Runtime.StateMachine.Resolve | src/builder/99_state_machine.ts:40-43 | settles a pending promise as resolved; a settled one is unchanged |
| Runtime.StateMachine.Reject | src/builder/99_state_machine.ts:40-43 | settles a pending promise as rejected and queues each catch handler; a settled one is unchanged |
| Runtime.StateMachine.Schedule | src/builder/03_02_state.ts:175-179 | appends one callback to the event loop and changes nothing else |
| Runtime.StateMachine.Fire | src/builder/99_state_machine.ts:66-68 | running a waiting callback computes `Semantics.Fire` |
| Runtime.StateMachine.Get | src/builder/99_state_machine.ts:73-75 | returns the context atom's value |
| Runtime.StateMachine.Set | src/builder/99_state_machine.ts:77-79 | writes the context atom and nothing else |
| Runtime.StateMachine.Subscribe | src/builder/99_state_machine.ts:102-104 | subscribes to the context atom and nothing else |
| PipelineLaws.StoppedChainWritesOnlyFallbacks | src/builder/03_02_state.ts:73-76 | once stopped, the rest of a chain writes exactly its guards' fallback states, in order, and does nothing else |
| PipelineLaws.FailingGuardDiverts | src/builder/03_02_state.ts:74-76 | a guard returning false writes its fallback, stops the chain, and leaves only later fallbacks to be written |
| PipelineLaws.ThrowingGuardRejects | src/builder/03_02_state.ts:77-80 | a throwing guard rejects a pending run with its message, writes no state of its own and stops the chain |
| PipelineLaws.PassingGuardContinues | src/builder/03_02_state.ts:74-76 | a guard returning true leaves the chain as if it were absent |
| PipelineLaws.GuardContextIsGuardOnProperty | src/builder/03_02_state.ts:98-103 | every `guardContext` acts as a `guard` whose predicate reads only that property |
| PipelineLaws.EmitSkipsEntryAndAfter | src/builder/99_state_machine.ts:97 | with only `onReceive` enabled, a chain acts as its part without `onEntry` and `after` |
| PipelineLaws.EntrySkipsReceive | src/builder/03_02_state.ts:150-158 | with no event, a chain acts as its part without `onReceive` |
| PipelineLaws.UnhandledEventIsInert | src/builder/03_02_state.ts:150-158 | an event no `onReceive` handles, with all guards passing, leaves the world unchanged |
| PipelineLaws.PatchesChangeOnlyContext | src/builder/03_02_state.ts:156 | a handler's `set` calls change the context atom and nothing else |
| PipelineLaws.EndReplyResolvesAndStops | src/builder/03_02_state.ts:160-164 | a `"$_END"` reply resolves a pending run, leaves the state atom unchanged and stops the chain |
| PipelineLaws.ReceiveReplies | src/builder/03_02_state.ts:166 | a non-empty state name is written after the patches; `false`, `undefined` and `""` write nothing |
| PipelineLaws.GatedStagesAreInert | src/builder/03_02_state.ts:119-120 | `onEntry`, `onReceive` and `after` do nothing when their stage is disabled or the chain is stopped |
| PipelineLaws.AfterCapturesCurrentState | src/builder/03_02_state.ts:174-179 | `after` only queues a timer holding the state current at that moment |
| MachineLaws.EmitOfUnhandledEventIsInert | src/builder/99_state_machine.ts:81-100 | emitting an event the current state does not handle, with all guards passing, changes nothing |
| MachineLaws.EmitRunsOnlyReceivePart | src/builder/99_state_machine.ts:88-99 | `emit` runs only the guards and `onReceive` calls of the current state |
| MachineLaws.TimerFiresOnlyInCapturedState | src/builder/03_02_state.ts:175-179 | a stale timer only leaves the queue; a live one delivers its target to every entry listener |
| MachineLaws.RejectionQueuesCatchHandlers | src/builder/99_state_machine.ts:66-68 | a rejection queues one catch handler per `start`, and running one clears `started` |
| MachineLaws.RestartSubscribesAgain | src/builder/99_state_machine.ts:46-68 | after a rejection clears `started`, a new `start` adds a second entry subscription |
| MachineLaws.PerformKeepsSettledOutcome | src/builder/99_state_machine.ts:40-43 | no single call or callback changes a settled promise |
| MachineLaws.SettledOutcomeIsFinal | src/builder/99_state_machine.ts:40-43 | under any sequence of calls and callbacks, the first settlement of the promise is final |
| MachineLaws.StartNeverEnd | src/builder/99_state_machine.ts:46-71 | with a table that never names `"$_END"` as a target, `start` keeps `"$_END"` out of the state atom and its deliveries |
| MachineLaws.FireNeverEnd | src/builder/03_02_state.ts:175-179 | the same for running a waiting callback, including a timer's state write |
| MachineLaws.EndIsNeverAState | src/builder/03_02_state.ts:160-166 | if no fallback and no `after` target is `"$_END"`, no sequence of calls puts `"$_END"` in the state atom or delivers it to an entry callback |
| MachineLaws.EntryAsWritten | src/builder/99_state_machine.ts:53-63 | the entry callback as written, with the event `null`, keeps flags, subscriptions and a settled outcome |
| MachineLaws.NullHandlerRunsOnEntry | src/builder/99_state_machine.ts:57 | as written, an `onReceive` handler named "null" runs on entry; with no event it does not |
| Diagram.Insert | src/graph/Graph.ts:21 | adding to a set keeps every old element in order, adds the new one at most once, and keeps the set duplicate-free |
| Diagram.AddTarget | src/graph/Graph.ts:24-30 | adding an edge appends its source as a key if new, adds the target to that key's set, leaves every other key's targets unchanged and keeps the map well formed |
| Diagram.AddTargetIdempotent | src/graph/Graph.ts:26-29 | adding the same edge twice is adding it once |
| Diagram.AddTargetCommutes | src/graph/Graph.ts:26-29 | the edge sets do not depend on the order edges are added in |
| Diagram.StyleLine | src/graph/Graph.ts:47-52 | an unset or empty initial or final node has no style line; otherwise the line names the node and ends with a newline |
| Diagram.Mermaid | src/graph/Graph.ts:32-54 | the diagram text begins with "graph TD" and a newline |
| Diagram.MermaidListsNodes | src/graph/Graph.ts:34-36 | every node has its own line |
| Diagram.MermaidListsContinueEdges | src/graph/Graph.ts:37-41 | every continue edge has a `-->` line |
| Diagram.MermaidListsGuardEdges | src/graph/Graph.ts:42-46 | every guard edge has an `o.->` line |
| Diagram.MermaidLineCount | src/graph/Graph.ts:32-54 | with newline-free names, the text has one line for the header, one per node, one per edge, and one per set, non-empty initial or final node |
| Diagram.Graph.constructor | src/graph/Graph.ts:1-8 | a new graph has no nodes, no edges, and no initial or final node |
| Diagram.Graph.AddNode | src/graph/Graph.ts:20-22 | adds the node to the node set and changes nothing else |
| Diagram.Graph.SetInitialNode | src/graph/Graph.ts:10-13 | records the initial node and adds it to the node set |
| Diagram.Graph.SetFinalNode | src/graph/Graph.ts:15-18 | records the final node and adds it to the node set |
| Diagram.Graph.AddEdge | src/graph/Graph.ts:24-30 | a "continue" edge goes to the continue map and any other kind to the guard map; neither end becomes a node |
| Diagram.Graph.AddContinueEdge | src/graph/Graph.ts:25-29 | a continue edge is added to the continue map, keeping the graph well formed; nothing else changes |
| Diagram.Graph.AddGuardEdge | src/graph/Graph.ts:25-29 | a guard edge is added to the guard map, keeping the graph well formed; nothing else changes |
| Diagram.Graph.AddTo | src/graph/Graph.ts:25-29 | creating the key's set when missing and then adding the target computes `AddTarget` |
| Diagram.Graph.ToMermaid | src/graph/Graph.ts:32-54 | the loops build exactly the diagram text `Mermaid` describes |
| Diagram.Graph.AppendNodes | src/graph/Graph.ts:34-36 | the loop over the nodes appends exactly their node lines, in order |
| Diagram.Graph.AppendTargets | src/graph/Graph.ts:38-40 | the inner loop appends one arrow line per target of a key, in order |
| Diagram.Graph.AppendEdges | src/graph/Graph.ts:37-46 | the nested loops over one edge map append its edge lines, key by key and target by target |

## Findings

| source | as written | input that shows it | evidently intended | confidence | as-written member | corrected member |
|---|---|---|---|---|---|---|
| src/builder/99_state_machine.ts:57 | the entry builder gets `null!` as its event, and `events[this.event]` at src/builder/03_02_state.ts:151 reads the property "null" | a state whose `onReceive` map has a key "null" (a handler table `{ idle: s => s.onReceive({ null: () => "busy" }) }`): entering "idle" moves to "busy" with no event emitted | an entry pipeline has no event, so no `onReceive` handler runs on entry | not executed; high for the lookup, medium that no user depends on it | MachineLaws.NullHandlerRunsOnEntry | PipelineLaws.EntrySkipsReceive |

The rest of the model uses the corrected entry callback, `Semantics.Entry`,
which runs the chain with no event (`None`).

## Left out

- The typed builder chain (src/builder/01_context.ts to 05_implement.ts), `localEvent` and the type-level narrowing of `guardContext`: they change only TypeScript types, not behaviour.
- src/graph/createGraph.ts: it reads TypeScript source with the compiler API. `Graph.toHTML` only embeds the Mermaid text in a fixed HTML page.
- nanostores is represented only by its contract (`Runtime.Atom`): `set` notifies the listeners synchronously in registration order, and `subscribe` calls the new listener once at once. Recent nanostores versions queue nested notifications globally; that ordering is not modelled.
- Whether an atom skips a write of an equal value is a flag (`skipsEqual`). nanostores compares by reference. The merges of `onEntry` and `onReceive` always build a fresh object (`{ ...a, ...b }`), but `start(context)` and `set(value)` pass the caller's own object, which may be the one the atom already holds. So value equality is exact for strings and only approximates objects.
- The unsubscribe function returned by `subscribe` is not modelled.
- Runtime.StateMachine.Subscribe, Semantics.SubscribeContext: a context listener is an identifier whose calls are only logged. In the source it is arbitrary code that runs synchronously on every context write (in `start`, in `set`, and in each `set` call of an `onEntry` action or `onReceive` handler), and it may call `emit` or `set` re-entrantly. That code is not modelled; `Execute` only interleaves calls made from outside.
- Semantics.Apply: the `onReceive` handlers are a map of the object's own keys. In the source the lookup `events[this.event]` also finds members inherited from `Object.prototype`. An event named `"toString"` would call that method, and its truthy result `"[object Object]"` would be written to the state atom. An event named `"constructor"` would write the context object there. The model treats such names as unhandled, so PipelineLaws.UnhandledEventIsInert and MachineLaws.EmitOfUnhandledEventIsInert describe the source only for event names that are not `Object.prototype` members.
- Asynchrony is modelled as a queue of `Task` values. The environment chooses which one runs next (`Fire`), so the model allows every interleaving, not only the one JavaScript's timers and microtasks produce. The timeout delay is recorded but not used.
- An entry action is represented by what it does synchronously (`set` and `emit` calls) and whether its promise rejects. Effects after its first `await` can be expressed as later `Send`/`Put` actions.
- A synchronous throw from an entry action, an event handler or a nested state write is not modelled. In the source it propagates to the caller, or is caught by the surrounding guard's `catch` and turned into a rejection.
- Semantics.Write, Semantics.Emit, Semantics.Start: nested pipeline runs are bounded by `fuel`. A run that would go deeper is cut off and the world is marked `exhausted`. The source recurses without bound.
- Context values are `undefined`, `null`, booleans, integers and strings. Floating-point numbers and nested objects are not modelled.
- The promise is a single `Outcome` field. The rejection value, a JavaScript `Error`, is modelled by its message.
