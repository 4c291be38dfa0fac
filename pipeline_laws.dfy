/** Laws of the transition pipeline: what one run of a handler's chain
    does, stated over the reference semantics. */
module PipelineLaws {
  import opened Common
  import opened Semantics

  /** The fallback states of a chain's guards, in order. */
  function Fallbacks(steps: Handler): seq<string> {
    if steps == [] then []
    else (if IsGuard(steps[0]) then [steps[0].fallback] else []) + Fallbacks(steps[1..])
  }

  /** State writes one after the other. */
  function WriteAll(t: Table, w: World, states: seq<string>, fuel: nat): World
    decreases |states|
  {
    if states == [] then w else WriteAll(t, Write(t, w, states[0], fuel), states[1..], fuel)
  }

  /** Once `stopPropagation` is set, the rest of the chain only writes the
      fallback states of its guards, in order, without consulting their
      predicates (so a predicate that would throw rejects nothing), and
      `onEntry`, `onReceive` and `after` do nothing. */
  lemma {:induction false} StoppedChainWritesOnlyFallbacks(t: Table, steps: Handler, event: Option<Event>,
                                                           enabled: seq<Stage>, w: World, fuel: nat)
    ensures Chain(t, steps, event, enabled, w, true, fuel) == Run(WriteAll(t, w, Fallbacks(steps), fuel), true)
    decreases |steps|
  {
    if steps != [] {
      var r1 := Apply(t, steps[0], event, enabled, w, true, fuel);
      var rest := Fallbacks(steps[1..]);
      StoppedChainWritesOnlyFallbacks(t, steps[1..], event, enabled, r1.world, fuel);
      assert Chain(t, steps, event, enabled, w, true, fuel) == Chain(t, steps[1..], event, enabled, r1.world, true, fuel);
      if IsGuard(steps[0]) {
        var fb := steps[0].fallback;
        assert r1 == Run(Write(t, w, fb, fuel), true);
        assert Fallbacks(steps) == [fb] + rest;
        assert ([fb] + rest)[0] == fb && ([fb] + rest)[1..] == rest;
      } else {
        assert r1 == Run(w, true);
        assert Fallbacks(steps) == [] + rest == rest;
      }
    }
  }

  /** A guard whose predicate returns false sets `stopPropagation` and
      writes its fallback state; after it, only later fallbacks are written. */
  lemma FailingGuardDiverts(t: Table, guard: Step, rest: Handler, event: Option<Event>,
                            enabled: seq<Stage>, w: World, fuel: nat)
    requires IsGuard(guard) && VerdictOf(guard, w.context.value) == Pass(false)
    ensures Chain(t, [guard] + rest, event, enabled, w, false, fuel)
         == Run(WriteAll(t, Write(t, w, guard.fallback, fuel), Fallbacks(rest), fuel), true)
  {
    assert ([guard] + rest)[1..] == rest;
    StoppedChainWritesOnlyFallbacks(t, rest, event, enabled, Write(t, w, guard.fallback, fuel), fuel);
  }

  /** A guard whose predicate throws rejects the run with
      "Guard evaluation failed: " and the error, sets `stopPropagation`,
      and writes no state of its own; later guards still write theirs. */
  lemma ThrowingGuardRejects(t: Table, guard: Step, rest: Handler, event: Option<Event>,
                             enabled: seq<Stage>, w: World, fuel: nat, error: string)
    requires IsGuard(guard) && VerdictOf(guard, w.context.value) == Throw(error)
    ensures Chain(t, [guard] + rest, event, enabled, w, false, fuel)
         == Run(WriteAll(t, Reject(w, GuardFailure(error)), Fallbacks(rest), fuel), true)
    ensures w.outcome.Pending? ==> Reject(w, GuardFailure(error)).outcome == Rejected(GuardFailure(error))
    ensures Reject(w, GuardFailure(error)).state == w.state
  {
    assert ([guard] + rest)[1..] == rest;
    StoppedChainWritesOnlyFallbacks(t, rest, event, enabled, Reject(w, GuardFailure(error)), fuel);
  }

  /** A guard whose predicate returns true lets the chain go on unchanged. */
  lemma PassingGuardContinues(t: Table, guard: Step, rest: Handler, event: Option<Event>,
                              enabled: seq<Stage>, w: World, fuel: nat)
    requires IsGuard(guard) && VerdictOf(guard, w.context.value) == Pass(true)
    ensures Chain(t, [guard] + rest, event, enabled, w, false, fuel) == Chain(t, rest, event, enabled, w, false, fuel)
  {
    assert ([guard] + rest)[1..] == rest;
  }

  /** `guardContext(p, test, s)` as a plain `guard` whose predicate applies
      `test` to field `p` of the context. */
  function AsGuard(step: Step): Step {
    if step.GuardContext? then
      var property, test := step.property, step.test;
      Guard(c => test(Lookup(c, property)), step.fallback)
    else step
  }

  function AsGuards(steps: Handler): (r: Handler)
    ensures |r| == |steps|
  {
    if steps == [] then [] else [AsGuard(steps[0])] + AsGuards(steps[1..])
  }

  /** Every `guardContext` in a chain can be replaced by a `guard` that
      looks at the one property only, without changing what the chain does. */
  lemma {:induction false} GuardContextIsGuardOnProperty(t: Table, steps: Handler, event: Option<Event>,
                                                         enabled: seq<Stage>, w: World, stop: bool, fuel: nat)
    ensures Chain(t, AsGuards(steps), event, enabled, w, stop, fuel) == Chain(t, steps, event, enabled, w, stop, fuel)
    decreases |steps|
  {
    if steps != [] {
      var r1 := Apply(t, steps[0], event, enabled, w, stop, fuel);
      assert Apply(t, AsGuard(steps[0]), event, enabled, w, stop, fuel) == r1;
      assert AsGuards(steps)[0] == AsGuard(steps[0]) && AsGuards(steps)[1..] == AsGuards(steps[1..]);
      GuardContextIsGuardOnProperty(t, steps[1..], event, enabled, r1.world, r1.stop, fuel);
    }
  }

  /** The chain without its `onEntry` and `after` calls. */
  function ReceivePart(steps: Handler): Handler {
    if steps == [] then []
    else (if steps[0].OnEntry? || steps[0].After? then [] else [steps[0]]) + ReceivePart(steps[1..])
  }

  /** The chain without its `onReceive` calls. */
  function EntryPart(steps: Handler): Handler {
    if steps == [] then []
    else (if steps[0].OnReceive? then [] else [steps[0]]) + EntryPart(steps[1..])
  }

  /** With `enabledEvents = ["onReceive"]`, as `emit` runs a handler, the
      `onEntry` and `after` calls of the chain never take effect. */
  lemma {:induction false} EmitSkipsEntryAndAfter(t: Table, steps: Handler, event: Option<Event>,
                                                  w: World, stop: bool, fuel: nat)
    ensures Chain(t, steps, event, ReceiveOnly, w, stop, fuel) == Chain(t, ReceivePart(steps), event, ReceiveOnly, w, stop, fuel)
    decreases |steps|
  {
    if steps != [] {
      var r1 := Apply(t, steps[0], event, ReceiveOnly, w, stop, fuel);
      EmitSkipsEntryAndAfter(t, steps[1..], event, r1.world, r1.stop, fuel);
      assert Chain(t, steps, event, ReceiveOnly, w, stop, fuel) == Chain(t, steps[1..], event, ReceiveOnly, r1.world, r1.stop, fuel);
      if steps[0].OnEntry? || steps[0].After? {
        assert r1 == Run(w, stop);
        assert ReceivePart(steps) == [] + ReceivePart(steps[1..]) == ReceivePart(steps[1..]);
      } else {
        assert ReceivePart(steps) == [steps[0]] + ReceivePart(steps[1..]);
        assert ([steps[0]] + ReceivePart(steps[1..]))[1..] == ReceivePart(steps[1..]);
      }
    }
  }

  /** With no event, as an entry pipeline runs, the `onReceive` calls of
      the chain never take effect. */
  lemma {:induction false} EntrySkipsReceive(t: Table, steps: Handler, enabled: seq<Stage>,
                                             w: World, stop: bool, fuel: nat)
    ensures Chain(t, steps, None, enabled, w, stop, fuel) == Chain(t, EntryPart(steps), None, enabled, w, stop, fuel)
    decreases |steps|
  {
    if steps != [] {
      var r1 := Apply(t, steps[0], None, enabled, w, stop, fuel);
      EntrySkipsReceive(t, steps[1..], enabled, r1.world, r1.stop, fuel);
      assert Chain(t, steps, None, enabled, w, stop, fuel) == Chain(t, steps[1..], None, enabled, r1.world, r1.stop, fuel);
      if steps[0].OnReceive? {
        assert r1 == Run(w, stop);
        assert EntryPart(steps) == [] + EntryPart(steps[1..]) == EntryPart(steps[1..]);
      } else {
        assert EntryPart(steps) == [steps[0]] + EntryPart(steps[1..]);
        assert ([steps[0]] + EntryPart(steps[1..]))[1..] == EntryPart(steps[1..]);
      }
    }
  }

  /** A chain whose guards all pass on context `c` and none of whose
      `onReceive` maps has a handler for `name`. */
  predicate IgnoresEvent(steps: Handler, c: Context, name: string) {
    forall i :: 0 <= i < |steps| ==>
      (IsGuard(steps[i]) ==> VerdictOf(steps[i], c) == Pass(true)) &&
      (steps[i].OnReceive? ==> name !in steps[i].handlers)
  }

  /** An emitted event that no `onReceive` of the chain handles, with
      every guard passing, changes nothing: not the context, not the
      state, not the promise. */
  lemma {:induction false} UnhandledEventIsInert(t: Table, steps: Handler, name: string, payload: Value,
                                                 w: World, fuel: nat)
    requires IgnoresEvent(steps, w.context.value, name)
    ensures Chain(t, steps, Some(Event(name, payload)), ReceiveOnly, w, false, fuel) == Run(w, false)
    decreases |steps|
  {
    if steps != [] {
      assert IsGuard(steps[0]) ==> VerdictOf(steps[0], w.context.value) == Pass(true);
      assert steps[0].OnReceive? ==> name !in steps[0].handlers;
      assert Apply(t, steps[0], Some(Event(name, payload)), ReceiveOnly, w, false, fuel) == Run(w, false);
      assert IgnoresEvent(steps[1..], w.context.value, name) by {
        forall i | 0 <= i < |steps[1..]|
          ensures (IsGuard(steps[1..][i]) ==> VerdictOf(steps[1..][i], w.context.value) == Pass(true)) &&
                  (steps[1..][i].OnReceive? ==> name !in steps[1..][i].handlers)
        {
          assert steps[1..][i] == steps[i + 1];
        }
      }
      UnhandledEventIsInert(t, steps[1..], name, payload, w, fuel);
    }
  }

  /** The calls of `set` made by an event handler change the context and
      nothing else. */
  lemma {:induction false} PatchesChangeOnlyContext(w: World, patches: seq<Context>)
    ensures Patches(w, patches).(context := w.context) == w
    decreases |patches|
  {
    if patches != [] {
      PatchesChangeOnlyContext(MergeContext(w, patches[0]), patches[1..]);
    }
  }

  /** A handler that returns `"$_END"` resolves the promise, stops the
      chain and leaves the state atom as it was; the rest of the chain only
      writes its guards' fallbacks. */
  lemma EndReplyResolvesAndStops(t: Table, handlers: map<string, (Context, Value) -> Reaction>, rest: Handler,
                                 name: string, payload: Value, enabled: seq<Stage>, w: World, fuel: nat)
    requires ReceiveStage in enabled && name in handlers
    requires handlers[name](w.context.value, payload).reply == Goto(End)
    ensures Chain(t, [OnReceive(handlers)] + rest, Some(Event(name, payload)), enabled, w, false, fuel)
         == Run(WriteAll(t, Resolve(Patches(w, handlers[name](w.context.value, payload).patches)), Fallbacks(rest), fuel), true)
    ensures Resolve(Patches(w, handlers[name](w.context.value, payload).patches)).state == w.state
    ensures w.outcome.Pending? ==> Resolve(Patches(w, handlers[name](w.context.value, payload).patches)).outcome == Resolved
  {
    var patched := Patches(w, handlers[name](w.context.value, payload).patches);
    PatchesChangeOnlyContext(w, handlers[name](w.context.value, payload).patches);
    assert ([OnReceive(handlers)] + rest)[1..] == rest;
    StoppedChainWritesOnlyFallbacks(t, rest, Some(Event(name, payload)), enabled, Resolve(patched), fuel);
  }

  /** Any other reply: a non-empty state name is written, and `false`,
      `undefined` or an empty name write nothing. */
  lemma ReceiveReplies(t: Table, handlers: map<string, (Context, Value) -> Reaction>, name: string,
                       payload: Value, enabled: seq<Stage>, w: World, fuel: nat)
    requires ReceiveStage in enabled && name in handlers
    ensures var reaction := handlers[name](w.context.value, payload);
            var patched := Patches(w, reaction.patches);
            var r := Apply(t, OnReceive(handlers), Some(Event(name, payload)), enabled, w, false, fuel);
            && (reaction.reply.Goto? && reaction.reply.state != End && reaction.reply.state != "" ==>
                  r == Run(Write(t, patched, reaction.reply.state, fuel), false))
            && (reaction.reply == Stay || reaction.reply == Goto("") ==> r == Run(patched, false))
  {
  }

  /** `onEntry`, `onReceive` and `after` do nothing unless their stage is
      enabled and `stopPropagation` is false. */
  lemma GatedStagesAreInert(t: Table, step: Step, event: Option<Event>, enabled: seq<Stage>,
                            w: World, stop: bool, fuel: nat)
    requires stop || (step.OnEntry? && EntryStage !in enabled) || (step.OnReceive? && ReceiveStage !in enabled)
                  || (step.After? && AfterStage !in enabled)
    requires !IsGuard(step)
    ensures Apply(t, step, event, enabled, w, stop, fuel) == Run(w, stop)
  {
  }

  /** `after` captures the state current when it runs; it changes nothing
      else until its callback fires. */
  lemma AfterCapturesCurrentState(t: Table, timeout: int, target: string, event: Option<Event>,
                                  enabled: seq<Stage>, w: World, fuel: nat)
    requires AfterStage in enabled
    ensures Apply(t, After(timeout, target), event, enabled, w, false, fuel)
         == Run(w.(tasks := w.tasks + [Timeout(timeout, w.state.value, target)]), false)
  {
  }
}
