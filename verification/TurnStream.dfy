/**
 The execute-once event stream of one agent turn (TurnHandle.stream).

 `Stream` keeps the source's sequential shape. Every `await` of the source is a
 call to `Await`, during which the rest of the system may freeze the turn in the
 store and may fire the abort signal; every `yield` is a call to `Emit`, after
 which the consumer may ask for the next event or walk away. All of these
 choices, and every engine script, are arbitrary, so the contract of `Stream`
 speaks about every interleaving.
 */
module TurnStream {
  import opened Prelude

  datatype Reason = ServerExecutionTimeout | ClientCancelled | CancelledForNextTurn | Abandoned

  /** The `reason` of an AbortSignal has no fixed type; only enum members are recognised. */
  datatype AbortReason = Known(reason: Reason) | Unrecognised

  function CancellationReasonFromAbortReason(abort: AbortReason): Reason {
    match abort
    case Known(ServerExecutionTimeout) => ServerExecutionTimeout
    case Known(CancelledForNextTurn) => CancelledForNextTurn
    case Known(Abandoned) => Abandoned
    case _ => ClientCancelled
  }

  /** A terminal state without its timestamps and metrics. */
  datatype Outcome =
    | Cancelled(reason: Reason)
    | Errored(message: string)
    | Done(output: Option<nat>, requiredActions: seq<nat>)

  datatype TurnState = Running | Terminal(outcome: Outcome, metrics: Option<nat>)

  /** Events that carry content. Message and Delta are streamed and not persisted by the stream. */
  datatype Content = Message(id: nat) | Delta(id: nat) | Item(id: nat)

  datatype Event = TurnCreated | Carries(content: Content) | TurnDone(state: TurnState)

  predicate StreamOnly(e: Event) {
    e.Carries? && !e.content.Item?
  }

  /** One event of the engine, by the branch of persistExecutionEvent that handles it. */
  datatype ExecutionEvent =
    | StreamedModelContent(content: Content)
    | CreateSubagent
    | CapabilityState(defined: bool)
    | ContextOverwrite
    | ContextAppend(output: seq<Content>)
    | AgentDone(hasParent: bool, threadDone: nat)
    | PatchedThenLogged(id: nat)   // thread.created, mcp.initialize, sandbox.created
    | LoggedOnly(id: nat)          // tool.response, approvals, mcp auth, registered passthrough

  predicate WellTyped(e: ExecutionEvent) {
    e.StreamedModelContent? ==> !e.content.Item?
  }

  datatype ExecutionResult =
    ExecutionResult(output: Option<nat>, requiredActions: seq<nat>, rootError: Option<string>)

  datatype EngineEnd = Returned(result: ExecutionResult) | Threw(message: string)

  datatype StoreReply = Stored | NotRunning(state: TurnState) | Fault(message: string)

  const NOT_RUNNING := "Turn is not running"
  const CAPABILITY_STATE_UNDEFINED := "CAPABILITY_STATE must not be undefined"

  /** The message of the error that a rejected store call throws. */
  function ErrorMessage(r: StoreReply): string {
    if r.Fault? then r.message else NOT_RUNNING
  }

  datatype PersistReply = Persisted(toYield: Option<Event>) | Frozen(state: TurnState) | Failed(message: string)

  /** How control left the `try` block of the stream. */
  datatype BodyExit =
    | Completed(result: ExecutionResult)
    | Caught(message: string)
    | FrozenByStore
    | ConsumerLeft

  datatype StreamEnd = Finished | WriteFailed(message: string) | AlreadyStarted | NotExecutable

  // ---------------------------------------------------------------- specification

  /** `xs` is the subsequence of `ys` found at the strictly increasing positions `at`. */
  predicate EmbeddedAt<T(==)>(xs: seq<T>, ys: seq<T>, at: seq<nat>) {
    && |at| == |xs|
    && (forall i :: 0 <= i < |at| ==> at[i] < |ys| && ys[at[i]] == xs[i])
    && (forall i, j :: 0 <= i < j < |at| ==> at[i] < at[j])
  }

  lemma EmbeddedSnoc<T>(xs: seq<T>, ys: seq<T>, at: seq<nat>, k: nat)
    requires EmbeddedAt(xs, ys, at) && k < |ys|
    requires forall i :: 0 <= i < |at| ==> at[i] < k
    ensures EmbeddedAt(xs + [ys[k]], ys, at + [k])
  {
  }

  /** The yielded events that the stream promises to have persisted first. */
  function Durable(emitted: seq<Event>): seq<Event> {
    if emitted == [] then []
    else
      var last := emitted[|emitted| - 1];
      Durable(emitted[..|emitted| - 1]) + if StreamOnly(last) then [] else [last]
  }

  lemma DurableSnoc(emitted: seq<Event>, e: Event)
    ensures Durable(emitted + [e]) == Durable(emitted) + if StreamOnly(e) then [] else [e]
  {
    assert (emitted + [e])[..|emitted|] == emitted;
  }

  /** That is everything yielded except streamed model messages and deltas. */
  lemma {:induction false} WhatIsDurable(emitted: seq<Event>, e: Event)
    ensures e in Durable(emitted) <==>
      e in emitted && match e case Carries(Message(_)) => false case Carries(Delta(_)) => false case _ => true
    ensures |Durable(emitted)| <= |emitted|
  {
    if emitted == [] {
    } else {
      WhatIsDurable(emitted[..|emitted| - 1], e);
      assert emitted == emitted[..|emitted| - 1] + [emitted[|emitted| - 1]];
    }
  }

  /** A turn.done minted again because the store froze the turn is not itself in the log. */
  function PromisedDurable(emitted: seq<Event>, reminted: bool): seq<Event> {
    Durable(if reminted && emitted != [] then emitted[..|emitted| - 1] else emitted)
  }

  /** The turn.done event occurs exactly once, at the end. */
  predicate DoneOnlyAtEnd(events: seq<Event>) {
    events != [] && events[|events| - 1].TurnDone?
    && forall i :: 0 <= i < |events| - 1 ==> !events[i].TurnDone?
  }

  predicate NoDone(events: seq<Event>) {
    forall i :: 0 <= i < |events| ==> !events[i].TurnDone?
  }

  lemma DoneComesLast(events: seq<Event>, state: TurnState)
    requires NoDone(events)
    ensures DoneOnlyAtEnd(events + [TurnDone(state)])
  {
  }

  /** The log entries that one engine event owes, and the event shown to the consumer for it. */
  function LogOfEvent(e: ExecutionEvent): seq<Event> {
    match e
    case ContextAppend(output) => Carrying(output)
    case AgentDone(true, threadDone) => [Carries(Item(threadDone))]
    case PatchedThenLogged(id) => [Carries(Item(id))]
    case LoggedOnly(id) => [Carries(Item(id))]
    case _ => []
  }

  function ShownForEvent(e: ExecutionEvent): seq<Event> {
    match e
    case StreamedModelContent(content) => [Carries(content)]
    case ContextAppend(_) => []
    case _ => LogOfEvent(e)
  }

  /** The event's write to the turn's snapshot, if it has one. */
  function PatchOfEvent(e: ExecutionEvent): seq<ExecutionEvent> {
    match e
    case CapabilityState(true) => [e]
    case ContextOverwrite => [e]
    case ContextAppend(_) => [e]
    case AgentDone(true, _) => [e]
    case PatchedThenLogged(_) => [e]
    case _ => []
  }

  function Carrying(content: seq<Content>): seq<Event> {
    seq(|content|, i requires 0 <= i < |content| => Carries(content[i]))
  }

  /** The complete log, and everything shown, for a script that is executed to its end. */
  function LogOf(script: seq<ExecutionEvent>): seq<Event> {
    if script == [] then [TurnCreated] else LogOf(script[..|script| - 1]) + LogOfEvent(script[|script| - 1])
  }

  function ShownFor(script: seq<ExecutionEvent>): seq<Event> {
    if script == [] then [TurnCreated] else ShownFor(script[..|script| - 1]) + ShownForEvent(script[|script| - 1])
  }

  function PatchesOf(script: seq<ExecutionEvent>): seq<ExecutionEvent> {
    if script == [] then [] else PatchesOf(script[..|script| - 1]) + PatchOfEvent(script[|script| - 1])
  }

  lemma {:induction false} PrefixesOfScript(script: seq<ExecutionEvent>, k: nat)
    requires k <= |script|
    ensures LogOf(script[..k]) <= LogOf(script) && ShownFor(script[..k]) <= ShownFor(script)
    ensures PatchesOf(script[..k]) <= PatchesOf(script)
    decreases |script| - k
  {
    if k < |script| {
      PrefixesOfScript(script, k + 1);
      assert script[..k + 1][..k] == script[..k];
    } else {
      assert script[..k] == script;
    }
  }

  /** What one more event of the script adds, within what the whole script owes. */
  lemma OneMoreEvent(script: seq<ExecutionEvent>, i: nat)
    requires i < |script|
    ensures LogOf(script[..i + 1]) == LogOf(script[..i]) + LogOfEvent(script[i]) <= LogOf(script)
    ensures ShownFor(script[..i + 1]) == ShownFor(script[..i]) + ShownForEvent(script[i]) <= ShownFor(script)
    ensures PatchesOf(script[..i + 1]) == PatchesOf(script[..i]) + PatchOfEvent(script[i]) <= PatchesOf(script)
  {
    hide LogOfEvent, ShownForEvent, PatchOfEvent;
    var taken := script[..i + 1];
    assert taken[..|taken| - 1] == script[..i] && taken[|taken| - 1] == script[i];
    PrefixesOfScript(script, i + 1);
  }

  /**
   What the i-th event of a script owes, and where in the complete log and among everything shown it stands:
   right after what the events before it owe.
   */
  lemma OwedForEvent(script: seq<ExecutionEvent>, i: nat)
    requires i < |script|
    ensures var e, log, log' := script[i], LogOf(script[..i]), LogOf(script[..i + 1]);
      && log' <= LogOf(script)
      && (e.LoggedOnly? || e.PatchedThenLogged? ==> log' == log + [Carries(Item(e.id))])
      && (e.AgentDone? && e.hasParent ==> log' == log + [Carries(Item(e.threadDone))])
      && (e.ContextAppend? ==>
            |log'| == |log| + |e.output| && log <= log'
            && forall j :: 0 <= j < |e.output| ==> log'[|log| + j] == Carries(e.output[j]))
      && (e.AgentDone? && !e.hasParent ==> log' == log)
      && (e.StreamedModelContent? || e.CreateSubagent? || e.CapabilityState? || e.ContextOverwrite? ==> log' == log)
    ensures var e, shown, shown' := script[i], ShownFor(script[..i]), ShownFor(script[..i + 1]);
      && shown' <= ShownFor(script)
      && (e.StreamedModelContent? ==> shown' == shown + [Carries(e.content)])
      && (e.LoggedOnly? || e.PatchedThenLogged? ==> shown' == shown + [Carries(Item(e.id))])
      && (e.AgentDone? ==> shown' == shown + if e.hasParent then [Carries(Item(e.threadDone))] else [])
      && (e.ContextAppend? || e.CreateSubagent? || e.CapabilityState? || e.ContextOverwrite? ==> shown' == shown)
    ensures var e, patched, patched' := script[i], PatchesOf(script[..i]), PatchesOf(script[..i + 1]);
      && patched' <= PatchesOf(script)
      && (e.ContextOverwrite? || e.ContextAppend? || e.PatchedThenLogged? ==> patched' == patched + [e])
      && (e.AgentDone? ==> patched' == patched + if e.hasParent then [e] else [])
      && (e.CapabilityState? ==> patched' == patched + if e.defined then [e] else [])
      && (e.LoggedOnly? || e.CreateSubagent? || e.StreamedModelContent? ==> patched' == patched)
  {
    hide LogOf, ShownFor, PatchesOf;
    OneMoreEvent(script, i);
  }

  lemma NothingYet(script: seq<ExecutionEvent>)
    ensures LogOf([]) == ShownFor([]) == [TurnCreated] && PatchesOf([]) == []
    ensures [TurnCreated] <= LogOf(script) && [TurnCreated] <= ShownFor(script)
  {
    PrefixesOfScript(script, 0);
    assert script[..0] == [];
  }

  /** Each of the events found at `positions` was in the log when it was yielded, with the log at that length. */
  predicate LoggedFirst(positions: seq<nat>, lengths: seq<nat>, log: seq<Event>) {
    && |lengths| == |positions|
    && (forall i :: 0 <= i < |positions| ==> positions[i] < lengths[i] <= |log|)
    && (forall i, j :: 0 <= i < j < |lengths| ==> lengths[i] <= lengths[j])
  }

  lemma LoggedFirstSnoc(positions: seq<nat>, lengths: seq<nat>, log: seq<Event>, at: nat)
    requires LoggedFirst(positions, lengths, log) && at < |log|
    ensures LoggedFirst(positions + [at], lengths + [|log|], log)
  {
  }

  lemma EmbeddedInMore<T>(xs: seq<T>, ys: seq<T>, more: seq<T>, at: seq<nat>)
    requires EmbeddedAt(xs, ys, at)
    ensures EmbeddedAt(xs, ys + more, at)
    ensures |more| == 1 ==> EmbeddedAt(xs + more, ys + more, at + [|ys|])
  {
  }

  lemma AnnouncedIsLogged() returns (at: seq<nat>)
    ensures EmbeddedAt(Durable([TurnCreated]), [TurnCreated], at)
  {
    DurableSnoc([], TurnCreated);
    assert [] + [TurnCreated] == [TurnCreated] && Durable([]) == [];
    at := [0];
  }

  lemma ShownByEvent(e: ExecutionEvent)
    requires WellTyped(e)
    ensures ShownForEvent(e) == [] || ShownForEvent(e) == [ShownForEvent(e)[0]]
    ensures ShownForEvent(e) != [] && !StreamOnly(ShownForEvent(e)[0]) ==> LogOfEvent(e) == ShownForEvent(e)
  {
  }

  /** Everything a finished execution shows, apart from streamed model content, is in its log and in the same order. */
  lemma {:induction false} ShownIsLogged(script: seq<ExecutionEvent>) returns (at: seq<nat>)
    requires forall e :: e in script ==> WellTyped(e)
    ensures EmbeddedAt(Durable(ShownFor(script)), LogOf(script), at)
  {
    hide EmbeddedAt, LogOfEvent, ShownForEvent, StreamOnly;
    if script == [] {
      at := AnnouncedIsLogged();
    } else {
      var init, last := script[..|script| - 1], script[|script| - 1];
      assert last in script;
      at := ShownIsLogged(init);
      var shown, log := Durable(ShownFor(init)), LogOf(init);
      EmbeddedInMore(shown, log, LogOfEvent(last), at);
      ShownByEvent(last);
      if ShownForEvent(last) != [] {
        DurableSnoc(ShownFor(init), ShownForEvent(last)[0]);
        if !StreamOnly(ShownForEvent(last)[0]) {
          at := at + [|log|];
        }
      }
      assert ShownFor(init) + [] == ShownFor(init) && shown + [] == shown;
    }
  }

  /** While the stream is suspended, the turn may be frozen and nothing else happens to it. */
  predicate MaybeFrozen(state: TurnState, log: seq<Event>, state': TurnState, log': seq<Event>) {
    || (state' == state && log' == log)
    || (state.Running? && state'.Terminal? && state'.outcome.Cancelled? && log' == log + [TurnDone(state')])
  }

  /** The log holds `content`, closed by the turn.done if the turn is terminal. */
  predicate LogIs(content: seq<Event>, state: TurnState, log: seq<Event>) {
    log == if state.Running? then content else content + [TurnDone(state)]
  }

  /** What the store may do over time: the log only grows, and a terminal record is final. */
  predicate Evolves(state: TurnState, log: seq<Event>, state': TurnState, log': seq<Event>) {
    && log <= log'
    && (state.Terminal? ==> state' == state && log' == log)
  }

  /** The terminal-state decision of the stream's finally block. */
  function TerminalOutcome(aborted: Option<AbortReason>, exit: BodyExit): Outcome {
    if aborted.Some? then Cancelled(CancellationReasonFromAbortReason(aborted.value))
    else match exit
      case Caught(message) => Errored(message)
      case Completed(result) =>
        if result.rootError.Some? then Errored(result.rootError.value)
        else Done(result.output, result.requiredActions)
      case _ => Cancelled(ClientCancelled)
  }

  /** An abort decides, with its reason when that is a known one; then an error; then the result or its absence. */
  lemma WhatDecides(aborted: Option<AbortReason>, exit: BodyExit)
    ensures var outcome := TerminalOutcome(aborted, exit);
      && (aborted.Some? && aborted.value.Known? ==> outcome == Cancelled(aborted.value.reason))
      && (aborted == Some(Unrecognised) ==> outcome == Cancelled(ClientCancelled))
      && (aborted.None? && exit.Caught? ==> outcome == Errored(exit.message))
      && (aborted.None? && exit.Completed? && exit.result.rootError.Some? ==>
            outcome == Errored(exit.result.rootError.value))
      && (aborted.None? && exit.Completed? && exit.result.rootError.None? ==>
            outcome == Done(exit.result.output, exit.result.requiredActions))
      && (aborted.None? && exit.ConsumerLeft? ==> outcome == Cancelled(ClientCancelled))
  {
    if aborted.Some? && aborted.value.Known? {
      assert aborted.value.reason == CancellationReasonFromAbortReason(aborted.value);
    }
  }

  // ---------------------------------------------------------------- collaborators

  class TurnStore {
    var state: TurnState
    var log: seq<Event>
    var patched: seq<ExecutionEvent>   // the events whose snapshot write took effect
    ghost var thrown: seq<string>      // the messages of the errors its writes threw

    /** The turn is terminal exactly when the log holds its one turn.done, with the same outcome. */
    ghost predicate Valid()
      reads this
    {
      && (state.Running? ==> NoDone(log))
      && (state.Terminal? ==> DoneOnlyAtEnd(log) && log[|log| - 1] == TurnDone(state))
    }

    constructor ()
      ensures Valid() && state == Running && log == [] && patched == [] && thrown == []
    {
      state, log, patched, thrown := Running, [], [], [];
    }

    /** appendToEvents. A fault may strike before or after the write took effect. */
    method AppendToEvents(events: seq<Event>) returns (r: StoreReply)
      requires Valid() && NoDone(events)
      modifies this`log, this`thrown
      ensures thrown == old(thrown) + if r.Stored? then [] else [ErrorMessage(r)]
      ensures Valid() && state == old(state)
      ensures r.Stored? ==> old(state).Running? && log == old(log) + events
      ensures r.NotRunning? <==> old(state).Terminal?
      ensures r.NotRunning? ==> r.state == state && log == old(log)
      ensures r.Fault? ==> log == old(log) || log == old(log) + events
    {
      if state.Terminal? {
        thrown := thrown + [NOT_RUNNING];
        return NotRunning(state);
      }
      var message: string := *;
      var fails: bool := *;
      if fails {
        thrown := thrown + [message];
        if * { log := log + events; }
        return Fault(message);
      }
      log := log + events;
      r := Stored;
    }

    /** Every other guarded write to the turn's snapshot, for one event. */
    method PatchSnapshot(event: ExecutionEvent) returns (r: StoreReply)
      requires Valid()
      modifies this`patched, this`thrown
      ensures r.NotRunning? <==> state.Terminal?
      ensures r.NotRunning? ==> r.state == state && patched == old(patched)
      ensures r.Stored? ==> patched == old(patched) + [event]
      ensures r.Fault? ==> patched == old(patched) || patched == old(patched) + [event]
      ensures thrown == old(thrown) + if r.Stored? then [] else [ErrorMessage(r)]
    {
      if state.Terminal? {
        thrown := thrown + [NOT_RUNNING];
        return NotRunning(state);
      }
      var message: string := *;
      var fails: bool := *;
      if fails {
        thrown := thrown + [message];
        if * { patched := patched + [event]; }
        return Fault(message);
      }
      patched := patched + [event];
      r := Stored;
    }

    /** First terminal write wins. */
    method UpdateTurnState(terminal: TurnState) returns (r: StoreReply)
      requires Valid() && terminal.Terminal?
      modifies this`state, this`log, this`thrown
      ensures thrown == old(thrown) + if r.Stored? then [] else [ErrorMessage(r)]
      ensures Valid() && Evolves(old(state), old(log), state, log)
      ensures r.Stored? ==> old(state).Running? && state == terminal && log == old(log) + [TurnDone(terminal)]
      ensures r.NotRunning? <==> old(state).Terminal?
      ensures r.NotRunning? ==> r.state == state
      ensures r.Fault? ==>
        || (state == old(state) && log == old(log))
        || (state == terminal && log == old(log) + [TurnDone(terminal)])
    {
      if state.Terminal? {
        thrown := thrown + [NOT_RUNNING];
        return NotRunning(state);
      }
      var message: string := *;
      var fails: bool := *;
      if fails {
        thrown := thrown + [message];
        if * { state, log := terminal, log + [TurnDone(terminal)]; }
        return Fault(message);
      }
      state, log := terminal, log + [TurnDone(terminal)];
      r := Stored;
    }

    /** Cancels a running turn and returns the now immutable record. */
    method FreezeAndGetTurn(reason: Reason) returns (frozen: TurnState)
      requires Valid()
      modifies this`state, this`log
      ensures Valid() && Evolves(old(state), old(log), state, log)
      ensures frozen == state && state.Terminal?
      ensures old(state).Running? ==>
        state == Terminal(Cancelled(reason), None) && log == old(log) + [TurnDone(state)]
    {
      if state.Running? {
        state := Terminal(Cancelled(reason), None);
        log := log + [TurnDone(state)];
      }
      frozen := state;
    }
  }

  class Signal {
    var aborted: Option<AbortReason>
    ghost var yieldsBefore: nat   // the number of events yielded when it fired

    constructor ()
      ensures aborted.None?
    {
      aborted, yieldsBefore := None, 0;
    }

    /** The first reason sticks. */
    method Abort(reason: AbortReason, ghost shown: nat)
      modifies this
      ensures aborted == if old(aborted).Some? then old(aborted) else Some(reason)
      ensures yieldsBefore == if old(aborted).Some? then old(yieldsBefore) else shown
    {
      if aborted.None? {
        aborted, yieldsBefore := Some(reason), shown;
      }
    }
  }

  /** An engine run: any finite script of events followed by any end. */
  class Engine {
    const script: seq<ExecutionEvent>
    const end: EngineEnd
    var metrics: nat
    var started: nat
    var returned: nat

    constructor (script: seq<ExecutionEvent>, end: EngineEnd)
      ensures this.script == script && this.end == end && started == returned == 0
    {
      this.script, this.end := script, end;
      metrics, started, returned := 0, 0, 0;
    }
  }

  class Consumer {
    var emitted: seq<Event>
    var reminted: bool
    var left: bool                  // it asked for no further event
    ghost var positions: seq<nat>   // where in the turn's log each durable yield was found
    ghost var logLengths: seq<nat>  // and how long the log was at that yield

    constructor ()
      ensures emitted == [] && !reminted && !left && positions == [] && logLengths == []
    {
      emitted, reminted, left, positions, logLengths := [], false, false, [], [];
    }
  }

  class Resolver {
    var closes: nat
    ghost var closedOver: Option<TurnState>   // the stored turn when the resolver was closed
    ghost var yieldsBefore: nat               // and the number of events yielded by then

    constructor ()
      ensures closes == 0 && closedOver == None && yieldsBefore == 0
    {
      closes, closedOver, yieldsBefore := 0, None, 0;
    }
  }

  /** The reply of a store write as the answer of persistExecutionEvent. */
  function Replied(r: StoreReply, toYield: Option<Event>): PersistReply {
    match r
    case Stored => Persisted(toYield)
    case NotRunning(state) => Frozen(state)
    case Fault(message) => Failed(message)
  }

  // ---------------------------------------------------------------- the handle

  class TurnHandle {
    const store: TurnStore
    const signal: Signal
    const engine: Engine
    const consumer: Consumer
    const resolver: Resolver
    const executable: bool   // false for handles read back from the store
    var turn: TurnState
    var streamStarted: bool

    constructor (store: TurnStore, signal: Signal, engine: Engine, consumer: Consumer, resolver: Resolver,
                 executable: bool)
      ensures this.store == store && this.signal == signal && this.engine == engine
      ensures this.consumer == consumer && this.resolver == resolver && this.executable == executable
      ensures turn == store.state && !streamStarted
    {
      this.store, this.signal, this.engine := store, signal, engine;
      this.consumer, this.resolver, this.executable := consumer, resolver, executable;
      turn, streamStarted := store.state, false;
    }

    /** Holds at every point of every run: the store is sound and what was yielded was persisted first. */
    ghost predicate Safe()
      reads store, consumer
    {
      && store.Valid()
      && EmbeddedAt(PromisedDurable(consumer.emitted, consumer.reminted), store.log, consumer.positions)
      && LoggedFirst(consumer.positions, consumer.logLengths, store.log)
    }

    /** Safe, and no turn.done has been yielded yet. */
    ghost predicate Open()
      reads store, consumer
    {
      Safe() && !consumer.reminted && NoDone(consumer.emitted)
    }

    /** The signal is as it was, or it has fired since, after at least `shown` events had been yielded. */
    twostate predicate MaybeAborted(shown: nat)
      reads signal
    {
      || (signal.aborted == old(signal.aborted) && signal.yieldsBefore == old(signal.yieldsBefore))
      || (old(signal.aborted).None? && signal.aborted.Some? && shown <= signal.yieldsBefore)
    }

    /** Everything the rest of the system may do while the stream is suspended. */
    method Await()
      requires Safe()
      modifies store`state, store`log, signal
      ensures Safe() && MaybeFrozen(old(store.state), old(store.log), store.state, store.log)
      ensures MaybeAborted(|consumer.emitted|)
    {
      if * {
        var reason: Reason := *;
        var _ := store.FreezeAndGetTurn(reason);
      }
      if * {
        var abort: AbortReason := *;
        signal.Abort(abort, |consumer.emitted|);
      }
    }

    /** In the log, `e` comes after everything yielded so far. */
    ghost predicate LoggedAfterYields(e: Event, at: nat)
      reads store, consumer
    {
      && at < |store.log| && store.log[at] == e
      && forall i :: 0 <= i < |consumer.positions| ==> consumer.positions[i] < at
    }

    /** Yields one event: stream-only, or already in the log after everything yielded so far. */
    method Emit(e: Event, ghost at: nat) returns (left: bool)
      requires Open()
      requires StreamOnly(e) || LoggedAfterYields(e, at)
      modifies store`state, store`log, signal, consumer
      ensures left == consumer.left && (old(consumer.left) ==> left)
      ensures Safe() && !consumer.reminted && consumer.emitted == old(consumer.emitted) + [e]
      ensures if e.TurnDone? then DoneOnlyAtEnd(consumer.emitted) else NoDone(consumer.emitted)
      ensures MaybeFrozen(old(store.state), old(store.log), store.state, store.log)
      ensures MaybeAborted(|old(consumer.emitted)|)
    {
      hide EmbeddedAt, LoggedFirst, Durable;
      DurableSnoc(consumer.emitted, e);
      assert Durable(consumer.emitted) + [] == Durable(consumer.emitted);
      if !StreamOnly(e) {
        EmbeddedSnoc(Durable(consumer.emitted), store.log, consumer.positions, at);
        LoggedFirstSnoc(consumer.positions, consumer.logLengths, store.log, at);
        consumer.positions := consumer.positions + [at];
        consumer.logLengths := consumer.logLengths + [|store.log|];
      }
      consumer.emitted := consumer.emitted + [e];
      Await();
      if * { consumer.left := true; }
      left := consumer.left;
    }

    /** Yields the turn.done minted again for a turn the store had already frozen. */
    method EmitReminted(state: TurnState)
      requires Open() && state.Terminal? && store.state.Terminal?
      modifies store`state, store`log, signal, consumer
      ensures consumer.left == old(consumer.left)
      ensures Safe() && consumer.reminted && consumer.emitted == old(consumer.emitted) + [TurnDone(state)]
      ensures DoneOnlyAtEnd(consumer.emitted)
      ensures store.state == old(store.state) && store.log == old(store.log)
      ensures MaybeAborted(|old(consumer.emitted)|)
    {
      hide EmbeddedAt, LoggedFirst, Durable;
      DoneComesLast(consumer.emitted, state);
      consumer.emitted := consumer.emitted + [TurnDone(state)];
      consumer.reminted := true;
      assert consumer.emitted[..|consumer.emitted| - 1] == old(consumer.emitted);
      Await();
    }

    /** resolver.close(), best effort. Called once, after the terminal write or freeze. */
    method CloseResolver(ghost writeFailed: bool)
      requires writeFailed || store.state.Terminal?
      requires resolver.closes == 0
      modifies resolver
      ensures resolver.closes == 1
      ensures resolver.closedOver == Some(store.state) && resolver.yieldsBefore == |consumer.emitted|
    {
      resolver.closes := resolver.closes + 1;
      resolver.closedOver, resolver.yieldsBefore := Some(store.state), |consumer.emitted|;
    }

    /** What the promise says about the yields: all of them, up to a turn.done that was minted again. */
    lemma PromiseOnYields()
      requires Safe()
      ensures !consumer.reminted ==> EmbeddedAt(Durable(consumer.emitted), store.log, consumer.positions)
      ensures consumer.reminted && consumer.emitted != [] ==>
        EmbeddedAt(Durable(consumer.emitted[..|consumer.emitted| - 1]), store.log, consumer.positions)
    {
    }

    /** A write after everything yielded so far keeps the promise. */
    lemma LogMayGrow(more: seq<Event>)
      requires Safe()
      ensures EmbeddedAt(PromisedDurable(consumer.emitted, consumer.reminted), store.log + more, consumer.positions)
      ensures LoggedFirst(consumer.positions, consumer.logLengths, store.log + more)
      ensures forall i :: 0 <= i < |consumer.positions| ==> consumer.positions[i] < |store.log|
    {
    }

    /** One guarded append of content, as an awaited step; the last entry lands at `at`. */
    method Append(content: seq<Content>, ghost base: seq<Event>)
      returns (r: StoreReply, ghost at: nat, ghost logged: seq<Event>)
      requires Open() && LogIs(base, store.state, store.log)
      requires store.state.Running? || store.state.outcome.Cancelled?
      modifies store`state, store`log, store`thrown, signal
      ensures Open() && LogIs(logged, store.state, store.log)
      ensures Evolves(old(store.state), old(store.log), store.state, store.log)
      ensures store.state.Running? || store.state.outcome.Cancelled?
      ensures r.Fault? ==> r.message in store.thrown
      ensures logged == base || logged == base + Carrying(content)
      ensures MaybeAborted(|old(consumer.emitted)|)
      ensures r.Stored? ==> logged == base + Carrying(content)
      ensures r.NotRunning? ==> store.state.Terminal? && r.state == store.state
      ensures r.Stored? && content != [] ==> LoggedAfterYields(Carries(content[|content| - 1]), at)
    {
      hide EmbeddedAt, LoggedFirst, Durable, PromisedDurable;
      Await();
      LogMayGrow(Carrying(content));
      r := store.AppendToEvents(Carrying(content));
      logged := if store.state.Running? then store.log else base;
      at := if store.log == [] then 0 else |store.log| - 1;
    }

    /** One guarded snapshot write, as an awaited step. */
    method Patch(event: ExecutionEvent, ghost base: seq<Event>) returns (r: StoreReply)
      requires Open() && LogIs(base, store.state, store.log)
      requires store.state.Running? || store.state.outcome.Cancelled?
      modifies store`state, store`log, store`patched, store`thrown, signal
      ensures Open() && LogIs(base, store.state, store.log)
      ensures Evolves(old(store.state), old(store.log), store.state, store.log)
      ensures store.state.Running? || store.state.outcome.Cancelled?
      ensures store.patched == old(store.patched) || store.patched == old(store.patched) + [event]
      ensures r.Stored? ==> store.patched == old(store.patched) + [event]
      ensures r.NotRunning? ==> store.state.Terminal? && r.state == store.state
      ensures r.Fault? ==> r.message in store.thrown
      ensures MaybeAborted(|old(consumer.emitted)|)
    {
      hide EmbeddedAt, LoggedFirst, Durable, PromisedDurable, NoDone, DoneOnlyAtEnd;
      Await();
      r := store.PatchSnapshot(event);
    }

    /** The message of an error caught while `event` was handled. */
    ghost predicate Explained(message: string, event: ExecutionEvent)
      reads store
    {
      message in store.thrown || (message == CAPABILITY_STATE_UNDEFINED && event == CapabilityState(false))
    }

    /** persistExecutionEvent: the store writes of one event, then what to yield for it. */
    method PersistExecutionEvent(event: ExecutionEvent, ghost base: seq<Event>)
      returns (p: PersistReply, ghost at: nat, ghost logged: seq<Event>)
      requires Open() && WellTyped(event) && LogIs(base, store.state, store.log)
      requires store.state.Running? || store.state.outcome.Cancelled?
      modifies store, signal
      ensures Open() && LogIs(logged, store.state, store.log)
      ensures Evolves(old(store.state), old(store.log), store.state, store.log)
      ensures store.state.Running? || store.state.outcome.Cancelled?
      ensures logged == base || logged == base + LogOfEvent(event)
      ensures p.Persisted? ==> logged == base + LogOfEvent(event)
      ensures store.patched == old(store.patched) || store.patched == old(store.patched) + PatchOfEvent(event)
      ensures p.Persisted? ==> store.patched == old(store.patched) + PatchOfEvent(event)
      ensures logged != base ==> store.patched == old(store.patched) + PatchOfEvent(event)
      ensures MaybeAborted(|old(consumer.emitted)|)
      ensures p.Failed? ==> Explained(p.message, event)
      ensures p.Persisted? ==> ShownForEvent(event) == if p.toYield.Some? then [p.toYield.value] else []
      ensures p.Frozen? ==> store.state.Terminal? && p.state == store.state
      ensures p.Persisted? && p.toYield.Some? ==>
        && !p.toYield.value.TurnDone?
        && (StreamOnly(p.toYield.value) || LoggedAfterYields(p.toYield.value, at))
    {
      hide EmbeddedAt, LoggedFirst, Durable, PromisedDurable, NoDone, DoneOnlyAtEnd, LogIs;
      var r := Stored;
      at, logged := 0, base;
      match event {
        case StreamedModelContent(content) =>
          return Persisted(Some(Carries(content))), at, logged;
        case CreateSubagent =>
          return Persisted(None), at, logged;
        case CapabilityState(defined) =>
          if !defined {
            return Failed(CAPABILITY_STATE_UNDEFINED), at, logged;
          }
          r := Patch(event, base);
          return Replied(r, None), at, logged;
        case ContextOverwrite =>
          r := Patch(event, base);
          return Replied(r, None), at, logged;
        case ContextAppend(output) =>
          r := Patch(event, base);
          if r.Stored? && output != [] {
            r, at, logged := Append(output, base);
          }
          return Replied(r, None), at, logged;
        case AgentDone(hasParent, threadDone) =>
          if !hasParent {
            return Persisted(None), at, logged;
          }
          r := Patch(event, base);
          if r.Stored? {
            r, at, logged := Append([Item(threadDone)], base);
          }
          return Replied(r, Some(Carries(Item(threadDone)))), at, logged;
        case PatchedThenLogged(id) =>
          r := Patch(event, base);
          if r.Stored? {
            r, at, logged := Append([Item(id)], base);
          }
          return Replied(r, Some(Carries(Item(id)))), at, logged;
        case LoggedOnly(id) =>
          r, at, logged := Append([Item(id)], base);
          return Replied(r, Some(Carries(Item(id)))), at, logged;
      }
    }

    /** The state of an unfinished execution: `logged` is in the log and `shown` has been yielded. */
    ghost predicate Progress(logged: seq<Event>, shown: seq<Event>)
      reads store, consumer
    {
      && Open() && LogIs(logged, store.state, store.log) && consumer.emitted == shown
      && (store.state.Running? || store.state.outcome.Cancelled?)
    }

    /** The stream has yielded `shown` and then the turn.done of the turn that the store froze. */
    ghost predicate EndedFrozen(logged: seq<Event>, shown: seq<Event>)
      reads this, store, consumer
    {
      && Safe() && LogIs(logged, store.state, store.log) && consumer.reminted
      && store.state.Terminal? && store.state.outcome.Cancelled?
      && turn.Terminal? && turn.outcome == store.state.outcome
      && consumer.emitted == shown + [TurnDone(turn)] && DoneOnlyAtEnd(consumer.emitted)
    }

    /** Logs and yields turn.created. */
    method Announce() returns (exit: Option<BodyExit>, ghost logged: seq<Event>)
      requires Progress([], []) && !consumer.left
      modifies store`state, store`log, store`thrown, signal, consumer
      ensures Evolves(old(store.state), old(store.log), store.state, store.log)
      ensures consumer.left <==> exit == Some(ConsumerLeft)
      ensures exit.Some? && exit.value.Caught? ==> exit.value.message in store.thrown
      ensures MaybeAborted(|old(consumer.emitted)|)
      ensures exit.None? ==> Progress([TurnCreated], [TurnCreated]) && logged == [TurnCreated]
      ensures exit.Some? ==>
        && (exit.value.Caught? || exit.value.ConsumerLeft?)
        && logged <= [TurnCreated] && Open() && consumer.emitted <= [TurnCreated]
        && Progress(logged, consumer.emitted)
    {
      hide EmbeddedAt, LoggedFirst, Durable, PromisedDurable;
      Await();
      LogMayGrow([TurnCreated]);
      var first := store.AppendToEvents([TurnCreated]);
      logged := if store.state.Running? then store.log else [];
      if first.NotRunning? || first.Fault? {
        return Some(Caught(ErrorMessage(first))), logged;
      }
      var left := Emit(TurnCreated, |store.log| - 1);
      exit := if left then Some(ConsumerLeft) else None;
    }

    /** One iteration of the engine loop: persist the event, then yield it, unless the store froze the turn. */
    method HandleEvent(event: ExecutionEvent, ghost base: seq<Event>)
      returns (exit: Option<BodyExit>, ghost logged: seq<Event>)
      requires Progress(base, consumer.emitted) && WellTyped(event) && !consumer.left
      modifies this`turn, store, signal, consumer, engine`returned
      ensures consumer.left <==> exit == Some(ConsumerLeft)
      ensures old(store.patched) <= store.patched <= old(store.patched) + PatchOfEvent(event)
      ensures exit.None? ==> store.patched == old(store.patched) + PatchOfEvent(event)
      ensures exit.Some? && exit.value.Caught? ==> Explained(exit.value.message, event)
      ensures MaybeAborted(|old(consumer.emitted)|)
      ensures Evolves(old(store.state), old(store.log), store.state, store.log)
      ensures exit.None? ==>
        && Progress(logged, old(consumer.emitted) + ShownForEvent(event)) && logged == base + LogOfEvent(event)
        && turn == old(turn) && engine.returned == old(engine.returned)
      ensures exit.Some? ==> base <= logged <= base + LogOfEvent(event) && !exit.value.Completed?
      ensures exit.Some? && exit.value.FrozenByStore? ==>
        && EndedFrozen(logged, old(consumer.emitted)) && engine.returned == old(engine.returned) + 1
        && turn.metrics == Some(engine.metrics)
      ensures exit.Some? && !exit.value.FrozenByStore? ==>
        && Progress(logged, consumer.emitted) && turn == old(turn) && engine.returned == old(engine.returned)
        && old(consumer.emitted) <= consumer.emitted <= old(consumer.emitted) + ShownForEvent(event)
    {
      hide EmbeddedAt, LoggedFirst, Durable, PromisedDurable, NoDone, DoneOnlyAtEnd;
      hide LogOfEvent, ShownForEvent, PatchOfEvent, LoggedAfterYields;
      Await();
      var p, at, logged' := PersistExecutionEvent(event, base);
      logged, exit := logged', None;
      match p {
        case Persisted(Some(e)) =>
          var left := Emit(e, at);
          exit := if left then Some(ConsumerLeft) else None;
        case Persisted(None) =>
        case Frozen(state) =>
          Await();
          engine.returned := engine.returned + 1;
          turn := Terminal(state.outcome, Some(engine.metrics));
          EmitReminted(turn);
          exit := Some(FrozenByStore);
        case Failed(message) =>
          exit := Some(Caught(message));
      }
    }

    /** The engine's generator returns or throws instead of producing another event. */
    method EngineEnds(ghost logged: seq<Event>, ghost shown: seq<Event>) returns (exit: BodyExit)
      requires Progress(logged, shown)
      modifies store`state, store`log, signal
      ensures Progress(logged, shown) && Evolves(old(store.state), old(store.log), store.state, store.log)
      ensures engine.end.Returned? ==> exit.Completed? && exit.result == engine.end.result
      ensures MaybeAborted(|old(consumer.emitted)|)
      ensures engine.end.Threw? ==> exit.Caught? && exit.message == engine.end.message
    {
      Await();
      match engine.end {
        case Returned(result) => exit := Completed(result);
        case Threw(message) => exit := Caught(message);
      }
    }

    /** Where the message of an error caught in the try block comes from. */
    ghost predicate Accounted(message: string)
      reads store, engine
    {
      || message in store.thrown
      || engine.end == Threw(message)
      || (message == CAPABILITY_STATE_UNDEFINED && CapabilityState(false) in engine.script)
    }

    /**
     The try block. `open` says whether the engine's generator is still to be closed; `logged` is what
     the stream got into the log, apart from a turn.done that a freeze put after it.
     */
    method Execute() returns (exit: BodyExit, open: bool, ghost logged: seq<Event>)
      requires Progress([], []) && !consumer.left
      requires forall e :: e in engine.script ==> WellTyped(e)
      requires engine.started == engine.returned == 0
      modifies this`turn, store, signal, consumer, engine`started, engine`returned
      ensures Evolves(old(store.state), old(store.log), store.state, store.log)
      ensures engine.started <= 1 && engine.started == engine.returned + if open then 1 else 0
      ensures logged <= LogOf(engine.script)
      ensures consumer.left <==> exit.ConsumerLeft?
      ensures old(store.patched) <= store.patched <= old(store.patched) + PatchesOf(engine.script)
      ensures exit.Caught? ==> Accounted(exit.message)
      ensures exit.Completed? ==> store.patched == old(store.patched) + PatchesOf(engine.script)
      ensures MaybeAborted(|old(consumer.emitted)|)
      ensures exit.Completed? ==>
        engine.end == Returned(exit.result) && Progress(LogOf(engine.script), ShownFor(engine.script))
      ensures exit.FrozenByStore? ==>
        consumer.emitted != [] && EndedFrozen(logged, consumer.emitted[..|consumer.emitted| - 1])
        && turn.metrics == Some(engine.metrics)
        && consumer.emitted[..|consumer.emitted| - 1] <= ShownFor(engine.script)
      ensures !exit.FrozenByStore? ==>
        Progress(logged, consumer.emitted) && turn == old(turn) && consumer.emitted <= ShownFor(engine.script)
    {
      hide EmbeddedAt, LoggedFirst, Durable, PromisedDurable, NoDone, LogIs;
      hide LogOf, LogOfEvent, ShownFor, ShownForEvent, PatchesOf, PatchOfEvent;
      open := false;
      NothingYet(engine.script);
      var early: Option<BodyExit>;
      early, logged := Announce();
      if early.Some? {
        return early.value, false, logged;
      }
      engine.started, open := engine.started + 1, true;
      var i := 0;
      assert engine.script[..0] == [];
      while i < |engine.script|
        invariant i <= |engine.script|
        invariant turn == old(turn) && open && engine.started == 1 && engine.returned == 0
        invariant logged == LogOf(engine.script[..i]) && Progress(logged, ShownFor(engine.script[..i]))
        invariant Evolves(old(store.state), old(store.log), store.state, store.log)
        invariant MaybeAborted(|old(consumer.emitted)|)
        invariant !consumer.left && store.patched == old(store.patched) + PatchesOf(engine.script[..i])
      {
        OneMoreEvent(engine.script, i);
        ghost var shown := consumer.emitted;
        early, logged := HandleEvent(engine.script[i], logged);
        if early.Some? {
          open := !early.value.FrozenByStore?;
          assert early.value.FrozenByStore? ==> consumer.emitted[..|consumer.emitted| - 1] == shown;
          return early.value, open, logged;
        }
        i := i + 1;
      }
      assert engine.script[..i] == engine.script;
      exit := EngineEnds(logged, consumer.emitted);
    }

    /** The terminal write, as an awaited step. */
    method WriteTerminal(terminal: TurnState, ghost logged: seq<Event>) returns (r: StoreReply)
      requires Open() && LogIs(logged, store.state, store.log) && terminal.Terminal?
      requires store.state.Running? || store.state.outcome.Cancelled?
      modifies store`state, store`log, store`thrown, signal
      ensures Open() && LogIs(logged, store.state, store.log)
      ensures Evolves(old(store.state), old(store.log), store.state, store.log)
      ensures r.Stored? ==> store.state == terminal && LoggedAfterYields(TurnDone(terminal), |store.log| - 1)
      ensures r.NotRunning? ==>
        store.state.Terminal? && r.state == store.state && store.state.outcome.Cancelled?
      ensures forall m :: m in old(store.thrown) ==> m in store.thrown
      ensures r.Fault? ==> r.message in store.thrown
      ensures MaybeAborted(|old(consumer.emitted)|)
    {
      hide EmbeddedAt, LoggedFirst, Durable, PromisedDurable, NoDone, DoneOnlyAtEnd;
      Await();
      LogMayGrow([TurnDone(terminal)]);
      r := store.UpdateTurnState(terminal);
    }

    /** The finally block: close the engine, decide and write the terminal state, close the resolver, yield. */
    method Finish(exit: BodyExit, open: bool, ghost logged: seq<Event>)
      returns (end: StreamEnd, ghost aborted: Option<AbortReason>)
      requires Safe() && resolver.closes == 0 && LogIs(logged, store.state, store.log)
      requires engine.started <= 1 && engine.started == engine.returned + if open then 1 else 0
      requires exit.FrozenByStore? ==> store.state.Terminal?
      requires !exit.FrozenByStore? ==> Open()
      requires store.state.Running? || store.state.outcome.Cancelled?
      modifies this`turn, store`state, store`log, store`thrown, signal, consumer, engine`returned, resolver
      ensures Safe() && resolver.closes == 1 && engine.returned == engine.started
      ensures resolver.closedOver.Some? && resolver.yieldsBefore == |old(consumer.emitted)|
      ensures end.Finished? ==> resolver.closedOver == Some(store.state)
      ensures Evolves(old(store.state), old(store.log), store.state, store.log)
      ensures end.Finished? || end.WriteFailed?
      ensures exit.FrozenByStore? ==>
        && end.Finished? && turn == old(turn)
        && consumer.emitted == old(consumer.emitted) && consumer.reminted == old(consumer.reminted)
      ensures end.Finished? ==> store.state.Terminal? && LogIs(logged, store.state, store.log)
      ensures !exit.FrozenByStore? && end.Finished? ==>
        && turn.Terminal? && turn.outcome == store.state.outcome
        && consumer.emitted == old(consumer.emitted) + [TurnDone(turn)] && DoneOnlyAtEnd(consumer.emitted)
      ensures !exit.FrozenByStore? && end.Finished? && !consumer.reminted ==>
        turn == store.state && turn.outcome == TerminalOutcome(aborted, exit)
      ensures !exit.FrozenByStore? && end.Finished? ==> turn.metrics == Some(engine.metrics)
      ensures old(signal.aborted).Some? ==> aborted == old(signal.aborted)
      ensures aborted.Some? ==> signal.aborted == aborted
      ensures MaybeAborted(|old(consumer.emitted)|)
      ensures old(consumer.left) ==> consumer.left
      ensures forall m :: m in old(store.thrown) ==> m in store.thrown
      ensures end.WriteFailed? ==> end.message in store.thrown
      ensures consumer.reminted ==> store.state.Terminal? && store.state.outcome.Cancelled?
      ensures end.WriteFailed? ==> Open() && turn == old(turn) && consumer.emitted == old(consumer.emitted)
    {
      hide EmbeddedAt, LoggedFirst, Durable, PromisedDurable, TerminalOutcome, NoDone, DoneOnlyAtEnd;
      if open {
        engine.returned := engine.returned + 1;
      }
      Await();
      aborted := signal.aborted;
      var metrics := engine.metrics;
      var terminal := Terminal(TerminalOutcome(signal.aborted, exit), Some(metrics));
      if !exit.FrozenByStore? {
        var r := WriteTerminal(terminal, logged);
        match r {
          case Stored =>
            turn := terminal;
          case NotRunning(state) =>
            turn := Terminal(state.outcome, Some(metrics));
            CloseResolver(false);
            EmitReminted(turn);
            return Finished, aborted;
          case Fault(message) =>
            CloseResolver(true);
            return WriteFailed(message), aborted;
        }
      }
      CloseResolver(false);
      if !exit.FrozenByStore? {
        var _ := Emit(TurnDone(terminal), |store.log| - 1);
      }
      end := Finished;
    }

    /**
     stream(). For every engine script and every interleaving of freezes, aborts, faults and consumer
     choices. `exit` and `aborted` record what the run saw, for the terminal state to be judged against.
     */
    method Stream() returns (end: StreamEnd, ghost exit: BodyExit, ghost aborted: Option<AbortReason>)
      requires store.Valid()
      requires !streamStarted ==> Open() && consumer.emitted == [] && LogIs([], store.state, store.log)
      requires !streamStarted ==> resolver.closes == 0 && engine.started == engine.returned == 0 && !consumer.left
      requires !streamStarted ==> store.state.Running? || store.state.outcome.Cancelled?
      requires forall e :: e in engine.script ==> WellTyped(e)
      modifies this, store, signal, consumer, engine, resolver
      // execute once
      ensures end.AlreadyStarted? <==> old(streamStarted)
      ensures end.NotExecutable? <==> !old(streamStarted) && !executable
      ensures end.AlreadyStarted? || end.NotExecutable? ==>
        unchanged(store, signal, consumer, engine, resolver) && turn == old(turn)
      ensures streamStarted
      // persist before yield, and the terminal record is final
      ensures store.Valid() && Evolves(old(store.state), old(store.log), store.state, store.log)
      ensures !old(streamStarted) ==> LoggedFirst(consumer.positions, consumer.logLengths, store.log)
      ensures !old(streamStarted) && !consumer.reminted ==>
        EmbeddedAt(Durable(consumer.emitted), store.log, consumer.positions)
      ensures !old(streamStarted) && consumer.reminted && consumer.emitted != [] ==>
        EmbeddedAt(Durable(consumer.emitted[..|consumer.emitted| - 1]), store.log, consumer.positions)
      // exactly one close of the resolver and of the engine
      ensures end.Finished? || end.WriteFailed? ==> resolver.closes == 1 && engine.started == engine.returned <= 1
      // the close comes after the terminal write or freeze, and before a turn.done that is not the frozen turn's
      ensures end.Finished? ==> resolver.closedOver == Some(store.state) && store.state.Terminal?
      ensures end.Finished? || end.WriteFailed? ==>
        resolver.yieldsBefore == |consumer.emitted| - if end.Finished? && !exit.FrozenByStore? then 1 else 0
      // one turn.done, last, agreeing with the store up to metrics
      ensures end.Finished? ==>
        && store.state.Terminal? && turn.Terminal? && turn.outcome == store.state.outcome
        && DoneOnlyAtEnd(consumer.emitted) && consumer.emitted[|consumer.emitted| - 1] == TurnDone(turn)
        && consumer.emitted[..|consumer.emitted| - 1] <= ShownFor(engine.script)
      // nothing of an executed script is lost or invented, in the log or in the yields
      ensures end.Finished? ==>
        && store.log != [] && store.log[|store.log| - 1] == TurnDone(store.state)
        && store.log[..|store.log| - 1] <= LogOf(engine.script)
      ensures end.Finished? && exit.Completed? ==>
        && store.log == LogOf(engine.script) + [TurnDone(store.state)]
        && consumer.emitted == ShownFor(engine.script) + [TurnDone(turn)]
      ensures end.WriteFailed? ==> NoDone(consumer.emitted) && turn == old(turn)
      // so are the snapshot writes
      ensures old(store.patched) <= store.patched <= old(store.patched) + PatchesOf(engine.script)
      ensures end.Finished? && exit.Completed? ==> store.patched == old(store.patched) + PatchesOf(engine.script)
      // whose terminal state it is: the store's, with the metrics of this run
      ensures end.Finished? && consumer.reminted ==> store.state.outcome.Cancelled?
      ensures end.Finished? && !consumer.reminted ==> turn == store.state && !exit.FrozenByStore?
      ensures end.Finished? ==> turn.metrics == Some(engine.metrics)
      // which terminal state it is, unless the store froze the turn first
      ensures end.Finished? && !consumer.reminted && aborted.Some? && aborted.value.Known? ==>
        turn.outcome == Cancelled(aborted.value.reason)
      ensures end.Finished? && !consumer.reminted && aborted == Some(Unrecognised) ==>
        turn.outcome == Cancelled(ClientCancelled)
      ensures end.Finished? && !consumer.reminted && aborted.None? && exit.Completed? && exit.result.rootError.None? ==>
        turn.outcome == Done(exit.result.output, exit.result.requiredActions)
      ensures end.Finished? && !consumer.reminted && aborted.None? && exit.Completed? && exit.result.rootError.Some? ==>
        turn.outcome == Errored(exit.result.rootError.value)
      ensures end.Finished? && !consumer.reminted && aborted.None? && exit.Caught? ==>
        turn.outcome == Errored(exit.message)
      ensures end.Finished? && !consumer.reminted && aborted.None? && exit.ConsumerLeft? ==>
        turn.outcome == Cancelled(ClientCancelled)
      // and what `exit` and `aborted` record really happened
      ensures exit.Completed? ==> engine.end == Returned(exit.result)
      ensures exit.Caught? ==> Accounted(exit.message)
      ensures end.Finished? && exit.ConsumerLeft? ==> consumer.left
      ensures end.Finished? && aborted.Some? ==> signal.aborted == aborted
      ensures end.Finished? && old(signal.aborted).Some? ==> aborted == old(signal.aborted)
      ensures end.Finished? && signal.aborted.Some? && signal.yieldsBefore + 1 < |consumer.emitted| ==>
        exit.FrozenByStore? || aborted == signal.aborted
    {
      hide EmbeddedAt, LoggedFirst, Durable, PromisedDurable, NoDone, DoneOnlyAtEnd, LogOf, ShownFor, PatchesOf;
      hide TerminalOutcome, CancellationReasonFromAbortReason, MaybeFrozen;
      exit, aborted := ConsumerLeft, None;
      if streamStarted {
        return AlreadyStarted, exit, aborted;
      }
      streamStarted := true;
      PromiseOnYields();
      if !executable {
        return NotExecutable, exit, aborted;
      }
      var bodyExit, open, logged := Execute();
      exit := bodyExit;
      end, aborted := Finish(bodyExit, open, logged);
      WhatDecides(aborted, exit);
      PromiseOnYields();
    }
  }
}
