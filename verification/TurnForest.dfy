/**
 The forest of turns that SessionHandle.createTurn grows in the session store, and
 the store's reconstruction of a full ancestor chain from bounded windows.

 A createTurn call awaits between freezing its parent and committing, so calls,
 stream ends and cancellations interleave: `Next` is one atomic step of that system.
 */
module TurnForest {
  import opened Prelude

  const MAX_TURN_ANCESTORS := 20
  const MAIN_THREAD := 0

  type TurnId = nat
  type ThreadId = nat

  datatype TurnRecord = TurnRecord(
    turnId: TurnId,
    firstTurnId: TurnId,
    ancestorIds: seq<TurnId>,
    previousTurnId: Option<TurnId>,
    running: bool,
    threads: set<ThreadId>)

  /** The turns of one session; `turnIds` is their creation order. */
  datatype Store = Store(turns: map<TurnId, TurnRecord>, turnIds: seq<TurnId>, lastTurnId: Option<TurnId>)

  datatype StoreError = TurnNotFound | TurnAlreadyExists | PreviousTurnRunning | ThreadDelta | TurnNotRunning

  function LastN<T>(xs: seq<T>, n: nat): (r: seq<T>)
    ensures |r| == Min(|xs|, n) && r == xs[|xs| - |r|..]
  {
    if |xs| <= n then xs else xs[|xs| - n..]
  }

  // ---------------------------------------------------------------- store operations on values

  function Update(s: Store, id: TurnId, record: TurnRecord): Store {
    s.(turns := s.turns[id := record])
  }

  function Freeze(s: Store, id: TurnId): Store
    requires id in s.turns
  {
    Update(s, id, s.turns[id].(running := false))
  }

  function InheritedThreads(s: Store, previous: Option<TurnId>): set<ThreadId> {
    if previous.Some? && previous.value in s.turns then s.turns[previous.value].threads else {}
  }

  /** The checks of the store's createTurn, in their order; `turn.threads` is what capability_states covers. */
  function CreateTurnError(s: Store, turn: TurnRecord, newThreads: set<ThreadId>): Option<StoreError> {
    var parent := turn.previousTurnId;
    var inherited := InheritedThreads(s, parent);
    if parent.Some? && parent.value in s.turns && s.turns[parent.value].running then Some(PreviousTurnRunning)
    else if turn.turnId in s.turns then Some(TurnAlreadyExists)
    else if newThreads * inherited != {} || turn.threads != inherited + newThreads then Some(ThreadDelta)
    else None
  }

  /** A thread is on the turn that `turn` continues, as stored. */
  predicate OnParent(s: Store, turn: TurnRecord, thread: ThreadId) {
    && turn.previousTurnId.Some? && turn.previousTurnId.value in s.turns
    && thread in s.turns[turn.previousTurnId.value].threads
  }

  /**
   The store accepts a turn exactly when its stored parent is not running, its id is unused, and its threads are the
   parent's and the new ones, none of which the parent has; the first of these that fails names the rejection.
   */
  lemma StoreAccepts(s: Store, turn: TurnRecord, newThreads: set<ThreadId>)
    ensures var e, p := CreateTurnError(s, turn, newThreads), turn.previousTurnId;
      && (e == Some(PreviousTurnRunning) <==> p.Some? && p.value in s.turns && s.turns[p.value].running)
      && (e == Some(TurnAlreadyExists) ==> turn.turnId in s.turns)
      && (e == Some(ThreadDelta) ==> turn.turnId !in s.turns)
      && (e.None? || e == Some(ThreadDelta) || e == Some(TurnAlreadyExists) || e == Some(PreviousTurnRunning))
      && (e.None? <==>
            && !(p.Some? && p.value in s.turns && s.turns[p.value].running)
            && turn.turnId !in s.turns
            && (forall thread :: thread in newThreads ==> !OnParent(s, turn, thread))
            && (forall thread :: thread in turn.threads <==> thread in newThreads || OnParent(s, turn, thread)))
  {
    var inherited := InheritedThreads(s, turn.previousTurnId);
    assert forall thread :: thread in inherited <==> OnParent(s, turn, thread);
    assert newThreads * inherited == {} <==> forall thread :: thread in newThreads ==> thread !in inherited by {
      assert forall thread :: thread in newThreads * inherited <==> thread in newThreads && thread in inherited;
    }
    if forall thread :: thread in turn.threads <==> thread in newThreads || OnParent(s, turn, thread) {
      assert turn.threads == inherited + newThreads;
    }
  }

  function Insert(s: Store, turn: TurnRecord): Store {
    Store(s.turns[turn.turnId := turn], s.turnIds + [turn.turnId], Some(turn.turnId))
  }

  // ---------------------------------------------------------------- the forest

  function IndexOf(ids: seq<TurnId>, id: TurnId): (k: nat)
    requires id in ids
    ensures k < |ids| && ids[k] == id && id !in ids[..k]
  {
    if ids[0] == id then 0 else 1 + IndexOf(ids[1..], id)
  }

  /** Every turn is filed under its own id, once, after the turn it continues. */
  ghost predicate Ordered(s: Store) {
    && (forall i, j :: 0 <= i < j < |s.turnIds| ==> s.turnIds[i] != s.turnIds[j])
    && (forall id :: id in s.turns <==> id in s.turnIds)
    && (forall id :: id in s.turns ==> s.turns[id].turnId == id)
    && (forall k :: 0 <= k < |s.turnIds| ==> ParentIsEarlier(s, k))
  }

  ghost predicate ParentIsEarlier(s: Store, k: nat)
    requires k < |s.turnIds|
  {
    s.turnIds[k] in s.turns ==>
      var p := s.turns[s.turnIds[k]].previousTurnId;
      p.Some? ==> p.value in s.turnIds[..k]
  }

  /** The ids from the root of the tree down to the turn at position `k`. */
  ghost function PathAt(s: Store, k: nat): (path: seq<TurnId>)
    requires Ordered(s) && k < |s.turnIds|
    ensures path != [] && path[|path| - 1] == s.turnIds[k]
    ensures forall id :: id in path ==> id in s.turnIds[..k + 1]
    decreases k
  {
    assert ParentIsEarlier(s, k);
    var id := s.turnIds[k];
    var parent := s.turns[id].previousTurnId;
    if parent.None? then [id] else PathAt(s, IndexOf(s.turnIds[..k], parent.value)) + [id]
  }

  ghost function Path(s: Store, id: TurnId): (path: seq<TurnId>)
    requires Ordered(s) && id in s.turns
    ensures path != [] && path[|path| - 1] == id
  {
    PathAt(s, IndexOf(s.turnIds, id))
  }

  ghost predicate ForestInv(s: Store) {
    && Ordered(s)
    && (forall id :: id in s.turns ==> WindowExact(s, id) && ParentEnded(s, id))
    && (s.lastTurnId.Some? ==> s.lastTurnId.value in s.turns)
  }

  /** `ancestor_ids` is the end of the root-to-parent path and `first_turn_id` is the root. */
  ghost predicate WindowExact(s: Store, id: TurnId)
    requires Ordered(s) && id in s.turns
  {
    var path := Path(s, id);
    s.turns[id].firstTurnId == path[0] && s.turns[id].ancestorIds == LastN(path[..|path| - 1], MAX_TURN_ANCESTORS)
  }

  /** No running turn has a child. */
  ghost predicate ParentEnded(s: Store, id: TurnId)
    requires id in s.turns
  {
    var p := s.turns[id].previousTurnId;
    p.Some? ==> p.value in s.turns && !s.turns[p.value].running
  }

  /** What no step ever undoes: turns stay, keep their place in the forest, and stay ended once ended. */
  ghost predicate Evolves(s: Store, s': Store) {
    && s.turnIds <= s'.turnIds
    && forall id :: id in s.turns ==>
      && id in s'.turns
      && s'.turns[id].(running := s.turns[id].running, threads := s.turns[id].threads) == s.turns[id]
      && (!s.turns[id].running ==> s'.turns[id] == s.turns[id])
  }

  lemma {:induction false} PathAtUnchanged(s: Store, s': Store, k: nat)
    requires Ordered(s) && Ordered(s') && Evolves(s, s') && k < |s.turnIds|
    ensures PathAt(s', k) == PathAt(s, k)
    decreases k
  {
    var id := s.turnIds[k];
    assert ParentIsEarlier(s, k) && s'.turnIds[k] == id && s'.turnIds[..k] == s.turnIds[..k];
    var parent := s.turns[id].previousTurnId;
    if parent.None? {
    } else {
      PathAtUnchanged(s, s', IndexOf(s.turnIds[..k], parent.value));
    }
  }

  lemma IndexOfInPrefix(ids: seq<TurnId>, n: nat, id: TurnId)
    requires n <= |ids| && id in ids[..n]
    ensures IndexOf(ids, id) == IndexOf(ids[..n], id)
  {
    if ids[0] != id {
      assert ids[..n][1..] == ids[1..][..n - 1];
      IndexOfInPrefix(ids[1..], n - 1, id);
    }
  }

  /** A child's path is its parent's path and then the child. */
  lemma PathOfChild(s: Store, id: TurnId)
    requires Ordered(s) && id in s.turns
    ensures var p := s.turns[id].previousTurnId;
      && (p.None? ==> Path(s, id) == [id])
      && (p.Some? ==> p.value in s.turns && Path(s, id) == Path(s, p.value) + [id])
  {
    var k := IndexOf(s.turnIds, id);
    assert ParentIsEarlier(s, k);
    var p := s.turns[id].previousTurnId;
    if p.Some? {
      assert p.value in s.turnIds;
      IndexOfInPrefix(s.turnIds, k, p.value);
    }
  }

  lemma PathUnchanged(s: Store, s': Store, id: TurnId)
    requires Ordered(s) && Ordered(s') && Evolves(s, s') && id in s.turns
    ensures id in s'.turns && Path(s', id) == Path(s, id)
  {
    var k := IndexOf(s.turnIds, id);
    IndexOfInPrefix(s'.turnIds, |s.turnIds|, id);
    assert s'.turnIds[..|s.turnIds|] == s.turnIds;
    PathAtUnchanged(s, s', k);
  }

  /** A turn's window and root depend on nothing that later steps change. */
  lemma WindowKept(s: Store, s': Store, id: TurnId)
    requires Ordered(s) && Ordered(s') && Evolves(s, s') && id in s.turns && WindowExact(s, id)
    ensures id in s'.turns && WindowExact(s', id)
  {
    PathUnchanged(s, s', id);
  }

  /** `record` is `before` after the turn ended, or after its threads changed while it was running. */
  predicate Advances(before: TurnRecord, record: TurnRecord) {
    && record.(running := before.running, threads := before.threads) == before
    && (!before.running ==> record == before)
  }

  lemma UpdateOrdered(s: Store, id: TurnId, record: TurnRecord)
    requires Ordered(s) && id in s.turns && Advances(s.turns[id], record)
    ensures Ordered(Update(s, id, record)) && Evolves(s, Update(s, id, record))
  {
    var s' := Update(s, id, record);
    forall k | 0 <= k < |s'.turnIds| ensures ParentIsEarlier(s', k) {
      assert ParentIsEarlier(s, k);
    }
  }

  /** Turns that only end, or only change threads while running, leave the forest as it is. */
  lemma UpdatePreservesForest(s: Store, id: TurnId, record: TurnRecord)
    requires ForestInv(s) && id in s.turns && Advances(s.turns[id], record)
    ensures ForestInv(Update(s, id, record)) && Evolves(s, Update(s, id, record))
  {
    hide Ordered, Path, WindowExact, Evolves;
    var s' := Update(s, id, record);
    UpdateOrdered(s, id, record);
    forall x | x in s'.turns ensures WindowExact(s', x) && ParentEnded(s', x) {
      assert WindowExact(s, x) && ParentEnded(s, x);
      WindowKept(s, s', x);
    }
  }

  lemma LastNExtends<T>(path: seq<T>, x: T, n: nat)
    requires n > 0
    ensures LastN(LastN(path, n) + [x], n) == LastN(path + [x], n)
  {
  }

  /** The parent part of a new turn, as createTurn computes it from the frozen record. */
  function NewTurn(newId: TurnId, previousId: Option<TurnId>, previous: Option<TurnRecord>,
                   threads: set<ThreadId>): TurnRecord {
    match previous
    case Some(p) =>
      TurnRecord(newId, p.firstTurnId, LastN(p.ancestorIds + [p.turnId], MAX_TURN_ANCESTORS), previousId, true, threads)
    case None => TurnRecord(newId, newId, [], previousId, true, threads)
  }

  /** `previous` was frozen in this store at some earlier time. */
  ghost predicate Froze(s: Store, previousId: Option<TurnId>, previous: Option<TurnRecord>) {
    && (previousId.Some? <==> previous.Some?)
    && (previous.Some? ==>
        && previousId.value in s.turns && s.turns[previousId.value] == previous.value
        && !previous.value.running)
  }

  lemma InsertOrdered(s: Store, turn: TurnRecord)
    requires Ordered(s) && turn.turnId !in s.turns
    requires turn.previousTurnId.Some? ==> turn.previousTurnId.value in s.turns
    ensures Ordered(Insert(s, turn)) && Evolves(s, Insert(s, turn))
  {
    var s' := Insert(s, turn);
    var n := |s.turnIds|;
    assert s'.turnIds[..n] == s.turnIds;
    forall k | 0 <= k < |s'.turnIds| ensures ParentIsEarlier(s', k) {
      if k < n {
        assert ParentIsEarlier(s, k) && s'.turnIds[..k] == s.turnIds[..k];
      }
    }
  }

  lemma NewWindowExact(s: Store, s': Store, id: TurnId, parent: TurnId)
    requires Ordered(s) && Ordered(s') && Evolves(s, s') && parent in s.turns && WindowExact(s, parent)
    requires id in s'.turns && s'.turns[id].previousTurnId == Some(parent)
    requires s'.turns[id].firstTurnId == s.turns[parent].firstTurnId
    requires s'.turns[id].ancestorIds == LastN(s.turns[parent].ancestorIds + [parent], MAX_TURN_ANCESTORS)
    ensures WindowExact(s', id)
  {
    hide Ordered, Path, Evolves, LastN;
    PathOfChild(s', id);
    PathUnchanged(s, s', parent);
    var path := Path(s, parent);
    assert path == path[..|path| - 1] + [parent];
    LastNExtends(path[..|path| - 1], parent, MAX_TURN_ANCESTORS);
    assert Path(s', id)[..|path|] == path;
  }

  lemma FrozenId(s: Store, previousId: Option<TurnId>, previous: Option<TurnRecord>)
    requires Ordered(s) && Froze(s, previousId, previous) && previous.Some?
    ensures previousId == Some(previous.value.turnId)
  {
  }

  lemma NewTurnWindow(s: Store, s': Store, newId: TurnId, previousId: Option<TurnId>, previous: Option<TurnRecord>,
                      threads: set<ThreadId>)
    requires ForestInv(s) && newId !in s.turns && Froze(s, previousId, previous)
    requires s' == Insert(s, NewTurn(newId, previousId, previous, threads)) && Ordered(s') && Evolves(s, s')
    ensures WindowExact(s', newId)
  {
    hide Ordered, Path, Evolves, LastN;
    PathOfChild(s', newId);
    if previous.Some? {
      FrozenId(s, previousId, previous);
      assert WindowExact(s, previousId.value);
      NewWindowExact(s, s', newId, previousId.value);
    }
  }

  lemma InsertPreservesForest(s: Store, newId: TurnId, previousId: Option<TurnId>, previous: Option<TurnRecord>,
                              threads: set<ThreadId>)
    requires ForestInv(s) && newId !in s.turns && Froze(s, previousId, previous)
    ensures var s' := Insert(s, NewTurn(newId, previousId, previous, threads)); ForestInv(s') && Evolves(s, s')
  {
    hide Ordered, WindowExact;
    var s' := Insert(s, NewTurn(newId, previousId, previous, threads));
    InsertOrdered(s, NewTurn(newId, previousId, previous, threads));
    NewTurnWindow(s, s', newId, previousId, previous, threads);
    forall x | x in s'.turns ensures WindowExact(s', x) && ParentEnded(s', x) {
      if x in s.turns {
        assert WindowExact(s, x) && ParentEnded(s, x);
        WindowKept(s, s', x);
      }
    }
  }

  // ---------------------------------------------------------------- the transition system

  datatype Requested = Absent | Auto | NoParent | Explicit(id: TurnId)

  function ResolvePreviousTurnId(requested: Requested, lastTurnId: Option<TurnId>): Option<TurnId> {
    match requested
    case NoParent => None
    case Explicit(id) => Some(id)
    case _ => lastTurnId
  }

  /** A createTurn call. A failed one records whether it closed its resolver. */
  datatype Call =
    | Preparing(newId: TurnId, previousId: Option<TurnId>, previous: Option<TurnRecord>)
    | Failed(resolverClosed: bool)
    | Returned(turn: TurnRecord)

  datatype State = State(store: Store, calls: map<nat, Call>)

  datatype Step =
    | Begin(call: nat, newId: TurnId, requested: Requested, cachedTip: Option<TurnId>, freeze: Fault,
            customThrows: bool)
    | PrepareFails(call: nat)      // a resolver call or send() throws, or the commit rejects without effect
    | Commit(call: nat)
    | EndTurn(id: TurnId)          // a stream's terminal write, or a cancellation
    | ChangeThreads(id: TurnId, threads: set<ThreadId>)

  /** The threads of the new turn and those that are new on it. */
  function TurnThreads(previous: Option<TurnRecord>): set<ThreadId> {
    if previous.Some? then previous.value.threads else {MAIN_THREAD}
  }

  function NewThreads(previous: Option<TurnRecord>): set<ThreadId> {
    if previous.Some? then {} else {MAIN_THREAD}
  }

  /** Up to the try block; `freeze` is how the store's freeze of the parent rejects, if it does. */
  function BeginCall(s: Store, newId: TurnId, previousId: Option<TurnId>, freeze: Fault, customThrows: bool)
    : (Store, Call)
  {
    if previousId.Some? && (previousId.value !in s.turns || freeze == Before) then (s, Failed(false))
    else
      var s' := if previousId.Some? then Freeze(s, previousId.value) else s;
      var previous := if previousId.Some? then Some(s'.turns[previousId.value]) else None;
      (s', if (previousId.Some? && freeze == After) || customThrows then Failed(false)
           else Preparing(newId, previousId, previous))
  }

  function CommitCall(s: Store, c: Call): (Store, Call)
    requires c.Preparing?
  {
    var turn := NewTurn(c.newId, c.previousId, c.previous, TurnThreads(c.previous));
    if CreateTurnError(s, turn, NewThreads(c.previous)).Some? then (s, Failed(true))
    else (Insert(s, turn), Returned(turn))
  }

  function Next(s: State, step: Step): State {
    match step
    case Begin(call, newId, requested, cachedTip, freeze, customThrows) =>
      if call in s.calls then s
      else
        var previousId := ResolvePreviousTurnId(requested, cachedTip);
        var (store, c) := BeginCall(s.store, newId, previousId, freeze, customThrows);
        State(store, s.calls[call := c])
    case PrepareFails(call) =>
      if call in s.calls && s.calls[call].Preparing? then s.(calls := s.calls[call := Failed(true)]) else s
    case Commit(call) =>
      if call in s.calls && s.calls[call].Preparing? then
        var (store, c) := CommitCall(s.store, s.calls[call]);
        State(store, s.calls[call := c])
      else s
    case EndTurn(id) =>
      if id in s.store.turns then s.(store := Freeze(s.store, id)) else s
    case ChangeThreads(id, threads) =>
      if id in s.store.turns && s.store.turns[id].running then
        s.(store := Update(s.store, id, s.store.turns[id].(threads := threads)))
      else s
  }

  function Run(s: State, steps: seq<Step>): State {
    if steps == [] then s else Next(Run(s, steps[..|steps| - 1]), steps[|steps| - 1])
  }

  const EMPTY := State(Store(map[], [], None), map[])

  ghost predicate Inv(s: State) {
    ForestInv(s.store) && CallsKnow(s.store, s.calls)
  }

  ghost predicate CallsKnow(s: Store, calls: map<nat, Call>) {
    forall c :: c in calls ==> Knows(s, calls[c])
  }

  /** A call in flight holds its parent's final record; a finished one holds a committed turn. */
  ghost predicate Knows(s: Store, c: Call) {
    match c
    case Preparing(_, previousId, previous) => Froze(s, previousId, previous)
    case Returned(turn) => Committed(s, turn)
    case Failed(_) => true
  }

  /** The record handed to the caller is the stored one, up to what the turn did since. */
  ghost predicate Committed(s: Store, turn: TurnRecord) {
    turn.turnId in s.turns && s.turns[turn.turnId].(running := true, threads := turn.threads) == turn
  }

  lemma FreezePreservesForest(s: Store, id: TurnId)
    requires ForestInv(s) && id in s.turns
    ensures ForestInv(Freeze(s, id)) && Evolves(s, Freeze(s, id))
  {
    hide ForestInv, Evolves;
    UpdatePreservesForest(s, id, s.turns[id].(running := false));
  }

  lemma CommitPreservesForest(s: Store, c: Call)
    requires ForestInv(s) && c.Preparing? && Froze(s, c.previousId, c.previous)
    ensures var (s', c') := CommitCall(s, c);
      && ForestInv(s') && Evolves(s, s')
      && (c'.Returned? ==> Committed(s', c'.turn))
      && (c'.Failed? ==> s' == s)
  {
    if c.newId !in s.turns {
      InsertPreservesForest(s, c.newId, c.previousId, c.previous, TurnThreads(c.previous));
    }
  }

  /** What the calls in flight know stays true of the store. */
  lemma CallsKept(s: Store, s': Store, calls: map<nat, Call>)
    requires Evolves(s, s') && CallsKnow(s, calls)
    ensures CallsKnow(s', calls)
  {
    hide ForestInv;
    forall c | c in calls ensures Knows(s', calls[c]) {
      assert Knows(s, calls[c]);
    }
  }

  lemma StoreStep(s: State, step: Step)
    requires Inv(s)
    ensures ForestInv(Next(s, step).store) && Evolves(s.store, Next(s, step).store)
  {
    hide Ordered, WindowExact;
    match step
    case Begin(call, newId, requested, cachedTip, freeze, customThrows) =>
      var previousId := ResolvePreviousTurnId(requested, cachedTip);
      if previousId.Some? && previousId.value in s.store.turns {
        FreezePreservesForest(s.store, previousId.value);
      }
    case PrepareFails(call) =>
    case Commit(call) =>
      if call in s.calls && s.calls[call].Preparing? {
        assert Knows(s.store, s.calls[call]);
        CommitPreservesForest(s.store, s.calls[call]);
      }
    case EndTurn(id) =>
      if id in s.store.turns {
        FreezePreservesForest(s.store, id);
      }
    case ChangeThreads(id, threads) =>
      if id in s.store.turns && s.store.turns[id].running {
        UpdatePreservesForest(s.store, id, s.store.turns[id].(threads := threads));
      }
  }

  /** Every step keeps the invariant and never undoes what was committed. */
  lemma NextPreservesInv(s: State, step: Step)
    requires Inv(s)
    ensures Inv(Next(s, step)) && Evolves(s.store, Next(s, step).store)
  {
    hide ForestInv, Evolves;
    StoreStep(s, step);
    var s' := Next(s, step);
    CallsKept(s.store, s'.store, s.calls);
    if step.Commit? && step.call in s.calls && s.calls[step.call].Preparing? {
      assert Knows(s.store, s.calls[step.call]);
      CommitPreservesForest(s.store, s.calls[step.call]);
    }
    forall c | c in s'.calls ensures Knows(s'.store, s'.calls[c]) {
      assert c in s.calls ==> Knows(s'.store, s.calls[c]);
    }
  }

  /** The forest invariant holds after any interleaving of any number of calls. */
  lemma {:induction false} ForestHoldsOverRuns(steps: seq<Step>)
    ensures Inv(Run(EMPTY, steps))
  {
    if steps == [] {
    } else {
      ForestHoldsOverRuns(steps[..|steps| - 1]);
      NextPreservesInv(Run(EMPTY, steps[..|steps| - 1]), steps[|steps| - 1]);
    }
  }

  // ---------------------------------------------------------------- what the invariant gives

  /** The parent that a new call freezes: the one it selects, unless it is missing or the freeze has no effect. */
  function FrozenParent(s: State, step: Step): Option<TurnId> {
    if step.Begin? && step.call !in s.calls then
      var p := ResolvePreviousTurnId(step.requested, step.cachedTip);
      if p.Some? && p.value in s.store.turns && step.freeze != Before then p else None
    else None
  }

  /** What one step does to the turns: a commit adds one, a new call freezes its parent, the rest is not createTurn. */
  lemma StepOnStore(s: State, step: Step)
    ensures forall c :: c in s.calls ==> c in Next(s, step).calls
    ensures var t := Next(s, step);
      match step
      case Begin(_, _, _, _, _, _) =>
        t.store == if FrozenParent(s, step).Some? then Freeze(s.store, FrozenParent(s, step).value) else s.store
      case PrepareFails(_) => t.store == s.store
      case Commit(call) =>
        if call in s.calls && s.calls[call].Preparing? && t.calls[call].Returned?
          then t.store == Insert(s.store, t.calls[call].turn)
        else t.store == s.store
      case EndTurn(_) => t.calls == s.calls && t.store.turnIds == s.store.turnIds
      case ChangeThreads(_, _) => t.calls == s.calls && t.store.turnIds == s.store.turnIds
  {
  }

  predicate CallOf(step: Step, call: nat) {
    match step
    case Begin(c, _, _, _, _, _) => c == call
    case PrepareFails(c) => c == call
    case Commit(c) => c == call
    case _ => false
  }

  /** A finished call stays as it is. */
  lemma FinishedStays(s: State, step: Step, call: nat)
    requires call in s.calls && !s.calls[call].Preparing?
    ensures call in Next(s, step).calls && Next(s, step).calls[call] == s.calls[call]
  {
  }

  lemma {:induction false} FinishedStaysOverRuns(steps: seq<Step>, k: nat, call: nat)
    requires k <= |steps| && call in Run(EMPTY, steps[..k]).calls && !Run(EMPTY, steps[..k]).calls[call].Preparing?
    ensures call in Run(EMPTY, steps).calls && Run(EMPTY, steps).calls[call] == Run(EMPTY, steps[..k]).calls[call]
  {
    hide Next;
    if k == |steps| {
      assert steps[..k] == steps;
    } else {
      var init := steps[..|steps| - 1];
      assert init[..k] == steps[..k];
      FinishedStaysOverRuns(init, k, call);
      FinishedStays(Run(EMPTY, init), steps[|steps| - 1], call);
    }
  }

  /** Over the whole life of a call that fails, its one trace in the store is the frozen parent that it selected. */
  lemma FailureLeavesNoTurn(steps: seq<Step>, k: nat, call: nat)
    requires k < |steps| && CallOf(steps[k], call)
    requires call in Run(EMPTY, steps).calls && Run(EMPTY, steps).calls[call].Failed?
    ensures var before, after := Run(EMPTY, steps[..k]), Run(EMPTY, steps[..k + 1]);
      after.store == if FrozenParent(before, steps[k]).Some?
                     then Freeze(before.store, FrozenParent(before, steps[k]).value) else before.store
  {
    hide Next;
    var before, after := Run(EMPTY, steps[..k]), Run(EMPTY, steps[..k + 1]);
    assert steps[..k + 1][..k] == steps[..k];
    assert after == Next(before, steps[k]);
    StepOnStore(before, steps[k]);
    if steps[k].Commit? && call in before.calls && before.calls[call].Preparing?
       && call in after.calls && after.calls[call].Returned? {
      FinishedStaysOverRuns(steps, k + 1, call);
    }
  }

  // ---------------------------------------------------------------- what a call returns

  /** What a call that began with `begin` on the store `s` knows, and what it returns. */
  ghost predicate Remembers(c: Call, begin: Step, s: Store)
    requires begin.Begin?
  {
    var p := ResolvePreviousTurnId(begin.requested, begin.cachedTip);
    var previous := if p.Some? && p.value in s.turns then Some(s.turns[p.value].(running := false)) else None;
    match c
    case Preparing(_, _, _) => c == Preparing(begin.newId, p, previous) && (p.Some? ==> p.value in s.turns)
    case Returned(turn) =>
      turn == NewTurn(begin.newId, p, previous, TurnThreads(previous)) && (p.Some? ==> p.value in s.turns)
    case Failed(_) => true
  }

  lemma BeginRemembers(s: State, begin: Step)
    requires begin.Begin? && begin.call !in s.calls
    ensures begin.call in Next(s, begin).calls && Remembers(Next(s, begin).calls[begin.call], begin, s.store)
    ensures !Next(s, begin).calls[begin.call].Returned?
    ensures var p := ResolvePreviousTurnId(begin.requested, begin.cachedTip);
      Next(s, begin).calls[begin.call].Preparing? ==>
        Next(s, begin).store == if p.Some? && p.value in s.store.turns then Freeze(s.store, p.value) else s.store
  {
  }

  lemma StepRemembers(s: State, step: Step, call: nat, begin: Step, s0: Store)
    requires begin.Begin? && call in s.calls && Remembers(s.calls[call], begin, s0)
    ensures call in Next(s, step).calls && Remembers(Next(s, step).calls[call], begin, s0)
    ensures Next(s, step).calls[call].Failed? || s.calls[call].Preparing? || Next(s, step).calls[call] == s.calls[call]
    ensures s.calls[call].Failed? ==> Next(s, step).calls[call].Failed?
  {
    hide CreateTurnError, NewTurn, Insert;
  }

  lemma {:induction false} RemembersOverRuns(steps: seq<Step>, k: nat)
    requires k < |steps| && steps[k].Begin? && steps[k].call !in Run(EMPTY, steps[..k]).calls
    ensures var begin, s, t := steps[k], Run(EMPTY, steps[..k]), Run(EMPTY, steps[..k + 1]);
      && begin.call in t.calls && begin.call in Run(EMPTY, steps).calls
      && Remembers(Run(EMPTY, steps).calls[begin.call], begin, s.store)
      && (!Run(EMPTY, steps).calls[begin.call].Failed? ==> t.calls[begin.call].Preparing?)
  {
    hide Next, Remembers;
    var begin, s := steps[k], Run(EMPTY, steps[..k]);
    var init := steps[..|steps| - 1];
    assert steps[..k + 1][..k] == steps[..k];
    BeginRemembers(s, begin);
    if k == |steps| - 1 {
      assert steps[..k + 1] == steps;
    } else {
      assert init[..k] == steps[..k] && init[..k + 1] == steps[..k + 1];
      RemembersOverRuns(init, k);
      StepRemembers(Run(EMPTY, init), steps[|steps| - 1], begin.call, begin, s.store);
    }
  }

  /**
   The turn that a call returns, over every run: under its own id; after the turn that was asked for, which is the
   given one, none at all, or for auto and nothing the handle's tip; and without a parent it roots a new tree.
   */
  lemma ReturnedTurn(steps: seq<Step>, k: nat)
    requires k < |steps| && steps[k].Begin? && steps[k].call !in Run(EMPTY, steps[..k]).calls
    requires steps[k].call in Run(EMPTY, steps).calls && Run(EMPTY, steps).calls[steps[k].call].Returned?
    ensures var begin, turn := steps[k], Run(EMPTY, steps).calls[steps[k].call].turn;
      && turn.turnId == begin.newId && turn.running
      && (begin.requested.NoParent? ==> turn.previousTurnId == None)
      && (begin.requested.Explicit? ==> turn.previousTurnId == Some(begin.requested.id))
      && (begin.requested.Auto? || begin.requested.Absent? ==> turn.previousTurnId == begin.cachedTip)
      && (turn.previousTurnId == None ==>
            turn.firstTurnId == begin.newId && turn.ancestorIds == [] && turn.threads == {MAIN_THREAD})
  {
    hide Next;
    RemembersOverRuns(steps, k);
  }

  /** Starting a root freezes nothing; continuing a turn freezes just that one, and takes over its tree and threads. */
  lemma ReturnedTurnParent(steps: seq<Step>, k: nat)
    requires k < |steps| && steps[k].Begin? && steps[k].call !in Run(EMPTY, steps[..k]).calls
    requires steps[k].call in Run(EMPTY, steps).calls && Run(EMPTY, steps).calls[steps[k].call].Returned?
    ensures var turn, s, t := Run(EMPTY, steps).calls[steps[k].call].turn, Run(EMPTY, steps[..k]).store,
                              Run(EMPTY, steps[..k + 1]).store;
      && (turn.previousTurnId == None ==> t == s)
      && (turn.previousTurnId.Some? ==>
            var p := turn.previousTurnId.value;
            && p in s.turns && t == Freeze(s, p)
            && p in Run(EMPTY, steps).store.turns && !Run(EMPTY, steps).store.turns[p].running
            && turn.firstTurnId == s.turns[p].firstTurnId && turn.threads == s.turns[p].threads
            && 0 < |turn.ancestorIds| <= MAX_TURN_ANCESTORS && turn.ancestorIds[|turn.ancestorIds| - 1] == p)
  {
    hide Next, ForestInv;
    var begin := Run(EMPTY, steps[..k]);
    RemembersOverRuns(steps, k);
    BeginRemembers(begin, steps[k]);
    assert steps[..k + 1][..k] == steps[..k];
    ForestHoldsOverRuns(steps[..k]);
    TurnIdsMatch(begin.store);
    ParentOfReturned(steps, steps[k].call);
  }

  lemma ParentOfReturned(steps: seq<Step>, call: nat)
    requires call in Run(EMPTY, steps).calls && Run(EMPTY, steps).calls[call].Returned?
    ensures var s, p := Run(EMPTY, steps).store, Run(EMPTY, steps).calls[call].turn.previousTurnId;
      p.Some? ==> p.value in s.turns && !s.turns[p.value].running
  {
    hide Ordered, WindowExact;
    ForestHoldsOverRuns(steps);
    var s, turn := Run(EMPTY, steps).store, Run(EMPTY, steps).calls[call].turn;
    assert Knows(s, Run(EMPTY, steps).calls[call]);
    assert ParentEnded(s, turn.turnId);
  }

  /** Every turn of the store is the turn of a call that returned. */
  ghost predicate TurnsReturned(s: State) {
    forall id :: id in s.store.turns ==> ReturnedFor(s.calls, id)
  }

  ghost predicate ReturnedFor(calls: map<nat, Call>, id: TurnId) {
    exists c :: c in calls && calls[c].Returned? && calls[c].turn.turnId == id
  }

  lemma ReturnedForStays(s: State, step: Step, id: TurnId)
    requires ReturnedFor(s.calls, id)
    ensures ReturnedFor(Next(s, step).calls, id)
  {
    hide Next;
    var c :| c in s.calls && s.calls[c].Returned? && s.calls[c].turn.turnId == id;
    FinishedStays(s, step, c);
  }

  lemma NewTurnsReturned(s: State, step: Step, id: TurnId)
    requires id in Next(s, step).store.turns && id !in s.store.turns
    ensures ReturnedFor(Next(s, step).calls, id)
  {
    var t := Next(s, step);
    assert step.Commit? && t.calls[step.call].Returned? && t.calls[step.call].turn.turnId == id;
  }

  lemma {:induction false} TurnsComeFromReturns(steps: seq<Step>)
    ensures TurnsReturned(Run(EMPTY, steps))
  {
    hide Next, ReturnedFor;
    if steps == [] {
    } else {
      var s, step := Run(EMPTY, steps[..|steps| - 1]), steps[|steps| - 1];
      TurnsComeFromReturns(steps[..|steps| - 1]);
      forall id | id in Next(s, step).store.turns ensures ReturnedFor(Next(s, step).calls, id) {
        if id in s.store.turns {
          ReturnedForStays(s, step, id);
        } else {
          NewTurnsReturned(s, step, id);
        }
      }
    }
  }

  /** A running turn ends only by its own end, or by a new call that freezes it as its parent. */
  lemma WhoEndsTurns(s: State, step: Step, id: TurnId)
    requires Inv(s) && id in s.store.turns && s.store.turns[id].running
    ensures id in Next(s, step).store.turns
    ensures !Next(s, step).store.turns[id].running <==> step == EndTurn(id) || FrozenParent(s, step) == Some(id)
  {
    hide ForestInv, CreateTurnError;
    TurnIdsMatch(s.store);
    if step.Commit? && step.call in s.calls && s.calls[step.call].Preparing? {
      CommitAddsFresh(s.store, s.calls[step.call]);
    }
  }

  lemma TurnIdsMatch(s: Store)
    requires ForestInv(s)
    ensures forall id :: id in s.turns ==> s.turns[id].turnId == id
  {
  }

  lemma CommitAddsFresh(s: Store, c: Call)
    requires c.Preparing?
    ensures CommitCall(s, c).1.Returned? ==> c.newId !in s.turns
  {
  }

  /** A call begins like this in state `s`: its parent is missing, freezing it rejects, or `custom` throws. */
  predicate FailsBeforeTheTry(s: State, step: Step) {
    && step.Begin? && step.call !in s.calls
    && var p := ResolvePreviousTurnId(step.requested, step.cachedTip);
       (p.Some? && (p.value !in s.store.turns || step.freeze != NoFault)) || step.customThrows
  }

  /** A new call fails with its resolver left open exactly then. */
  lemma ResolverLeftOpen(s: State, step: Step)
    requires step.Begin? && step.call !in s.calls
    ensures var t := Next(s, step);
      && step.call in t.calls
      && (t.calls[step.call].Failed? ==> t.calls[step.call] == Failed(false))
      && (t.calls[step.call] == Failed(false) <==> FailsBeforeTheTry(s, step))
  {
  }

  lemma LeftOpenByThisStep(s: State, step: Step, call: nat)
    requires call in Next(s, step).calls
    ensures Next(s, step).calls[call] == Failed(false) <==>
      (call in s.calls && s.calls[call] == Failed(false)) || (CallOf(step, call) && FailsBeforeTheTry(s, step))
  {
    if step.Commit? && step.call in s.calls && s.calls[step.call].Preparing? {
      assert CommitCall(s.store, s.calls[step.call]).1 != Failed(false);
    }
  }

  /** Over a run: the resolver of a call is left open exactly when the call began with such an input. */
  lemma {:induction false} ResolverLeftOpenOverRuns(steps: seq<Step>, call: nat)
    requires call in Run(EMPTY, steps).calls
    ensures Run(EMPTY, steps).calls[call] == Failed(false) <==> BeganBadly(steps, call)
  {
    hide Next, FailsBeforeTheTry;
    if steps == [] {
    } else {
      var init, step := steps[..|steps| - 1], steps[|steps| - 1];
      var s := Run(EMPTY, init);
      LeftOpenByThisStep(s, step, call);
      BeganBadlySnoc(init, step, call);
      assert steps == init + [step];
      if call in s.calls {
        ResolverLeftOpenOverRuns(init, call);
      } else {
        NotBegun(init, call);
      }
    }
  }

  ghost predicate BeganBadly(steps: seq<Step>, call: nat) {
    exists k :: 0 <= k < |steps| && CallOf(steps[k], call) && FailsBeforeTheTry(Run(EMPTY, steps[..k]), steps[k])
  }

  lemma BeganBadlySnoc(init: seq<Step>, step: Step, call: nat)
    ensures BeganBadly(init + [step], call) <==>
      BeganBadly(init, call) || (CallOf(step, call) && FailsBeforeTheTry(Run(EMPTY, init), step))
  {
    hide Next, FailsBeforeTheTry, CallOf, Run;
    var steps := init + [step];
    assert forall k :: 0 <= k <= |init| ==> steps[..k] == init[..k];
    assert steps[..|init|] == init && init[..|init|] == init;
    if BeganBadly(init, call) {
      var k :| 0 <= k < |init| && CallOf(init[k], call) && FailsBeforeTheTry(Run(EMPTY, init[..k]), init[k]);
      assert steps[k] == init[k] && FailsBeforeTheTry(Run(EMPTY, steps[..k]), steps[k]);
    }
    if CallOf(step, call) && FailsBeforeTheTry(Run(EMPTY, init), step) {
      assert steps[|init|] == step && FailsBeforeTheTry(Run(EMPTY, steps[..|init|]), steps[|init|]);
    }
    if BeganBadly(steps, call) {
      var k :| 0 <= k < |steps| && CallOf(steps[k], call) && FailsBeforeTheTry(Run(EMPTY, steps[..k]), steps[k]);
      if k < |init| {
        assert init[k] == steps[k] && FailsBeforeTheTry(Run(EMPTY, init[..k]), init[k]);
      }
    }
  }

  lemma {:induction false} NotBegun(steps: seq<Step>, call: nat)
    requires call !in Run(EMPTY, steps).calls
    ensures !BeganBadly(steps, call)
  {
    if steps == [] {
    } else {
      var init, step := steps[..|steps| - 1], steps[|steps| - 1];
      NotBegun(init, call);
      BeganBadlySnoc(init, step, call);
      assert steps == init + [step];
    }
  }

  /** The parent exists and `custom` is fine, but the store rejects the freeze after it took effect. */
  lemma RejectedFreezeLeavesResolverOpen(s: State, call: nat, newId: TurnId, parent: TurnId)
    requires call !in s.calls && parent in s.store.turns
    ensures Next(s, Begin(call, newId, Explicit(parent), None, After, false))
         == State(Freeze(s.store, parent), s.calls[call := Failed(false)])
  {
  }

  /** Forking from a turn that does not exist: the call fails and the resolver stays open. */
  lemma UnknownParentLeavesResolverOpen()
    ensures Run(EMPTY, [Begin(0, 1, Explicit(7), None, NoFault, false)]).calls == map[0 := Failed(false)]
  {
    var steps := [Begin(0, 1, Explicit(7), None, NoFault, false)];
    assert steps[..0] == [] && Run(EMPTY, steps[..0]) == EMPTY;
  }

  lemma CommitOutcome(s: Store, c: Call)
    requires c.Preparing? && Froze(s, c.previousId, c.previous)
    ensures CommitCall(s, c).1.Failed? <==> c.newId in s.turns
  {
    assert c.previous.Some? ==> InheritedThreads(s, c.previousId) == TurnThreads(c.previous);
    assert NewThreads(c.previous) * InheritedThreads(s, c.previousId) == {};
    assert TurnThreads(c.previous) == InheritedThreads(s, c.previousId) + NewThreads(c.previous);
  }

  /** Of the store's reasons to reject a prepared turn, only a reused id can occur. */
  lemma CommitRejectsOnlyReusedIds(s: State, call: nat)
    requires Inv(s) && call in s.calls && s.calls[call].Preparing?
    ensures Next(s, Commit(call)).calls[call].Failed? <==> s.calls[call].newId in s.store.turns
  {
    hide ForestInv, CommitCall, Froze;
    assert Knows(s.store, s.calls[call]);
    CommitOutcome(s.store, s.calls[call]);
  }

  /** A call that fails in the try block, or whose commit is refused, closes its resolver and changes no turn. */
  lemma FailureClosesResolver(s: State, call: nat)
    requires call in s.calls && s.calls[call].Preparing?
    ensures Next(s, PrepareFails(call)) == s.(calls := s.calls[call := Failed(true)])
    ensures var t := Next(s, Commit(call));
      call in t.calls && (t.calls[call].Returned? || t == s.(calls := s.calls[call := Failed(true)]))
  {
    hide CreateTurnError, NewTurn;
  }

  /** Outside of createTurn a running turn may end or change its threads, and nothing else changes. */
  lemma OutsideOfCalls(s: State, id: TurnId, threads: set<ThreadId>)
    ensures var ended, changed := Next(s, EndTurn(id)), Next(s, ChangeThreads(id, threads));
      if id in s.store.turns && s.store.turns[id].running then
        && ended == s.(store := Update(s.store, id, s.store.turns[id].(running := false)))
        && changed == s.(store := Update(s.store, id, s.store.turns[id].(threads := threads)))
      else ended == changed == s
  {
    if id in s.store.turns && !s.store.turns[id].running {
      assert s.store.turns[id := s.store.turns[id]] == s.store.turns;
    }
  }

  /** Every id on a path has the path up to it as its own path. */
  lemma {:induction false} PathPrefix(s: Store, id: TurnId, i: nat)
    requires Ordered(s) && id in s.turns && i < |Path(s, id)|
    ensures Path(s, id)[i] in s.turns && Path(s, Path(s, id)[i]) == Path(s, id)[..i + 1]
    decreases |Path(s, id)|
  {
    hide Ordered, Path;
    PathOfChild(s, id);
    var path := Path(s, id);
    if i == |path| - 1 {
      assert path[..i + 1] == path;
    } else {
      var parent := s.turns[id].previousTurnId.value;
      PathPrefix(s, parent, i);
      assert path[..i + 1] == Path(s, parent)[..i + 1];
    }
  }

  /** No id occurs twice on a path. */
  lemma PathDistinct(s: Store, id: TurnId, i: nat, j: nat)
    requires Ordered(s) && id in s.turns && i < j < |Path(s, id)|
    ensures Path(s, id)[i] != Path(s, id)[j]
  {
    PathPrefix(s, id, i);
    PathPrefix(s, id, j);
  }

  /** The turn reached by following previous_turn_id n times. */
  function Ancestor(s: Store, id: TurnId, n: nat): Option<TurnId>
    decreases n
  {
    if n == 0 then Some(id)
    else if id in s.turns && s.turns[id].previousTurnId.Some? then
      Ancestor(s, s.turns[id].previousTurnId.value, n - 1)
    else None
  }

  lemma {:induction false} AncestorOnPath(s: Store, id: TurnId, n: nat)
    requires Ordered(s) && id in s.turns
    ensures Ancestor(s, id, n) ==
      if n < |Path(s, id)| then Some(Path(s, id)[|Path(s, id)| - 1 - n]) else None
    decreases n
  {
    PathOfChild(s, id);
    if n == 0 || s.turns[id].previousTurnId.None? {
    } else {
      AncestorOnPath(s, s.turns[id].previousTurnId.value, n - 1);
    }
  }

  /** Following previous_turn_id never comes back. */
  lemma NoCycles(s: Store, id: TurnId, n: nat)
    requires Ordered(s) && id in s.turns && n > 0
    ensures Ancestor(s, id, n) != Some(id)
  {
    AncestorOnPath(s, id, n);
    if n < |Path(s, id)| {
      PathDistinct(s, id, |Path(s, id)| - 1 - n, |Path(s, id)| - 1);
    }
  }

  function Unseen(ids: seq<TurnId>, seen: set<TurnId>): seq<TurnId> {
    if ids == [] then []
    else (if ids[0] in seen then [] else [ids[0]]) + Unseen(ids[1..], seen)
  }

  lemma {:induction false} UnseenOfFresh(ids: seq<TurnId>, seen: set<TurnId>)
    requires forall id :: id in ids ==> id !in seen
    ensures Unseen(ids, seen) == ids
  {
    if ids == [] {
    } else {
      UnseenOfFresh(ids[1..], seen);
    }
  }

  // ---------------------------------------------------------------- the classes

  class SessionStore {
    var turns: map<TurnId, TurnRecord>
    var turnIds: seq<TurnId>
    var lastTurnId: Option<TurnId>

    constructor ()
      ensures View() == EMPTY.store
    {
      turns, turnIds, lastTurnId := map[], [], None;
    }

    function View(): Store
      reads this
    {
      Store(turns, turnIds, lastTurnId)
    }

    method FreezeAndGetTurn(id: TurnId) returns (r: Result<TurnRecord, StoreError>)
      modifies this
      ensures id !in old(turns) ==> r == Err(TurnNotFound) && View() == old(View())
      ensures id in old(turns) ==>
        View() == Freeze(old(View()), id) && r == Ok(turns[id]) && !r.value.running
    {
      if id !in turns {
        return Err(TurnNotFound);
      }
      if turns[id].running {
        turns := turns[id := turns[id].(running := false)];
      }
      assert turns == old(turns)[id := old(turns)[id].(running := false)];
      r := Ok(turns[id]);
    }

    /** First terminal write wins. */
    method UpdateTurnState(id: TurnId) returns (e: Option<StoreError>)
      modifies this
      ensures e.None? <==> id in old(turns) && old(turns)[id].running
      ensures View() == if e.None? then Freeze(old(View()), id) else old(View())
    {
      if id !in turns {
        return Some(TurnNotFound);
      }
      if !turns[id].running {
        return Some(TurnNotRunning);
      }
      turns := turns[id := turns[id].(running := false)];
      e := None;
    }

    method CreateTurn(turn: TurnRecord, newThreads: set<ThreadId>) returns (e: Option<StoreError>)
      modifies this
      ensures e == CreateTurnError(old(View()), turn, newThreads)
      ensures View() == if e.None? then Insert(old(View()), turn) else old(View())
    {
      var inherited: set<ThreadId> := {};
      if turn.previousTurnId.Some? && turn.previousTurnId.value in turns {
        if turns[turn.previousTurnId.value].running {
          return Some(PreviousTurnRunning);
        }
        inherited := turns[turn.previousTurnId.value].threads;
      }
      if turn.turnId in turns {
        return Some(TurnAlreadyExists);
      }
      if newThreads * inherited != {} || turn.threads != inherited + newThreads {
        return Some(ThreadDelta);
      }
      turns := turns[turn.turnId := turn];
      turnIds := turnIds + [turn.turnId];
      lastTurnId := Some(turn.turnId);
      e := None;
    }

    /** The windows hold at most 20 ancestors each, and still give back the whole path. */
    method ResolveAncestorChain(anchor: TurnId) returns (chain: seq<TurnId>)
      requires Ordered(View()) && ForestInv(View()) && anchor in turns
      ensures chain == Path(View(), anchor)
    {
      hide Ordered, Path, ForestInv, Unseen, SuffixOf;
      ghost var path := Path(View(), anchor);
      FirstWindow(View(), anchor);
      chain := turns[anchor].ancestorIds + [anchor];
      var seen := set id | id in chain;
      var oldestId := chain[0];
      while oldestId != anchor
        invariant 0 < |chain| <= |path| && oldestId == chain[0] && SuffixOf(chain, path)
        invariant |chain| == 1 ==> |path| == 1
        invariant forall id :: id in seen <==> id in chain
        decreases |path| - |chain|
      {
        Spill(View(), anchor, chain, seen);
        if oldestId !in turns {
          break;
        }
        var older := Unseen(turns[oldestId].ancestorIds, seen);
        if older == [] {
          return;
        }
        chain := older + chain;
        seen := seen + set id | id in older;
        oldestId := older[0];
      }
      StartsAtAnchor(View(), anchor, chain);
    }
  }

  /** `chain` is the end of `path`. */
  predicate SuffixOf(chain: seq<TurnId>, path: seq<TurnId>) {
    |chain| <= |path| && chain == path[|path| - |chain|..]
  }

  lemma FirstWindow(s: Store, anchor: TurnId)
    requires Ordered(s) && ForestInv(s) && anchor in s.turns
    ensures var path := Path(s, anchor); var chain := s.turns[anchor].ancestorIds + [anchor];
      |chain| <= |path| && SuffixOf(chain, path) && (|chain| == 1 ==> |path| == 1)
  {
    hide Ordered, Path, WindowExact, ForestInv;
    var path := Path(s, anchor);
    WindowBefore(s, anchor, |path| - 1);
    assert path == path[..|path| - 1] + [anchor];
  }

  /** One turn of the loop: the window of the oldest id known so far goes in front, or the chain is complete. */
  lemma Spill(s: Store, anchor: TurnId, chain: seq<TurnId>, seen: set<TurnId>)
    requires Ordered(s) && ForestInv(s) && anchor in s.turns && chain != [] && SuffixOf(chain, Path(s, anchor))
    requires forall id :: id in seen <==> id in chain
    ensures chain[0] in s.turns
    ensures var path := Path(s, anchor); var older := Unseen(s.turns[chain[0]].ancestorIds, seen);
      && |older| + |chain| <= |path| && SuffixOf(older + chain, path)
      && (older == [] ==> chain == path)
  {
    hide Ordered, Path, WindowExact, ForestInv, Unseen, LastN;
    var path := Path(s, anchor);
    var start := |path| - |chain|;
    WindowBefore(s, anchor, start);
    var older := s.turns[path[start]].ancestorIds;
    UnseenOfFresh(older, seen);
    ExtendSuffix(path, start, older);
  }

  lemma StartsAtAnchor(s: Store, anchor: TurnId, chain: seq<TurnId>)
    requires Ordered(s) && ForestInv(s) && anchor in s.turns && chain != [] && SuffixOf(chain, Path(s, anchor))
    requires chain[0] == anchor && (|chain| == 1 ==> |Path(s, anchor)| == 1)
    ensures chain == Path(s, anchor)
  {
    hide Path, WindowExact;
    var path := Path(s, anchor);
    if |chain| > 1 {
      PathDistinct(s, anchor, |path| - |chain|, |path| - 1);
    }
  }

  lemma ExtendSuffix(path: seq<TurnId>, start: nat, older: seq<TurnId>)
    requires start <= |path| && older == LastN(path[..start], MAX_TURN_ANCESTORS)
    ensures older + path[start..] == path[start - |older|..]
  {
  }

  /** The window of the id at position `start` of a path: the ids just before it, none of them from there on. */
  lemma WindowBefore(s: Store, anchor: TurnId, start: nat)
    requires ForestInv(s) && anchor in s.turns && start < |Path(s, anchor)|
    ensures var path := Path(s, anchor);
      && path[start] in s.turns
      && s.turns[path[start]].ancestorIds == LastN(path[..start], MAX_TURN_ANCESTORS)
      && forall id :: id in s.turns[path[start]].ancestorIds ==> id !in path[start..]
  {
    hide Ordered, Path;
    var path := Path(s, anchor);
    PathPrefix(s, anchor, start);
    assert WindowExact(s, path[start]);
    hide ForestInv, WindowExact;
    assert path[..start + 1][..start] == path[..start];
    forall id | id in s.turns[path[start]].ancestorIds ensures id !in path[start..] {
      PathDisjointFromSuffix(s, anchor, start, id);
    }
  }

  lemma PathDisjointFromSuffix(s: Store, anchor: TurnId, start: nat, id: TurnId)
    requires Ordered(s) && anchor in s.turns && start < |Path(s, anchor)| && id in Path(s, anchor)[..start]
    ensures id !in Path(s, anchor)[start..]
  {
    var path := Path(s, anchor);
    if id in path[start..] {
      var i :| 0 <= i < start && path[i] == id;
      var j :| start <= j < |path| && path[j] == id;
      PathDistinct(s, anchor, i, j);
    }
  }

  /** createTurn, cut at its awaits. */
  class SessionHandle {
    const store: SessionStore
    var tip: Option<TurnId>   // the handle's copy of session.last_turn_id

    constructor (store: SessionStore)
      ensures this.store == store && tip == store.lastTurnId
    {
      this.store := store;
      tip := store.lastTurnId;
    }

    /** Freezes the parent and evaluates the caller's custom function. */
    method Prepare(newId: TurnId, requested: Requested, freeze: Fault, customThrows: bool) returns (call: Call)
      modifies store
      ensures (store.View(), call) ==
        BeginCall(old(store.View()), newId, ResolvePreviousTurnId(requested, tip), freeze, customThrows)
    {
      var previousId := ResolvePreviousTurnId(requested, tip);
      var previous: Option<TurnRecord> := None;
      if previousId.Some? {
        if freeze == Before {
          return Failed(false);
        }
        var r := store.FreezeAndGetTurn(previousId.value);
        if r.Err? || freeze == After {
          return Failed(false);
        }
        previous := Some(r.value);
      }
      if customThrows {
        return Failed(false);
      }
      call := Preparing(newId, previousId, previous);
    }

    /** Commits the prepared turn in one atomic store call. */
    method Complete(call: Call) returns (result: Call)
      requires call.Preparing?
      modifies store
      ensures (store.View(), result) == CommitCall(old(store.View()), call)
    {
      var turn := NewTurn(call.newId, call.previousId, call.previous, TurnThreads(call.previous));
      var e := store.CreateTurn(turn, NewThreads(call.previous));
      if e.Some? {
        return Failed(true);
      }
      result := Returned(turn);
    }

    /** The read after the commit: other calls may have committed since, so the tip need not be this call's turn. */
    method Refresh()
      modifies this
      ensures tip == store.lastTurnId
    {
      tip := store.lastTurnId;
    }
  }
}
