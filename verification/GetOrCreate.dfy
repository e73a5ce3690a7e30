/**
 The race of Sessions.getOrCreateByExternalId: any number of callers on one tenant and
 external id, each cut at its awaits, over a store that keeps external ids unique.
 */
module GetOrCreate {
  import opened Prelude

  type SessionId = nat

  datatype Key = Key(tenant: nat, externalId: nat)

  /** Sessions by id; a session may have no external id. */
  type Sessions = map<SessionId, Option<Key>>

  datatype CreateReply = Created | AlreadyExists | ExternalIdConflict

  datatype Caller =
    | LookingUp                          // before getByExternalId
    | Creating(newId: SessionId)         // before createSession
    | Refreshing(newId: SessionId)       // before getSession
    | LookingUpWinner                    // after a conflict, before getByExternalId
    | Returned(session: SessionId, created: bool)
    | Threw

  // ---------------------------------------------------------------- store

  predicate Owns(sessions: Sessions, id: SessionId, key: Key) {
    id in sessions && sessions[id] == Some(key)
  }

  predicate Taken(sessions: Sessions, key: Key) {
    exists id :: id in sessions && Owns(sessions, id, key)
  }

  ghost predicate UniqueKeys(sessions: Sessions) {
    forall i, j, key :: Owns(sessions, i, key) && Owns(sessions, j, key) ==> i == j
  }

  function CreateResult(sessions: Sessions, id: SessionId, key: Option<Key>): CreateReply {
    if id in sessions then AlreadyExists
    else if key.Some? && Taken(sessions, key.value) then ExternalIdConflict
    else Created
  }

  // ---------------------------------------------------------------- transition system

  datatype State = State(sessions: Sessions, callers: map<nat, Caller>)

  datatype Step =
    | Arrive(caller: nat)
    | Advance(caller: nat, newId: SessionId, found: SessionId, fault: Fault)
    | OtherCreate(id: SessionId, key: Option<Key>)

  /** `found` is the session that a lookup by key returns, when there is one. */
  predicate Enabled(s: State, key: Key, step: Step) {
    match step
    case Arrive(c) => c !in s.callers
    case Advance(c, _, found, _) => c in s.callers && (Taken(s.sessions, key) ==> Owns(s.sessions, found, key))
    case OtherCreate(_, other) => other != Some(key)
  }

  /** One segment of getOrCreateByExternalId, from one await to the next. */
  function AdvanceCaller(sessions: Sessions, key: Key, c: Caller, newId: SessionId, found: SessionId, fault: Fault)
    : (Sessions, Caller)
  {
    match c
    case LookingUp =>
      if fault != NoFault then (sessions, Threw)
      else if Taken(sessions, key) then (sessions, Returned(found, false))
      else (sessions, Creating(newId))
    case Creating(id) =>
      if fault == Before then (sessions, Threw)
      else
        var reply := CreateResult(sessions, id, Some(key));
        var sessions' := if reply == Created then sessions[id := Some(key)] else sessions;
        (sessions',
         if fault == After || reply == AlreadyExists then Threw
         else if reply == Created then Refreshing(id)
         else LookingUpWinner)
    case Refreshing(id) =>
      if fault != NoFault || id !in sessions then (sessions, Threw) else (sessions, Returned(id, true))
    case LookingUpWinner =>
      if fault != NoFault || !Taken(sessions, key) then (sessions, Threw) else (sessions, Returned(found, false))
    case _ => (sessions, c)
  }

  function Next(s: State, key: Key, step: Step): State {
    match step
    case Arrive(c) => s.(callers := s.callers[c := LookingUp])
    case Advance(c, newId, found, fault) =>
      if c !in s.callers then s
      else
        var (sessions, caller) := AdvanceCaller(s.sessions, key, s.callers[c], newId, found, fault);
        State(sessions, s.callers[c := caller])
    case OtherCreate(id, other) =>
      if CreateResult(s.sessions, id, other) == Created then s.(sessions := s.sessions[id := other]) else s
  }

  predicate IsRun(s: State, key: Key, steps: seq<Step>) {
    steps == []
    || (IsRun(s, key, steps[..|steps| - 1])
        && Enabled(Run(s, key, steps[..|steps| - 1]), key, steps[|steps| - 1]))
  }

  function Run(s: State, key: Key, steps: seq<Step>): State {
    if steps == [] then s else Next(Run(s, key, steps[..|steps| - 1]), key, steps[|steps| - 1])
  }

  // ---------------------------------------------------------------- invariant

  predicate IsCreator(c: Caller) {
    c.Refreshing? || (c.Returned? && c.created)
  }

  /** What a caller's progress says about the store. */
  predicate CallerOk(sessions: Sessions, key: Key, c: Caller) {
    match c
    case Refreshing(id) => Owns(sessions, id, key)
    case LookingUpWinner => Taken(sessions, key)
    case Returned(id, _) => Owns(sessions, id, key)
    case _ => true
  }

  ghost predicate OneCreator(callers: map<nat, Caller>) {
    forall c, d :: c in callers && d in callers && IsCreator(callers[c]) && IsCreator(callers[d]) ==> c == d
  }

  /** `before`: the key was taken before any caller arrived. */
  ghost predicate Inv(s: State, key: Key, before: bool) {
    && UniqueKeys(s.sessions)
    && (forall c :: c in s.callers ==> CallerOk(s.sessions, key, s.callers[c]))
    && OneCreator(s.callers)
    && (before ==> Taken(s.sessions, key) && forall c :: c in s.callers ==> !IsCreator(s.callers[c]))
  }

  lemma SessionsStay(s: State, key: Key, step: Step, id: SessionId)
    ensures id in s.sessions ==> id in Next(s, key, step).sessions && Next(s, key, step).sessions[id] == s.sessions[id]
  {
  }

  lemma CreateKeepsUnique(sessions: Sessions, id: SessionId, key: Option<Key>)
    requires UniqueKeys(sessions) && CreateResult(sessions, id, key) == Created
    ensures UniqueKeys(sessions[id := key])
  {
    var sessions' := sessions[id := key];
    forall i, j, k | Owns(sessions', i, k) && Owns(sessions', j, k) ensures i == j {
      assert i != id ==> Owns(sessions, i, k);
      assert j != id ==> Owns(sessions, j, k);
    }
  }

  lemma NextPreservesInv(s: State, key: Key, before: bool, step: Step)
    requires Inv(s, key, before) && Enabled(s, key, step)
    ensures Inv(Next(s, key, step), key, before)
  {
    var s' := Next(s, key, step);
    forall id ensures Owns(s.sessions, id, key) ==> Owns(s'.sessions, id, key) {
      SessionsStay(s, key, step, id);
    }
    assert Taken(s.sessions, key) ==> Taken(s'.sessions, key) by {
      if Taken(s.sessions, key) {
        var id :| id in s.sessions && Owns(s.sessions, id, key);
        assert Owns(s'.sessions, id, key);
      }
    }
    if s'.sessions != s.sessions {
      if step.OtherCreate? {
        CreateKeepsUnique(s.sessions, step.id, step.key);
      } else {
        CreateKeepsUnique(s.sessions, s.callers[step.caller].newId, Some(key));
      }
    }
    hide UniqueKeys;
    // a creator owns the key, so no create succeeds beside it
    forall c | c in s.callers && IsCreator(s.callers[c]) ensures Taken(s.sessions, key) {
      assert CallerOk(s.sessions, key, s.callers[c]);
    }
    forall c | c in s'.callers ensures CallerOk(s'.sessions, key, s'.callers[c]) {
      if c in s.callers {
        assert CallerOk(s.sessions, key, s.callers[c]);
      }
    }
  }

  lemma {:induction false} InvHoldsOverRuns(s: State, key: Key, steps: seq<Step>)
    requires UniqueKeys(s.sessions) && s.callers == map[] && IsRun(s, key, steps)
    ensures Inv(Run(s, key, steps), key, Taken(s.sessions, key))
  {
    if steps == [] {
    } else {
      var init := steps[..|steps| - 1];
      InvHoldsOverRuns(s, key, init);
      NextPreservesInv(Run(s, key, init), key, Taken(s.sessions, key), steps[|steps| - 1]);
    }
  }

  /** At most one session has the key, at most one caller reports created, and all get that session. */
  lemma AllCallersAgree(s: State, key: Key, steps: seq<Step>, c: nat, d: nat)
    requires UniqueKeys(s.sessions) && s.callers == map[] && IsRun(s, key, steps)
    requires var end := Run(s, key, steps);
      c in end.callers && d in end.callers && end.callers[c].Returned? && end.callers[d].Returned?
    ensures var end := Run(s, key, steps);
      && UniqueKeys(end.sessions)
      && Owns(end.sessions, end.callers[c].session, key)
      && end.callers[c].session == end.callers[d].session
      && (end.callers[c].created && end.callers[d].created ==> c == d)
      && (end.callers[c].created ==> !Taken(s.sessions, key))
  {
    InvHoldsOverRuns(s, key, steps);
    var end := Run(s, key, steps);
    assert CallerOk(end.sessions, key, end.callers[c]) && CallerOk(end.sessions, key, end.callers[d]);
  }

  /** A caller throws only when a store call fails by itself or its fresh id is already in use. */
  lemma ThrowsOnlyByFault(s: State, key: Key, before: bool, c: nat, newId: SessionId, found: SessionId)
    requires Inv(s, key, before) && Enabled(s, key, Advance(c, newId, found, NoFault))
    ensures Next(s, key, Advance(c, newId, found, NoFault)).callers[c].Threw? <==>
      s.callers[c].Threw? || (s.callers[c].Creating? && s.callers[c].newId in s.sessions)
  {
    assert CallerOk(s.sessions, key, s.callers[c]);
  }

  /** Any rejected store call makes its caller throw, and the store is as if it had not been called, or had answered. */
  lemma FaultThrows(s: State, key: Key, c: nat, newId: SessionId, found: SessionId, fault: Fault)
    requires c in s.callers && Segments(s.callers[c]) > 0 && fault != NoFault
    ensures var t := Next(s, key, Advance(c, newId, found, fault));
      && t.callers == s.callers[c := Threw]
      && t.sessions == if fault == Before then s.sessions else Next(s, key, Advance(c, newId, found, NoFault)).sessions
  {
  }

  /** How many segments a caller has left at most. */
  function Segments(c: Caller): nat {
    match c
    case LookingUp => 3
    case Creating(_) => 2
    case Refreshing(_) => 1
    case LookingUpWinner => 1
    case _ => 0
  }

  /** Every segment brings its caller nearer to the end, and an ended caller stays as it is. */
  lemma AdvanceMovesOn(s: State, key: Key, step: Step, c: nat)
    requires Enabled(s, key, step)
    ensures var t := Next(s, key, step);
      && (c in t.callers <==> c in s.callers || step == Arrive(c))
      && (step == Arrive(c) ==> c !in s.callers && t.callers[c] == LookingUp)
      && (step.Advance? && step.caller == c ==>
            && c in s.callers
            && Segments(t.callers[c]) <= Max(0, Segments(s.callers[c]) - 1)
            && (Segments(s.callers[c]) == 0 ==> t.callers[c] == s.callers[c]))
      && (c in s.callers && !(step.Advance? && step.caller == c) ==> t.callers[c] == s.callers[c])
  {
  }

  function Advances(steps: seq<Step>, c: nat): nat {
    if steps == [] then 0
    else
      var last := steps[|steps| - 1];
      Advances(steps[..|steps| - 1], c) + if last.Advance? && last.caller == c then 1 else 0
  }

  /** Over any run the callers are those that arrived, and each is through after three segments at most. */
  lemma {:induction false} CallersFinish(s: State, key: Key, steps: seq<Step>, c: nat)
    requires s.callers == map[] && IsRun(s, key, steps)
    ensures c in Run(s, key, steps).callers <==> Arrive(c) in steps
    ensures Arrive(c) !in steps ==> Advances(steps, c) == 0
    ensures Arrive(c) in steps ==>
      && Segments(Run(s, key, steps).callers[c]) <= Max(0, 3 - Advances(steps, c))
      && (Advances(steps, c) >= 3 ==> Run(s, key, steps).callers[c].Returned? || Run(s, key, steps).callers[c].Threw?)
  {
    hide Next, Enabled, Segments, Run, IsRun;
    RunUnfolds(s, key, steps);
    if steps == [] {
    } else {
      var init, last := steps[..|steps| - 1], steps[|steps| - 1];
      CallersFinish(s, key, init, c);
      AdvanceMovesOn(Run(s, key, init), key, last, c);
      InMore(steps, Arrive(c));
      if Arrive(c) in steps {
        NoSegmentsLeft(Run(s, key, steps).callers[c]);
      }
    }
  }

  lemma InMore(steps: seq<Step>, x: Step)
    requires steps != []
    ensures x in steps <==> x in steps[..|steps| - 1] || steps[|steps| - 1] == x
  {
    assert steps == steps[..|steps| - 1] + [steps[|steps| - 1]];
  }

  lemma RunUnfolds(s: State, key: Key, steps: seq<Step>)
    requires IsRun(s, key, steps)
    ensures steps == [] ==> Run(s, key, steps) == s
    ensures steps != [] ==>
      var init, last := steps[..|steps| - 1], steps[|steps| - 1];
      && IsRun(s, key, init) && Enabled(Run(s, key, init), key, last)
      && Run(s, key, steps) == Next(Run(s, key, init), key, last)
  {
  }

  lemma NoSegmentsLeft(c: Caller)
    ensures 0 <= Segments(c) <= 3 && (Segments(c) == 0 <==> c.Returned? || c.Threw?)
  {
  }

  /** A create by anyone else takes effect exactly when its id and its key are free. */
  lemma OtherCreates(s: State, key: Key, id: SessionId, other: Option<Key>)
    ensures var t := Next(s, key, OtherCreate(id, other));
      if id !in s.sessions && (other.Some? ==> !Taken(s.sessions, other.value))
      then t == s.(sessions := s.sessions[id := other]) else t == s
  {
  }

  predicate Faultless(steps: seq<Step>) {
    forall i :: 0 <= i < |steps| ==> (steps[i].Advance? ==> steps[i].fault == NoFault)
  }

  lemma {:induction false} TakenByCreator(s: State, key: Key, steps: seq<Step>)
    requires UniqueKeys(s.sessions) && s.callers == map[] && IsRun(s, key, steps) && Faultless(steps)
    requires !Taken(s.sessions, key) && Taken(Run(s, key, steps).sessions, key)
    ensures exists c :: c in Run(s, key, steps).callers && IsCreator(Run(s, key, steps).callers[c])
  {
    if steps == [] {
    } else {
      var init, step := steps[..|steps| - 1], steps[|steps| - 1];
      var before, end := Run(s, key, init), Run(s, key, steps);
      InvHoldsOverRuns(s, key, init);
      if Taken(before.sessions, key) {
        TakenByCreator(s, key, init);
        var c :| c in before.callers && IsCreator(before.callers[c]);
        assert CallerOk(before.sessions, key, before.callers[c]);
        assert c in end.callers && IsCreator(end.callers[c]);
      } else {
        var id :| id in end.sessions && Owns(end.sessions, id, key);
        assert !Owns(before.sessions, id, key);
        assert step.Advance? && IsCreator(end.callers[step.caller]);
      }
    }
  }

  /** Without faults, when every caller has returned, one of them created the session unless it was there before. */
  lemma ExactlyOneCreates(s: State, key: Key, steps: seq<Step>)
    requires UniqueKeys(s.sessions) && s.callers == map[] && IsRun(s, key, steps) && Faultless(steps)
    requires var end := Run(s, key, steps);
      end.callers != map[] && forall c :: c in end.callers ==> end.callers[c].Returned?
    ensures var end := Run(s, key, steps);
      (exists c :: c in end.callers && end.callers[c].created) <==> !Taken(s.sessions, key)
  {
    InvHoldsOverRuns(s, key, steps);
    var end := Run(s, key, steps);
    var c :| c in end.callers;
    assert CallerOk(end.sessions, key, end.callers[c]);
    if !Taken(s.sessions, key) {
      TakenByCreator(s, key, steps);
      var d :| d in end.callers && IsCreator(end.callers[d]);
      assert end.callers[d].created;
    }
  }

  // ---------------------------------------------------------------- the classes

  class SessionStore {
    var sessions: Sessions

    constructor ()
      ensures sessions == map[]
    {
      sessions := map[];
    }

    method CreateSession(id: SessionId, key: Option<Key>) returns (reply: CreateReply)
      modifies this
      ensures reply == CreateResult(old(sessions), id, key)
      ensures sessions == if reply == Created then old(sessions)[id := key] else old(sessions)
    {
      if id in sessions {
        return AlreadyExists;
      }
      if key.Some? {
        var owner := GetSessionByExternalId(key.value);
        if owner.Some? {
          return ExternalIdConflict;
        }
      }
      sessions := sessions[id := key];
      reply := Created;
    }

    method GetSessionByExternalId(key: Key) returns (found: Option<SessionId>)
      ensures found.Some? ==> Owns(sessions, found.value, key)
      ensures found.None? ==> !Taken(sessions, key)
    {
      var rest := sessions.Keys;
      while rest != {}
        invariant rest <= sessions.Keys
        invariant forall id :: id in sessions && id !in rest ==> !Owns(sessions, id, key)
        decreases rest
      {
        var id :| id in rest;
        if sessions[id] == Some(key) {
          return Some(id);
        }
        rest := rest - {id};
      }
      found := None;
    }
  }

  /** One call of getOrCreateByExternalId; `Resume` runs it from one await to the next. */
  class GetOrCreateCall {
    const key: Key
    var at: Caller

    constructor (key: Key)
      ensures this.key == key && at == LookingUp
    {
      this.key := key;
      at := LookingUp;
    }

    /** `found` reports what a lookup by key saw, to name the step; `fault` is how its store call rejects. */
    method Resume(store: SessionStore, freshId: SessionId, fault: Fault) returns (ghost found: SessionId)
      modifies this, store
      ensures (store.sessions, at) == AdvanceCaller(old(store.sessions), key, old(at), freshId, found, fault)
      ensures Taken(old(store.sessions), key) && fault == NoFault && (old(at).LookingUp? || old(at).LookingUpWinner?)
        ==> Owns(old(store.sessions), found, key)
    {
      found := 0;
      match at {
        case LookingUp =>
          if fault != NoFault {
            at := Threw;
            return;
          }
          var existing := store.GetSessionByExternalId(key);
          if existing.Some? {
            found := existing.value;
            at := Returned(existing.value, false);
          } else {
            at := Creating(freshId);
          }
        case Creating(id) =>
          if fault == Before {
            at := Threw;
            return;
          }
          var reply := store.CreateSession(id, Some(key));
          if fault == After {
            at := Threw;
            return;
          }
          match reply {
            case Created => at := Refreshing(id);
            case AlreadyExists => at := Threw;
            case ExternalIdConflict => at := LookingUpWinner;
          }
        case Refreshing(id) =>
          at := if fault == NoFault && id in store.sessions then Returned(id, true) else Threw;
        case LookingUpWinner =>
          if fault != NoFault {
            at := Threw;
            return;
          }
          var winner := store.GetSessionByExternalId(key);
          if winner.Some? {
            found := winner.value;
            at := Returned(winner.value, false);
          } else {
            at := Threw;
          }
        case _ =>
      }
    }
  }
}
