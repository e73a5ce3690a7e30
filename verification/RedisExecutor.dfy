/**
 Lifecycle of the request-reply executor: subscription, heartbeat interval, intake and
 drain, over every order of its events. Each step is a run of the event loop between awaits.
 */
module RedisExecutor {
  import opened Prelude

  type TimerId = nat
  type Pid = nat

  datatype Closing = Open | Unsubscribing | Closed

  /** A drain() call: inside close(), waiting for the requests it saw, or returned. */
  datatype Drain = InClose(first: bool) | Waiting(seen: set<Pid>) | Returned

  datatype State = State(
    initialized: bool,
    closed: bool,
    heartbeatTimer: Option<TimerId>,
    live: set<TimerId>,          // intervals the runtime keeps firing
    nextTimer: TimerId,
    subscribing: nat,            // setupSubscriber calls awaiting SUBSCRIBE
    running: set<Pid>,
    accepted: set<Pid>,          // history: every request taken in
    nextPid: Pid,
    closing: Closing,            // the first close() call
    drains: map<nat, Drain>,
    subscribed: bool)            // history: the last word from the subscriber connection

  const INITIAL := State(false, false, None, {}, 0, 0, {}, {}, 0, Open, map[], false)

  datatype Step =
    | Init(isReady: bool)
    | Ready
    | SubscriberError
    | SubscriberEnd
    | SubscribeSettles(ok: bool)
    | Message(empty: bool)
    | RequestSettles(pid: Pid)
    | Close
    | UnsubscribeSettles
    | DrainCalled(d: nat)
    | DrainResumes(d: nat)
    | DrainReturns(d: nat)

  // ---------------------------------------------------------------- transitions

  function HeartbeatStopped(s: State): State {
    if s.heartbeatTimer.Some? then
      s.(live := s.live - {s.heartbeatTimer.value}, heartbeatTimer := None)
    else s
  }

  function HeartbeatStarted(s: State): State {
    if s.closed then s
    else
      var t := HeartbeatStopped(s);
      t.(heartbeatTimer := Some(t.nextTimer), live := t.live + {t.nextTimer}, nextTimer := t.nextTimer + 1)
  }

  function SubscriberSetUp(s: State): State {
    if s.closed then s else s.(subscribing := s.subscribing + 1)
  }

  function CloseCalled(s: State): State {
    if s.closed then s else s.(closed := true, closing := Unsubscribing)
  }

  /** Which steps can happen. */
  predicate Enabled(s: State, step: Step) {
    match step
    case Ready => s.initialized
    case SubscriberError => s.initialized
    case SubscriberEnd => s.initialized
    case SubscribeSettles(_) => s.subscribing > 0
    case RequestSettles(pid) => pid in s.running
    case UnsubscribeSettles => s.closing.Unsubscribing?
    case DrainCalled(d) => d !in s.drains
    case DrainResumes(d) =>
      d in s.drains && s.drains[d].InClose? && (s.drains[d].first ==> s.closing.Closed?)
    case DrainReturns(d) =>
      d in s.drains && s.drains[d].Waiting? && s.drains[d].seen * s.running == {}
    case _ => true
  }

  function Next(s: State, step: Step): State {
    match step
    case Init(isReady) =>
      if s.closed || s.initialized then s
      else
        var t := s.(initialized := true);
        if isReady then SubscriberSetUp(t) else t
    case Ready => SubscriberSetUp(s)
    case SubscriberError => HeartbeatStopped(s).(subscribed := false)
    case SubscriberEnd => HeartbeatStopped(s).(subscribed := false)
    case SubscribeSettles(ok) =>
      var t := s.(subscribing := if s.subscribing > 0 then s.subscribing - 1 else 0, subscribed := ok);
      if ok then HeartbeatStarted(HeartbeatStopped(t)) else HeartbeatStopped(t)
    case Message(empty) =>
      if empty || s.closed then s
      else
        s.(running := s.running + {s.nextPid}, accepted := s.accepted + {s.nextPid}, nextPid := s.nextPid + 1)
    case RequestSettles(pid) => s.(running := s.running - {pid})
    case Close => CloseCalled(s)
    case UnsubscribeSettles => HeartbeatStopped(s).(closing := Closed)
    case DrainCalled(d) => CloseCalled(s).(drains := s.drains[d := InClose(!s.closed)])
    case DrainResumes(d) => s.(drains := s.drains[d := Waiting(s.running)])
    case DrainReturns(d) => s.(drains := s.drains[d := Returned])
  }

  function Run(steps: seq<Step>): State {
    if steps == [] then INITIAL else Next(Run(steps[..|steps| - 1]), steps[|steps| - 1])
  }

  predicate IsRun(steps: seq<Step>) {
    steps == [] || (IsRun(steps[..|steps| - 1]) && Enabled(Run(steps[..|steps| - 1]), steps[|steps| - 1]))
  }

  // ---------------------------------------------------------------- invariant

  /** The one live interval is the one in `heartbeatTimer`. */
  predicate TimerOk(s: State) {
    && s.live == (if s.heartbeatTimer.Some? then {s.heartbeatTimer.value} else {})
    && (s.heartbeatTimer.Some? ==> s.heartbeatTimer.value < s.nextTimer)
    && (s.heartbeatTimer.Some? ==> s.subscribed)
    && (!s.closed && s.subscribed ==> s.heartbeatTimer.Some?)
  }

  predicate ClosingOk(s: State) {
    && (s.closed <==> !s.closing.Open?)
    && (s.closing.Closed? ==> s.live == {})
  }

  predicate IntakeOk(s: State) {
    && s.running <= s.accepted
    && (forall pid :: pid in s.accepted ==> pid < s.nextPid)
  }

  predicate DrainOk(s: State, d: Drain) {
    && s.closed
    && (d.Waiting? ==> s.running <= d.seen)
    && (d.Returned? ==> s.running == {})
  }

  ghost predicate Inv(s: State) {
    && TimerOk(s) && ClosingOk(s) && IntakeOk(s)
    && forall d :: d in s.drains ==> DrainOk(s, s.drains[d])
  }

  lemma DrainsStayOk(s: State, step: Step)
    requires Inv(s) && Enabled(s, step)
    ensures forall d :: d in Next(s, step).drains ==> DrainOk(Next(s, step), Next(s, step).drains[d])
  {
    hide TimerOk;
    var s' := Next(s, step);
    forall d | d in s'.drains ensures DrainOk(s', s'.drains[d]) {
      if d in s.drains {
        assert DrainOk(s, s.drains[d]);
      }
    }
  }

  lemma NextPreservesInv(s: State, step: Step)
    requires Inv(s) && Enabled(s, step)
    ensures Inv(Next(s, step))
  {
    hide DrainOk;
    DrainsStayOk(s, step);
  }

  lemma {:induction false} InvHoldsOverRuns(steps: seq<Step>)
    requires IsRun(steps)
    ensures Inv(Run(steps))
  {
    if steps == [] {
    } else {
      InvHoldsOverRuns(steps[..|steps| - 1]);
      NextPreservesInv(Run(steps[..|steps| - 1]), steps[|steps| - 1]);
    }
  }

  /** What no step undoes once intake is closed. */
  lemma ClosedIsFinal(s: State, step: Step)
    requires Inv(s) && Enabled(s, step) && s.closed
    ensures Next(s, step).closed && Next(s, step).accepted == s.accepted && Next(s, step).running <= s.running
    ensures s.closing.Closed? ==> Next(s, step).closing.Closed? && Next(s, step).live == {}
    ensures forall d :: d in s.drains && s.drains[d].Returned? ==>
      d in Next(s, step).drains && (Next(s, step).drains[d].Returned? || step == DrainCalled(d))
  {
  }

  lemma {:induction false} ClosedIsFinalOverRuns(steps: seq<Step>, k: nat)
    requires IsRun(steps) && k <= |steps| && Run(steps[..k]).closed
    ensures Run(steps).closed && Run(steps).accepted == Run(steps[..k]).accepted
    ensures Run(steps[..k]).closing.Closed? ==> Run(steps).closing.Closed? && Run(steps).live == {}
    decreases |steps| - k
  {
    if k == |steps| {
      assert steps[..k] == steps;
      InvHoldsOverRuns(steps);
    } else {
      RunPrefix(steps, k + 1);
      assert steps[..k + 1][..k] == steps[..k];
      RunPrefix(steps, k);
      InvHoldsOverRuns(steps[..k]);
      ClosedIsFinal(Run(steps[..k]), steps[k]);
      ClosedIsFinalOverRuns(steps, k + 1);
    }
  }

  lemma {:induction false} RunPrefix(steps: seq<Step>, k: nat)
    requires IsRun(steps) && k <= |steps|
    ensures IsRun(steps[..k])
  {
    if k < |steps| {
      RunPrefix(steps[..|steps| - 1], k);
      assert steps[..|steps| - 1][..k] == steps[..k];
    } else {
      assert steps[..k] == steps;
    }
  }

  /** At most one interval is live, and it is the one stopHeartbeat would clear. */
  lemma AtMostOneHeartbeat(steps: seq<Step>)
    requires IsRun(steps)
    ensures var s := Run(steps);
      && |s.live| <= 1
      && (forall t :: t in s.live <==> s.heartbeatTimer == Some(t))
      && (!s.closed ==> (s.live != {} <==> s.subscribed))
  {
    InvHoldsOverRuns(steps);
  }

  lemma GoneByThisStep(s: State, step: Step, pid: Pid)
    requires pid in Next(s, step).accepted && pid !in Next(s, step).running
    ensures step == RequestSettles(pid) || (pid in s.accepted && pid !in s.running)
  {
  }

  lemma {:induction false} GoneMeansSettled(steps: seq<Step>, pid: Pid)
    requires IsRun(steps) && pid in Run(steps).accepted && pid !in Run(steps).running
    ensures RequestSettles(pid) in steps
  {
    hide Next, Enabled;
    assert steps != [];
    var init, last := steps[..|steps| - 1], steps[|steps| - 1];
    GoneByThisStep(Run(init), last, pid);
    if last == RequestSettles(pid) {
    } else {
      GoneMeansSettled(init, pid);
    }
    assert steps == init + [last];
  }

  /** When any drain() has returned, every request ever accepted has settled. */
  lemma DrainedMeansFinished(steps: seq<Step>, d: nat)
    requires IsRun(steps) && d in Run(steps).drains && Run(steps).drains[d].Returned?
    ensures Run(steps).running == {} && Run(steps).closed
    ensures forall pid :: pid in Run(steps).accepted ==> RequestSettles(pid) in steps
  {
    InvHoldsOverRuns(steps);
    assert DrainOk(Run(steps), Run(steps).drains[d]);
    forall pid | pid in Run(steps).accepted ensures RequestSettles(pid) in steps {
      GoneMeansSettled(steps, pid);
    }
  }

  // ---------------------------------------------------------------- what a run has come to

  /** close() was called, by itself or by a drain(). */
  predicate ClosedBy(steps: seq<Step>) {
    exists i :: 0 <= i < |steps| && (steps[i].Close? || steps[i].DrainCalled?)
  }

  /** init() was called before any close(). */
  predicate InitializedBy(steps: seq<Step>) {
    exists i :: 0 <= i < |steps| && steps[i].Init? && !ClosedBy(steps[..i])
  }

  /** The non-empty messages that arrived before any close(). */
  function Intake(steps: seq<Step>): nat {
    if steps == [] then 0
    else
      var init, last := steps[..|steps| - 1], steps[|steps| - 1];
      Intake(init) + if last == Message(false) && !ClosedBy(init) then 1 else 0
  }

  /** The SUBSCRIBEs sent: one by an init() on a ready connection, one by each ready event, none after a close(). */
  function Subscribes(steps: seq<Step>): nat {
    if steps == [] then 0
    else
      var init, last := steps[..|steps| - 1], steps[|steps| - 1];
      Subscribes(init)
      + if !ClosedBy(init) && (last.Ready? || (last == Init(true) && !InitializedBy(init))) then 1 else 0
  }

  function Answers(steps: seq<Step>): nat {
    if steps == [] then 0
    else Answers(steps[..|steps| - 1]) + if steps[|steps| - 1].SubscribeSettles? then 1 else 0
  }

  /** The last answer to a SUBSCRIBE or loss of the connection, if there was one. */
  function LastWord(steps: seq<Step>): Option<Step> {
    if steps == [] then None
    else
      var last := steps[|steps| - 1];
      if last.SubscribeSettles? || last.SubscriberError? || last.SubscriberEnd? then Some(last)
      else LastWord(steps[..|steps| - 1])
  }

  /** The last step that may start or stop the heartbeat came with a subscription, before any close(). */
  predicate Beating(steps: seq<Step>) {
    if steps == [] then false
    else
      var init, last := steps[..|steps| - 1], steps[|steps| - 1];
      match last
      case SubscribeSettles(ok) => ok && !ClosedBy(init)
      case SubscriberError => false
      case SubscriberEnd => false
      case UnsubscribeSettles => false
      case _ => Beating(init)
  }

  lemma ClosedByNone()
    ensures !ClosedBy([]) && !InitializedBy([])
  {
  }

  lemma ClosedByMore(steps: seq<Step>)
    requires steps != []
    ensures var init, last := steps[..|steps| - 1], steps[|steps| - 1];
      && (ClosedBy(steps) <==> ClosedBy(init) || last.Close? || last.DrainCalled?)
      && (InitializedBy(steps) <==> InitializedBy(init) || (last.Init? && !ClosedBy(init)))
  {
    var init := steps[..|steps| - 1];
    assert forall i :: 0 <= i < |init| ==> init[i] == steps[i] && init[..i] == steps[..i];
    if ClosedBy(init) {
      var i :| 0 <= i < |init| && (init[i].Close? || init[i].DrainCalled?);
      assert steps[i].Close? || steps[i].DrainCalled?;
    }
    if InitializedBy(init) {
      var i :| 0 <= i < |init| && init[i].Init? && !ClosedBy(init[..i]);
      assert steps[i].Init? && !ClosedBy(steps[..i]);
    }
  }

  lemma InMore(steps: seq<Step>, x: Step)
    requires steps != []
    ensures x in steps <==> x in steps[..|steps| - 1] || steps[|steps| - 1] == x
  {
    assert steps == steps[..|steps| - 1] + [steps[|steps| - 1]];
  }

  /** The heartbeat touches nothing else. */
  lemma HeartbeatFrame(s: State)
    ensures var t := HeartbeatStopped(s); t == s.(live := t.live, heartbeatTimer := t.heartbeatTimer)
    ensures var t := HeartbeatStarted(s);
      t == s.(live := t.live, heartbeatTimer := t.heartbeatTimer, nextTimer := t.nextTimer)
  {
  }

  lemma IntakeStep(s: State, step: Step)
    requires Inv(s) && Enabled(s, step)
    ensures var t := Next(s, step);
      && (t.closed <==> s.closed || step.Close? || step.DrainCalled?)
      && s.accepted <= t.accepted
      && |t.accepted| == |s.accepted| + (if step == Message(false) && !s.closed then 1 else 0)
      && (step.RequestSettles? ==> step.pid in s.accepted)
      && forall pid :: pid in t.running <==>
           (pid in s.running && step != RequestSettles(pid)) || (pid in t.accepted && pid !in s.accepted)
  {
    hide TimerOk, ClosingOk, DrainOk, HeartbeatStarted, HeartbeatStopped;
    assert s.nextPid !in s.accepted;
    HeartbeatFrame(s);
    match step {
      case SubscribeSettles(ok) =>
        var t := s.(subscribing := s.subscribing - 1, subscribed := ok);
        HeartbeatFrame(t);
        HeartbeatFrame(HeartbeatStopped(t));
      case _ =>
    }
  }

  lemma ConnectionStep(s: State, step: Step)
    requires Inv(s) && Enabled(s, step)
    ensures var t := Next(s, step);
      && (t.initialized <==> s.initialized || (step.Init? && !s.closed))
      && t.subscribing == s.subscribing - (if step.SubscribeSettles? then 1 else 0)
           + (if !s.closed && (step.Ready? || (step == Init(true) && !s.initialized)) then 1 else 0)
      && (t.subscribed <==>
           step == SubscribeSettles(true)
           || (s.subscribed && step != SubscribeSettles(false) && !step.SubscriberError? && !step.SubscriberEnd?))
      && (t.live != {} <==>
           (step == SubscribeSettles(true) && !s.closed)
           || (s.live != {} && !step.SubscribeSettles? && !step.SubscriberError? && !step.SubscriberEnd?
               && !step.UnsubscribeSettles?))
  {
    hide IntakeOk, DrainOk, ClosingOk;
  }

  lemma DrainStep(s: State, step: Step, d: nat)
    requires Inv(s) && Enabled(s, step)
    ensures var t := Next(s, step);
      && t.closing == (if step.UnsubscribeSettles? then Closed
                       else if s.closing.Open? && (step.Close? || step.DrainCalled?) then Unsubscribing
                       else s.closing)
      && (d in t.drains <==> d in s.drains || step == DrainCalled(d))
      && (step == DrainCalled(d) ==> d !in s.drains && t.drains[d] == InClose(!s.closed))
      && (step == DrainResumes(d) ==>
            && d in s.drains && s.drains[d].InClose? && t.drains[d].Waiting?
            && (s.drains[d].first ==> s.closing.Closed?))
      && (step == DrainReturns(d) ==> d in s.drains && s.drains[d].Waiting? && t.drains[d].Returned?)
      && (d in s.drains && step != DrainResumes(d) && step != DrainReturns(d) ==> t.drains[d] == s.drains[d])
  {
    hide IntakeOk, DrainOk, TimerOk;
  }

  /**
   Intake: there are as many requests as non-empty messages came before the first close(), and those
   that have not settled are the running ones.
   */
  lemma {:induction false} IntakeOverRuns(steps: seq<Step>)
    requires IsRun(steps)
    ensures Run(steps).closed <==> ClosedBy(steps)
    ensures |Run(steps).accepted| == Intake(steps)
    ensures forall pid :: RequestSettles(pid) in steps ==> pid in Run(steps).accepted
    ensures forall pid :: pid in Run(steps).running <==>
      pid in Run(steps).accepted && RequestSettles(pid) !in steps
  {
    hide Next, Enabled, Inv, ClosedBy, InitializedBy;
    if steps == [] {
      ClosedByNone();
    } else {
      var init, last := steps[..|steps| - 1], steps[|steps| - 1];
      IntakeOverRuns(init);
      InvHoldsOverRuns(init);
      ClosedByMore(steps);
      IntakeStep(Run(init), last);
      forall pid ensures RequestSettles(pid) in steps <==> RequestSettles(pid) in init || last == RequestSettles(pid) {
        InMore(steps, RequestSettles(pid));
      }
    }
  }

  /** A non-empty message before any close() becomes one new request, taken in and run; any other becomes none. */
  lemma MessageTakenIn(steps: seq<Step>, empty: bool)
    requires IsRun(steps)
    ensures var s, t := Run(steps), Run(steps + [Message(empty)]);
      if empty || ClosedBy(steps) then t == s
      else exists pid :: pid !in s.accepted && t == s.(
        accepted := s.accepted + {pid}, running := s.running + {pid}, nextPid := pid + 1)
  {
    hide Inv, ClosedBy, IsRun;
    IntakeOverRuns(steps);
    FreshPid(steps);
    assert (steps + [Message(empty)])[..|steps|] == steps;
    assert Run(steps + [Message(empty)]) == Next(Run(steps), Message(empty));
  }

  lemma FreshPid(steps: seq<Step>)
    requires IsRun(steps)
    ensures Run(steps).nextPid !in Run(steps).accepted
  {
    hide TimerOk, ClosingOk, DrainOk;
    InvHoldsOverRuns(steps);
  }

  /** The connection: what was sent and answered, and whether the heartbeat is on. */
  lemma {:induction false} ConnectionOverRuns(steps: seq<Step>)
    requires IsRun(steps)
    ensures Run(steps).initialized <==> InitializedBy(steps)
    ensures Run(steps).subscribing == Subscribes(steps) - Answers(steps)
    ensures Run(steps).subscribed <==> LastWord(steps) == Some(SubscribeSettles(true))
    ensures Run(steps).live != {} <==> Beating(steps)
  {
    hide Next, Enabled, Inv, ClosedBy, InitializedBy;
    if steps == [] {
      ClosedByNone();
    } else {
      var init, last := steps[..|steps| - 1], steps[|steps| - 1];
      ConnectionOverRuns(init);
      IntakeOverRuns(init);
      InvHoldsOverRuns(init);
      ClosedByMore(steps);
      ConnectionStep(Run(init), last);
    }
  }

  /** d was called, and no close() came before it. */
  predicate ClosesFirst(steps: seq<Step>, d: nat) {
    exists i :: 0 <= i < |steps| && steps[i] == DrainCalled(d) && !ClosedBy(steps[..i])
  }

  lemma ClosesFirstMore(steps: seq<Step>, d: nat)
    requires steps != []
    ensures var init, last := steps[..|steps| - 1], steps[|steps| - 1];
      && (ClosesFirst(steps, d) <==> ClosesFirst(init, d) || (last == DrainCalled(d) && !ClosedBy(init)))
      && (ClosesFirst(init, d) ==> DrainCalled(d) in init)
  {
    var init := steps[..|steps| - 1];
    assert forall i :: 0 <= i < |init| ==> init[i] == steps[i] && init[..i] == steps[..i];
    if ClosesFirst(init, d) {
      var i :| 0 <= i < |init| && init[i] == DrainCalled(d) && !ClosedBy(init[..i]);
      assert steps[i] == DrainCalled(d) && !ClosedBy(steps[..i]);
    }
  }

  /** Where a drain() stands follows from the steps it has taken, and the one that closes waits for UNSUBSCRIBE. */
  lemma {:induction false} DrainsOverRuns(steps: seq<Step>, d: nat)
    requires IsRun(steps)
    ensures Run(steps).closing ==
      if UnsubscribeSettles in steps then Closed else if ClosedBy(steps) then Unsubscribing else Open
    ensures d in Run(steps).drains <==> DrainCalled(d) in steps
    ensures d in Run(steps).drains && Run(steps).drains[d].InClose? ==>
      (Run(steps).drains[d].first <==> ClosesFirst(steps, d))
    ensures d in Run(steps).drains ==>
      && (Run(steps).drains[d].InClose? <==> DrainResumes(d) !in steps)
      && (Run(steps).drains[d].Returned? <==> DrainReturns(d) in steps)
    ensures DrainReturns(d) in steps ==> DrainResumes(d) in steps
    ensures DrainResumes(d) in steps ==> DrainCalled(d) in steps
    ensures DrainResumes(d) in steps && ClosesFirst(steps, d) ==> UnsubscribeSettles in steps
  {
    hide Next, Enabled, Inv, ClosedBy, InitializedBy, ClosesFirst;
    if steps == [] {
      ClosedByNone();
    } else {
      var init, last := steps[..|steps| - 1], steps[|steps| - 1];
      DrainsOverRuns(init, d);
      IntakeOverRuns(init);
      InvHoldsOverRuns(init);
      ClosedByMore(steps);
      ClosesFirstMore(steps, d);
      DrainStep(Run(init), last, d);
      InMore(steps, UnsubscribeSettles);
      InMore(steps, DrainCalled(d));
      InMore(steps, DrainResumes(d));
      InMore(steps, DrainReturns(d));
    }
  }

  /** Which steps may follow a run, told by what happened in it. */
  predicate MayFollow(steps: seq<Step>, step: Step) {
    match step
    case Ready => InitializedBy(steps)
    case SubscriberError => InitializedBy(steps)
    case SubscriberEnd => InitializedBy(steps)
    case SubscribeSettles(_) => Answers(steps) < Subscribes(steps)
    case RequestSettles(pid) => pid in Run(steps).accepted && step !in steps
    case UnsubscribeSettles => ClosedBy(steps) && step !in steps
    case DrainCalled(_) => step !in steps
    case DrainResumes(d) =>
      DrainCalled(d) in steps && step !in steps && (ClosesFirst(steps, d) ==> UnsubscribeSettles in steps)
    case DrainReturns(d) => DrainResumes(d) in steps && step !in steps && AllSettled(steps)
    case _ => true
  }

  predicate AllSettled(steps: seq<Step>) {
    forall pid :: pid in Run(steps).accepted ==> RequestSettles(pid) in steps
  }

  /** The runs are all orders of events that this allows. */
  lemma RunsAreOrders(steps: seq<Step>, step: Step)
    requires IsRun(steps)
    ensures IsRun(steps + [step]) <==> MayFollow(steps, step)
  {
    hide Next, Inv, ClosedBy, InitializedBy, ClosesFirst, Intake, Beating, LastWord;
    assert (steps + [step])[..|steps|] == steps;
    IntakeOverRuns(steps);
    ConnectionOverRuns(steps);
    match step {
      case DrainCalled(d) => DrainsOverRuns(steps, d);
      case DrainResumes(d) => DrainsOverRuns(steps, d);
      case DrainReturns(d) =>
        DrainsOverRuns(steps, d);
        WaitingIsForAll(steps, d);
      case _ => DrainsOverRuns(steps, 0);
    }
  }

  /** A drain() that waits for the requests it saw waits for every request. */
  lemma WaitingIsForAll(steps: seq<Step>, d: nat)
    requires IsRun(steps)
    ensures AllSettled(steps) <==> Run(steps).running == {}
    ensures d in Run(steps).drains && Run(steps).drains[d].Waiting? ==>
      (Run(steps).drains[d].seen * Run(steps).running == {} <==> Run(steps).running == {})
  {
    InvHoldsOverRuns(steps);
    IntakeOverRuns(steps);
    var s := Run(steps);
    if d in s.drains && s.drains[d].Waiting? {
      assert DrainOk(s, s.drains[d]);
      assert s.drains[d].seen * s.running == s.running;
    }
  }

  /** Any run can be carried on until every request has settled. */
  lemma {:induction false} RequestsCanSettle(steps: seq<Step>) returns (run: seq<Step>)
    requires IsRun(steps)
    ensures steps <= run && IsRun(run) && AllSettled(run)
    decreases |Run(steps).running|
  {
    IntakeOverRuns(steps);
    if Run(steps).running == {} {
      run := steps;
    } else {
      var pid :| pid in Run(steps).running;
      var longer := steps + [RequestSettles(pid)];
      assert longer[..|steps|] == steps;
      RunsAreOrders(steps, RequestSettles(pid));
      run := RequestsCanSettle(longer);
    }
  }

  lemma OneMore(steps: seq<Step>, step: Step) returns (run: seq<Step>)
    requires IsRun(steps) && ClosedBy(steps) && AllSettled(steps) && (MayFollow(steps, step) || step in steps)
    ensures steps <= run && IsRun(run) && ClosedBy(run) && AllSettled(run) && step in run
  {
    hide Next, Enabled, Inv, MayFollow;
    run := steps;
    if step !in steps {
      run := steps + [step];
      assert run[..|steps|] == steps;
      RunsAreOrders(steps, step);
      IntakeOverRuns(steps);
      InvHoldsOverRuns(steps);
      ClosedIsFinal(Run(steps), step);
      ClosedByMore(run);
    }
  }

  /** No drain() is stuck: any run can be carried on until it returns. */
  lemma DrainCanReturn(steps: seq<Step>, d: nat) returns (run: seq<Step>)
    requires IsRun(steps) && DrainCalled(d) in steps
    ensures steps <= run && IsRun(run) && DrainReturns(d) in run
  {
    hide Next, Enabled, Inv, IsRun, AllSettled;
    run := RequestsCanSettle(steps);
    var k :| 0 <= k < |steps| && steps[k] == DrainCalled(d);
    assert run[k] == DrainCalled(d);
    run := OneMore(run, UnsubscribeSettles);
    run := OneMore(run, DrainResumes(d));
    run := OneMore(run, DrainReturns(d));
  }

  // ---------------------------------------------------------------- the class

  class RequestReplyExecutor {
    var initialized: bool
    var closed: bool
    var heartbeatTimer: Option<TimerId>
    var runningRequests: set<Pid>
    // the runtime's side
    var live: set<TimerId>
    var nextTimer: TimerId
    var nextPid: Pid
    var subscribing: nat
    var closing: Closing
    var drains: map<nat, Drain>
    ghost var accepted: set<Pid>
    ghost var subscribed: bool

    constructor ()
      ensures View() == INITIAL
    {
      initialized, closed, heartbeatTimer, runningRequests := false, false, None, {};
      live, nextTimer, nextPid, subscribing, closing, drains := {}, 0, 0, 0, Open, map[];
      accepted, subscribed := {}, false;
    }

    ghost function View(): State
      reads this
    {
      State(initialized, closed, heartbeatTimer, live, nextTimer, subscribing, runningRequests, accepted, nextPid,
            closing, drains, subscribed)
    }

    method StopHeartbeat()
      modifies this`heartbeatTimer, this`live
      ensures View() == HeartbeatStopped(old(View()))
    {
      if heartbeatTimer.Some? {
        live := live - {heartbeatTimer.value};
        heartbeatTimer := None;
      }
    }

    method StartHeartbeat()
      modifies this`heartbeatTimer, this`live, this`nextTimer
      ensures View() == HeartbeatStarted(old(View()))
    {
      if closed { return; }
      StopHeartbeat();
      live := live + {nextTimer};
      heartbeatTimer := Some(nextTimer);
      nextTimer := nextTimer + 1;
    }

    method SetupSubscriber()
      modifies this`subscribing
      ensures View() == SubscriberSetUp(old(View()))
    {
      if closed { return; }
      subscribing := subscribing + 1;
    }

    method Init(isReady: bool)
      modifies this
      ensures View() == Next(old(View()), Step.Init(isReady))
    {
      if closed || initialized { return; }
      initialized := true;
      if isReady { SetupSubscriber(); }
    }

    method OnError()
      modifies this
      ensures View() == Next(old(View()), SubscriberError) == Next(old(View()), SubscriberEnd)
    {
      StopHeartbeat();
      subscribed := false;
    }

    /** The rest of setupSubscriber, after the SUBSCRIBE settled. */
    method SubscribeSettled(ok: bool)
      requires subscribing > 0
      modifies this
      ensures View() == Next(old(View()), SubscribeSettles(ok))
    {
      subscribing := subscribing - 1;
      subscribed := ok;
      if ok {
        StopHeartbeat();
        StartHeartbeat();
      } else {
        StopHeartbeat();
      }
    }

    method OnMessage(empty: bool)
      modifies this
      ensures View() == Next(old(View()), Message(empty))
    {
      if empty { return; }
      if closed { return; }
      runningRequests := runningRequests + {nextPid};
      accepted := accepted + {nextPid};
      nextPid := nextPid + 1;
    }

    method RequestSettled(pid: Pid)
      modifies this`runningRequests
      ensures View() == Next(old(View()), RequestSettles(pid))
    {
      runningRequests := runningRequests - {pid};
    }

    method Close()
      modifies this
      ensures View() == Next(old(View()), Step.Close)
    {
      if closed { return; }
      closed := true;
      closing := Unsubscribing;
    }

    /** The rest of the first close(), after UNSUBSCRIBE settled either way. */
    method UnsubscribeSettled()
      modifies this
      ensures View() == Next(old(View()), UnsubscribeSettles)
    {
      StopHeartbeat();
      closing := Closed;
    }

    method DrainCall(d: nat)
      modifies this
      ensures View() == Next(old(View()), DrainCalled(d))
    {
      drains := drains[d := InClose(!closed)];
      Close();
    }

    method DrainAfterClose(d: nat)
      modifies this`drains
      ensures View() == Next(old(View()), DrainResumes(d))
    {
      drains := drains[d := Waiting(runningRequests)];
    }
  }
}
