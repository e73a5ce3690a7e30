/**
 Any number of requests polling one Redis at once: each step is one Redis call, in any order that
 the timers allow. Every request ends as it would alone, and takes no reply but its own.
 */
module RedisCrowd {
  import opened Prelude
  import opened RedisClient

  type Client = nat

  /** What Redis holds over time: the reply written under each key, and the executor's beats. */
  datatype Shared = Shared(replies: map<Key, Write>, beats: seq<nat>, beatTtl: nat)

  /** `polls` polls kept waiting so far; a request that found no executor was never sent. */
  datatype Request = Request(key: Key, t0: nat, options: Options, sent: bool, polls: nat, outcome: Option<Outcome>)

  /** A reply that a GETDEL of `client` brought back. */
  datatype Delivery = Delivery(key: Key, client: Client)

  datatype State = State(now: nat, requests: map<Client, Request>, taken: set<Key>, deliveries: seq<Delivery>)

  const INITIAL := State(0, map[], {}, [])

  datatype Step =
    | Tick
    | Send(client: Client, key: Key, options: Options, subscribers: nat)
    | Poll(client: Client)

  // ---------------------------------------------------------------- transitions

  function WorldOf(w: Shared, key: Key): World {
    World(if key in w.replies then Some(w.replies[key]) else None, w.beats, w.beatTtl)
  }

  function DueAt(r: Request): nat {
    PollTime(r.t0, r.options, r.polls)
  }

  /** Keys are random, so a new request's key is no other's; a poll happens when it is due. */
  predicate Enabled(s: State, step: Step) {
    match step
    case Tick => forall c :: c in s.requests && s.requests[c].outcome.None? ==> DueAt(s.requests[c]) != s.now
    case Send(client, key, _, _) => client !in s.requests && forall c :: c in s.requests ==> s.requests[c].key != key
    case Poll(client) =>
      client in s.requests && s.requests[client].outcome.None? && DueAt(s.requests[client]) == s.now
  }

  function Sent(w: Shared, s: State, key: Key, options: Options, subscribers: nat): Request {
    if !Alive(w.beats, w.beatTtl, s.now) || subscribers == 0 then
      Request(key, s.now, options, false, 0, Some(NoResponder))
    else Request(key, s.now, options, true, 0, None)
  }

  /** One turn of the poll loop: GETDEL, then the heartbeat, then the deadline. */
  function Polled(w: Shared, s: State, client: Client): State
    requires client in s.requests
  {
    var r := s.requests[client];
    var world := WorldOf(w, r.key);
    if r.key !in s.taken && Visible(world, s.now) then
      var reply := world.reply.value;
      var outcome := if reply.wellFormed then Reply(reply.payload) else Malformed;
      s.(requests := s.requests[client := r.(outcome := Some(outcome))], taken := s.taken + {r.key},
         deliveries := s.deliveries + [Delivery(r.key, client)])
    else if !AliveAt(world, s.now) then s.(requests := s.requests[client := r.(outcome := Some(NoResponder))])
    else if s.now >= r.t0 + r.options.replyTimeout then
      s.(requests := s.requests[client := r.(outcome := Some(RequestTimeout))])
    else s.(requests := s.requests[client := r.(polls := r.polls + 1)])
  }

  function Next(w: Shared, s: State, step: Step): State {
    if !Enabled(s, step) then s
    else
      match step
      case Tick => s.(now := s.now + 1)
      case Send(client, key, options, subscribers) =>
        s.(requests := s.requests[client := Sent(w, s, key, options, subscribers)])
      case Poll(client) => Polled(w, s, client)
  }

  predicate IsRun(w: Shared, steps: seq<Step>) {
    steps == []
    || (IsRun(w, steps[..|steps| - 1]) && Enabled(Run(w, steps[..|steps| - 1]), steps[|steps| - 1]))
  }

  function Run(w: Shared, steps: seq<Step>): State {
    if steps == [] then INITIAL else Next(w, Run(w, steps[..|steps| - 1]), steps[|steps| - 1])
  }

  // ---------------------------------------------------------------- invariant

  predicate TakesItsReply(r: Request) {
    r.outcome.Some? && (r.outcome.value.Reply? || r.outcome.value.Malformed?)
  }

  /** A request stands where the same request alone would stand. */
  ghost predicate RequestOk(w: Shared, s: State, r: Request) {
    && (r.key in s.taken <==> TakesItsReply(r))
    && (!r.sent ==> r.outcome == Some(NoResponder))
    && (r.sent && r.outcome.None? ==>
          && s.now <= DueAt(r)
          && forall j :: 0 <= j < r.polls ==>
               KeepsWaiting(WorldOf(w, r.key), r.t0, r.options, PollTime(r.t0, r.options, j)))
    && (r.sent && r.outcome.Some? ==> EndsAt(WorldOf(w, r.key), r.t0, r.options, r.polls, r.outcome.value))
  }

  ghost predicate RequestsOk(w: Shared, s: State) {
    forall c :: c in s.requests ==> RequestOk(w, s, s.requests[c])
  }

  ghost predicate KeysDiffer(s: State) {
    forall c, d :: c in s.requests && d in s.requests && s.requests[c].key == s.requests[d].key ==> c == d
  }

  /** Every reply taken belongs to some request. */
  ghost predicate TakenByRequests(s: State) {
    forall k :: k in s.taken ==> exists c :: c in s.requests && s.requests[c].key == k
  }

  ghost predicate DeliveriesOk(s: State) {
    && (forall i :: 0 <= i < |s.deliveries| ==>
          && s.deliveries[i].client in s.requests
          && s.requests[s.deliveries[i].client].key == s.deliveries[i].key
          && s.deliveries[i].key in s.taken)
    && (forall i, j :: 0 <= i < j < |s.deliveries| ==> s.deliveries[i].key != s.deliveries[j].key)
    && (forall k :: k in s.taken ==> exists i :: 0 <= i < |s.deliveries| && s.deliveries[i].key == k)
  }

  ghost predicate Inv(w: Shared, s: State) {
    RequestsOk(w, s) && KeysDiffer(s) && TakenByRequests(s) && DeliveriesOk(s)
  }

  lemma PolledRequestOk(w: Shared, s: State, client: Client)
    requires client in s.requests && RequestOk(w, s, s.requests[client]) && s.requests[client].outcome.None?
    requires DueAt(s.requests[client]) == s.now
    ensures client in Polled(w, s, client).requests
    ensures RequestOk(w, Polled(w, s, client), Polled(w, s, client).requests[client])
  {
    hide PollTime;
    var r := s.requests[client];
    NextPoll(r.t0, r.options, r.polls);
  }

  lemma RequestsStayOk(w: Shared, s: State, step: Step)
    requires Inv(w, s) && Enabled(s, step)
    ensures RequestsOk(w, Next(w, s, step))
  {
    hide PollTime, EndsAt, KeepsWaiting;
    var t := Next(w, s, step);
    forall c | c in t.requests ensures RequestOk(w, t, t.requests[c]) {
      if c in s.requests {
        assert RequestOk(w, s, s.requests[c]);
        if step == Poll(c) {
          PolledRequestOk(w, s, c);
        }
      } else {
        FirstPoll(s.now, step.options);
      }
    }
  }

  lemma FirstPoll(t0: nat, o: Options)
    ensures PollTime(t0, o, 0) > t0
  {
  }

  /** A step leaves all keys in place and takes at most one new reply, delivered to the request with that key. */
  lemma StepTakes(w: Shared, s: State, step: Step)
    requires Enabled(s, step)
    ensures var t := Next(w, s, step);
      && (forall c :: c in s.requests ==> c in t.requests && t.requests[c].key == s.requests[c].key)
      && ((t.taken == s.taken && t.deliveries == s.deliveries)
          || (step.Poll? && s.requests[step.client].key !in s.taken
              && t.taken == s.taken + {s.requests[step.client].key}
              && t.deliveries == s.deliveries + [Delivery(s.requests[step.client].key, step.client)]))
  {
    hide DueAt, Visible, AliveAt, Alive;
  }

  lemma DeliveriesStayOk(w: Shared, s: State, step: Step)
    requires DeliveriesOk(s) && Enabled(s, step)
    ensures DeliveriesOk(Next(w, s, step))
  {
    hide Next, DueAt;
    StepTakes(w, s, step);
    var t := Next(w, s, step);
    forall k | k in t.taken ensures exists i :: 0 <= i < |t.deliveries| && t.deliveries[i].key == k {
      if k in s.taken {
        var i :| 0 <= i < |s.deliveries| && s.deliveries[i].key == k;
        assert t.deliveries[i].key == k;
      } else {
        assert t.deliveries[|s.deliveries|].key == k;
      }
    }
  }

  lemma KeysStayDistinct(w: Shared, s: State, step: Step)
    requires Inv(w, s) && Enabled(s, step)
    ensures KeysDiffer(Next(w, s, step)) && TakenByRequests(Next(w, s, step))
  {
    hide RequestsOk, DeliveriesOk, DueAt, Visible, AliveAt, Alive;
    var t := Next(w, s, step);
    forall c | c in s.requests ensures c in t.requests && t.requests[c].key == s.requests[c].key {
    }
    forall k | k in t.taken ensures exists c :: c in t.requests && t.requests[c].key == k {
      if k in s.taken {
        var c :| c in s.requests && s.requests[c].key == k;
        assert t.requests[c].key == k;
      } else {
        assert t.requests[step.client].key == k;
      }
    }
  }

  lemma {:induction false} InvHoldsOverRuns(w: Shared, steps: seq<Step>)
    requires IsRun(w, steps)
    ensures Inv(w, Run(w, steps))
  {
    hide Next, Enabled, RequestsOk, KeysDiffer, TakenByRequests, DeliveriesOk;
    if steps == [] {
      NothingYet(w);
    } else {
      var s, step := Run(w, steps[..|steps| - 1]), steps[|steps| - 1];
      InvHoldsOverRuns(w, steps[..|steps| - 1]);
      RequestsStayOk(w, s, step);
      KeysStayDistinct(w, s, step);
      DeliveriesStayOk(w, s, step);
    }
  }

  lemma NothingYet(w: Shared)
    ensures Inv(w, INITIAL)
  {
  }

  // ---------------------------------------------------------------- what the crowd guarantees

  /** Whatever the others do, a request that was sent ends as its own key, options and start determine, and only so. */
  lemma EveryRequestEndsAsAlone(w: Shared, steps: seq<Step>, client: Client)
    requires IsRun(w, steps) && client in Run(w, steps).requests
    ensures var r := Run(w, steps).requests[client];
      && (!r.sent ==> r.outcome == Some(NoResponder))
      && (r.outcome.Some? && r.sent ==> forall k: nat, outcome ::
            EndsAt(WorldOf(w, r.key), r.t0, r.options, k, outcome) <==> k == r.polls && r.outcome == Some(outcome))
  {
    hide EndsAt;
    InvHoldsOverRuns(w, steps);
    var r := Run(w, steps).requests[client];
    assert RequestOk(w, Run(w, steps), r);
    if r.outcome.Some? && r.sent {
      forall k: nat, outcome | EndsAt(WorldOf(w, r.key), r.t0, r.options, k, outcome)
        ensures k == r.polls && r.outcome == Some(outcome) {
        EndIsUnique(WorldOf(w, r.key), r.t0, r.options, r.polls, r.outcome.value, k, outcome);
      }
    }
  }

  /** No request is still waiting one poll interval after its time-out. */
  lemma NoRequestWaitsLonger(w: Shared, steps: seq<Step>, client: Client)
    requires IsRun(w, steps) && client in Run(w, steps).requests && Run(w, steps).requests[client].outcome.None?
    ensures var r := Run(w, steps).requests[client];
      Run(w, steps).now < r.t0 + Max(r.options.replyTimeout, 1) + TimerDelay(r.options.pollInterval)
  {
    hide Next, Enabled, PollTime, KeepsWaiting, EndsAt, TimerDelay;
    InvHoldsOverRuns(w, steps);
    var r := Run(w, steps).requests[client];
    assert RequestOk(w, Run(w, steps), r);
    WaitingIsBounded(WorldOf(w, r.key), r.t0, r.options, r.polls);
  }

  /** Each reply is consumed at most once, by the request that owns its key, whose outcome it is. */
  lemma RepliesGoToTheirOwners(w: Shared, steps: seq<Step>, i: nat, j: nat)
    requires IsRun(w, steps) && i < |Run(w, steps).deliveries| && j < |Run(w, steps).deliveries|
    ensures var s := Run(w, steps); var d := s.deliveries[i];
      && d.client in s.requests && s.requests[d.client].key == d.key && TakesItsReply(s.requests[d.client])
      && (forall c :: c in s.requests && s.requests[c].key == d.key ==> c == d.client)
      && (s.deliveries[j].key == d.key || s.deliveries[j].client == d.client ==> i == j)
  {
    InvHoldsOverRuns(w, steps);
    var s := Run(w, steps);
    assert RequestOk(w, s, s.requests[s.deliveries[i].client]);
  }

  /** A request has its reply as outcome exactly when a delivery to it took place. */
  lemma OutcomeMeansDelivery(w: Shared, steps: seq<Step>, client: Client)
    requires IsRun(w, steps) && client in Run(w, steps).requests
    ensures var s := Run(w, steps);
      TakesItsReply(s.requests[client]) <==> Delivery(s.requests[client].key, client) in s.deliveries
  {
    InvHoldsOverRuns(w, steps);
    var s := Run(w, steps);
    var r := s.requests[client];
    assert RequestOk(w, s, r);
    if TakesItsReply(r) {
      var i :| 0 <= i < |s.deliveries| && s.deliveries[i].key == r.key;
      assert s.deliveries[i] == Delivery(r.key, client);
    }
  }

  // ---------------------------------------------------------------- what a run has come to

  function Ticks(steps: seq<Step>): nat {
    if steps == [] then 0 else Ticks(steps[..|steps| - 1]) + if steps[|steps| - 1].Tick? then 1 else 0
  }

  function PollsOf(steps: seq<Step>, client: Client): nat {
    if steps == [] then 0
    else PollsOf(steps[..|steps| - 1], client) + if steps[|steps| - 1] == Poll(client) then 1 else 0
  }

  lemma RequestStep(w: Shared, s: State, step: Step, client: Client)
    requires Enabled(s, step)
    ensures var t := Next(w, s, step);
      && t.now == s.now + (if step.Tick? then 1 else 0)
      && (client in t.requests <==> client in s.requests || (step.Send? && step.client == client))
      && (client in s.requests ==>
            var r, r' := s.requests[client], t.requests[client];
            && r' == r.(polls := r'.polls, outcome := r'.outcome)
            && (step != Poll(client) ==> r' == r)
            && (step == Poll(client) ==>
                  r.outcome.None? && if r'.outcome.None? then r'.polls == r.polls + 1 else r'.polls == r.polls))
      && (client !in s.requests && client in t.requests ==>
            t.requests[client].polls == 0 && (t.requests[client].outcome.Some? ==> !t.requests[client].sent))
  {
    hide Alive, Visible, AliveAt, PollTime;
  }

  /** Time is the number of ticks, and every poll of a request either ends it or is one more that kept waiting. */
  lemma {:induction false} PollsAreCounted(w: Shared, steps: seq<Step>, client: Client)
    requires IsRun(w, steps)
    ensures Run(w, steps).now == Ticks(steps)
    ensures client !in Run(w, steps).requests ==> PollsOf(steps, client) == 0
    ensures client in Run(w, steps).requests ==>
      var r := Run(w, steps).requests[client];
      && PollsOf(steps, client) == r.polls + (if r.sent && r.outcome.Some? then 1 else 0)
      && (!r.sent ==> r.outcome.Some?)
  {
    hide Next;
    if steps == [] {
    } else {
      var init := steps[..|steps| - 1];
      PollsAreCounted(w, init, client);
      RequestStep(w, Run(w, init), steps[|steps| - 1], client);
      InvHoldsOverRuns(w, steps);
      assert client in Run(w, steps).requests ==> RequestOk(w, Run(w, steps), Run(w, steps).requests[client]);
    }
  }

  /** A request is what its caller sent, when it was sent, and it went out exactly if somebody was there to hear it. */
  lemma {:induction false} RequestIsItsSend(w: Shared, steps: seq<Step>, k: nat)
    requires IsRun(w, steps) && k < |steps| && steps[k].Send?
    ensures steps[k].client in Run(w, steps).requests
    ensures var r, send := Run(w, steps).requests[steps[k].client], steps[k];
      && r.key == send.key && r.options == send.options && r.t0 == Ticks(steps[..k])
      && (r.sent <==>
            send.subscribers > 0 && exists i :: 0 <= i < |w.beats| && w.beats[i] <= r.t0 < w.beats[i] + w.beatTtl)
  {
    hide PollTime;
    var init := steps[..|steps| - 1];
    if k == |steps| - 1 {
      assert steps[..k] == init;
      PollsAreCounted(w, init, steps[k].client);
    } else {
      assert init[..k] == steps[..k];
      RequestIsItsSend(w, init, k);
      RequestStep(w, Run(w, init), steps[|steps| - 1], steps[k].client);
    }
  }

  /** The crowd is never stuck: time can pass unless a poll is due, and a poll that is due can happen. */
  lemma TimeGoesOn(w: Shared, steps: seq<Step>) returns (step: Step)
    requires IsRun(w, steps)
    ensures IsRun(w, steps + [step]) && (step.Tick? || step.Poll?)
  {
    hide PollTime;
    var s := Run(w, steps);
    if c :| c in s.requests && s.requests[c].outcome.None? && DueAt(s.requests[c]) == s.now {
      step := Poll(c);
    } else {
      step := Tick;
    }
    assert (steps + [step])[..|steps|] == steps;
  }
}
