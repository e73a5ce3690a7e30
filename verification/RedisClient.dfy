/**
 The polling client of the request-reply transport (redisRequest), in integer
 milliseconds, with Redis calls taken as instant and keys that expire.
 */
module RedisClient {
  import opened Prelude

  const INITIAL_DELAY := 200
  const MAX_TIMER := 2147483647

  type Key = nat

  /** A SET of a reply key: when it becomes visible, for how long, and whether it parses. */
  datatype Write = Write(at: nat, ttl: nat, payload: nat, wellFormed: bool)

  datatype Options = Options(replyTimeout: nat, pollInterval: nat)

  datatype Outcome = Reply(payload: nat) | Malformed | NoResponder | RequestTimeout

  /** setTimeout turns delays outside 1..2^31-1 into one millisecond. */
  function TimerDelay(ms: nat): (d: nat)
    ensures d >= 1
  {
    if ms < 1 || ms > MAX_TIMER then 1 else ms
  }

  // ---------------------------------------------------------------- heartbeat

  /** ceil(interval * 1.5) */
  function HeartbeatTtl(interval: nat): (ttl: nat)
    ensures 3 * interval <= 2 * ttl <= 3 * interval + 1
  {
    (3 * interval + 1) / 2
  }

  /** The heartbeat key exists: some beat has happened and has not yet expired. */
  predicate Alive(beats: seq<nat>, ttl: nat, t: nat) {
    exists i :: 0 <= i < |beats| && beats[i] <= t < beats[i] + ttl
  }

  /** Beats no further apart than the TTL keep the key alive from the first beat until the last one expires. */
  lemma {:induction false} SteadyBeatsStayAlive(beats: seq<nat>, ttl: nat, t: nat)
    requires beats != [] && forall i :: 0 <= i < |beats| - 1 ==> beats[i] <= beats[i + 1] <= beats[i] + ttl
    requires beats[0] <= t < beats[|beats| - 1] + ttl
    ensures Alive(beats, ttl, t)
  {
    var last := |beats| - 1;
    if beats[last] <= t {
      assert beats[last] <= t < beats[last] + ttl;
    } else {
      var init := beats[..last];
      assert last > 0 && init[|init| - 1] == beats[last - 1];
      SteadyBeatsStayAlive(init, ttl, t);
      var i :| 0 <= i < |init| && init[i] <= t < init[i] + ttl;
      assert beats[i] == init[i];
    }
  }

  /** An interval timer's beats, one per interval, are close enough for the executor's TTL. */
  lemma IntervalBeatsStayAlive(beats: seq<nat>, interval: nat, t: nat)
    requires beats != [] && forall i :: 0 <= i < |beats| - 1 ==> beats[i + 1] == beats[i] + interval
    requires beats[0] <= t < beats[|beats| - 1] + HeartbeatTtl(interval)
    ensures Alive(beats, HeartbeatTtl(interval), t)
  {
    SteadyBeatsStayAlive(beats, HeartbeatTtl(interval), t);
  }

  lemma DeadAfterLastBeat(beats: seq<nat>, ttl: nat, last: nat, t: nat)
    requires forall i :: 0 <= i < |beats| ==> beats[i] <= last
    ensures t >= last + ttl ==> !Alive(beats, ttl, t)
  {
  }

  // ---------------------------------------------------------------- specification

  /** Everything outside one request: the reply written for its key, if any, and the executor's beats. */
  datatype World = World(reply: Option<Write>, beats: seq<nat>, beatTtl: nat)

  predicate Visible(w: World, t: nat) {
    w.reply.Some? && w.reply.value.at <= t < w.reply.value.at + w.reply.value.ttl
  }

  predicate AliveAt(w: World, t: nat) {
    Alive(w.beats, w.beatTtl, t)
  }

  /** The k-th poll of a request published at `t0`. */
  function PollTime(t0: nat, o: Options, k: nat): nat {
    t0 + TimerDelay(Min(INITIAL_DELAY, o.replyTimeout)) + k * TimerDelay(o.pollInterval)
  }

  /** At a poll at time t the client keeps waiting. */
  predicate KeepsWaiting(w: World, t0: nat, o: Options, t: nat) {
    !Visible(w, t) && AliveAt(w, t) && t < t0 + o.replyTimeout
  }

  /** What a poll at time t that does not keep waiting ends with: a reply first, then liveness, then the deadline. */
  predicate EndsWith(w: World, t0: nat, o: Options, t: nat, outcome: Outcome) {
    match outcome
    case Reply(payload) => Visible(w, t) && w.reply.value.wellFormed && payload == w.reply.value.payload
    case Malformed => Visible(w, t) && !w.reply.value.wellFormed
    case NoResponder => !Visible(w, t) && !AliveAt(w, t)
    case RequestTimeout => !Visible(w, t) && AliveAt(w, t) && t >= t0 + o.replyTimeout
  }

  /** The request ends at its k-th poll. */
  predicate EndsAt(w: World, t0: nat, o: Options, k: nat, outcome: Outcome) {
    && (forall j :: 0 <= j < k ==> KeepsWaiting(w, t0, o, PollTime(t0, o, j)))
    && EndsWith(w, t0, o, PollTime(t0, o, k), outcome)
  }

  // ---------------------------------------------------------------- the loop

  class Redis {
    var now: nat
    const replies: map<Key, Write>   // every reply that is ever written
    const beats: seq<nat>
    const beatTtl: nat
    var taken: set<Key>              // replies removed by a GETDEL
    ghost var foreign: set<Key>      // those removed while the request at hand slept, by others

    constructor (replies: map<Key, Write>, beats: seq<nat>, beatTtl: nat)
      ensures this.replies == replies && this.beats == beats && this.beatTtl == beatTtl
      ensures taken == foreign == {} && now == 0
    {
      this.replies, this.beats, this.beatTtl, now, taken := replies, beats, beatTtl, 0, {};
      foreign := {};
    }

    ghost function WorldOf(key: Key): World {
      World(if key in replies then Some(replies[key]) else None, beats, beatTtl)
    }

    /** GETDEL: one key is read and removed. */
    method GetDel(key: Key) returns (found: Option<Write>)
      modifies this`taken
      ensures found.Some? <==> key !in old(taken) && Visible(WorldOf(key), now)
      ensures found.Some? ==> key in replies && found.value == replies[key]
      ensures taken == old(taken) + if found.Some? then {key} else {}
    {
      if key in replies && key !in taken && replies[key].at <= now < replies[key].at + replies[key].ttl {
        taken := taken + {key};
        return Some(replies[key]);
      }
      found := None;
    }

    method HeartbeatExists() returns (alive: bool)
      ensures alive <==> Alive(beats, beatTtl, now)
    {
      alive := false;
      for i := 0 to |beats|
        invariant alive <==> exists j :: 0 <= j < i && beats[j] <= now < beats[j] + beatTtl
      {
        if beats[i] <= now < beats[i] + beatTtl {
          alive := true;
        }
      }
    }

    /** Time passes; requests with other keys may remove replies meanwhile, as in module RedisCrowd. */
    method Sleep(ms: nat, key: Key)
      requires foreign <= taken
      modifies this`now, this`taken, this`foreign
      ensures now == old(now) + TimerDelay(ms)
      ensures old(foreign) <= foreign && taken == old(taken) + (foreign - old(foreign))
      ensures (foreign - old(foreign)) !! old(taken) && foreign <= taken
      ensures key in foreign <==> key in old(foreign)
    {
      now := now + TimerDelay(ms);
      var others: set<Key> := *;
      others := others - {key} - taken;
      taken, foreign := taken + others, foreign + others;
    }
  }

  /**
   redisRequest with a fresh reply key. `polls` is the number of polls that kept waiting; None means
   the request was not sent or reached nobody.
   */
  method RedisRequest(redis: Redis, key: Key, subscribers: nat, o: Options)
    returns (outcome: Outcome, ghost polls: Option<nat>)
    requires key !in redis.taken && redis.foreign <= redis.taken
    modifies redis
    ensures polls.None? <==> !Alive(redis.beats, redis.beatTtl, old(redis.now)) || subscribers == 0
    ensures polls.None? ==> outcome == NoResponder && redis.now == old(redis.now) && redis.taken == old(redis.taken)
    ensures polls.Some? ==>
      && EndsAt(redis.WorldOf(key), old(redis.now), o, polls.value, outcome)
      && redis.now == PollTime(old(redis.now), o, polls.value)
    // beside what others removed while it slept, every key is as before, except its own when that is the outcome
    ensures old(redis.foreign) <= redis.foreign <= redis.taken
    ensures (redis.foreign - old(redis.foreign)) !! old(redis.taken)
    ensures key in redis.foreign <==> key in old(redis.foreign)
    ensures redis.taken == old(redis.taken) + (redis.foreign - old(redis.foreign))
                           + if outcome.Reply? || outcome.Malformed? then {key} else {}
  {
    var alive := redis.HeartbeatExists();
    if !alive {
      return NoResponder, None;
    }
    if subscribers == 0 {
      return NoResponder, None;
    }
    var replyDeadline := redis.now + o.replyTimeout;
    ghost var t0, k: nat := redis.now, 0;
    redis.Sleep(Min(INITIAL_DELAY, o.replyTimeout), key);
    while true
      invariant redis.now == PollTime(t0, o, k) && key !in redis.taken
      invariant old(redis.foreign) <= redis.foreign <= redis.taken
      invariant (redis.foreign - old(redis.foreign)) !! old(redis.taken)
      invariant (key in redis.foreign <==> key in old(redis.foreign))
      invariant redis.taken == old(redis.taken) + (redis.foreign - old(redis.foreign))
      invariant forall j :: 0 <= j < k ==> KeepsWaiting(redis.WorldOf(key), t0, o, PollTime(t0, o, j))
      decreases replyDeadline - redis.now
    {
      var reply := redis.GetDel(key);
      if reply.Some? {
        outcome := if reply.value.wellFormed then Reply(reply.value.payload) else Malformed;
        return outcome, Some(k);
      }
      alive := redis.HeartbeatExists();
      if !alive {
        return NoResponder, Some(k);
      }
      if redis.now >= replyDeadline {
        return RequestTimeout, Some(k);
      }
      redis.Sleep(o.pollInterval, key);
      NextPoll(t0, o, k);
      k := k + 1;
    }
  }

  lemma NextPoll(t0: nat, o: Options, k: nat)
    ensures PollTime(t0, o, k + 1) == PollTime(t0, o, k) + TimerDelay(o.pollInterval)
  {
  }

  lemma {:induction false} PollsIncrease(t0: nat, o: Options, j: nat, k: nat)
    requires j < k
    ensures PollTime(t0, o, j) + TimerDelay(o.pollInterval) <= PollTime(t0, o, k)
    decreases k
  {
    NextPoll(t0, o, k - 1);
    if j == k - 1 {
    } else {
      PollsIncrease(t0, o, j, k - 1);
    }
  }

  // ---------------------------------------------------------------- timing

  /** A reply is always found: written in time, outliving one poll gap, with the executor alive until then. */
  lemma TimelyReplyIsDelivered(w: World, t0: nat, o: Options, k: nat, outcome: Outcome)
    requires EndsAt(w, t0, o, k, outcome)
    requires w.reply.Some? && t0 <= w.reply.value.at <= t0 + o.replyTimeout
    requires w.reply.value.ttl > Max(TimerDelay(o.pollInterval), INITIAL_DELAY)
    requires forall j :: 0 <= j <= k && PollTime(t0, o, j) < w.reply.value.at ==> AliveAt(w, PollTime(t0, o, j))
    ensures outcome == if w.reply.value.wellFormed then Reply(w.reply.value.payload) else Malformed
    ensures w.reply.value.at <= PollTime(t0, o, k) < w.reply.value.at + w.reply.value.ttl
  {
    var at, end := w.reply.value.at, PollTime(t0, o, k);
    if end >= at {
      if k > 0 {
        NextPoll(t0, o, k - 1);
        assert KeepsWaiting(w, t0, o, PollTime(t0, o, k - 1));
        NotYetWritten(w, t0, o, k - 1);
      }
      assert Visible(w, end);
    }
  }

  /** Polls that kept waiting came before the write, since nothing written in time expires between polls. */
  lemma {:induction false} NotYetWritten(w: World, t0: nat, o: Options, k: nat)
    requires w.reply.Some? && t0 <= w.reply.value.at
    requires w.reply.value.ttl > Max(TimerDelay(o.pollInterval), INITIAL_DELAY)
    requires forall j :: 0 <= j <= k ==> !Visible(w, PollTime(t0, o, j))
    ensures PollTime(t0, o, k) < w.reply.value.at
  {
    if k == 0 {
    } else {
      NotYetWritten(w, t0, o, k - 1);
      NextPoll(t0, o, k - 1);
    }
    assert !Visible(w, PollTime(t0, o, k));
  }

  /** With delays that a timer can hold, the polls come at the initial delay or the time-out, then every interval. */
  lemma {:induction false} PollSchedule(t0: nat, o: Options, k: nat)
    requires 1 <= o.pollInterval < 0x8000_0000 && 1 <= o.replyTimeout
    ensures PollTime(t0, o, 0) == t0 + if o.replyTimeout < 200 then o.replyTimeout else 200
    ensures PollTime(t0, o, k) == PollTime(t0, o, 0) + k * o.pollInterval
  {
  }

  /** A delay that no timer can hold fires after one millisecond. */
  lemma OddDelaysFireAtOnce(ms: nat)
    ensures TimerDelay(ms) == 1 <==> ms <= 1 || ms >= 0x8000_0000
  {
  }

  /** What is true in the world when a request ends, whichever way it ends, and was not yet at its earlier polls. */
  lemma OutcomeMeaning(w: World, t0: nat, o: Options, k: nat, outcome: Outcome)
    requires EndsAt(w, t0, o, k, outcome)
    ensures var t := PollTime(t0, o, k);
      && (outcome.Reply? || outcome.Malformed? <==>
            w.reply.Some? && w.reply.value.at <= t && t < w.reply.value.at + w.reply.value.ttl)
      && (outcome.Reply? ==> w.reply.value.wellFormed && outcome.payload == w.reply.value.payload)
      && (outcome.Malformed? ==> !w.reply.value.wellFormed)
      && (outcome.NoResponder? ==>
            forall i :: 0 <= i < |w.beats| ==> t < w.beats[i] || w.beats[i] + w.beatTtl <= t)
      && (outcome.RequestTimeout? ==> t >= t0 + o.replyTimeout)
      && (outcome.RequestTimeout? ==>
            exists i :: 0 <= i < |w.beats| && w.beats[i] <= t < w.beats[i] + w.beatTtl)
    ensures forall j :: 0 <= j < k ==>
      var t := PollTime(t0, o, j);
      && t < t0 + o.replyTimeout
      && (w.reply.Some? ==> t < w.reply.value.at || w.reply.value.at + w.reply.value.ttl <= t)
      && exists i :: 0 <= i < |w.beats| && w.beats[i] <= t < w.beats[i] + w.beatTtl
  {
    forall j | 0 <= j < k ensures KeepsWaiting(w, t0, o, PollTime(t0, o, j)) {
    }
  }

  /** A poll that follows only polls that kept waiting comes less than one interval after the time-out. */
  lemma WaitingIsBounded(w: World, t0: nat, o: Options, k: nat)
    requires forall j :: 0 <= j < k ==> KeepsWaiting(w, t0, o, PollTime(t0, o, j))
    ensures PollTime(t0, o, k) < t0 + Max(o.replyTimeout, 1) + TimerDelay(o.pollInterval)
  {
    if k > 0 {
      NextPoll(t0, o, k - 1);
      assert KeepsWaiting(w, t0, o, PollTime(t0, o, k - 1));
    }
  }

  /** Whatever happens, the request ends less than one poll interval after its time-out. */
  lemma RequestIsBounded(w: World, t0: nat, o: Options, k: nat, outcome: Outcome)
    requires EndsAt(w, t0, o, k, outcome)
    ensures PollTime(t0, o, k) < t0 + Max(o.replyTimeout, 1) + TimerDelay(o.pollInterval)
  {
    WaitingIsBounded(w, t0, o, k);
  }

  /** After the executor's last beat, the request outlives the heartbeat key by less than one poll interval. */
  lemma DeadExecutorIsNoticed(w: World, t0: nat, o: Options, k: nat, outcome: Outcome, last: nat)
    requires EndsAt(w, t0, o, k, outcome)
    requires forall i :: 0 <= i < |w.beats| ==> w.beats[i] <= last
    ensures k == 0 || PollTime(t0, o, k) < last + w.beatTtl + TimerDelay(o.pollInterval)
  {
    if k > 0 {
      var t := PollTime(t0, o, k - 1);
      NextPoll(t0, o, k - 1);
      assert KeepsWaiting(w, t0, o, t);
      DeadAfterLastBeat(w.beats, w.beatTtl, last, t);
    }
  }

  /** With the executor's TTL, a dead executor is noticed within one and a half intervals and one poll. */
  lemma DeadExecutorIsNoticedInTime(w: World, t0: nat, o: Options, k: nat, outcome: Outcome, last: nat, interval: nat)
    requires EndsAt(w, t0, o, k, outcome)
    requires w.beatTtl == HeartbeatTtl(interval) && forall i :: 0 <= i < |w.beats| ==> w.beats[i] <= last
    ensures k == 0 || 2 * PollTime(t0, o, k) <= 2 * last + 3 * interval + 2 * TimerDelay(o.pollInterval)
  {
    DeadExecutorIsNoticed(w, t0, o, k, outcome, last);
  }

  /** The end of a request is determined by its world. */
  lemma EndIsUnique(w: World, t0: nat, o: Options, k: nat, a: Outcome, m: nat, b: Outcome)
    requires EndsAt(w, t0, o, k, a) && EndsAt(w, t0, o, m, b)
    ensures k == m && a == b
  {
    NotBoth(w, t0, o, PollTime(t0, o, k), a);
    NotBoth(w, t0, o, PollTime(t0, o, m), b);
  }

  lemma NotBoth(w: World, t0: nat, o: Options, t: nat, outcome: Outcome)
    ensures !(KeepsWaiting(w, t0, o, t) && EndsWith(w, t0, o, t, outcome))
  {
  }
}
