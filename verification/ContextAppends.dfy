/**
 Grouping of the context appends that a drained send() produces (collectContextAppends),
 against the effect of applying the same appends one by one.
 */
module ContextAppends {
  import opened Prelude

  type ThreadId = nat
  type Message = nat
  type Usage = nat

  /** An append event, or one entry of the collected batch. */
  datatype Append = Append(threadId: ThreadId, context: seq<Message>, usage: Option<Usage>)

  datatype Thread = Thread(context: seq<Message>, usage: Usage)

  type Threads = map<ThreadId, Thread>

  /** The store's handling of one append; an unknown thread is an error. */
  function ApplyOne(threads: Threads, a: Append): Option<Threads> {
    if a.threadId !in threads then None
    else
      var t := threads[a.threadId];
      Some(threads[a.threadId := Thread(t.context + a.context, if a.usage.Some? then a.usage.value else t.usage)])
  }

  function ApplyAll(threads: Threads, appends: seq<Append>): Option<Threads> {
    if appends == [] then Some(threads)
    else
      match ApplyOne(threads, appends[0])
      case None => None
      case Some(threads') => ApplyAll(threads', appends[1..])
  }

  /** The messages appended to one thread, in order. */
  function MessagesFor(appends: seq<Append>, id: ThreadId): seq<Message> {
    if appends == [] then []
    else (if appends[0].threadId == id then appends[0].context else []) + MessagesFor(appends[1..], id)
  }

  /** The last usage given for one thread, if any is. */
  function UsageFor(appends: seq<Append>, id: ThreadId): Option<Usage> {
    if appends == [] then None
    else
      var later := UsageFor(appends[1..], id);
      if later.None? && appends[0].threadId == id then appends[0].usage else later
  }

  lemma {:induction false} KnownThreadsOnly(threads: Threads, appends: seq<Append>)
    ensures ApplyAll(threads, appends).Some? <==> forall a :: a in appends ==> a.threadId in threads
    ensures ApplyAll(threads, appends).Some? ==> ApplyAll(threads, appends).value.Keys == threads.Keys
  {
    if appends == [] {
    } else {
      var a, rest := appends[0], appends[1..];
      assert appends == [a] + rest;
      if a.threadId in threads {
        var once := ApplyOne(threads, a).value;
        KnownThreadsOnly(once, rest);
        assert once.Keys == threads.Keys;
      }
    }
  }

  lemma {:induction false} ThreadAfter(threads: Threads, appends: seq<Append>, id: ThreadId)
    requires id in threads && ApplyAll(threads, appends).Some? && id in ApplyAll(threads, appends).value
    ensures var after, usage := ApplyAll(threads, appends).value[id], UsageFor(appends, id);
      && after.context == threads[id].context + MessagesFor(appends, id)
      && after.usage == if usage.Some? then usage.value else threads[id].usage
  {
    if appends == [] {
    } else {
      var a, rest := appends[0], appends[1..];
      ThreadAfter(ApplyOne(threads, a).value, rest, id);
      var later := MessagesFor(rest, id);
      assert threads[id].context + a.context + later == threads[id].context + (a.context + later);
      assert [] + later == later;
    }
  }

  /**
   A batch is taken in exactly when it names known threads only, and then every thread has its messages at the end of
   its context, in order, and the last usage given for it.
   */
  lemma AppendsTakenIn(threads: Threads, appends: seq<Append>)
    ensures ApplyAll(threads, appends).Some? <==> forall a :: a in appends ==> a.threadId in threads
    ensures ApplyAll(threads, appends).Some? ==>
      var after := ApplyAll(threads, appends).value;
      && after.Keys == threads.Keys
      && forall id :: id in threads ==>
           && after[id].context == threads[id].context + MessagesFor(appends, id)
           && after[id].usage == if UsageFor(appends, id).Some? then UsageFor(appends, id).value else threads[id].usage
  {
    hide ApplyAll, MessagesFor, UsageFor;
    KnownThreadsOnly(threads, appends);
    if ApplyAll(threads, appends).Some? {
      forall id | id in threads
        ensures id in ApplyAll(threads, appends).value
        ensures var after, usage := ApplyAll(threads, appends).value[id], UsageFor(appends, id);
          && after.context == threads[id].context + MessagesFor(appends, id)
          && after.usage == if usage.Some? then usage.value else threads[id].usage {
        assert id in ApplyAll(threads, appends).value.Keys;
        ThreadAfter(threads, appends, id);
      }
    }
  }

  function Merge(a: Append, b: Append): (m: Append)
    ensures m.threadId == a.threadId
  {
    Append(a.threadId, a.context + b.context, if b.usage.Some? then b.usage else a.usage)
  }

  lemma {:induction false} ApplyConcat(threads: Threads, xs: seq<Append>, ys: seq<Append>)
    ensures ApplyAll(threads, xs + ys) ==
      match ApplyAll(threads, xs) case None => None case Some(threads') => ApplyAll(threads', ys)
  {
    if xs == [] {
      assert xs + ys == ys;
    } else {
      assert (xs + ys)[1..] == xs[1..] + ys;
      if xs[0].threadId in threads {
        ApplyConcat(ApplyOne(threads, xs[0]).value, xs[1..], ys);
      }
    }
  }

  lemma ApplyMerged(threads: Threads, a: Append, b: Append)
    requires a.threadId == b.threadId
    ensures ApplyAll(threads, [Merge(a, b)]) == ApplyAll(threads, [a, b])
  {
    assert [a, b][1..] == [b] && [b][1..] == [] && [Merge(a, b)][1..] == [];
    if a.threadId in threads {
      var t := threads[a.threadId];
      assert t.context + a.context + b.context == t.context + (a.context + b.context);
      var once := ApplyOne(threads, a).value;
      assert ApplyOne(once, b).value == ApplyOne(threads, Merge(a, b)).value;
    }
  }

  /** Appends to different threads commute. */
  lemma Commute(threads: Threads, a: Append, b: Append)
    requires a.threadId != b.threadId
    ensures ApplyAll(threads, [a, b]) == ApplyAll(threads, [b, a])
  {
    assert [a, b][1..] == [b] && [b, a][1..] == [a];
    if a.threadId in threads && b.threadId in threads {
      assert ApplyOne(ApplyOne(threads, a).value, b).value == ApplyOne(ApplyOne(threads, b).value, a).value;
    }
  }

  lemma {:induction false} MoveToEnd(threads: Threads, a: Append, ys: seq<Append>)
    requires forall y :: y in ys ==> y.threadId != a.threadId
    ensures ApplyAll(threads, [a] + ys) == ApplyAll(threads, ys + [a])
  {
    if ys == [] {
      assert [a] + ys == ys + [a];
    } else {
      var y, rest := ys[0], ys[1..];
      assert [a] + ys == [a, y] + rest && [y, a] + rest == [y] + ([a] + rest) && ys + [a] == [y] + (rest + [a]);
      Commute(threads, a, y);
      ApplyConcat(threads, [a, y], rest);
      ApplyConcat(threads, [y, a], rest);
      ApplyConcat(threads, [y], [a] + rest);
      ApplyConcat(threads, [y], rest + [a]);
      if y.threadId in threads {
        MoveToEnd(ApplyOne(threads, y).value, a, rest);
        assert ApplyAll(threads, [y]) == ApplyOne(threads, y);
      }
    }
  }

  predicate Distinct(batch: seq<Append>) {
    forall i, j :: 0 <= i < j < |batch| ==> batch[i].threadId != batch[j].threadId
  }

  /** Merging an event into its thread's entry has the effect of appending it at the end. */
  lemma MergeIntoSlot(threads: Threads, batch: seq<Append>, k: nat, e: Append)
    requires Distinct(batch) && k < |batch| && batch[k].threadId == e.threadId
    ensures ApplyAll(threads, batch[k := Merge(batch[k], e)]) == ApplyAll(threads, batch + [e])
  {
    var pre, a, post := batch[..k], batch[k], batch[k + 1..];
    assert batch[k := Merge(a, e)] == pre + ([Merge(a, e)] + post);
    assert batch + [e] == pre + ([a] + (post + [e])) && [a] + ([e] + post) == [a, e] + post;
    ApplyConcat(threads, pre, [Merge(a, e)] + post);
    ApplyConcat(threads, pre, [a] + (post + [e]));
    if ApplyAll(threads, pre).Some? {
      var t := ApplyAll(threads, pre).value;
      ApplyMerged(t, a, e);
      ApplyConcat(t, [Merge(a, e)], post);
      ApplyConcat(t, [a, e], post);
      ApplyConcat(t, [a], [e] + post);
      ApplyConcat(t, [a], post + [e]);
      if ApplyAll(t, [a]).Some? {
        MoveToEnd(ApplyAll(t, [a]).value, e, post);
      }
    }
  }

  /** Equal results on every set of threads, known and unknown. */
  ghost predicate SameEffect(xs: seq<Append>, ys: seq<Append>) {
    forall threads: Threads :: ApplyAll(threads, xs) == ApplyAll(threads, ys)
  }

  lemma SameEffectExtends(xs: seq<Append>, ys: seq<Append>, e: Append)
    requires SameEffect(xs, ys)
    ensures SameEffect(xs + [e], ys + [e])
  {
    forall threads: Threads ensures ApplyAll(threads, xs + [e]) == ApplyAll(threads, ys + [e]) {
      ApplyConcat(threads, xs, [e]);
      ApplyConcat(threads, ys, [e]);
    }
  }

  lemma SameEffectMerges(batch: seq<Append>, ys: seq<Append>, k: nat, e: Append)
    requires SameEffect(batch, ys) && Distinct(batch) && k < |batch| && batch[k].threadId == e.threadId
    ensures SameEffect(batch[k := Merge(batch[k], e)], ys + [e])
  {
    SameEffectExtends(batch, ys, e);
    forall threads: Threads
      ensures ApplyAll(threads, batch[k := Merge(batch[k], e)]) == ApplyAll(threads, batch + [e])
    {
      MergeIntoSlot(threads, batch, k, e);
    }
  }

  /** The appends for one thread, merged in arrival order. */
  ghost function MergedFor(events: seq<Append>, id: ThreadId): Option<Append> {
    if events == [] then None
    else
      var before, e := MergedFor(events[..|events| - 1], id), events[|events| - 1];
      if e.threadId != id then before
      else if before.None? then Some(e)
      else Some(Merge(before.value, e))
  }

  /** `slots` maps each seen thread to its entry of the batch, and the entry holds its merged appends. */
  ghost predicate Holds(slots: map<ThreadId, nat>, batch: seq<Append>, seen: seq<Append>) {
    && Distinct(batch)
    && (forall id :: id in slots ==>
        slots[id] < |batch| && batch[slots[id]].threadId == id && MergedFor(seen, id) == Some(batch[slots[id]]))
    && (forall k :: 0 <= k < |batch| ==> batch[k].threadId in slots)
    && (forall id :: id !in slots ==> MergedFor(seen, id) == None)
  }

  lemma HoldsAfter(slots: map<ThreadId, nat>, batch: seq<Append>, seen: seq<Append>, e: Append)
    requires Holds(slots, batch, seen)
    ensures e.threadId in slots ==>
      Holds(slots, batch[slots[e.threadId] := Merge(batch[slots[e.threadId]], e)], seen + [e])
    ensures e.threadId !in slots ==> Holds(slots[e.threadId := |batch|], batch + [e], seen + [e])
  {
    assert (seen + [e])[..|seen|] == seen;
  }

  lemma {:induction false} NoAppendsMissed(seen: seq<Append>, id: ThreadId)
    ensures MergedFor(seen, id).Some? <==> exists e :: e in seen && e.threadId == id
  {
    if seen == [] {
    } else {
      NoAppendsMissed(seen[..|seen| - 1], id);
      assert seen == seen[..|seen| - 1] + [seen[|seen| - 1]];
    }
  }

  /**
   Groups the events by thread. `slots` and `batch` together are the source's insertion-ordered Map.
   The batch has the same effect as the stream, and each entry holds its thread's messages in order.
   */
  method CollectContextAppends(events: seq<Append>) returns (batch: seq<Append>)
    ensures SameEffect(batch, events)
    ensures Distinct(batch)
    ensures forall b :: b in batch ==> MergedFor(events, b.threadId) == Some(b)
    ensures forall e :: e in events ==> exists b :: b in batch && b.threadId == e.threadId
  {
    batch := [];
    var slots: map<ThreadId, nat> := map[];
    var i := 0;
    while i < |events|
      invariant i <= |events| && Holds(slots, batch, events[..i]) && SameEffect(batch, events[..i])
    {
      hide SameEffect, ApplyAll, MergedFor, Merge;
      var e := events[i];
      assert events[..i + 1] == events[..i] + [e];
      HoldsAfter(slots, batch, events[..i], e);
      if e.threadId in slots {
        var k := slots[e.threadId];
        SameEffectMerges(batch, events[..i], k, e);
        batch := batch[k := Merge(batch[k], e)];
      } else {
        SameEffectExtends(batch, events[..i], e);
        slots := slots[e.threadId := |batch|];
        batch := batch + [e];
      }
      i := i + 1;
    }
    assert events[..i] == events;
    forall e | e in events ensures exists b :: b in batch && b.threadId == e.threadId {
      NoAppendsMissed(events, e.threadId);
      assert batch[slots[e.threadId]] in batch;
    }
  }
}
