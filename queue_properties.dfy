/**
 * What the per-key job queue of src/queue_job.js guarantees, proved about the
 * state machine of module QueueSpec: the invariant `Inv` (registry membership,
 * FIFO order, one job in flight per key, a promise pending exactly while its
 * job waits) holds after every event, and each event does what the code says.
 */
module QueueProperties {
  import opened Wrappers
  import opened QueueTrace
  import opened QueueSpec

  // ---------------------------------------------------------------------------
  // The per-key view under single events

  /** Dropping the front of the unsettled jobs keeps them owned and distinct. */
  lemma OwnedTail<K>(id: JobId, rest: seq<JobId>, owner: map<JobId, K>, k: K)
    requires Owned([id] + rest, owner, k)
    ensures Owned(rest, owner, k) && id !in rest
  {
    var w := [id] + rest;
    forall j | 0 <= j < |rest| ensures rest[j] == w[j + 1] && rest[j] != id {
      assert w[0] != w[j + 1];
    }
  }

  /** A fresh job id appended to key `k`'s unsettled jobs. */
  lemma OwnedExtend<K>(w: seq<JobId>, owner: map<JobId, K>, k: K, id: JobId)
    requires Owned(w, owner, k) && id !in owner
    ensures Owned(w + [id], owner[id := k], k)
  {
  }

  /** Recording the owner of a fresh job id does not disturb another key. */
  lemma OwnedFresh<K>(w: seq<JobId>, owner: map<JobId, K>, k: K, id: JobId, k': K)
    requires Owned(w, owner, k) && id !in owner
    ensures Owned(w, owner[id := k'], k)
  {
  }

  /** Lines 37-43 for a job whose awaitable throws: it starts and is rejected at once. */
  lemma StartAndRejectView<K>(t: seq<Event<K>>, k: K, id: JobId, rest: seq<JobId>)
    requires Fifo(t, [id] + rest) && Exclusive(t, None)
    ensures var t' := t + [Event(Start, k, id)] + [Event(Finish, k, id)];
            Fifo(t', rest) && Exclusive(t', None)
  {
    var st, fi := Event(Start, k, id), Event(Finish, k, id);
    IdsOfAppend(t, st, Start);
    IdsOfAppend(t, st, Submit);
    IdsOfAppend(t + [st], fi, Start);
    IdsOfAppend(t + [st], fi, Submit);
    OpenAppend(t, st);
    OpenAppend(t + [st], fi);
    SerialAppend(t, st);
    SerialAppend(t + [st], fi);
    assert IdsOf(t, Start) + [id] + rest == IdsOf(t, Start) + ([id] + rest);
  }

  /** Lines 37-39 for a job whose awaitable returns: it starts and the loop awaits it. */
  lemma StartAndAwaitView<K>(t: seq<Event<K>>, k: K, id: JobId, rest: seq<JobId>)
    requires Fifo(t, [id] + rest) && Exclusive(t, None)
    ensures var t' := t + [Event(Start, k, id)];
            Fifo(t', rest) && Exclusive(t', Some(id))
  {
    var st := Event(Start, k, id);
    IdsOfAppend(t, st, Start);
    IdsOfAppend(t, st, Submit);
    OpenAppend(t, st);
    SerialAppend(t, st);
    assert IdsOf(t, Start) + [id] + rest == IdsOf(t, Start) + ([id] + rest);
  }

  /** Lines 40-43 after the await: the awaited job's promise is settled. */
  lemma SettleAwaitedView<K>(t: seq<Event<K>>, k: K, id: JobId, queued: seq<JobId>)
    requires Fifo(t, queued) && Exclusive(t, Some(id))
    ensures var t' := t + [Event(Finish, k, id)];
            Fifo(t', queued) && Exclusive(t', None)
  {
    var fi := Event(Finish, k, id);
    IdsOfAppend(t, fi, Start);
    IdsOfAppend(t, fi, Submit);
    OpenAppend(t, fi);
    SerialAppend(t, fi);
  }

  /** Line 19: a job is pushed at the end of the queue. */
  lemma SubmitView<K>(t: seq<Event<K>>, k: K, id: JobId, queued: seq<JobId>, awaited: Option<JobId>)
    requires Fifo(t, queued) && Exclusive(t, awaited)
    ensures var t' := t + [Event(Submit, k, id)];
            Fifo(t', queued + [id]) && Exclusive(t', awaited)
  {
    var su := Event(Submit, k, id);
    IdsOfAppend(t, su, Start);
    IdsOfAppend(t, su, Submit);
    OpenAppend(t, su);
    SerialAppend(t, su);
  }

  // ---------------------------------------------------------------------------
  // Steps on one key keep the other keys

  lemma TraceAppendAll<K(!new)>(log: seq<Event<K>>, e: Event<K>)
    ensures forall k' :: Trace(log + [e], k') == Trace(log, k') + (if e.key == k' then [e] else [])
  {
    forall k' ensures Trace(log + [e], k') == Trace(log, k') + (if e.key == k' then [e] else []) {
      TraceAppend(log, e, k');
    }
  }

  /** The relation between the states before and after a step that touches only key `k`. */
  ghost predicate StepOn<K(!new), V>(s: Registry<K, V>, r: Registry<K, V>, k: K) {
    && r.owner == s.owner && r.nextId == s.nextId && r.promises.Keys == s.promises.Keys
    && r.buckets - {k} == s.buckets - {k} && r.awaiting - {k} == s.awaiting - {k}
    && (forall k' :: k' != k ==> Trace(r.log, k') == Trace(s.log, k'))
    && (forall id :: id in r.promises && id in r.owner && r.owner[id] != k ==> r.promises[id] == s.promises[id])
  }

  lemma OtherKeyView<K(!new), V>(s: Registry<K, V>, r: Registry<K, V>, k: K, k': K)
    requires r.buckets - {k} == s.buckets - {k} && r.awaiting - {k} == s.awaiting - {k} && k' != k
    ensures Queued(r, k') == Queued(s, k') && Awaited(r, k') == Awaited(s, k')
    ensures Waiting(r, k') == Waiting(s, k')
  {
    assert k' in r.buckets <==> k' in r.buckets - {k};
    assert k' in s.buckets <==> k' in s.buckets - {k};
    assert k' in r.awaiting <==> k' in r.awaiting - {k};
    assert k' in s.awaiting <==> k' in s.awaiting - {k};
    if k' in r.buckets {
      assert r.buckets[k'] == (r.buckets - {k})[k'];
      assert s.buckets[k'] == (s.buckets - {k})[k'];
    }
    if k' in r.awaiting {
      assert r.awaiting[k'] == (r.awaiting - {k})[k'];
      assert s.awaiting[k'] == (s.awaiting - {k})[k'];
    }
  }

  /**
   * A step on key `k` keeps the shared part of the invariant, given that `k`'s
   * own view is consistent afterwards and its promises are pending exactly
   * while its jobs wait.
   */
  lemma CommonAfterStep<K(!new), V>(s: Registry<K, V>, r: Registry<K, V>, k: K)
    requires Common(s) && StepOn(s, r, k) && PerKey(r, k)
    requires forall id :: id in r.promises && id in r.owner && r.owner[id] == k ==>
               (r.promises[id] == Pending <==> id in Waiting(r, k))
    ensures Common(r)
  {
    forall k' ensures PerKey(r, k') {
      if k' != k {
        OtherKeyView(s, r, k, k');
        assert PerKey(s, k');
      }
    }
    forall id | id in r.promises
      ensures r.promises[id] == Pending <==> id in Waiting(r, r.owner[id])
    {
      if r.owner[id] != k {
        OtherKeyView(s, r, k, r.owner[id]);
      }
    }
  }

  // ---------------------------------------------------------------------------
  // The drain loop

  /** The drain loop of `k` goes on after replacing its queue by `q`. */
  lemma QueueUpdateKeepsDraining<K(!new), V>(s: Registry<K, V>, r: Registry<K, V>, k: K, q: seq<Job<V>>)
    requires k in s.buckets && AllActive(s) && s.awaiting.Keys == s.buckets.Keys - {k}
    requires r.buckets == s.buckets[k := s.buckets[k].(queue := q)] && r.awaiting == s.awaiting
    requires Common(r)
    ensures Draining(r, k)
  {
  }

  /** The drain loop of `k` suspends awaiting `job` after replacing its queue by `q`. */
  lemma SuspendRestoresInv<K(!new), V>(s: Registry<K, V>, r: Registry<K, V>, k: K, q: seq<Job<V>>, job: Job<V>)
    requires k in s.buckets && AllActive(s) && s.awaiting.Keys == s.buckets.Keys - {k}
    requires r.buckets == s.buckets[k := s.buckets[k].(queue := q)] && r.awaiting == s.awaiting[k := job]
    requires Common(r)
    ensures Inv(r)
  {
  }

  /** The front job of an idle key's queue is pending, and owned by that key. */
  lemma FrontOwned<K(!new), V>(s: Registry<K, V>, k: K)
    requires k in s.buckets && k !in s.awaiting && s.buckets[k].queue != []
    requires PerKey(s, k) && PromisesTracked(s)
    ensures var id := s.buckets[k].queue[0].id;
            id in s.promises && id in s.owner && s.owner[id] == k
  {
    assert Waiting(s, k)[0] == s.buckets[k].queue[0].id;
  }

  /** The state after the front job of `k` was started and rejected at once. */
  function AfterThrow<K(==, !new), V>(s: Registry<K, V>, k: K): Registry<K, V>
    requires k in s.buckets && s.buckets[k].queue != [] && s.buckets[k].queue[0].call.Throws?
  {
    var job := s.buckets[k].queue[0];
    Settle(StartFront(s, k), k, job.id, Rejected(job.call.error))
  }

  lemma AfterThrowShape<K(!new), V>(s: Registry<K, V>, k: K)
    requires k in s.buckets && k !in s.awaiting && s.buckets[k].queue != [] && s.buckets[k].queue[0].call.Throws?
    requires var id := s.buckets[k].queue[0].id; id in s.promises && id in s.owner && s.owner[id] == k
    ensures var r, q := AfterThrow(s, k), s.buckets[k].queue;
            && StepOn(s, r, k)
            && r.buckets == s.buckets[k := s.buckets[k].(queue := q[1..])] && r.awaiting == s.awaiting
            && Trace(r.log, k) == Trace(s.log, k) + [Event(Start, k, q[0].id)] + [Event(Finish, k, q[0].id)]
            && Queued(s, k) == Waiting(s, k) == [q[0].id] + JobIds(q[1..])
            && Queued(r, k) == Waiting(r, k) == JobIds(q[1..])
            && r.promises == s.promises[q[0].id := Settled(Rejected(q[0].call.error))]
  {
    var q := s.buckets[k].queue;
    var r := AfterThrow(s, k);
    var st, fi := Event(Start, k, q[0].id), Event(Finish, k, q[0].id);
    assert r.log == s.log + [st] + [fi];
    TraceAppendAll(s.log, st);
    TraceAppendAll(s.log + [st], fi);
  }

  lemma AfterThrowKey<K(!new), V>(s: Registry<K, V>, k: K)
    requires k in s.buckets && k !in s.awaiting && s.buckets[k].queue != [] && s.buckets[k].queue[0].call.Throws?
    requires PerKey(s, k) && PromisesTracked(s)
    ensures var r := AfterThrow(s, k);
            && PerKey(r, k)
            && forall id :: id in r.promises && id in r.owner && r.owner[id] == k ==>
                 (r.promises[id] == Pending <==> id in Waiting(r, k))
  {
    var q := s.buckets[k].queue;
    var id0, rest := q[0].id, JobIds(q[1..]);
    var r := AfterThrow(s, k);
    FrontOwned(s, k);
    AfterThrowShape(s, k);
    StartAndRejectView(Trace(s.log, k), k, id0, rest);
    OwnedTail(id0, rest, s.owner, k);
    forall id | id in r.promises && id in r.owner && r.owner[id] == k
      ensures r.promises[id] == Pending <==> id in Waiting(r, k)
    {
      if id != id0 {
        assert id in Waiting(s, k) <==> id in rest;
      }
    }
  }

  /** A job whose awaitable throws at once is started and rejected in the same turn (lines 37-43). */
  lemma ThrowingJobKeepsDraining<K(!new), V>(s: Registry<K, V>, k: K)
    requires Draining(s, k) && s.buckets[k].queue != []
    requires s.buckets[k].queue[0].call.Throws?
    ensures Draining(AfterThrow(s, k), k)
  {
    var r := AfterThrow(s, k);
    assert PerKey(s, k);
    FrontOwned(s, k);
    assert Common(r) by {
      AfterThrowShape(s, k);
      AfterThrowKey(s, k);
      CommonAfterStep(s, r, k);
    }
    AfterThrowShape(s, k);
    QueueUpdateKeepsDraining(s, r, k, s.buckets[k].queue[1..]);
  }

  /** The state after the front job of `k` was started and its loop suspended awaiting it. */
  function AfterSuspend<K(==, !new), V>(s: Registry<K, V>, k: K): Registry<K, V>
    requires k in s.buckets && s.buckets[k].queue != []
  {
    var s1 := StartFront(s, k);
    s1.(awaiting := s1.awaiting[k := s.buckets[k].queue[0]])
  }

  lemma AfterSuspendShape<K(!new), V>(s: Registry<K, V>, k: K)
    requires k in s.buckets && k !in s.awaiting && s.buckets[k].queue != []
    ensures var r, q := AfterSuspend(s, k), s.buckets[k].queue;
            && StepOn(s, r, k)
            && Trace(r.log, k) == Trace(s.log, k) + [Event(Start, k, q[0].id)]
            && Queued(s, k) == Waiting(s, k) == [q[0].id] + JobIds(q[1..])
            && Queued(r, k) == JobIds(q[1..]) && Awaited(r, k) == Some(q[0].id)
            && Waiting(r, k) == Waiting(s, k)
            && r.promises == s.promises
            && r.buckets == s.buckets[k := s.buckets[k].(queue := q[1..])]
            && r.awaiting == s.awaiting[k := q[0]]
  {
    TraceAppendAll(s.log, Event(Start, k, s.buckets[k].queue[0].id));
  }

  /** A job whose awaitable returns is started and the loop suspends awaiting it (line 39). */
  lemma SuspendingJobRestoresInv<K(!new), V>(s: Registry<K, V>, k: K)
    requires Draining(s, k) && s.buckets[k].queue != []
    requires s.buckets[k].queue[0].call.Suspends?
    ensures Inv(AfterSuspend(s, k))
  {
    var q := s.buckets[k].queue;
    var r := AfterSuspend(s, k);
    assert Common(r) by {
      AfterSuspendShape(s, k);
      assert PerKey(s, k);
      StartAndAwaitView(Trace(s.log, k), k, q[0].id, JobIds(q[1..]));
      CommonAfterStep(s, r, k);
    }
    AfterSuspendShape(s, k);
    SuspendRestoresInv(s, r, k, q[1..], q[0]);
  }

  /** Lines 46-49: the loop finds the queue empty, clears `active` and deletes the bucket. */
  lemma RetireRestoresInv<K(!new), V>(s: Registry<K, V>, k: K)
    requires Draining(s, k) && s.buckets[k].queue == []
    ensures Inv(s.(buckets := s.buckets - {k}))
  {
    var r := s.(buckets := s.buckets - {k});
    assert StepOn(s, r, k);
    assert PerKey(s, k);
    assert Queued(r, k) == Queued(s, k) == [];
    assert Waiting(r, k) == Waiting(s, k);
    assert PerKey(r, k);
    CommonAfterStep(s, r, k);
  }

  /** A drain loop started or resumed on a consistent state leaves a consistent state between turns. */
  lemma {:induction false} DrainRestoresInv<K(!new), V>(s: Registry<K, V>, k: K)
    requires Draining(s, k)
    ensures Inv(Drain(s, k))
    decreases |s.buckets[k].queue|
  {
    var q := s.buckets[k].queue;
    if q == [] {
      RetireRestoresInv(s, k);
    } else {
      match q[0].call
      case Throws(e) =>
        ThrowingJobKeepsDraining(s, k);
        DrainRestoresInv(AfterThrow(s, k), k);
      case Suspends =>
        SuspendingJobRestoresInv(s, k);
    }
  }

  // ---------------------------------------------------------------------------
  // Submitting (lines 11-28)

  lemma JobIdsAppend<V>(q: seq<Job<V>>, job: Job<V>)
    ensures JobIds(q + [job]) == JobIds(q) + [job.id]
  {
  }

  /** The shape of the state after lines 12-20. */
  lemma EnqueueShape<K(!new), V>(s: Registry<K, V>, k: K, call: Call<V>)
    ensures var r, id := Enqueue(s, k, call), s.nextId;
            var old_q := if k in s.buckets then s.buckets[k].queue else [];
            && r.buckets == s.buckets[k := Bucket(old_q + [Job(id, call)], k in s.buckets && s.buckets[k].active)]
            && r.awaiting == s.awaiting
            && r.promises == s.promises[id := Pending]
            && r.owner == s.owner[id := k]
            && r.nextId == id + 1
            && r.log == s.log + [Event(Submit, k, id)]
            && Queued(r, k) == Queued(s, k) + [id]
            && Awaited(r, k) == Awaited(s, k)
            && Waiting(r, k) == Waiting(s, k) + [id]
            && (forall k' :: k' != k ==> Queued(r, k') == Queued(s, k') && Awaited(r, k') == Awaited(s, k'))
            && (forall k' :: Trace(r.log, k') == Trace(s.log, k') + (if k' == k then [Event(Submit, k, id)] else []))
  {
    var old_q := if k in s.buckets then s.buckets[k].queue else [];
    JobIdsAppend(old_q, Job(s.nextId, call));
    TraceAppendAll(s.log, Event(Submit, k, s.nextId));
  }

  /** The new job's id is fresh: no promise, owner or waiting job has it yet. */
  lemma FreshId<K(!new), V>(s: Registry<K, V>)
    requires PromisesTracked(s)
    ensures s.nextId !in s.promises && s.nextId !in s.owner
  {
  }

  lemma EnqueuePerKey<K(!new), V>(s: Registry<K, V>, k: K, call: Call<V>, k': K)
    requires PerKey(s, k') && PromisesTracked(s)
    ensures PerKey(Enqueue(s, k, call), k')
  {
    var r, id := Enqueue(s, k, call), s.nextId;
    EnqueueShape(s, k, call);
    FreshId(s);
    if k' == k {
      assert Trace(r.log, k) == Trace(s.log, k) + [Event(Submit, k, id)];
      SubmitView(Trace(s.log, k), k, id, Queued(s, k), Awaited(s, k));
      OwnedExtend(Waiting(s, k), s.owner, k, id);
    } else {
      assert Trace(r.log, k') == Trace(s.log, k');
      assert Queued(r, k') == Queued(s, k') && Awaited(r, k') == Awaited(s, k');
      OwnedFresh(Waiting(s, k'), s.owner, k', id, k);
    }
  }

  lemma EnqueueKeepsCommon<K(!new), V>(s: Registry<K, V>, k: K, call: Call<V>)
    requires Common(s)
    ensures Common(Enqueue(s, k, call))
  {
    var r, id := Enqueue(s, k, call), s.nextId;
    forall k' ensures PerKey(r, k') {
      assert PerKey(s, k');
      EnqueuePerKey(s, k, call, k');
    }
    EnqueuePromises(s, k, call);
  }

  lemma EnqueuePromises<K(!new), V>(s: Registry<K, V>, k: K, call: Call<V>)
    requires PromisesTracked(s)
    ensures PromisesTracked(Enqueue(s, k, call))
  {
    var r := Enqueue(s, k, call);
    assert r.owner.Keys == r.promises.Keys && forall id :: id in r.promises ==> id < r.nextId by {
      EnqueueShape(s, k, call);
    }
    forall i | i in r.promises
      ensures r.promises[i] == Pending <==> i in Waiting(r, r.owner[i])
    {
      EnqueuePromiseOf(s, k, call, i);
    }
  }

  lemma EnqueuePromiseOf<K(!new), V>(s: Registry<K, V>, k: K, call: Call<V>, i: JobId)
    requires PromisesTracked(s) && i in Enqueue(s, k, call).promises
    ensures var r := Enqueue(s, k, call);
            r.promises[i] == Pending <==> i in Waiting(r, r.owner[i])
  {
    var r, id := Enqueue(s, k, call), s.nextId;
    EnqueueShape(s, k, call);
    if i == id {
      assert Waiting(r, k)[|Waiting(r, k)| - 1] == id;
    } else if r.owner[i] == k {
      assert i in Waiting(s, k) <==> i in Waiting(r, k);
    } else {
      assert Waiting(r, r.owner[i]) == Waiting(s, r.owner[i]);
    }
  }

  /** Setting a bucket's `active` flag does not change the shared part of the invariant. */
  lemma CommonIgnoresActive<K(!new), V>(s: Registry<K, V>, k: K, active: bool)
    requires Common(s) && k in s.buckets
    ensures Common(s.(buckets := s.buckets[k := s.buckets[k].(active := active)]))
  {
    var r := s.(buckets := s.buckets[k := s.buckets[k].(active := active)]);
    forall k' ensures PerKey(r, k') && Waiting(r, k') == Waiting(s, k') {
      assert PerKey(s, k');
      PerKeyIgnoresActive(s, k, active, k');
    }
  }

  lemma PerKeyIgnoresActive<K(!new), V>(s: Registry<K, V>, k: K, active: bool, k': K)
    requires PerKey(s, k') && k in s.buckets
    ensures var r := s.(buckets := s.buckets[k := s.buckets[k].(active := active)]);
            PerKey(r, k') && Waiting(r, k') == Waiting(s, k')
  {
    var r := s.(buckets := s.buckets[k := s.buckets[k].(active := active)]);
    assert Queued(r, k') == Queued(s, k') by {
      if k' == k {
        assert r.buckets[k].queue == s.buckets[k].queue;
      }
    }
    assert Awaited(r, k') == Awaited(s, k');
  }

  /**
   * Submitting keeps the invariant, and touches no other key's bucket or
   * drain loop (keys are independent).
   */
  lemma SubmitKeepsInvariant<K(!new), V>(s: Registry<K, V>, k: K, call: Call<V>)
    requires Inv(s)
    ensures var r := SubmitStep(s, k, call);
            && Inv(r)
            && r.buckets - {k} == s.buckets - {k}
            && r.awaiting - {k} == s.awaiting - {k}
  {
    var r1 := Enqueue(s, k, call);
    EnqueueShape(s, k, call);
    EnqueueKeepsCommon(s, k, call);
    if k in s.buckets {
      assert s.buckets[k].active;
    } else {
      var ra := r1.(buckets := r1.buckets[k := r1.buckets[k].(active := true)]);
      assert Draining(ra, k) by {
        CommonIgnoresActive(r1, k, true);
      }
      DrainRestoresInv(ra, k);
    }
  }

  // ---------------------------------------------------------------------------
  // Resuming a suspended drain loop (lines 39-44, then 36 again)

  /** The state after the awaited job of `k` settled with `o`, before the loop looks at the queue again. */
  function AfterSettle<K(==, !new), V>(s: Registry<K, V>, k: K, o: Outcome<V>): Registry<K, V>
    requires k in s.awaiting
  {
    Settle(s.(awaiting := s.awaiting - {k}), k, s.awaiting[k].id, o)
  }

  /** The awaited job of a suspended loop is pending, and owned by its key. */
  lemma AwaitedOwned<K(!new), V>(s: Registry<K, V>, k: K)
    requires k in s.awaiting && PerKey(s, k) && PromisesTracked(s)
    ensures var id := s.awaiting[k].id;
            id in s.promises && id in s.owner && s.owner[id] == k
  {
    assert Waiting(s, k)[0] == s.awaiting[k].id;
  }

  lemma AfterSettleShape<K(!new), V>(s: Registry<K, V>, k: K, o: Outcome<V>)
    requires k in s.awaiting && k in s.buckets
    requires var id := s.awaiting[k].id; id in s.promises && id in s.owner && s.owner[id] == k
    ensures var r, id := AfterSettle(s, k, o), s.awaiting[k].id;
            && StepOn(s, r, k)
            && r.buckets == s.buckets && r.awaiting == s.awaiting - {k}
            && Trace(r.log, k) == Trace(s.log, k) + [Event(Finish, k, id)]
            && Waiting(s, k) == [id] + Queued(s, k)
            && Queued(r, k) == Waiting(r, k) == Queued(s, k)
            && r.promises == s.promises[id := Settled(o)]
  {
    TraceAppendAll(s.log, Event(Finish, k, s.awaiting[k].id));
  }

  lemma AfterSettleKey<K(!new), V>(s: Registry<K, V>, k: K, o: Outcome<V>)
    requires k in s.awaiting && k in s.buckets
    requires PerKey(s, k) && PromisesTracked(s)
    ensures var r := AfterSettle(s, k, o);
            && PerKey(r, k)
            && forall id :: id in r.promises && id in r.owner && r.owner[id] == k ==>
                 (r.promises[id] == Pending <==> id in Waiting(r, k))
  {
    var id := s.awaiting[k].id;
    var r := AfterSettle(s, k, o);
    AwaitedOwned(s, k);
    AfterSettleShape(s, k, o);
    SettleAwaitedView(Trace(s.log, k), k, id, Queued(s, k));
    OwnedTail(id, Queued(s, k), s.owner, k);
    forall i | i in r.promises && i in r.owner && r.owner[i] == k
      ensures r.promises[i] == Pending <==> i in Waiting(r, k)
    {
      if i != id {
        assert i in Waiting(s, k) <==> i in Waiting(r, k);
      }
    }
  }

  /** The drain loop of `k` goes on once its awaited job is no longer awaited. */
  lemma SettleKeepsDraining<K(!new), V>(s: Registry<K, V>, r: Registry<K, V>, k: K)
    requires k in s.buckets && AllActive(s) && s.awaiting.Keys == s.buckets.Keys
    requires r.buckets == s.buckets && r.awaiting == s.awaiting - {k}
    requires Common(r)
    ensures Draining(r, k)
  {
  }

  /** Lines 39-44: the awaited job settles, and the loop goes on with the queue. */
  lemma AfterSettleKeepsDraining<K(!new), V>(s: Registry<K, V>, k: K, o: Outcome<V>)
    requires Inv(s) && k in s.awaiting && k in s.buckets
    ensures Draining(AfterSettle(s, k, o), k)
  {
    var r := AfterSettle(s, k, o);
    assert PerKey(s, k);
    AwaitedOwned(s, k);
    assert Common(r) by {
      AfterSettleShape(s, k, o);
      AfterSettleKey(s, k, o);
      CommonAfterStep(s, r, k);
    }
    AfterSettleShape(s, k, o);
    SettleKeepsDraining(s, r, k);
  }

  /**
   * Resuming a suspended loop keeps the invariant, and touches no other key's
   * bucket or drain loop.
   */
  lemma ResumeKeepsInvariant<K(!new), V>(s: Registry<K, V>, k: K, o: Outcome<V>)
    requires Inv(s) && k in s.awaiting && k in s.buckets
    ensures var r := ResumeStep(s, k, o);
            && Inv(r)
            && r.buckets - {k} == s.buckets - {k}
            && r.awaiting - {k} == s.awaiting - {k}
  {
    AfterSettleKeepsDraining(s, k, o);
    DrainRestoresInv(AfterSettle(s, k, o), k);
  }
}
