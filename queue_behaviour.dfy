/**
 * What a single event of the per-key job queue (src/queue_job.js) does to the
 * buckets, the drain loops and the promises, stated against the invariant of
 * module QueueProperties: where a job goes on submit, which promises a drain
 * loop may settle, that a settled promise stays settled, that a failing job
 * affects only its own promise, and the order in which one key's jobs run.
 */
module QueueBehaviour {
  import opened Wrappers
  import opened QueueTrace
  import opened QueueSpec
  import opened QueueProperties

  // ---------------------------------------------------------------------------
  // The drain loop and the promises

  /**
   * A drain loop settles only promises of jobs in its queue, and removes no
   * promise: every other promise keeps its state.
   */
  lemma {:induction false} DrainSettlesOnlyQueued<K(!new), V>(s: Registry<K, V>, k: K)
    requires k in s.buckets
    ensures var r, ids := Drain(s, k), JobIds(s.buckets[k].queue);
            && s.promises.Keys <= r.promises.Keys
            && forall i :: i in s.promises && i !in ids ==> r.promises[i] == s.promises[i]
    decreases |s.buckets[k].queue|
  {
    var q := s.buckets[k].queue;
    if q != [] && q[0].call.Throws? {
      var s1 := Settle(StartFront(s, k), k, q[0].id, Rejected(q[0].call.error));
      assert JobIds(q) == [q[0].id] + JobIds(q[1..]);
      DrainSettlesOnlyQueued(s1, k);
    }
  }

  /**
   * The drain loop never reads a promise: changing the promise of a job that
   * is not in the queue changes the outcome of the loop in that promise only.
   */
  lemma {:induction false} DrainIgnoresPromise<K(!new), V>(s: Registry<K, V>, k: K, id: JobId, p: PromiseState<V>)
    requires k in s.buckets && id !in JobIds(s.buckets[k].queue)
    ensures var r := Drain(s, k);
            Drain(s.(promises := s.promises[id := p]), k) == r.(promises := r.promises[id := p])
    decreases |s.buckets[k].queue|
  {
    var s' := s.(promises := s.promises[id := p]);
    var q := s.buckets[k].queue;
    if q != [] && q[0].call.Throws? {
      var o := Rejected(q[0].call.error);
      var t := Settle(StartFront(s, k), k, q[0].id, o);
      assert JobIds(q) == [q[0].id] + JobIds(q[1..]);
      assert t.promises[id := p] == s.promises[id := p][q[0].id := Settled(o)];
      DrainIgnoresPromise(t, k, id, p);
    }
  }

  /** A non-empty queue: the loop starts the front job first. */
  lemma DrainStartsFront<K(!new), V>(s: Registry<K, V>, k: K)
    requires k in s.buckets && s.buckets[k].queue != []
    ensures var r := Drain(s, k);
            |r.log| > |s.log| && r.log[|s.log|] == Event(Start, k, s.buckets[k].queue[0].id)
  {
    var q := s.buckets[k].queue;
    var s1 := StartFront(s, k);
    assert s1.log[|s.log|] == Event(Start, k, q[0].id);
    if q[0].call.Throws? {
      var s2 := Settle(s1, k, q[0].id, Rejected(q[0].call.error));
      assert s2.log[|s.log|] == Event(Start, k, q[0].id);
    }
  }

  // ---------------------------------------------------------------------------
  // Submitting (lines 11-28)

  /**
   * Lines 16-25 on a key whose drain loop runs: the job is appended at the
   * end of that key's queue with a fresh pending promise, no second loop
   * starts, and no other bucket changes.
   */
  lemma SubmitToActiveBucket<K(!new), V>(s: Registry<K, V>, k: K, call: Call<V>)
    requires Inv(s) && k in s.buckets
    ensures var r, id := SubmitStep(s, k, call), s.nextId;
            && id !in s.promises
            && r.buckets == s.buckets[k := Bucket(s.buckets[k].queue + [Job(id, call)], true)]
            && r.awaiting == s.awaiting
            && r.promises == s.promises[id := Pending]
            && r.nextId == id + 1
  {
    assert s.buckets[k].active;
    FreshId(s);
  }

  /**
   * Lines 12-14 and 22-24 on a key with no bucket, either never used or
   * deleted at line 48: a bucket is created and the job starts inside the
   * call. If its awaitable returns, the bucket stays, active, with an empty
   * queue, and its loop awaits the job; if it throws, the promise is rejected
   * and the bucket is gone again. Nothing depends on what the key did before.
   */
  lemma SubmitToIdleKey<K(!new), V>(s: Registry<K, V>, k: K, call: Call<V>)
    requires k !in s.buckets
    ensures var r, id := SubmitStep(s, k, call), s.nextId;
            && r.nextId == id + 1
            && match call
               case Suspends =>
                 && r.buckets == s.buckets[k := Bucket([], true)]
                 && r.awaiting == s.awaiting[k := Job(id, Suspends)]
                 && r.promises == s.promises[id := Pending]
                 && r.log == s.log + [Event(Submit, k, id), Event(Start, k, id)]
               case Throws(e) =>
                 && r.buckets == s.buckets
                 && r.awaiting == s.awaiting
                 && r.promises == s.promises[id := Settled(Rejected(e))]
                 && r.log == s.log + [Event(Submit, k, id), Event(Start, k, id), Event(Finish, k, id)]
  {
    var id := s.nextId;
    var s1 := Enqueue(s, k, call);
    assert s1.buckets[k] == Bucket([Job(id, call)], false);
    var s2 := s1.(buckets := s1.buckets[k := Bucket([Job(id, call)], true)]);
    var s3 := StartFront(s2, k);
    assert s3.buckets[k].queue == [];
    if call.Throws? {
      var s4 := Settle(s3, k, id, Rejected(call.error));
      assert Drain(s2, k) == Drain(s4, k);
      assert s4.buckets - {k} == s.buckets;
    }
  }

  /** Submitting settles no promise that was already settled, and removes none. */
  lemma SubmitSettlesOnlyPending<K(!new), V>(s: Registry<K, V>, k: K, call: Call<V>)
    requires Inv(s)
    ensures var r := SubmitStep(s, k, call);
            && s.promises.Keys <= r.promises.Keys
            && forall i :: i in s.promises && s.promises[i].Settled? ==> r.promises[i] == s.promises[i]
  {
    FreshId(s);
    if k !in s.buckets {
      SubmitToIdleKey(s, k, call);
    } else {
      SubmitToActiveBucket(s, k, call);
    }
  }

  // ---------------------------------------------------------------------------
  // Resuming a suspended drain loop (lines 39-44, then 36 again)

  /** A job of key `k` that is queued or awaited has a pending promise. */
  lemma WaitingIsPending<K(!new), V>(s: Registry<K, V>, k: K, i: JobId)
    requires PerKey(s, k) && PromisesTracked(s)
    ensures i in Waiting(s, k) ==> i in s.promises && s.promises[i] == Pending && s.owner[i] == k
  {
    if i in Waiting(s, k) {
      var j :| 0 <= j < |Waiting(s, k)| && Waiting(s, k)[j] == i;
    }
  }

  /** The awaited job's id is not in its key's queue, and its promise is pending. */
  lemma AwaitedNotQueued<K(!new), V>(s: Registry<K, V>, k: K)
    requires Inv(s) && k in s.awaiting
    ensures s.awaiting[k].id !in Queued(s, k)
    ensures s.awaiting[k].id in s.promises && s.promises[s.awaiting[k].id] == Pending
  {
    assert PerKey(s, k);
    AwaitedOwned(s, k);
    OwnedTail(s.awaiting[k].id, Queued(s, k), s.owner, k);
    WaitingIsPending(s, k, s.awaiting[k].id);
  }

  /** The state once the awaited job of `k` has finished, before its promise is settled. */
  ghost function FinishLogged<K(!new), V>(s: Registry<K, V>, k: K): Registry<K, V>
    requires k in s.awaiting
  {
    s.(awaiting := s.awaiting - {k}, log := s.log + [Event(Finish, k, s.awaiting[k].id)])
  }

  /**
   * Settling the awaited job commutes with the rest of the loop: resuming is
   * draining the queue, then writing the awaited job's outcome.
   */
  lemma ResumeIsDrainThenSettle<K(!new), V>(s: Registry<K, V>, k: K, o: Outcome<V>)
    requires k in s.awaiting && k in s.buckets && s.awaiting[k].id !in Queued(s, k)
    ensures var r, id := Drain(FinishLogged(s, k), k), s.awaiting[k].id;
            ResumeStep(s, k, o) == r.(promises := r.promises[id := Settled(o)])
  {
    var x, id := FinishLogged(s, k), s.awaiting[k].id;
    assert Settle(s.(awaiting := s.awaiting - {k}), k, id, o) == x.(promises := x.promises[id := Settled(o)]);
    DrainIgnoresPromise(x, k, id, Settled(o));
  }

  /**
   * Lines 39-44: the awaited job's promise, pending until now, is settled with
   * the outcome of its awaitable; its Finish is logged; then the loop either
   * starts the next job of the queue at once or, with the queue empty,
   * deletes the bucket.
   */
  lemma ResumeSettlesAwaited<K(!new), V>(s: Registry<K, V>, k: K, o: Outcome<V>)
    requires Inv(s) && k in s.awaiting
    ensures var r, id := ResumeStep(s, k, o), s.awaiting[k].id;
            && id in s.promises && s.promises[id] == Pending
            && id in r.promises && r.promises[id] == Settled(o)
            && |r.log| > |s.log| && r.log[|s.log|] == Event(Finish, k, id)
            && (Queued(s, k) == [] ==> k !in r.buckets && k !in r.awaiting && r.log == s.log + [Event(Finish, k, id)])
            && (Queued(s, k) != [] ==> |r.log| > |s.log| + 1 && r.log[|s.log| + 1] == Event(Start, k, Queued(s, k)[0]))
  {
    AwaitedNotQueued(s, k);
    ResumeContinues(s, k, o);
  }

  /** The loop after the awaited job's promise is settled: what it logs next, and when it stops. */
  lemma ResumeContinues<K(!new), V>(s: Registry<K, V>, k: K, o: Outcome<V>)
    requires k in s.awaiting && k in s.buckets && s.awaiting[k].id !in Queued(s, k)
    ensures var r, id := ResumeStep(s, k, o), s.awaiting[k].id;
            && id in r.promises && r.promises[id] == Settled(o)
            && |r.log| > |s.log| && r.log[|s.log|] == Event(Finish, k, id)
            && (Queued(s, k) == [] ==> k !in r.buckets && k !in r.awaiting && r.log == s.log + [Event(Finish, k, id)])
            && (Queued(s, k) != [] ==> |r.log| > |s.log| + 1 && r.log[|s.log| + 1] == Event(Start, k, Queued(s, k)[0]))
  {
    var x, id := FinishLogged(s, k), s.awaiting[k].id;
    ResumeIsDrainThenSettle(s, k, o);
    assert x.log[|s.log|] == Event(Finish, k, id);
    if Queued(s, k) != [] {
      DrainStartsFront(x, k);
    }
  }

  /** Resuming settles no promise that was already settled, and removes none. */
  lemma ResumeSettlesOnlyPending<K(!new), V>(s: Registry<K, V>, k: K, o: Outcome<V>)
    requires Inv(s) && k in s.awaiting
    ensures var r := ResumeStep(s, k, o);
            && s.promises.Keys <= r.promises.Keys
            && forall i :: i in s.promises && s.promises[i].Settled? ==> r.promises[i] == s.promises[i]
  {
    var id := s.awaiting[k].id;
    AwaitedNotQueued(s, k);
    var s1 := Settle(s.(awaiting := s.awaiting - {k}), k, id, o);
    DrainSettlesOnlyQueued(s1, k);
    assert Waiting(s, k) == [id] + Queued(s, k);
    forall i | i in s.promises && s.promises[i].Settled?
      ensures i != id && i !in Queued(s, k)
    {
      assert PerKey(s, k);
      WaitingIsPending(s, k, i);
    }
  }

  /**
   * Lines 40-43: whether the awaited job fulfils or fails, the loop goes on
   * in the same way; the only difference is that job's own promise.
   */
  lemma FailureIsolated<K(!new), V>(s: Registry<K, V>, k: K, v: V, e: V)
    requires Inv(s) && k in s.awaiting
    ensures var id := s.awaiting[k].id;
            var ok, failed := ResumeStep(s, k, Fulfilled(v)), ResumeStep(s, k, Rejected(e));
            && ok.buckets == failed.buckets
            && ok.awaiting == failed.awaiting
            && ok.log == failed.log
            && id in ok.promises && ok.promises[id] == Settled(Fulfilled(v))
            && failed.promises == ok.promises[id := Settled(Rejected(e))]
  {
    var r, id := Drain(FinishLogged(s, k), k), s.awaiting[k].id;
    AwaitedNotQueued(s, k);
    ResumeIsDrainThenSettle(s, k, Fulfilled(v));
    ResumeIsDrainThenSettle(s, k, Rejected(e));
    Overwrite(r.promises, id, Settled(Fulfilled(v)), Settled(Rejected(e)));
  }

  lemma Overwrite<A, B>(m: map<A, B>, a: A, x: B, y: B)
    ensures m[a := x][a := y] == m[a := y]
  {
  }

  // ---------------------------------------------------------------------------
  // Order

  /**
   * Lines 36-39 over the whole history of key `k`: the finished jobs, then the
   * awaited one, then the queue, are exactly the submitted jobs in submission
   * order; and at every point of the history at most one job of `k` was in
   * flight.
   */
  lemma {:induction false} JobsRunInSubmissionOrder<K(!new), V>(s: Registry<K, V>, k: K)
    requires Inv(s)
    ensures var t := Trace(s.log, k);
            && IdsOf(t, Finish) + Waiting(s, k) == IdsOf(t, Submit)
            && forall n :: 0 <= n <= |t| ==> |IdsOf(t[..n], Finish)| <= |IdsOf(t[..n], Start)| <= |IdsOf(t[..n], Finish)| + 1
  {
    var t := Trace(s.log, k);
    assert Fifo(t, Queued(s, k)) && Exclusive(t, Awaited(s, k)) by {
      assert PerKey(s, k);
    }
    OrderView(t, Awaited(s, k), Queued(s, k));
    SerialOneInFlight(t);
  }

  /** The per-key invariant, read as an order on the job ids of one key. */
  lemma OrderView<K>(t: seq<Event<K>>, awaited: Option<JobId>, queued: seq<JobId>)
    requires Fifo(t, queued) && Exclusive(t, awaited)
    ensures IdsOf(t, Finish) + (OptionToSeq(awaited) + queued) == IdsOf(t, Submit)
  {
    SerialFinishesInStartOrder(t);
    assert IdsOf(t, Finish) + (OptionToSeq(awaited) + queued) == IdsOf(t, Finish) + OptionToSeq(awaited) + queued;
  }
}
