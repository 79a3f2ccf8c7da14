/**
 * The module state of src/queue_job.js as an object: the bucket map
 * `_queueAsyncBuckets` is updated in place by `Submit` (the exported function)
 * and by `ProcessQueue` (the loop of `_processQueue`). A drain loop suspended
 * at its `await` is recorded in `awaiting`; `Resume` is the event of the awaited
 * value settling, after which the loop runs on.
 *
 * Each method is proved to change the state exactly as the matching step of
 * module QueueSpec does, so the invariant proved there is kept here.
 */
module QueueJob {
  import opened QueueTrace
  import opened QueueSpec
  import opened QueueProperties

  class Dispatcher<K(==, !new), V> {
    /** `_queueAsyncBuckets`, line 3. */
    var buckets: map<K, Bucket<V>>
    /** The job each suspended drain loop awaits at line 39. */
    var awaiting: map<K, Job<V>>
    /** The state of every promise `Submit` handed out. */
    var promises: map<JobId, PromiseState<V>>
    var nextId: JobId
    ghost var log: seq<Event<K>>
    ghost var owner: map<JobId, K>

    ghost function State(): Registry<K, V>
      reads this
    {
      Registry(buckets, awaiting, promises, nextId, log, owner)
    }

    ghost predicate Valid()
      reads this
    {
      Inv(State())
    }

    /** Line 3: the module starts with no bucket. */
    constructor ()
      ensures State() == EmptyRegistry()
      ensures Valid()
    {
      buckets, awaiting, promises, nextId := map[], map[], map[], 0;
      log, owner := [], map[];
    }

    /**
     * Lines 11-28: enqueue `call` under `k` and, if the bucket is idle, run
     * its drain loop until it suspends or empties. Returns the id of the
     * job's promise.
     */
    method Submit(k: K, call: Call<V>) returns (id: JobId)
      requires Valid()
      modifies this
      ensures State() == SubmitStep(old(State()), k, call)
      ensures id == old(nextId)
      ensures Valid()
    {
      ghost var s0 := State();
      if k !in buckets {
        buckets := buckets[k := Bucket([], false)];
      }
      var b := buckets[k];
      id := nextId;
      buckets := buckets[k := b.(queue := b.queue + [Job(id, call)])];
      promises := promises[id := Pending];
      nextId := id + 1;
      log := log + [Event(Kind.Submit, k, id)];
      owner := owner[id := k];
      assert State() == Enqueue(s0, k, call);
      if !b.active {
        buckets := buckets[k := buckets[k].(active := true)];
        ProcessQueue(k);
      }
      SubmitKeepsInvariant(s0, k, call);
    }

    /**
     * Lines 39-44, then 36 again: the value awaited by `k`'s suspended loop
     * settled with `o`; the job's promise is settled and the loop goes on.
     */
    method Resume(k: K, o: Outcome<V>)
      requires Valid() && k in awaiting
      modifies this
      ensures State() == ResumeStep(old(State()), k, o)
      ensures Valid()
    {
      ghost var s0 := State();
      var job := awaiting[k];
      awaiting := awaiting - {k};
      promises := promises[job.id := Settled(o)];
      log := log + [Event(Finish, k, job.id)];
      ProcessQueue(k);
      ResumeKeepsInvariant(s0, k, o);
    }

    /**
     * Lines 36-49: take jobs off the front of `k`'s queue; a job whose
     * awaitable throws is rejected and the loop goes on, the first one whose
     * awaitable returns suspends the loop. With the queue empty the bucket
     * is marked idle and deleted.
     */
    method ProcessQueue(k: K)
      requires k in buckets
      modifies this
      ensures State() == Drain(old(State()), k)
    {
      while buckets[k].queue != []
        invariant k in buckets
        invariant Drain(State(), k) == Drain(old(State()), k)
        decreases |buckets[k].queue|
      {
        var b := buckets[k];
        var job := b.queue[0];
        buckets := buckets[k := b.(queue := b.queue[1..])];
        log := log + [Event(Start, k, job.id)];
        match job.call {
          case Throws(e) =>
            promises := promises[job.id := Settled(Rejected(e))];
            log := log + [Event(Finish, k, job.id)];
          case Suspends =>
            awaiting := awaiting[k := job];
            return;
        }
      }
      buckets := buckets[k := buckets[k].(active := false)];
      if buckets[k].queue == [] {
        buckets := buckets - {k};
      }
    }
  }
}
