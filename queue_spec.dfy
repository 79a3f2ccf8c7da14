/**
 * The per-key serialized job queue of src/queue_job.js as a state machine on
 * values. A `Registry` is everything the module keeps between two turns of the
 * JavaScript event loop: the bucket map `_queueAsyncBuckets`, the drain loops
 * that are suspended at their `await` (line 39), the promises handed out by
 * `submit`, and a ghost-like log and owner map used only to state properties.
 *
 * Three events change the state:
 *   - SubmitStep: a call of the exported function (lines 11-28), including the
 *     synchronous prefix of `_processQueue` when it starts a drain loop;
 *   - ResumeStep: the value awaited by a suspended drain loop settles, and the
 *     loop runs on until it suspends again or finds its queue empty;
 *   - Drain: the synchronous part of the loop itself (lines 36-49).
 */
module QueueSpec {
  import opened Wrappers
  import opened QueueTrace

  /**
   * What invoking a job's awaitable does in the turn it is invoked (line 39):
   * it throws at once (also the case of a value that is not callable), or it
   * returns a value that the loop then awaits.
   */
  datatype Call<V> = Throws(error: V) | Suspends

  /** A queued job: its awaitable and the promise (named by its id) it settles. */
  datatype Job<V> = Job(id: JobId, call: Call<V>)

  datatype Outcome<V> = Fulfilled(value: V) | Rejected(error: V)

  datatype PromiseState<V> = Pending | Settled(outcome: Outcome<V>)

  /** The object `{ queue, active }` stored per bucket key (line 13). */
  datatype Bucket<V> = Bucket(queue: seq<Job<V>>, active: bool)

  datatype Registry<K(==, !new), V> = Registry(
    buckets: map<K, Bucket<V>>,
    // for each key whose drain loop is suspended at line 39, the job it awaits
    awaiting: map<K, Job<V>>,
    // the state of each promise returned by `submit`
    promises: map<JobId, PromiseState<V>>,
    nextId: JobId,
    // for stating properties only: what happened, and which key each job was submitted under
    log: seq<Event<K>>,
    owner: map<JobId, K>)

  function EmptyRegistry<K(==, !new), V>(): Registry<K, V> {
    Registry(map[], map[], map[], 0, [], map[])
  }

  function JobIds<V>(q: seq<Job<V>>): (ids: seq<JobId>)
    ensures |ids| == |q|
    ensures forall i :: 0 <= i < |q| ==> ids[i] == q[i].id
  {
    if q == [] then [] else [q[0].id] + JobIds(q[1..])
  }

  /** The jobs of key `k` still in its bucket's queue. */
  function Queued<K(==, !new), V>(s: Registry<K, V>, k: K): seq<JobId> {
    if k in s.buckets then JobIds(s.buckets[k].queue) else []
  }

  /** The job of key `k` whose awaitable is being awaited, if any. */
  function Awaited<K(==, !new), V>(s: Registry<K, V>, k: K): Option<JobId> {
    if k in s.awaiting then Some(s.awaiting[k].id) else None
  }

  /** The jobs of key `k` whose promises are not settled yet, in submission order. */
  function Waiting<K(==, !new), V>(s: Registry<K, V>, k: K): seq<JobId> {
    OptionToSeq(Awaited(s, k)) + Queued(s, k)
  }

  /** Lines 37-39: take the front job off the queue and invoke its awaitable. */
  function StartFront<K(==, !new), V>(s: Registry<K, V>, k: K): Registry<K, V>
    requires k in s.buckets && s.buckets[k].queue != []
  {
    var b := s.buckets[k];
    s.(buckets := s.buckets[k := b.(queue := b.queue[1..])],
       log := s.log + [Event(Start, k, b.queue[0].id)])
  }

  /** Lines 40 and 42: resolve or reject the promise of job `id`. */
  function Settle<K(==, !new), V>(s: Registry<K, V>, k: K, id: JobId, o: Outcome<V>): Registry<K, V> {
    s.(promises := s.promises[id := Settled(o)],
       log := s.log + [Event(Finish, k, id)])
  }

  /**
   * The synchronous run of the drain loop of key `k` (lines 36-49): jobs whose
   * awaitable throws are rejected at once and the loop goes on; the first job
   * whose awaitable returns suspends the loop; an empty queue ends the loop,
   * clears `active` and deletes the bucket in the same turn.
   */
  function Drain<K(==, !new), V>(s: Registry<K, V>, k: K): (r: Registry<K, V>)
    requires k in s.buckets
    ensures r.buckets - {k} == s.buckets - {k}
    ensures r.awaiting - {k} == s.awaiting - {k}
    ensures r.nextId == s.nextId && r.owner == s.owner
    ensures k in r.buckets ==> k in r.awaiting && r.awaiting[k].call == Suspends
    ensures |s.log| <= |r.log| && r.log[..|s.log|] == s.log
    decreases |s.buckets[k].queue|
  {
    var b := s.buckets[k];
    if b.queue == [] then
      var b' := b.(active := false);
      // line 47 tests the queue again; nothing can run between the loop's exit and it
      if b'.queue == [] then s.(buckets := s.buckets - {k}) else s.(buckets := s.buckets[k := b'])
    else
      var job := b.queue[0];
      var s1 := StartFront(s, k);
      match job.call
      case Throws(e) => Drain(Settle(s1, k, job.id, Rejected(e)), k)
      case Suspends => s1.(awaiting := s1.awaiting[k := job])
  }

  /** Lines 12-20: find or create the bucket and push the new job. */
  function Enqueue<K(==, !new), V>(s: Registry<K, V>, k: K, call: Call<V>): Registry<K, V> {
    var s1 := if k !in s.buckets then s.(buckets := s.buckets[k := Bucket([], false)]) else s;
    var b := s1.buckets[k];
    var id := s.nextId;
    s1.(buckets := s1.buckets[k := b.(queue := b.queue + [Job(id, call)])],
        promises := s1.promises[id := Pending],
        nextId := id + 1,
        log := s1.log + [Event(Submit, k, id)],
        owner := s1.owner[id := k])
  }

  /**
   * A call `submit(k, awaitable)`; the returned promise is the one with id
   * `s.nextId`. Lines 22-25: a drain loop starts only if the bucket is idle.
   */
  function SubmitStep<K(==, !new), V>(s: Registry<K, V>, k: K, call: Call<V>): (r: Registry<K, V>)
    ensures r.nextId == s.nextId + 1 && r.owner == s.owner[s.nextId := k]
    ensures r.buckets - {k} == s.buckets - {k} && r.awaiting - {k} == s.awaiting - {k}
    ensures |r.log| > |s.log| && r.log[..|s.log| + 1] == s.log + [Event(Submit, k, s.nextId)]
  {
    var s1 := Enqueue(s, k, call);
    var b := s1.buckets[k];
    if !b.active then Drain(s1.(buckets := s1.buckets[k := b.(active := true)]), k) else s1
  }

  /** The awaited value of key `k`'s suspended loop settles with `o` (lines 39-43), and the loop goes on. */
  function ResumeStep<K(==, !new), V>(s: Registry<K, V>, k: K, o: Outcome<V>): (r: Registry<K, V>)
    requires k in s.awaiting && k in s.buckets
    ensures r.nextId == s.nextId && r.owner == s.owner
    ensures r.buckets - {k} == s.buckets - {k} && r.awaiting - {k} == s.awaiting - {k}
    ensures |r.log| > |s.log| && r.log[..|s.log| + 1] == s.log + [Event(Finish, k, s.awaiting[k].id)]
  {
    var job := s.awaiting[k];
    Drain(Settle(s.(awaiting := s.awaiting - {k}), k, job.id, o), k)
  }

  // ---------------------------------------------------------------------------
  // The invariant

  /**
   * FIFO, for one key with trace `t` and queue `queued`: the jobs started so
   * far, followed by the queue, are the key's jobs in submission order.
   */
  ghost predicate Fifo<K>(t: seq<Event<K>>, queued: seq<JobId>) {
    IdsOf(t, Start) + queued == IdsOf(t, Submit)
  }

  /** One job of the key in flight at a time, and it is the one its suspended loop awaits. */
  ghost predicate Exclusive<K>(t: seq<Event<K>>, awaited: Option<JobId>) {
    Serial(t) && Open(t) == awaited
  }

  /** The unsettled jobs `w` of key `k` were submitted under `k`, and none appears twice. */
  ghost predicate Owned<K>(w: seq<JobId>, owner: map<JobId, K>, k: K) {
    && (forall i :: 0 <= i < |w| ==> w[i] in owner && owner[w[i]] == k)
    && (forall i, j :: 0 <= i < j < |w| ==> w[i] != w[j])
  }

  ghost predicate PerKey<K(!new), V>(s: Registry<K, V>, k: K) {
    var t := Trace(s.log, k);
    Fifo(t, Queued(s, k)) && Exclusive(t, Awaited(s, k)) && Owned(Waiting(s, k), s.owner, k)
  }

  /** A promise is pending exactly while its job is queued or awaited. */
  ghost predicate PromisesTracked<K(!new), V>(s: Registry<K, V>) {
    && s.owner.Keys == s.promises.Keys
    && (forall id :: id in s.promises ==> id < s.nextId)
    && (forall id :: id in s.promises ==> (s.promises[id] == Pending <==> id in Waiting(s, s.owner[id])))
  }

  ghost predicate Common<K(!new), V>(s: Registry<K, V>) {
    PromisesTracked(s) && forall k :: PerKey(s, k)
  }

  ghost predicate AllActive<K(!new), V>(s: Registry<K, V>) {
    forall k :: k in s.buckets ==> s.buckets[k].active
  }

  /**
   * Between two turns: every registered bucket is active and has exactly one
   * drain loop, suspended at its await; a key without work is not registered.
   */
  ghost predicate Inv<K(!new), V>(s: Registry<K, V>) {
    AllActive(s) && s.awaiting.Keys == s.buckets.Keys && Common(s)
  }

  /** Inside a turn, while the drain loop of `k` runs: as `Inv`, except that `k` has no suspended loop. */
  ghost predicate Draining<K(!new), V>(s: Registry<K, V>, k: K) {
    k in s.buckets && AllActive(s) && s.awaiting.Keys == s.buckets.Keys - {k} && Common(s)
  }
}
