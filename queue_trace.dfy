/**
 * The ghost event log of the per-key job queue (src/queue_job.js) and the
 * properties of one key's part of it.
 *
 * Every job goes through three events: it is submitted (the `push` at line 19),
 * started (taken off the queue and invoked, lines 37-39) and finished (its
 * promise resolved or rejected, lines 40-43). All functions here are defined
 * by recursion on the LAST event, because the log only ever grows at its end.
 */
module QueueTrace {
  import opened Wrappers

  /** The identity of a job, and of the promise `submit` returned for it. */
  type JobId = nat

  datatype Kind = Submit | Start | Finish

  datatype Event<K> = Event(kind: Kind, key: K, id: JobId)

  /** The events of key `k`, in log order. */
  function Trace<K(==)>(log: seq<Event<K>>, k: K): (t: seq<Event<K>>)
    ensures |t| <= |log|
    ensures forall i :: 0 <= i < |t| ==> t[i].key == k
  {
    if log == [] then []
    else
      var e := log[|log| - 1];
      Trace(log[..|log| - 1], k) + (if e.key == k then [e] else [])
  }

  /** The ids of the events of kind `kind`, in order. */
  function IdsOf<K>(es: seq<Event<K>>, kind: Kind): (ids: seq<JobId>)
    ensures |ids| <= |es|
  {
    if es == [] then []
    else
      var e := es[|es| - 1];
      IdsOf(es[..|es| - 1], kind) + (if e.kind == kind then [e.id] else [])
  }

  /** The job started and not yet finished after the events `es` of one key. */
  function Open<K>(es: seq<Event<K>>): Option<JobId> {
    if es == [] then None
    else
      var e := es[|es| - 1];
      match e.kind
      case Submit => Open(es[..|es| - 1])
      case Start => Some(e.id)
      case Finish => None
  }

  /**
   * The events of one key are serial: a job starts only when no job of that
   * key is in flight, and a finish closes the job in flight.
   */
  predicate Serial<K>(es: seq<Event<K>>) {
    if es == [] then true
    else
      var e, init := es[|es| - 1], es[..|es| - 1];
      && Serial(init)
      && match e.kind
         case Submit => true
         case Start => Open(init) == None
         case Finish => Open(init) == Some(e.id)
  }

  lemma TraceAppend<K>(log: seq<Event<K>>, e: Event<K>, k: K)
    ensures Trace(log + [e], k) == Trace(log, k) + (if e.key == k then [e] else [])
  {
    assert (log + [e])[..|log|] == log;
  }

  lemma IdsOfAppend<K>(es: seq<Event<K>>, e: Event<K>, kind: Kind)
    ensures IdsOf(es + [e], kind) == IdsOf(es, kind) + (if e.kind == kind then [e.id] else [])
  {
    assert (es + [e])[..|es|] == es;
  }

  lemma OpenAppend<K>(es: seq<Event<K>>, e: Event<K>)
    ensures Open(es + [e]) == match e.kind
                              case Submit => Open(es)
                              case Start => Some(e.id)
                              case Finish => None
  {
    assert (es + [e])[..|es|] == es;
  }

  lemma SerialAppend<K>(es: seq<Event<K>>, e: Event<K>)
    ensures Serial(es + [e]) == (Serial(es) && match e.kind
                                               case Submit => true
                                               case Start => Open(es) == None
                                               case Finish => Open(es) == Some(e.id))
  {
    assert (es + [e])[..|es|] == es;
  }

  /**
   * In a serial history, jobs finish in the order they started and at most one
   * job is in flight: the started jobs are the finished ones followed by the
   * open one, if any.
   */
  lemma {:induction false} SerialFinishesInStartOrder<K>(es: seq<Event<K>>)
    requires Serial(es)
    ensures IdsOf(es, Start) == IdsOf(es, Finish) + OptionToSeq(Open(es))
    ensures |IdsOf(es, Start)| - |IdsOf(es, Finish)| in {0, 1}
  {
    if es != [] {
      var e, init := es[|es| - 1], es[..|es| - 1];
      assert es == init + [e];
      SerialFinishesInStartOrder(init);
      IdsOfAppend(init, e, Start);
      IdsOfAppend(init, e, Finish);
      OpenAppend(init, e);
      SerialAppend(init, e);
    }
  }

  /** Every prefix of a serial history is serial: mutual exclusion held at every instant. */
  lemma {:induction false} SerialPrefix<K>(es: seq<Event<K>>, n: nat)
    requires Serial(es) && n <= |es|
    ensures Serial(es[..n])
  {
    if n < |es| {
      var init := es[..|es| - 1];
      assert init[..n] == es[..n];
      SerialPrefix(init, n);
    } else {
      assert es[..n] == es;
    }
  }

  /** At every point of a serial history, at most one job is in flight. */
  lemma SerialOneInFlight<K>(es: seq<Event<K>>)
    requires Serial(es)
    ensures forall n :: 0 <= n <= |es| ==> |IdsOf(es[..n], Finish)| <= |IdsOf(es[..n], Start)| <= |IdsOf(es[..n], Finish)| + 1
  {
    forall n | 0 <= n <= |es|
      ensures |IdsOf(es[..n], Finish)| <= |IdsOf(es[..n], Start)| <= |IdsOf(es[..n], Finish)| + 1
    {
      SerialPrefix(es, n);
      SerialFinishesInStartOrder(es[..n]);
    }
  }
}
