/**
  Running a function once per record with a fixed pool of workers that share one iterator. The event
  loop may interleave the workers in any way; a schedule is the sequence of things they did.
 */
module RecordPool {

  import opened Wrappers

  /** A worker waits for a turn, has record `index` in flight, or has left its loop. */
  datatype Worker = Idle | Busy(index: nat) | Stopped

  /**
    `next` is where the shared iterator stands. `results` has a slot per record, None until its call
    returns. `failed` names the first record to fail: the pool is then cancelled.
   */
  datatype Pool<R> = Pool(next: nat, workers: seq<Worker>, results: seq<Option<R>>, failed: Option<nat>)

  /**
    Worker `w` asks the iterator for a record, its call returns or raises, or a cancellation reaches
    it. After a failure the others go on until theirs does.
   */
  datatype Event = Take(w: nat) | Finish(w: nat) | Raise(w: nat) | Stop(w: nat)

  /** The workers a per-record step starts. */
  function StepWorkers(concurrency: int, n: nat): nat {
    if concurrency < 0 then 0 else if concurrency < n then concurrency else n
  }

  /** The workers the shared helper starts; at most one at a time is a plain loop. */
  function HelperWorkers(concurrency: int, n: nat): nat {
    if concurrency <= 1 then 1 else StepWorkers(concurrency, n)
  }

  function Started<R>(n: nat, size: nat): Pool<R> {
    Pool(0, seq(size, _ => Idle), seq(n, _ => None), None)
  }

  predicate Enabled<R>(p: Pool<R>, e: Event) {
    e.w < |p.workers| &&
    match e
    case Take(w) => p.workers[w].Idle?
    case Stop(w) => p.failed.Some? && !p.workers[w].Stopped?
    case _ => p.workers[e.w].Busy? && p.workers[e.w].index < |p.results|
  }

  function Apply<T, R>(f: T -> R, records: seq<T>, p: Pool<R>, e: Event): Pool<R>
    requires Enabled(p, e) && |p.results| == |records|
  {
    match e
    case Take(w) =>
      if p.next < |records| then p.(next := p.next + 1, workers := p.workers[w := Busy(p.next)])
      else p.(workers := p.workers[w := Stopped])
    case Finish(w) =>
      var i := p.workers[w].index;
      p.(workers := p.workers[w := Idle], results := p.results[i := Some(f(records[i]))])
    case Raise(w) =>
      p.(workers := p.workers[w := Stopped], failed := if p.failed.Some? then p.failed else Some(p.workers[w].index))
    case Stop(w) => p.(workers := p.workers[w := Stopped])
  }

  /** A run: the pool before and after every event of a schedule. */
  ghost predicate IsRun<T, R>(f: T -> R, records: seq<T>, size: nat, events: seq<Event>, pools: seq<Pool<R>>) {
    && |pools| == |events| + 1 && pools[0] == Started(|records|, size)
    && forall k | 0 <= k < |events| :: Follows(f, records, pools[k], events[k], pools[k + 1])
  }

  ghost predicate Follows<T, R>(f: T -> R, records: seq<T>, before: Pool<R>, e: Event, after: Pool<R>) {
    Enabled(before, e) && |before.results| == |records| && after == Apply(f, records, before, e)
  }

  // ----- what every schedule keeps -----

  /** Taken records are a prefix; each is in flight with one worker or has its result, never both. */
  ghost predicate Inv<T, R>(f: T -> R, records: seq<T>, size: nat, p: Pool<R>) {
    && |p.workers| == size && |p.results| == |records| && p.next <= |records|
    && (forall v, w | 0 <= v < w < size && p.workers[v].Busy? && p.workers[w].Busy? ::
          p.workers[v].index != p.workers[w].index)
    && (forall w | 0 <= w < size && p.workers[w].Busy? ::
          p.workers[w].index < p.next && p.results[p.workers[w].index].None?)
    && (forall i | 0 <= i < |records| && p.results[i].Some? ::
          i < p.next && p.results[i].value == f(records[i]))
    && (p.failed.None? ==>
          && (forall i | 0 <= i < p.next && p.results[i].None? :: InFlight(p, i))
          && (forall w | 0 <= w < size && p.workers[w].Stopped? :: p.next == |records|))
  }

  ghost predicate InFlight<R>(p: Pool<R>, i: nat) {
    exists w :: 0 <= w < |p.workers| && p.workers[w] == Busy(i)
  }

  lemma InvStep<T, R>(f: T -> R, records: seq<T>, size: nat, p: Pool<R>, e: Event)
    requires Inv(f, records, size, p) && Enabled(p, e)
    ensures Inv(f, records, size, Apply(f, records, p, e))
  {
    var q := Apply(f, records, p, e);
    if q.failed.None? {
      forall i | 0 <= i < q.next && q.results[i].None?
        ensures InFlight(q, i)
      {
        if i == p.next {
          assert q.workers[e.w] == Busy(i);
        } else {
          assert InFlight(p, i);
          var w :| 0 <= w < size && p.workers[w] == Busy(i);
          assert q.workers[w] == Busy(i);
        }
      }
    }
  }

  lemma {:induction false} InvAlways<T, R>(
      f: T -> R, records: seq<T>, size: nat, events: seq<Event>, pools: seq<Pool<R>>, k: nat)
    requires IsRun(f, records, size, events, pools) && k < |pools|
    ensures Inv(f, records, size, pools[k])
  {
    if k > 0 {
      InvAlways(f, records, size, events, pools, k - 1);
      assert Follows(f, records, pools[k - 1], events[k - 1], pools[k]);
      InvStep(f, records, size, pools[k - 1], events[k - 1]);
    }
  }

  /** The records handed out, in the order they were. */
  function Taken<R>(events: seq<Event>, pools: seq<Pool<R>>): seq<nat>
    requires |pools| == |events| + 1
  {
    if events == [] then []
    else
      var k := |events| - 1;
      var before := Taken(events[..k], pools[..k + 1]);
      if pools[k + 1].next > pools[k].next then before + [pools[k].next] else before
  }

  /** Whatever the schedule, records are handed out in input order: none twice, none skipped. */
  lemma {:induction false} TakenInOrder<T, R>(
      f: T -> R, records: seq<T>, size: nat, events: seq<Event>, pools: seq<Pool<R>>)
    requires IsRun(f, records, size, events, pools)
    ensures Taken(events, pools) == seq(pools[|events|].next, i => i)
  {
    if events != [] {
      var k := |events| - 1;
      forall m | 0 <= m < k
        ensures Follows(f, records, pools[..k + 1][m], events[..k][m], pools[..k + 1][m + 1])
      {
        assert Follows(f, records, pools[m], events[m], pools[m + 1]);
      }
      TakenInOrder(f, records, size, events[..k], pools[..k + 1]);
      assert Follows(f, records, pools[k], events[k], pools[k + 1]);
    }
  }

  // ----- how a run ends -----

  ghost predicate AllStopped<R>(p: Pool<R>) {
    forall w | 0 <= w < |p.workers| :: p.workers[w].Stopped?
  }

  /** A pool that has not stopped is never stuck. */
  lemma NeverStuck<T, R>(f: T -> R, records: seq<T>, size: nat, p: Pool<R>)
    requires Inv(f, records, size, p)
    ensures AllStopped(p) || exists e :: Enabled(p, e)
  {
    if !AllStopped(p) {
      var w :| 0 <= w < size && !p.workers[w].Stopped?;
      assert Enabled(p, if p.workers[w].Idle? then Take(w) else Finish(w));
    }
  }

  /** What the events still to come can amount to: two a record, and one to leave for each worker. */
  function Work(workers: seq<Worker>): nat {
    if workers == [] then 0
    else Work(workers[..|workers| - 1])
         + match workers[|workers| - 1] { case Idle => 1 case Busy(_) => 2 case Stopped => 0 }
  }

  lemma {:induction false} WorkUpdate(workers: seq<Worker>, w: nat, now: Worker)
    requires w < |workers|
    ensures Work(workers[w := now]) + Work([workers[w]]) == Work(workers) + Work([now])
  {
    var n := |workers| - 1;
    assert [workers[w]][..0] == [] && [now][..0] == [];
    if w < n {
      WorkUpdate(workers[..n], w, now);
      assert workers[w := now][..n] == workers[..n][w := now];
    } else {
      assert workers[w := now][..n] == workers[..n];
    }
  }

  lemma {:induction false} WorkOfAlike(size: nat, worker: Worker)
    ensures Work(seq(size, _ => worker)) == size * Work([worker])
  {
    assert [worker][..0] == [];
    if size > 0 {
      WorkOfAlike(size - 1, worker);
      assert seq(size, _ => worker)[..size - 1] == seq(size - 1, _ => worker);
    }
  }

  lemma WorkShrinks<T, R>(f: T -> R, records: seq<T>, size: nat, p: Pool<R>, e: Event)
    requires Inv(f, records, size, p) && Enabled(p, e)
    ensures var q := Apply(f, records, p, e);
            2 * (|records| - q.next) + Work(q.workers) < 2 * (|records| - p.next) + Work(p.workers)
  {
    var q := Apply(f, records, p, e);
    var was, now := p.workers[e.w], q.workers[e.w];
    assert [was][..0] == [] && [now][..0] == [];
    WorkUpdate(p.workers, e.w, now);
  }

  /** Every schedule ends: it has at most two events a record and one more a worker. */
  lemma {:induction false} SchedulesEnd<T, R>(
      f: T -> R, records: seq<T>, size: nat, events: seq<Event>, pools: seq<Pool<R>>, k: nat)
    requires IsRun(f, records, size, events, pools) && k < |pools|
    ensures k + 2 * (|records| - pools[k].next) + Work(pools[k].workers) <= 2 * |records| + size
    ensures k <= 2 * |records| + size
  {
    InvAlways(f, records, size, events, pools, k);
    if k > 0 {
      SchedulesEnd(f, records, size, events, pools, k - 1);
      InvAlways(f, records, size, events, pools, k - 1);
      assert Follows(f, records, pools[k - 1], events[k - 1], pools[k]);
      WorkShrinks(f, records, size, pools[k - 1], events[k - 1]);
    } else {
      WorkOfAlike(size, Idle);
      assert [Idle][..0] == [];
    }
  }

  function Mapped<T, R>(f: T -> R, records: seq<T>): seq<Option<R>> {
    seq(|records|, i requires 0 <= i < |records| => Some(f(records[i])))
  }

  lemma EventsNeedWorkers<T, R>(f: T -> R, records: seq<T>, size: nat, events: seq<Event>, pools: seq<Pool<R>>)
    requires IsRun(f, records, size, events, pools) && events != []
    ensures size >= 1
  {
    assert Follows(f, records, pools[0], events[0], pools[1]);
  }

  /**
    A pool equals a sequential map exactly when it has a worker or no records: then every schedule
    that ends without a failure leaves f(records[i]) in slot i, for every i. A pool without workers
    ends at once, with every slot still empty.
   */
  lemma PoolEqualsMap<T, R>(
      f: T -> R, records: seq<T>, size: nat, events: seq<Event>, pools: seq<Pool<R>>)
    requires IsRun(f, records, size, events, pools)
    requires AllStopped(pools[|events|]) && pools[|events|].failed.None?
    ensures pools[|events|].results == Mapped(f, records) <==> size >= 1 || records == []
    ensures size == 0 ==> pools[|events|].results == seq(|records|, _ => None)
  {
    var p := pools[|events|];
    InvAlways(f, records, size, events, pools, |events|);
    if size >= 1 {
      assert p.workers[0].Stopped?;
      forall i | 0 <= i < |records|
        ensures p.results[i] == Some(f(records[i]))
      {
        assert !InFlight(p, i);
      }
    } else {
      if events != [] {
        EventsNeedWorkers(f, records, size, events, pools);
      }
      if records != [] {
        assert p.results[0] == None;
      }
    }
  }

  /**
    The per-record step runs every call exactly if its concurrency is at least one. A subclass may
    set it lower, as only the decorator checks it, and then no call is made and nothing is reported.
   */
  lemma StepEqualsMap<T, R>(
      f: T -> R, records: seq<T>, concurrency: int, events: seq<Event>, pools: seq<Pool<R>>)
    requires records != [] && IsRun(f, records, StepWorkers(concurrency, |records|), events, pools)
    requires AllStopped(pools[|events|]) && pools[|events|].failed.None?
    ensures pools[|events|].results == Mapped(f, records) <==> concurrency >= 1
    ensures concurrency < 1 ==> pools[|events|].results == seq(|records|, _ => None)
  {
    PoolEqualsMap(f, records, StepWorkers(concurrency, |records|), events, pools);
  }

  /** The shared helper runs every call whatever its concurrency. */
  lemma HelperEqualsMap<T, R>(
      f: T -> R, records: seq<T>, concurrency: int, events: seq<Event>, pools: seq<Pool<R>>)
    requires IsRun(f, records, HelperWorkers(concurrency, |records|), events, pools)
    requires AllStopped(pools[|events|]) && pools[|events|].failed.None?
    ensures pools[|events|].results == Mapped(f, records)
  {
    PoolEqualsMap(f, records, HelperWorkers(concurrency, |records|), events, pools);
  }

  function Workers(concurrency: int, n: nat, helper: bool): nat {
    if helper then HelperWorkers(concurrency, n) else StepWorkers(concurrency, n)
  }

  /**
    As many workers are started as records can be in flight, by a step and by the helper: a schedule may
    have that many at once.
   */
  lemma {:induction false} AllAtOnce<T, R>(f: T -> R, records: seq<T>, concurrency: int, helper: bool, k: nat)
      returns (events: seq<Event>, pools: seq<Pool<R>>)
    requires k <= concurrency && k <= |records|
    ensures IsRun(f, records, Workers(concurrency, |records|, helper), events, pools) && |events| == k
    ensures pools[k].next == k && pools[k].failed == None && k <= |pools[k].workers|
    ensures forall w | 0 <= w < |pools[k].workers| :: pools[k].workers[w] == if w < k then Busy(w) else Idle
    ensures |pools[k].results| == |records| && forall i: nat | i < k :: InFlight(pools[k], i)
  {
    if k == 0 {
      events, pools := [], [Started(|records|, Workers(concurrency, |records|, helper))];
    } else {
      events, pools := AllAtOnce(f, records, concurrency, helper, k - 1);
      InvAlways(f, records, Workers(concurrency, |records|, helper), events, pools, k - 1);
      var before, after := pools[k - 1], Apply(f, records, pools[k - 1], Take(k - 1));
      var wasEvents, wasPools := events, pools;
      events, pools := events + [Take(k - 1)], pools + [after];
      forall i | 0 <= i < k
        ensures Follows(f, records, pools[i], events[i], pools[i + 1])
      {
        if i < k - 1 {
          assert Follows(f, records, wasPools[i], wasEvents[i], wasPools[i + 1]);
        } else {
          assert pools[i] == before && pools[i + 1] == after;
        }
      }
      assert forall i: nat | i < k :: pools[k].workers[i] == Busy(i);
    }
  }

  /** The failure a pool reports is the first: the record of the first call that raised, and no other. */
  lemma {:induction false} FirstFailureIsReported<T, R>(
      f: T -> R, records: seq<T>, size: nat, events: seq<Event>, pools: seq<Pool<R>>, first: nat, k: nat)
    requires IsRun(f, records, size, events, pools) && first < k < |pools|
    requires events[first].Raise? && forall m | 0 <= m < first :: !events[m].Raise?
    ensures events[first].w < |pools[first].workers| && pools[first].workers[events[first].w].Busy?
    ensures pools[first].failed == None
    ensures pools[k].failed == Some(pools[first].workers[events[first].w].index)
  {
    assert Follows(f, records, pools[first], events[first], pools[first + 1]);
    NoFailureYet(f, records, size, events, pools, first);
    if k > first + 1 {
      FirstFailureIsReported(f, records, size, events, pools, first, k - 1);
      assert Follows(f, records, pools[k - 1], events[k - 1], pools[k]);
    }
  }

  lemma {:induction false} NoFailureYet<T, R>(
      f: T -> R, records: seq<T>, size: nat, events: seq<Event>, pools: seq<Pool<R>>, k: nat)
    requires IsRun(f, records, size, events, pools) && k < |pools|
    requires forall m | 0 <= m < k :: !events[m].Raise?
    ensures pools[k].failed == None
  {
    if k > 0 {
      NoFailureYet(f, records, size, events, pools, k - 1);
      assert Follows(f, records, pools[k - 1], events[k - 1], pools[k]);
    }
  }

  /** The records in flight. */
  function Flying(workers: seq<Worker>): (flying: set<nat>)
    ensures |flying| <= |workers|
    ensures forall i :: i in flying <==> Busy(i) in workers
  {
    if workers == [] then {}
    else
      var last := workers[|workers| - 1];
      Flying(workers[..|workers| - 1]) + if last.Busy? then {last.index} else {}
  }

  /** At no moment are more records in flight than the smaller of the concurrency and the records. */
  lemma FlyingBound<T, R>(
      f: T -> R, records: seq<T>, concurrency: int, events: seq<Event>, pools: seq<Pool<R>>, k: nat)
    requires IsRun(f, records, StepWorkers(concurrency, |records|), events, pools) && k < |pools|
    ensures |Flying(pools[k].workers)| <= |records|
    ensures concurrency >= 0 ==> |Flying(pools[k].workers)| <= concurrency
  {
    InvAlways(f, records, StepWorkers(concurrency, |records|), events, pools, k);
  }

  /** The helper has no more in flight than the records, nor than its concurrency, or one if that is lower. */
  lemma HelperFlyingBound<T, R>(
      f: T -> R, records: seq<T>, concurrency: int, events: seq<Event>, pools: seq<Pool<R>>, k: nat)
    requires IsRun(f, records, HelperWorkers(concurrency, |records|), events, pools) && k < |pools|
    ensures |Flying(pools[k].workers)| <= |records|
    ensures |Flying(pools[k].workers)| <= if concurrency <= 1 then 1 else concurrency
  {
    InvAlways(f, records, HelperWorkers(concurrency, |records|), events, pools, k);
    if records == [] {
      assert Flying(pools[k].workers) == {};
    }
  }

  // ----- the step, updated in place -----

  class RecordStep<T, R> {
    const records: seq<T>
    const applyOne: T -> R
    const results: array<Option<R>>
    var next: nat
    var workers: seq<Worker>
    var failed: Option<nat>

    ghost function State(): Pool<R>
      reads this, results
    {
      Pool(next, workers, results[..], failed)
    }

    constructor (records: seq<T>, applyOne: T -> R, concurrency: int)
      ensures this.records == records && this.applyOne == applyOne && fresh(results)
      ensures State() == Started(|records|, StepWorkers(concurrency, |records|))
    {
      this.records, this.applyOne := records, applyOne;
      results := new Option<R>[|records|](_ => None);
      next, failed := 0, None;
      workers := seq(StepWorkers(concurrency, |records|), _ => Idle);
    }

    method TakeNext(w: nat)
      requires Enabled(State(), Take(w)) && results.Length == |records|
      modifies this`next, this`workers
      ensures State() == Apply(applyOne, records, old(State()), Take(w))
    {
      if next < |records| {
        workers := workers[w := Busy(next)];
        next := next + 1;
      } else {
        workers := workers[w := Stopped];
      }
    }

    method Return(w: nat)
      requires Enabled(State(), Finish(w)) && results.Length == |records|
      modifies this`workers, results
      ensures State() == Apply(applyOne, records, old(State()), Finish(w))
    {
      var index := workers[w].index;
      results[index] := Some(applyOne(records[index]));
      workers := workers[w := Idle];
    }

    /** A call raises: its worker ends, and the first to do so is what the pool reports. */
    method Fail(w: nat)
      requires Enabled(State(), Raise(w)) && results.Length == |records|
      modifies this`workers, this`failed
      ensures State() == Apply(applyOne, records, old(State()), Raise(w))
      ensures failed == if old(failed) == None then Some(old(workers)[w].index) else old(failed)
    {
      if failed.None? {
        failed := Some(workers[w].index);
      }
      workers := workers[w := Stopped];
    }

    /** The cancellation of a worker's task reaches it. */
    method Cancel(w: nat)
      requires Enabled(State(), Stop(w)) && results.Length == |records|
      modifies this`workers
      ensures State() == Apply(applyOne, records, old(State()), Stop(w))
    {
      workers := workers[w := Stopped];
    }
  }
}
