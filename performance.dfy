/** The three stateful utilities of `frontend/app/lib/performance.ts`: the
    metrics log, the pending-request table and the leading+trailing throttle.
    Clocks are parameters; promises are opaque ids. */
module Performance {
  import opened Wrappers

  // ---------------------------------------------------------------------------
  // Metrics log
  // ---------------------------------------------------------------------------

  /** One sample (all four fields present). */
  datatype PerformanceMetrics = PerformanceMetrics(
    renderTime: real,
    messageCount: real,
    averageMessageLength: real,
    scrollPerformance: real)

  /** A `Partial<PerformanceMetrics>`: `None` is a field the caller left out. */
  datatype PartialMetrics = PartialMetrics(
    renderTime: Option<real>,
    messageCount: Option<real>,
    averageMessageLength: Option<real>,
    scrollPerformance: Option<real>)

  const Zero := PerformanceMetrics(0.0, 0.0, 0.0, 0.0)

  function OrZero(o: Option<real>): real {
    match o
    case Some(v) => v
    case None => 0.0
  }

  /** `{ renderTime: 0, ..., ...metrics }`: the given fields override the zero defaults. */
  function WithDefaults(p: PartialMetrics): PerformanceMetrics {
    PerformanceMetrics(OrZero(p.renderTime), OrZero(p.messageCount),
                       OrZero(p.averageMessageLength), OrZero(p.scrollPerformance))
  }

  function Add(a: PerformanceMetrics, b: PerformanceMetrics): PerformanceMetrics {
    PerformanceMetrics(a.renderTime + b.renderTime, a.messageCount + b.messageCount,
                       a.averageMessageLength + b.averageMessageLength,
                       a.scrollPerformance + b.scrollPerformance)
  }

  /** The `reduce` of `getAverageMetrics`: a left fold of `Add` from `acc`. */
  function Reduce(acc: PerformanceMetrics, ms: seq<PerformanceMetrics>): PerformanceMetrics
    decreases |ms|
  {
    if ms == [] then acc else Reduce(Add(acc, ms[0]), ms[1..])
  }

  /** Reference definition: the sum of one field over all samples. */
  function FieldSum(ms: seq<PerformanceMetrics>, f: PerformanceMetrics -> real): real
    decreases |ms|
  {
    if ms == [] then 0.0 else f(ms[0]) + FieldSum(ms[1..], f)
  }

  function RenderTimeOf(m: PerformanceMetrics): real { m.renderTime }
  function MessageCountOf(m: PerformanceMetrics): real { m.messageCount }
  function AverageLengthOf(m: PerformanceMetrics): real { m.averageMessageLength }
  function ScrollOf(m: PerformanceMetrics): real { m.scrollPerformance }

  /** The fold adds, field by field, the sum of that field over the samples. */
  lemma {:induction false} ReduceIsFieldSums(acc: PerformanceMetrics, ms: seq<PerformanceMetrics>)
    ensures Reduce(acc, ms) == PerformanceMetrics(
      acc.renderTime + FieldSum(ms, RenderTimeOf),
      acc.messageCount + FieldSum(ms, MessageCountOf),
      acc.averageMessageLength + FieldSum(ms, AverageLengthOf),
      acc.scrollPerformance + FieldSum(ms, ScrollOf))
    decreases |ms|
  {
    if ms != [] {
      ReduceIsFieldSums(Add(acc, ms[0]), ms[1..]);
    }
  }

  /** The component-wise arithmetic mean, or `Zero` for an empty log. */
  function Average(ms: seq<PerformanceMetrics>): (r: PerformanceMetrics)
    ensures ms == [] ==> r == Zero
    ensures ms != [] ==> r == PerformanceMetrics(
      FieldSum(ms, RenderTimeOf) / (|ms| as real),
      FieldSum(ms, MessageCountOf) / (|ms| as real),
      FieldSum(ms, AverageLengthOf) / (|ms| as real),
      FieldSum(ms, ScrollOf) / (|ms| as real))
  {
    if |ms| == 0 then Zero
    else
      var sum := Reduce(Zero, ms);
      ReduceIsFieldSums(Zero, ms);
      var count := |ms| as real;
      PerformanceMetrics(sum.renderTime / count, sum.messageCount / count,
                         sum.averageMessageLength / count, sum.scrollPerformance / count)
  }

  /** A field sum lies between count times the least and count times the greatest value. */
  lemma {:induction false} FieldSumBounds(ms: seq<PerformanceMetrics>, f: PerformanceMetrics -> real, lo: real, hi: real)
    requires forall i :: 0 <= i < |ms| ==> lo <= f(ms[i]) <= hi
    ensures (|ms| as real) * lo <= FieldSum(ms, f) <= (|ms| as real) * hi
    decreases |ms|
  {
    if ms != [] {
      assert forall i :: 0 <= i < |ms[1..]| ==> ms[1..][i] == ms[i + 1];
      FieldSumBounds(ms[1..], f, lo, hi);
    }
  }

  /** The mean render time lies between the least and the greatest sample. */
  lemma AverageRenderTimeBounded(ms: seq<PerformanceMetrics>, lo: real, hi: real)
    requires ms != []
    requires forall i :: 0 <= i < |ms| ==> lo <= ms[i].renderTime <= hi
    ensures lo <= Average(ms).renderTime <= hi
  {
    FieldSumBounds(ms, RenderTimeOf, lo, hi);
    var n := |ms| as real;
    var s := FieldSum(ms, RenderTimeOf);
    assert s / n * n == s;
  }

  /** A log of one sample averages to that sample. */
  lemma AverageOfOne(m: PerformanceMetrics)
    ensures Average([m]) == m
  {
    assert [m][1..] == [];
    assert FieldSum([m], RenderTimeOf) == m.renderTime;
    assert FieldSum([m], MessageCountOf) == m.messageCount;
    assert FieldSum([m], AverageLengthOf) == m.averageMessageLength;
    assert FieldSum([m], ScrollOf) == m.scrollPerformance;
  }

  class PerformanceMonitor {
    var metrics: seq<PerformanceMetrics>
    var renderStartTime: real

    constructor ()
      ensures metrics == [] && renderStartTime == 0.0
    {
      metrics := [];
      renderStartTime := 0.0;
    }

    /** `startRenderTimer`, with `performance.now()` passed in. */
    method StartRenderTimer(now: real)
      modifies this
      ensures renderStartTime == now && metrics == old(metrics)
    {
      renderStartTime := now;
    }

    /** `endRenderTimer`: the time elapsed since the last start; changes nothing. */
    method EndRenderTimer(now: real) returns (renderTime: real)
      ensures renderTime + renderStartTime == now
    {
      renderTime := now - renderStartTime;
    }

    /** Appends exactly one sample, missing fields filled with 0. */
    method RecordMetrics(m: PartialMetrics)
      modifies this
      ensures metrics == old(metrics) + [WithDefaults(m)]
      ensures renderStartTime == old(renderStartTime)
    {
      metrics := metrics + [WithDefaults(m)];
    }

    /** The mean of the log; a function, so it cannot change the log. */
    function GetAverageMetrics(): (r: PerformanceMetrics)
      reads this
      ensures metrics == [] ==> r == Zero
      ensures metrics != [] ==> r.renderTime * (|metrics| as real) == FieldSum(metrics, RenderTimeOf)
      ensures metrics != [] ==> r.messageCount * (|metrics| as real) == FieldSum(metrics, MessageCountOf)
      ensures metrics != [] ==> r.averageMessageLength * (|metrics| as real) == FieldSum(metrics, AverageLengthOf)
      ensures metrics != [] ==> r.scrollPerformance * (|metrics| as real) == FieldSum(metrics, ScrollOf)
    {
      Average(metrics)
    }

    method ClearMetrics()
      modifies this
      ensures metrics == [] && renderStartTime == old(renderStartTime)
    {
      metrics := [];
    }
  }

  /** Record, average twice (the two agree), clear, average again (all zero). */
  method AverageAfterClear(sample: PartialMetrics) returns (first: PerformanceMetrics, second: PerformanceMetrics, afterClear: PerformanceMetrics)
    ensures first == second == WithDefaults(sample)
    ensures afterClear == Zero
  {
    var monitor := new PerformanceMonitor();
    monitor.RecordMetrics(sample);
    assert monitor.metrics == [WithDefaults(sample)];
    AverageOfOne(WithDefaults(sample));
    first := monitor.GetAverageMetrics();
    second := monitor.GetAverageMetrics();
    monitor.ClearMetrics();
    afterClear := monitor.GetAverageMetrics();
  }

  // ---------------------------------------------------------------------------
  // Request deduplication
  // ---------------------------------------------------------------------------

  /** The pending-request table. A pending promise is an opaque id; `invocations`
      logs, in order, the key of every call that actually ran `requestFn`. */
  class RequestDeduplicator {
    var pending: map<string, nat>
    var nextPromise: nat
    var invocations: seq<string>

    /** Promise ids are allocated in order, one per invocation of `requestFn`,
        and each pending entry holds the promise started for its own key. */
    ghost predicate Valid()
      reads this
    {
      |invocations| == nextPromise &&
      forall k :: k in pending ==> pending[k] < nextPromise && invocations[pending[k]] == k
    }

    constructor ()
      ensures Valid() && pending == map[] && invocations == []
    {
      pending := map[];
      nextPromise := 0;
      invocations := [];
    }

    /** The synchronous part of `deduplicate`: share a live entry, or invoke
        `requestFn` once and register its promise. */
    method Deduplicate(key: string) returns (promise: nat, invoked: bool)
      requires Valid()
      modifies this
      ensures Valid()
      ensures invoked <==> key !in old(pending)
      ensures !invoked ==> promise == old(pending)[key] && pending == old(pending)
                           && invocations == old(invocations) && nextPromise == old(nextPromise)
      ensures invoked ==> promise == old(nextPromise) && pending == old(pending)[key := promise]
                          && invocations == old(invocations) + [key]
      ensures forall k :: k in pending && k != key ==> k in old(pending) && pending[k] == old(pending)[k]
    {
      if key in pending {
        promise, invoked := pending[key], false;
      } else {
        promise, invoked := nextPromise, true;
        pending := pending[key := promise];
        nextPromise := nextPromise + 1;
        invocations := invocations + [key];
      }
    }

    /** The `finally` of `deduplicate`: runs on success and on failure alike. */
    method Settle(key: string)
      requires Valid()
      modifies this
      ensures Valid()
      ensures pending == old(pending) - {key}
      ensures invocations == old(invocations) && nextPromise == old(nextPromise)
    {
      pending := pending - {key};
    }

    method Clear()
      requires Valid()
      modifies this
      ensures Valid() && pending == map[]
      ensures invocations == old(invocations) && nextPromise == old(nextPromise)
    {
      pending := map[];
    }
  }

  /** Two overlapping calls under one key share one promise and one invocation. */
  method SameKeySharesOneCall(key: string) returns (first: nat, second: nat, calls: nat)
    ensures first == second && calls == 1
  {
    var d := new RequestDeduplicator();
    var invoked;
    first, invoked := d.Deduplicate(key);
    second, invoked := d.Deduplicate(key);
    calls := |d.invocations|;
  }

  /** Overlapping calls under two keys run independently; after a settle the key starts fresh. */
  method DistinctKeysCallTwice(k1: string, k2: string) returns (p1: nat, p2: nat, p3: nat, calls: nat)
    requires k1 != k2
    ensures p1 != p2 && p3 != p1 && calls == 3
  {
    var d := new RequestDeduplicator();
    var invoked;
    p1, invoked := d.Deduplicate(k1);
    p2, invoked := d.Deduplicate(k2);
    d.Settle(k1);
    p3, invoked := d.Deduplicate(k1);
    calls := |d.invocations|;
  }

  // ---------------------------------------------------------------------------
  // Throttle
  // ---------------------------------------------------------------------------

  /** One execution of the throttled function: its arguments and the clock reading. */
  datatype Run<A> = Run(args: A, time: int)

  /** The single scheduled-but-not-yet-run call. */
  datatype Deferred<A> = Deferred(args: A, fireAt: int)

  /** The closure state of `throttle(func, delay)`: `lastExecTime`, the one
      replaceable `setTimeout`, and the log of executions of `func`. */
  class Throttle<A> {
    const delay: nat
    var lastExecTime: int
    var deferred: Option<Deferred<A>>
    var runs: seq<Run<A>>

    /** `lastExecTime` is the time of the latest execution (0 before any), and a
        pending call is due no later than one interval after it. */
    ghost predicate Valid()
      reads this
    {
      (runs == [] ==> lastExecTime == 0) &&
      (runs != [] ==> lastExecTime == runs[|runs| - 1].time) &&
      (deferred.Some? ==> deferred.value.fireAt <= lastExecTime + delay)
    }

    constructor (delay: nat)
      ensures Valid() && this.delay == delay
      ensures lastExecTime == 0 && deferred == None && runs == []
    {
      this.delay := delay;
      lastExecTime := 0;
      deferred := None;
      runs := [];
    }

    /** A call of the throttled function at clock reading `now`. */
    method Call(now: int, args: A) returns (ranNow: bool)
      requires Valid()
      modifies this
      ensures Valid()
      ensures ranNow <==> now - old(lastExecTime) > delay
      ensures ranNow ==> runs == old(runs) + [Run(args, now)] && lastExecTime == now
                         && deferred == old(deferred)
      ensures !ranNow ==> runs == old(runs) && lastExecTime == old(lastExecTime)
                          && deferred == Some(Deferred(args, old(lastExecTime) + delay))
    {
      ranNow := now - lastExecTime > delay;
      if ranNow {
        runs := runs + [Run(args, now)];
        lastExecTime := now;
      } else {
        // clearTimeout, then setTimeout(..., delay - (now - lastExecTime))
        var wait := delay - (now - lastExecTime);
        deferred := Some(Deferred(args, now + wait));
      }
    }

    /** The event loop reaching clock reading `now`: a due deferred call fires. */
    method Tick(now: int) returns (fired: bool)
      requires Valid()
      modifies this
      ensures Valid()
      ensures fired <==> old(deferred).Some? && now >= old(deferred).value.fireAt
      ensures fired ==> runs == old(runs) + [Run(old(deferred).value.args, now)]
                        && lastExecTime == now && deferred == None
      ensures !fired ==> runs == old(runs) && lastExecTime == old(lastExecTime)
                         && deferred == old(deferred)
    {
      fired := false;
      if deferred.Some? && now >= deferred.value.fireAt {
        runs := runs + [Run(deferred.value.args, now)];
        lastExecTime := now;
        deferred := None;
        fired := true;
      }
    }
  }

  /** Calls at t, t+30, t+60, t+90 with a 100 ms interval (t an epoch reading
      above the interval): one immediate run at t and one deferred run at t+100
      carrying the arguments of the call at t+90. */
  method BurstCollapses(t: int, a0: int, a1: int, a2: int, a3: int) returns (runs: seq<Run<int>>)
    requires t > 100
    ensures runs == [Run(a0, t), Run(a3, t + 100)]
  {
    var th := new Throttle<int>(100);
    var ran := th.Call(t, a0);
    ran := th.Call(t + 30, a1);
    ran := th.Call(t + 60, a2);
    ran := th.Call(t + 90, a3);
    var fired := th.Tick(t + 99);
    fired := th.Tick(t + 100);
    runs := th.runs;
  }

  /** With a clock starting at 0 the very first call is deferred, because
      `lastExecTime` starts at 0 and the comparison is strict. */
  method FirstCallAtZeroIsDeferred(a: int) returns (ranNow: bool, runs: seq<Run<int>>)
    ensures !ranNow && runs == []
  {
    var th := new Throttle<int>(100);
    ranNow := th.Call(0, a);
    runs := th.runs;
  }
}
