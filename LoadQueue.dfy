/**
 * The resource load queue of MemoryManager as values: the pending bundle
 * list, the running request count, the in-flight flag, the progress
 * delegate's invocation list and the shared progress object. Each operation
 * gives the new queue and the effects it emits, in order.
 */
module LoadQueue {
  import opened Effects

  datatype Queue = Queue(
    loadList: seq<string>,       // bundles not yet dispatched, oldest first
    loadCount: int,              // bundles requested since the queue last drained
    isLoading: bool,             // a dispatched bundle has not reported done yet
    loadCallBack: seq<Callback>, // the delegate's invocation list; [] is null
    loadStatus: LoadState)       // the object reported on each dispatch

  datatype Step = Step(queue: Queue, effects: seq<Effect>)

  const Initial := Queue([], 0, false, [], LoadState(false, Fraction(0, 1)))

  /**
   * The queue invariant: never more pending bundles than were requested, and
   * a nonzero request count only while some callback is registered. Together
   * they make the divisor of the progress fraction positive and guarantee a
   * subscriber for every dispatch report.
   */
  predicate Inv(q: Queue)
  {
    |q.loadList| <= q.loadCount && (q.loadCount > 0 ==> q.loadCallBack != [])
  }

  lemma InitialInv()
    ensures Inv(Initial) && Initial.loadList == [] && !Initial.isLoading
  {
  }

  /** The progress fraction as the source computes it, in integer arithmetic. */
  function ProgressAsWritten(remaining: nat, total: nat): (p: int)
    requires remaining < total
    ensures p == 1
  {
    1 - remaining / total
  }

  /**
   * The progress fraction as intended: the share of the batch already
   * dispatched, positive and at most one, and whole exactly when nothing
   * remains.
   */
  function Progress(remaining: nat, total: nat): (p: Fraction)
    requires remaining < total
    ensures 0 < p.num <= p.den
    ensures p.num == p.den <==> remaining == 0
  {
    Fraction(total - remaining, total)
  }

  /** Which progress a dispatching tick reports: the source's integer formula or the intended share. */
  datatype ProgressRule = AsWritten | Corrected

  /**
   * The progress a dispatching tick reports with remaining bundles pending
   * out of total: always a fraction in (0, 1], and under the source's formula
   * always exactly one.
   */
  function ReportedProgress(rule: ProgressRule, remaining: nat, total: nat): (p: Fraction)
    requires remaining < total
    ensures 0 < p.num <= p.den
    ensures rule == AsWritten ==> p == Fraction(1, 1)
    ensures rule == Corrected ==> p == Progress(remaining, total)
  {
    match rule
    case AsWritten => Fraction(ProgressAsWritten(remaining, total), 1)
    case Corrected => Progress(remaining, total)
  }

  lemma DivideDifference(a: real, b: real, t: real)
    requires t > 0.0
    ensures (a - b) / t == a / t - b / t
    ensures t / t == 1.0 && 0.0 / t == 0.0
  {
  }

  lemma DivideLess(a: real, b: real, t: real)
    requires a < b && t > 0.0
    ensures a / t < b / t
  {
  }

  /** The value of the corrected progress is one less the remaining share, in (0, 1]. */
  lemma ProgressValue(remaining: nat, total: nat)
    requires remaining < total
    ensures Value(Progress(remaining, total)) == 1.0 - remaining as real / total as real
    ensures 0.0 < Value(Progress(remaining, total)) <= 1.0
    ensures Value(Progress(remaining, total)) == 1.0 <==> remaining == 0
  {
    var t := total as real;
    var r := remaining as real;
    assert Value(Progress(remaining, total)) == (t - r) / t;
    DivideDifference(t, r, t);
    DivideLess(r, t, t);
    if remaining > 0 {
      DivideLess(0.0, r, t);
    }
  }

  /** Within one batch, every dispatch reports more progress than the one before. */
  lemma ProgressIncreases(earlier: nat, later: nat, total: nat)
    requires later < earlier < total
    ensures Value(Progress(earlier, total)) < Value(Progress(later, total))
  {
    ProgressValue(earlier, total);
    ProgressValue(later, total);
    DivideLess(later as real, earlier as real, total as real);
  }

  /** The input that separates the two: two of three bundles still pending. */
  lemma ProgressAsWrittenOnThreeBundles()
    ensures ProgressAsWritten(2, 3) == 1
    ensures Value(Progress(2, 3)) == 1.0 / 3.0
  {
  }

  /** The effects of one delegate call guarded by try/catch. */
  function Notify(callBack: seq<Callback>, state: LoadState, callBackFails: bool): (r: seq<Effect>)
  {
    [Invoke(callBack, state)] + (if callBackFails then [LogError(LoadFinishCallBackError)] else [])
  }

  /** The delegate is called once with the state; a throwing call adds exactly one error log. */
  lemma NotifyLogsFailure(callBack: seq<Callback>, state: LoadState, callBackFails: bool)
    ensures var r := Notify(callBack, state, callBackFails);
      && |r| >= 1 && r[0] == Invoke(callBack, state)
      && (callBackFails <==> |r| == 2)
      && (callBackFails ==> r[1] == LogError(LoadFinishCallBackError))
      && Dispatched(r) == [] && Reports(r) == [state]
  {
    var r := Notify(callBack, state, callBackFails);
    if callBackFails {
      assert r == [r[0]] + [r[1]];
      DispatchedAppend([r[0]], [r[1]]);
      ReportsAppend([r[0]], [r[1]]);
    } else {
      assert r == [r[0]];
    }
  }

  /** LoadRes: the request is either answered at once or queued. */
  function LoadRes(q: Queue, resourceMode: bool, resList: seq<string>, callBack: Callback): (r: Step)
    ensures Inv(q) ==> Inv(r.queue)
  {
    if resourceMode then
      Step(q, [Invoke([callBack], CompleteState)])
    else
      Step(q.(loadCallBack := q.loadCallBack + [callBack],
              loadList := q.loadList + resList,
              loadCount := q.loadCount + |resList|), [])
  }

  /**
   * In Resource mode the callback is called once with the complete state and
   * the queue is left alone; otherwise the bundles join the end of the queue,
   * the count grows by their number, the callback subscribes, and nothing is
   * emitted yet.
   */
  lemma LoadResEnqueues(q: Queue, resourceMode: bool, resList: seq<string>, callBack: Callback)
    ensures var r := LoadRes(q, resourceMode, resList, callBack);
      if resourceMode then r.queue == q && r.effects == [Invoke([callBack], CompleteState)]
      else
        && r.effects == [] && r.queue.isLoading == q.isLoading
        && r.queue.loadList == q.loadList + resList
        && r.queue.loadCount == q.loadCount + |resList|
        && r.queue.loadCallBack == q.loadCallBack + [callBack]
        && r.queue.loadStatus == q.loadStatus
  {
  }

  /**
   * LoadResources, one tick of the queue. Nothing happens while a bundle is
   * in flight. An empty queue with subscribers reports completion once and
   * is reset; otherwise the head bundle is dispatched and progress reported.
   */
  function LoadResources(rule: ProgressRule, q: Queue, callBackFails: bool): (r: Step)
    requires Inv(q)
    ensures Inv(r.queue)
  {
    if q.isLoading then
      Step(q, [])
    else if q.loadList == [] then
      if q.loadCallBack == [] then Step(q, [])
      else Step(q.(loadCallBack := [], loadCount := 0),
                Notify(q.loadCallBack, CompleteState, callBackFails))
    else
      var rest := q.loadList[1..];
      var status := LoadState(false, ReportedProgress(rule, |rest|, q.loadCount));
      Step(q.(loadList := rest, isLoading := true, loadStatus := status),
           [LoadBundleAsync(q.loadList[0])] + Notify(q.loadCallBack, status, callBackFails))
  }

  /** While a bundle is in flight a tick changes nothing and emits nothing. */
  lemma LoadResourcesWhileLoading(rule: ProgressRule, q: Queue, callBackFails: bool)
    requires Inv(q) && q.isLoading
    ensures LoadResources(rule, q, callBackFails) == Step(q, [])
  {
  }

  /**
   * An idle, empty queue: without subscribers nothing happens; with them the
   * complete state is reported once and the callbacks and count are reset.
   */
  lemma LoadResourcesDrain(rule: ProgressRule, q: Queue, callBackFails: bool)
    requires Inv(q) && !q.isLoading && q.loadList == []
    ensures var r := LoadResources(rule, q, callBackFails);
      if q.loadCallBack == [] then r == Step(q, [])
      else
        && r.effects == Notify(q.loadCallBack, CompleteState, callBackFails)
        && r.queue == q.(loadCallBack := [], loadCount := 0)
  {
  }

  /**
   * An idle queue with pending bundles: exactly the head goes to the loader
   * and leaves the list, the rest keep their order, the flag is set, and the
   * subscribers get a not-done report carrying the progress of the dispatch.
   */
  lemma LoadResourcesDispatch(rule: ProgressRule, q: Queue, callBackFails: bool)
    requires Inv(q) && !q.isLoading && q.loadList != []
    ensures var r := LoadResources(rule, q, callBackFails);
      && r.queue.isLoading && r.queue.loadList == q.loadList[1..]
      && r.queue.loadCount == q.loadCount && r.queue.loadCallBack == q.loadCallBack
      && r.queue.loadStatus == LoadState(false, ReportedProgress(rule, |q.loadList| - 1, q.loadCount))
      && |r.effects| >= 2 && r.effects[0] == LoadBundleAsync(q.loadList[0])
      && r.effects[1..] == Notify(q.loadCallBack, r.queue.loadStatus, callBackFails)
  {
    var r := LoadResources(rule, q, callBackFails);
    assert r.effects[1..] == Notify(q.loadCallBack, r.queue.loadStatus, callBackFails);
  }

  /**
   * A failing callback is logged and swallowed: the queue ends up the same
   * either way, and the effects differ by exactly one trailing error log when
   * a callback was called and by nothing otherwise.
   */
  lemma CallBackFailureLeavesQueue(rule: ProgressRule, q: Queue)
    requires Inv(q)
    ensures LoadResources(rule, q, true).queue == LoadResources(rule, q, false).queue
    ensures LoadResources(rule, q, true).effects
              == LoadResources(rule, q, false).effects
                 + (if !q.isLoading && (q.loadList != [] || q.loadCallBack != []) then [LogError(LoadFinishCallBackError)] else [])
  {
  }

  /** LoadResourcesFinishCallBack: the loader's completion report. */
  function LoadResourcesFinishCallBack(q: Queue, state: LoadState): (r: Queue)
    ensures Inv(q) ==> Inv(r)
  {
    if state.isDone then q.(isLoading := false) else q
  }

  /** A load reporting done clears the in-flight flag; nothing else changes. */
  lemma FinishCallBackClearsFlag(q: Queue, state: LoadState)
    ensures var r := LoadResourcesFinishCallBack(q, state);
      r.isLoading == (q.isLoading && !state.isDone) && r.(isLoading := q.isLoading) == q
  {
  }

  /** The unload requests of UnLoadRes outside Resource mode: one per bundle, in list order. */
  function UnLoadTrace(resList: seq<string>): (r: seq<Effect>)
    ensures |r| == |resList|
    ensures forall i :: 0 <= i < |resList| ==> r[i] == UnLoadBundle(resList[i])
  {
    if resList == [] then [] else [UnLoadBundle(resList[0])] + UnLoadTrace(resList[1..])
  }

  // ---------------------------------------------------------------------
  // Runs: any interleaving of submissions, ticks and load completions.

  datatype Op =
    | Submit(resourceMode: bool, resList: seq<string>, callBack: Callback)
    | Tick(callBackFails: bool)
    | Finish(state: LoadState)

  function Apply(rule: ProgressRule, q: Queue, op: Op): (r: Step)
    requires Inv(q)
    ensures Inv(r.queue)
  {
    match op
    case Submit(mode, resList, callBack) => LoadRes(q, mode, resList, callBack)
    case Tick(fails) => LoadResources(rule, q, fails)
    case Finish(state) => Step(LoadResourcesFinishCallBack(q, state), [])
  }

  function Run(rule: ProgressRule, q: Queue, ops: seq<Op>): (r: Step)
    requires Inv(q)
    ensures Inv(r.queue)
    decreases |ops|
  {
    if ops == [] then Step(q, [])
    else
      var s := Apply(rule, q, ops[0]);
      var t := Run(rule, s.queue, ops[1..]);
      Step(t.queue, s.effects + t.effects)
  }

  lemma {:induction false} RunAppend(rule: ProgressRule, q: Queue, a: seq<Op>, b: seq<Op>)
    requires Inv(q)
    ensures Run(rule, q, a + b).queue == Run(rule, Run(rule, q, a).queue, b).queue
    ensures Run(rule, q, a + b).effects == Run(rule, q, a).effects + Run(rule, Run(rule, q, a).queue, b).effects
    decreases |a|
  {
    if a == [] {
      assert a + b == b;
    } else {
      var s := Apply(rule, q, a[0]);
      assert (a + b)[0] == a[0] && (a + b)[1..] == a[1..] + b;
      RunAppend(rule, s.queue, a[1..], b);
      var mid := Run(rule, s.queue, a[1..]);
      var rest := Run(rule, mid.queue, b);
      assert s.effects + (mid.effects + rest.effects) == (s.effects + mid.effects) + rest.effects;
    }
  }

  /** The bundle names handed to the loader, in order. */
  function Dispatched(log: seq<Effect>): (r: seq<string>)
  {
    if log == [] then []
    else (if log[0].LoadBundleAsync? then [log[0].bundleName] else []) + Dispatched(log[1..])
  }

  lemma {:induction false} DispatchedAppend(a: seq<Effect>, b: seq<Effect>)
    ensures Dispatched(a + b) == Dispatched(a) + Dispatched(b)
  {
    if a == [] {
      assert a + b == b;
    } else {
      assert (a + b)[0] == a[0];
      assert (a + b)[1..] == a[1..] + b;
      DispatchedAppend(a[1..], b);
      var h := if a[0].LoadBundleAsync? then [a[0].bundleName] else [];
      assert Dispatched(a + b) == h + Dispatched(a[1..] + b);
      assert Dispatched(a) == h + Dispatched(a[1..]);
    }
  }

  /** The states the progress delegate received, in order. */
  function Reports(log: seq<Effect>): (r: seq<LoadState>)
  {
    if log == [] then []
    else (if log[0].Invoke? then [log[0].state] else []) + Reports(log[1..])
  }

  lemma {:induction false} ReportsAppend(a: seq<Effect>, b: seq<Effect>)
    ensures Reports(a + b) == Reports(a) + Reports(b)
  {
    if a == [] {
      assert a + b == b;
    } else {
      assert (a + b)[0] == a[0];
      assert (a + b)[1..] == a[1..] + b;
      ReportsAppend(a[1..], b);
      var h := if a[0].Invoke? then [a[0].state] else [];
      assert Reports(a + b) == h + Reports(a[1..] + b);
      assert Reports(a) == h + Reports(a[1..]);
    }
  }

  /** Load completions in `ops` that report done. */
  function DoneCount(ops: seq<Op>): nat
  {
    if ops == [] then 0
    else (if ops[0].Finish? && ops[0].state.isDone then 1 else 0) + DoneCount(ops[1..])
  }

  function Idle(q: Queue): nat
  {
    if q.isLoading then 0 else 1
  }

  /**
   * One bundle in flight at a time: across any run, the number of dispatches
   * never exceeds the number of completions reporting done, plus one if the
   * queue started idle, less one if it ends idle.
   */
  lemma {:induction false} DispatchesBoundedByCompletions(rule: ProgressRule, q: Queue, ops: seq<Op>)
    requires Inv(q)
    ensures |Dispatched(Run(rule, q, ops).effects)| + Idle(Run(rule, q, ops).queue) <= DoneCount(ops) + Idle(q)
    decreases |ops|
  {
    if ops != [] {
      var s := Apply(rule, q, ops[0]);
      DispatchesBoundedByCompletions(rule, s.queue, ops[1..]);
      DispatchedAppend(s.effects, Run(rule, s.queue, ops[1..]).effects);
      if ops[0].Tick? && !q.isLoading && q.loadList != [] {
        assert s.effects == [s.effects[0]] + s.effects[1..];
        DispatchedAppend([s.effects[0]], s.effects[1..]);
        assert Dispatched(s.effects[1..]) == [] by {
          var n := s.effects[1..];
          if |n| == 2 {
            assert n == [n[0]] + [n[1]];
            DispatchedAppend([n[0]], [n[1]]);
          }
        }
      } else if ops[0].Tick? && !q.isLoading && q.loadCallBack != [] {
        var n := s.effects;
        if |n| == 2 {
          assert n == [n[0]] + [n[1]];
          DispatchedAppend([n[0]], [n[1]]);
        }
      }
    }
  }

  /** While a bundle is in flight and no completion reports done, nothing more is dispatched. */
  lemma NoDispatchWhileLoading(rule: ProgressRule, q: Queue, ops: seq<Op>)
    requires Inv(q) && q.isLoading && DoneCount(ops) == 0
    ensures Dispatched(Run(rule, q, ops).effects) == []
    ensures Run(rule, q, ops).queue.isLoading
  {
    DispatchesBoundedByCompletions(rule, q, ops);
  }

  /** k rounds of the loader's happy path: a tick, then the dispatched load reports done. */
  function BatchOps(k: nat, callBackFails: bool, done: LoadState): (ops: seq<Op>)
    ensures |ops| == 2 * k
  {
    if k == 0 then [] else [Tick(callBackFails), Finish(done)] + BatchOps(k - 1, callBackFails, done)
  }

  /** A dispatching tick hands exactly the head bundle to the loader and reports once. */
  lemma DispatchEffects(rule: ProgressRule, q: Queue, callBackFails: bool)
    requires Inv(q) && !q.isLoading && q.loadList != []
    ensures Dispatched(LoadResources(rule, q, callBackFails).effects) == [q.loadList[0]]
    ensures Reports(LoadResources(rule, q, callBackFails).effects)
              == [LoadState(false, ReportedProgress(rule, |q.loadList| - 1, q.loadCount))]
  {
    var e := LoadResources(rule, q, callBackFails).effects;
    assert e == [e[0]] + e[1..];
    var n := e[1..];
    if |n| == 2 {
      assert n == [n[0]] + [n[1]];
      DispatchedAppend([n[0]], [n[1]]);
      ReportsAppend([n[0]], [n[1]]);
    } else {
      assert n == [n[0]];
    }
    DispatchedAppend([e[0]], n);
    ReportsAppend([e[0]], n);
  }

  /** Running a tick and a completion first is running the rest from the resulting queue. */
  lemma RunRound(rule: ProgressRule, q: Queue, callBackFails: bool, done: LoadState, rest: seq<Op>)
    requires Inv(q)
    ensures var tick := LoadResources(rule, q, callBackFails);
      var q1 := LoadResourcesFinishCallBack(tick.queue, done);
      && Run(rule, q, [Tick(callBackFails), Finish(done)] + rest).queue == Run(rule, q1, rest).queue
      && Run(rule, q, [Tick(callBackFails), Finish(done)] + rest).effects == tick.effects + Run(rule, q1, rest).effects
  {
    var ops := [Tick(callBackFails), Finish(done)] + rest;
    assert ops[0] == Tick(callBackFails);
    assert ops[1..][0] == Finish(done);
    assert ops[1..][1..] == rest;
    var q1 := LoadResourcesFinishCallBack(LoadResources(rule, q, callBackFails).queue, done);
    assert [] + Run(rule, q1, rest).effects == Run(rule, q1, rest).effects;
  }

  /** The reports of k rounds started with n bundles pending out of total. */
  function BatchReports(rule: ProgressRule, n: nat, total: nat, k: nat): (r: seq<LoadState>)
    requires k <= n <= total
    ensures |r| == k
  {
    if k == 0 then [] else [LoadState(false, ReportedProgress(rule, n - 1, total))] + BatchReports(rule, n - 1, total, k - 1)
  }

  lemma {:induction false} BatchReportsAt(rule: ProgressRule, n: nat, total: nat, k: nat, i: nat)
    requires k <= n <= total && i < k
    ensures BatchReports(rule, n, total, k)[i] == LoadState(false, ReportedProgress(rule, n - 1 - i, total))
    decreases k
  {
    if i > 0 {
      BatchReportsAt(rule, n - 1, total, k - 1, i - 1);
    }
  }

  /**
   * One round of a batch from an idle queue with bundles pending: the head
   * bundle is dispatched, the round's progress is reported, and the batch
   * continues from the queue without its head, idle again.
   */
  lemma BatchRound(rule: ProgressRule, q: Queue, k: nat, callBackFails: bool, done: LoadState)
    requires Inv(q) && !q.isLoading && 0 < k <= |q.loadList| && done.isDone
    ensures var status := LoadState(false, ReportedProgress(rule, |q.loadList| - 1, q.loadCount));
      var q1 := q.(loadList := q.loadList[1..], loadStatus := status);
      var r := Run(rule, q, BatchOps(k, callBackFails, done));
      var t := Run(rule, q1, BatchOps(k - 1, callBackFails, done));
      && Inv(q1)
      && r.queue == t.queue
      && Dispatched(r.effects) == [q.loadList[0]] + Dispatched(t.effects)
      && Reports(r.effects) == [status] + Reports(t.effects)
  {
    var rest := BatchOps(k - 1, callBackFails, done);
    var tick := LoadResources(rule, q, callBackFails).effects;
    var q1 := LoadResourcesFinishCallBack(LoadResources(rule, q, callBackFails).queue, done);
    var tail := Run(rule, q1, rest).effects;
    assert BatchOps(k, callBackFails, done) == [Tick(callBackFails), Finish(done)] + rest;
    RunRound(rule, q, callBackFails, done, rest);
    DispatchEffects(rule, q, callBackFails);
    DispatchedAppend(tick, tail);
    ReportsAppend(tick, tail);
  }

  lemma {:induction false} BatchQueue(rule: ProgressRule, q: Queue, k: nat, callBackFails: bool, done: LoadState)
    requires Inv(q) && !q.isLoading && k <= |q.loadList| && done.isDone
    ensures var r := Run(rule, q, BatchOps(k, callBackFails, done)).queue;
      && r.loadList == q.loadList[k..] && !r.isLoading
      && r.loadCount == q.loadCount && r.loadCallBack == q.loadCallBack
    decreases k
  {
    if k > 0 {
      var q1 := q.(loadList := q.loadList[1..], loadStatus := LoadState(false, ReportedProgress(rule, |q.loadList| - 1, q.loadCount)));
      BatchRound(rule, q, k, callBackFails, done);
      BatchQueue(rule, q1, k - 1, callBackFails, done);
      assert q.loadList[k..] == q1.loadList[k - 1..];
    }
  }

  lemma PrefixCons(s: seq<string>, k: nat)
    requires 0 < k <= |s|
    ensures s[..k] == [s[0]] + s[1..][..k - 1]
  {
  }

  lemma {:induction false} BatchDispatched(rule: ProgressRule, q: Queue, k: nat, callBackFails: bool, done: LoadState)
    requires Inv(q) && !q.isLoading && k <= |q.loadList| && done.isDone
    ensures Dispatched(Run(rule, q, BatchOps(k, callBackFails, done)).effects) == q.loadList[..k]
    decreases k
  {
    if k > 0 {
      var q1 := q.(loadList := q.loadList[1..], loadStatus := LoadState(false, ReportedProgress(rule, |q.loadList| - 1, q.loadCount)));
      BatchRound(rule, q, k, callBackFails, done);
      BatchDispatched(rule, q1, k - 1, callBackFails, done);
      PrefixCons(q.loadList, k);
    }
  }

  lemma {:induction false} BatchReported(rule: ProgressRule, q: Queue, k: nat, callBackFails: bool, done: LoadState)
    requires Inv(q) && !q.isLoading && k <= |q.loadList| && done.isDone
    ensures Reports(Run(rule, q, BatchOps(k, callBackFails, done)).effects) == BatchReports(rule, |q.loadList|, q.loadCount, k)
    decreases k
  {
    if k > 0 {
      var q1 := q.(loadList := q.loadList[1..], loadStatus := LoadState(false, ReportedProgress(rule, |q.loadList| - 1, q.loadCount)));
      BatchRound(rule, q, k, callBackFails, done);
      BatchReported(rule, q1, k - 1, callBackFails, done);
    }
  }

  /**
   * A batch is worked off in order: after k rounds exactly the first k
   * pending bundles were dispatched, head first, each report carried the
   * progress of its round, and the rest are still pending.
   */
  lemma BatchRun(rule: ProgressRule, q: Queue, k: nat, callBackFails: bool, done: LoadState)
    requires Inv(q) && !q.isLoading && k <= |q.loadList| && done.isDone
    ensures var r := Run(rule, q, BatchOps(k, callBackFails, done));
      && Dispatched(r.effects) == q.loadList[..k]
      && |Reports(r.effects)| == k
      && (forall i :: 0 <= i < k ==>
            Reports(r.effects)[i] == LoadState(false, ReportedProgress(rule, |q.loadList| - 1 - i, q.loadCount)))
      && r.queue.loadList == q.loadList[k..]
      && !r.queue.isLoading
      && r.queue.loadCount == q.loadCount
      && r.queue.loadCallBack == q.loadCallBack
  {
    BatchQueue(rule, q, k, callBackFails, done);
    BatchDispatched(rule, q, k, callBackFails, done);
    BatchReported(rule, q, k, callBackFails, done);
    forall i | 0 <= i < k
      ensures BatchReports(rule, |q.loadList|, q.loadCount, k)[i]
                == LoadState(false, ReportedProgress(rule, |q.loadList| - 1 - i, q.loadCount))
    {
      BatchReportsAt(rule, |q.loadList|, q.loadCount, k, i);
    }
  }

  /** Under the intended formula, later rounds of a batch carry strictly more progress. */
  lemma BatchReportsIncrease(n: nat, total: nat, k: nat, i: nat, j: nat)
    requires k <= n <= total && i < j < k
    ensures Value(BatchReports(Corrected, n, total, k)[i].progress)
              < Value(BatchReports(Corrected, n, total, k)[j].progress)
  {
    BatchReportsAt(Corrected, n, total, k, i);
    BatchReportsAt(Corrected, n, total, k, j);
    ProgressIncreases(n - 1 - i, n - 1 - j, total);
  }

  /** With the intended formula, reported progress rises strictly from one round of a batch to the next. */
  lemma BatchProgressIncreases(q: Queue, k: nat, callBackFails: bool, done: LoadState, i: nat, j: nat)
    requires Inv(q) && !q.isLoading && k <= |q.loadList| && done.isDone
    requires i < j < k
    ensures var reports := Reports(Run(Corrected, q, BatchOps(k, callBackFails, done)).effects);
      |reports| == k && Value(reports[i].progress) < Value(reports[j].progress)
  {
    BatchReported(Corrected, q, k, callBackFails, done);
    BatchReportsIncrease(|q.loadList|, q.loadCount, k, i, j);
  }

  /**
   * With the source's formula, every report of a batch claims the whole
   * batch loaded (progress one) while saying it is not done, so the
   * reported progress never moves from round to round.
   */
  lemma BatchProgressAsWritten(q: Queue, k: nat, callBackFails: bool, done: LoadState)
    requires Inv(q) && !q.isLoading && k <= |q.loadList| && done.isDone
    ensures var reports := Reports(Run(AsWritten, q, BatchOps(k, callBackFails, done)).effects);
      && |reports| == k
      && forall i :: 0 <= i < k ==> reports[i] == LoadState(false, Fraction(1, 1)) && Value(reports[i].progress) == 1.0
  {
    BatchRun(AsWritten, q, k, callBackFails, done);
  }

  lemma RunSingle(rule: ProgressRule, q: Queue, op: Op)
    requires Inv(q)
    ensures Run(rule, q, [op]) == Apply(rule, q, op)
  {
    assert [op][1..] == [];
    assert Apply(rule, q, op).effects + [] == Apply(rule, q, op).effects;
  }

  /** The tick on a drained queue with subscribers reports completion once and dispatches nothing. */
  lemma DrainEffects(rule: ProgressRule, q: Queue, callBackFails: bool)
    requires Inv(q) && !q.isLoading && q.loadList == [] && q.loadCallBack != []
    ensures Dispatched(LoadResources(rule, q, callBackFails).effects) == []
    ensures Reports(LoadResources(rule, q, callBackFails).effects) == [CompleteState]
  {
    var n := LoadResources(rule, q, callBackFails).effects;
    if |n| == 2 {
      assert n == [n[0]] + [n[1]];
      DispatchedAppend([n[0]], [n[1]]);
      ReportsAppend([n[0]], [n[1]]);
    } else {
      assert n == [n[0]];
    }
  }

  /**
   * Submitting a batch to an idle empty queue and running its rounds plus one
   * more tick dispatches the batch in order and ends drained: the last report
   * is the complete state, no callback is left and the count is reset, even
   * when every callback call fails.
   */
  lemma SubmittedBatchDrains(rule: ProgressRule, resList: seq<string>, callBack: Callback, callBackFails: bool, done: LoadState)
    requires done.isDone
    ensures var ops := [Submit(false, resList, callBack)] + BatchOps(|resList|, callBackFails, done) + [Tick(callBackFails)];
      var r := Run(rule, Initial, ops);
      && Dispatched(r.effects) == resList
      && |Reports(r.effects)| == |resList| + 1
      && Reports(r.effects)[|resList|] == CompleteState
      && r.queue.loadList == [] && r.queue.loadCount == 0 && r.queue.loadCallBack == [] && !r.queue.isLoading
  {
    var submit := [Submit(false, resList, callBack)];
    var batch := BatchOps(|resList|, callBackFails, done);
    var final := [Tick(callBackFails)];
    var q1 := Queue(resList, |resList|, false, [callBack], Initial.loadStatus);
    var mid := Run(rule, q1, batch);
    SubmitThenBatch(rule, resList, callBack, callBackFails, done);
    RunAppend(rule, Initial, submit + batch, final);
    assert submit + batch + final == (submit + batch) + final;
    FinalTick(rule, mid.queue, callBackFails);
    var last := LoadResources(rule, mid.queue, callBackFails).effects;
    DispatchedAppend(mid.effects, last);
    ReportsAppend(mid.effects, last);
  }

  /** A bundle-mode submission to the initial queue leaves a queue holding only that batch. */
  lemma SubmitToInitial(rule: ProgressRule, resList: seq<string>, callBack: Callback, rest: seq<Op>)
    ensures var q1 := Queue(resList, |resList|, false, [callBack], Initial.loadStatus);
      Inv(q1) && Run(rule, Initial, [Submit(false, resList, callBack)] + rest) == Run(rule, q1, rest)
  {
    var q1 := Queue(resList, |resList|, false, [callBack], Initial.loadStatus);
    RunCons(rule, Initial, Submit(false, resList, callBack), rest);
    assert Apply(rule, Initial, Submit(false, resList, callBack)) == Step(q1, []);
    assert [] + Run(rule, q1, rest).effects == Run(rule, q1, rest).effects;
  }

  /** The submission and its rounds: the batch is dispatched and reported from a queue holding only it. */
  lemma SubmitThenBatch(rule: ProgressRule, resList: seq<string>, callBack: Callback, callBackFails: bool, done: LoadState)
    requires done.isDone
    ensures var q1 := Queue(resList, |resList|, false, [callBack], Initial.loadStatus);
      var batch := BatchOps(|resList|, callBackFails, done);
      var mid := Run(rule, q1, batch);
      && Inv(q1)
      && Run(rule, Initial, [Submit(false, resList, callBack)] + batch) == mid
      && Dispatched(mid.effects) == resList
      && |Reports(mid.effects)| == |resList|
      && !mid.queue.isLoading && mid.queue.loadList == [] && mid.queue.loadCallBack == [callBack]
  {
    var batch := BatchOps(|resList|, callBackFails, done);
    var q1 := Queue(resList, |resList|, false, [callBack], Initial.loadStatus);
    SubmitToInitial(rule, resList, callBack, batch);
    BatchDispatched(rule, q1, |resList|, callBackFails, done);
    BatchReported(rule, q1, |resList|, callBackFails, done);
    BatchQueue(rule, q1, |resList|, callBackFails, done);
    assert resList[..|resList|] == resList;
  }

  /** Running an operation and then the rest is running them as one sequence. */
  lemma RunCons(rule: ProgressRule, q: Queue, op: Op, rest: seq<Op>)
    requires Inv(q)
    ensures var s := Apply(rule, q, op);
      var t := Run(rule, s.queue, rest);
      Run(rule, q, [op] + rest) == Step(t.queue, s.effects + t.effects)
  {
    assert ([op] + rest)[0] == op && ([op] + rest)[1..] == rest;
  }

  /** The tick after a batch: the queue drains and reports completion once. */
  lemma FinalTick(rule: ProgressRule, q: Queue, callBackFails: bool)
    requires Inv(q) && !q.isLoading && q.loadList == [] && q.loadCallBack != []
    ensures var r := Run(rule, q, [Tick(callBackFails)]);
      && r == LoadResources(rule, q, callBackFails)
      && Dispatched(r.effects) == [] && Reports(r.effects) == [CompleteState]
      && r.queue.loadList == [] && r.queue.loadCount == 0 && r.queue.loadCallBack == [] && !r.queue.isLoading
  {
    RunSingle(rule, q, Tick(callBackFails));
    DrainEffects(rule, q, callBackFails);
  }
}
