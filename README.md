# MemoryManager: load queue and memory monitor

This project models `MemoryManager`, the runtime resource governor of a Unity framework. It runs once per frame and has two jobs:

- **The resource load queue.** `LoadRes` queues asset-bundle names and subscribes a progress callback. Outside Resource mode, each frame `LoadResources` sends the head bundle to the bundle loader, but only when no load is in flight, and reports progress to the callback. `LoadResourcesFinishCallBack` clears the in-flight flag once the loader reports done. When the queue is empty, the callback gets the complete state one last time and is dropped, and the request count goes back to 0. `UnLoadRes` asks the loader to unload bundles.
- **The memory monitor.** `MonitorMemorySize` compares profiler samples with two limits (170 MB total, 50 MB heap). Each tier has a soft level (70% of its limit) and a hard level (the limit). Each level has a flag, so work happens only when a level is first crossed: the total tier runs the `FreeMemory` reclamation cascade and logs an alarm, while the heap tier only logs an alarm.

Every call to another component becomes an entry in an effect log:
- the progress delegate being invoked, with the `LoadState` it receives;
- `LoadBundleAsync` and `UnLoadBundle`;
- the two `GlobalEvent` notifications;
- the object-pool, hidden-UI, data, config and record cache clears;
- `Debug.LogError`.

The environment supplies these as parameters:
- the Resource-mode flag (`ResourceManager.m_gameLoadType`);
- whether a progress callback throws;
- the profiler's byte counts.

Files:

- `Effects.dfy`: the values used everywhere (`LoadState` with its progress fraction, callbacks, memory events, log messages), the effect log, and the two reclamation traces.
- `LoadQueue.dfy`: the load queue as values. It has one function per operation, the queue invariant, and lemmas about any mix of submissions, ticks and load completions.
- `MemoryMonitor.dfy`: the two monitor tiers as functions. Its lemmas cover runs of samples.
- `Governor.dfy`: `class MemoryManager`. Its fields are the source's static fields. Its methods update those fields in place and are proved against the two specifications above.

The queue invariant is `|loadList| <= loadCount`, and a nonzero count means some callback is registered. As long as no callback and no loader call re-enters `MemoryManager` (see "## Left out"), this rules out division by zero at `MemoryManager.cs:138`, and it means every dispatch report has a subscriber.

Points of the code's behaviour that the model keeps:
- Progress is computed with integer division, so every dispatch reports progress 1 (see Findings). The queue functions take a `ProgressRule`: `AsWritten` is the code's formula and is what the class uses; `Corrected` is the intended share.
- The total tier compares reserved memory at the soft level and the mono heap size at the hard level.
- A tier's critical flag is cleared only while its soft-level metric is still above the soft level. `MemoryMonitor.HardFlagSurvivesDropBelowSoft` shows the result: high, low, high gives one alarm, not two.
- The request count grows on every submission and is reset only when the queue drains.

## Model

| member | source | states |
|---|---|---|
| `Governor.MemoryManager.constructor` | Assets/Script/Core/ResourceLoad/MemoryManager.cs:11-21 | Limits start at 170 MB and 50 MB; dynamic loading is allowed (a field the file never reads). The queue starts empty, idle and unsubscribed, all four monitor flags start clear, and the queue invariant holds. |
| `Governor.MemoryManager.Update` | Assets/Script/Core/ResourceLoad/MemoryManager.cs:31-38 | One frame runs the queue tick, then the monitor, always both. The log gains the queue's effects followed by the monitor's. The queue invariant is kept. |
| `Governor.MemoryManager.FreeMemory` | Assets/Script/Core/ResourceLoad/MemoryManager.cs:49-63 | Appends exactly this trace: FreeMemory event, CleanPool, DestroyAllHideUI, FreeHeapMemory event, then the data, config and record cache clears. Only the log changes. |
| `Governor.MemoryManager.FreeHeapMemory` | Assets/Script/Core/ResourceLoad/MemoryManager.cs:68-75 | Appends exactly the last four entries of that trace. Only the log changes. |
| `Effects.FreeMemoryTraceCounts` | Assets/Script/Core/ResourceLoad/MemoryManager.cs:49-75 | The full cascade contains exactly one FreeMemory notification, and every entry in it is a reclamation effect. The heap cascade contains no FreeMemory notification. |
| `LoadQueue.InitialInv` | Assets/Script/Core/ResourceLoad/MemoryManager.cs:104-109 | The initial queue (empty, count 0, idle, no callback) satisfies the queue invariant. |
| `LoadQueue.LoadRes` | Assets/Script/Core/ResourceLoad/MemoryManager.cs:77-89 | Both branches keep the queue invariant. |
| `LoadQueue.LoadResEnqueues` | Assets/Script/Core/ResourceLoad/MemoryManager.cs:77-89 | In Resource mode: the queue is unchanged and the callback is invoked exactly once, with CompleteState. Otherwise: nothing is invoked, the bundles are added in order to the end of the list, the count grows by their number, the callback joins the invocation list, and the flag and status are untouched. |
| `Governor.MemoryManager.LoadRes` | Assets/Script/Core/ResourceLoad/MemoryManager.cs:77-89 | The fields and the log change exactly as the function `LoadQueue.LoadRes` computes (its two cases are `LoadQueue.LoadResEnqueues`); the invariant is kept. |
| `LoadQueue.UnLoadTrace` | Assets/Script/Core/ResourceLoad/MemoryManager.cs:95-98 | Exactly one unload request per bundle, and the i-th request names the i-th bundle. |
| `Governor.MemoryManager.UnLoadRes` | Assets/Script/Core/ResourceLoad/MemoryManager.cs:91-100 | In Resource mode, no unload requests. Otherwise the loop appends one request per bundle, in list order. Only the log changes. |
| `LoadQueue.NotifyLogsFailure` | Assets/Script/Core/ResourceLoad/MemoryManager.cs:140-147 | A guarded delegate call is recorded once, with the state it passed. A throwing callback adds exactly one error log and nothing else; no bundle is dispatched. |
| `LoadQueue.LoadResources` | Assets/Script/Core/ResourceLoad/MemoryManager.cs:111-151 | Every branch of a tick keeps the queue invariant, under either progress rule. |
| `LoadQueue.LoadResourcesWhileLoading` | Assets/Script/Core/ResourceLoad/MemoryManager.cs:113 | While a load is in flight, a tick changes nothing and emits nothing. |
| `LoadQueue.LoadResourcesDrain` | Assets/Script/Core/ResourceLoad/MemoryManager.cs:115-129 | On an idle empty queue: with no callback, nothing happens. With a callback, CompleteState is reported once (plus one error log if it throws), then callbacks and count are cleared. |
| `LoadQueue.LoadResourcesDispatch` | Assets/Script/Core/ResourceLoad/MemoryManager.cs:131-148 | On an idle queue with bundles pending: the head is passed to the loader and removed, the rest keep their order, the in-flight flag is set, count and callbacks are kept, and the callback gets `isDone = false` with `ReportedProgress` of that dispatch: 1 under `AsWritten`, the dispatched share under `Corrected`. |
| `Governor.MemoryManager.LoadResources` | Assets/Script/Core/ResourceLoad/MemoryManager.cs:111-151 | The fields and the log change exactly as the function `LoadQueue.LoadResources` computes with the code's integer progress (`AsWritten`; its cases are the lemmas above). The invariant is kept, so the progress divisor is positive. |
| `LoadQueue.CallBackFailureLeavesQueue` | Assets/Script/Core/ResourceLoad/MemoryManager.cs:119-126 | A throwing callback leaves the queue in the same state as a normal one. On an idle queue with bundles pending or callbacks registered, the effects are those of a normal tick followed by exactly one error log; otherwise they are identical. |
| `LoadQueue.LoadResourcesFinishCallBack` | Assets/Script/Core/ResourceLoad/MemoryManager.cs:153-157 | The completion report keeps the queue invariant. |
| `LoadQueue.FinishCallBackClearsFlag` | Assets/Script/Core/ResourceLoad/MemoryManager.cs:153-157 | The in-flight flag is cleared exactly when the reported state is done; otherwise it is unchanged. Nothing else changes. |
| `Governor.MemoryManager.LoadResourcesFinishCallBack` | Assets/Script/Core/ResourceLoad/MemoryManager.cs:153-157 | Only the in-flight flag may change, as the function `LoadQueue.LoadResourcesFinishCallBack` computes (see `LoadQueue.FinishCallBackClearsFlag`). |
| `LoadQueue.ReportedProgress` | Assets/Script/Core/ResourceLoad/MemoryManager.cs:137-138 | The progress a dispatching tick reports is a fraction in (0, 1]. Under `AsWritten` it is exactly 1; under `Corrected` it is `LoadQueue.Progress`. |
| `LoadQueue.ProgressAsWritten` | Assets/Script/Core/ResourceLoad/MemoryManager.cs:138 | The progress at line 138, in integer arithmetic. Whenever fewer bundles remain than were requested, it is exactly 1. |
| `LoadQueue.ProgressAsWrittenOnThreeBundles` | Assets/Script/Core/ResourceLoad/MemoryManager.cs:138 | With 2 of 3 bundles still pending, the code reports 1; the intended value is 1/3. |
| `LoadQueue.Progress` | Assets/Script/Core/ResourceLoad/MemoryManager.cs:137-138 | The corrected progress, as the exact fraction dispatched/total: the numerator is positive and at most the denominator, and they are equal exactly when nothing remains. |
| `LoadQueue.ProgressValue` | Assets/Script/Core/ResourceLoad/MemoryManager.cs:138 | The value of the corrected progress is 1 − remaining/total in real division. It lies in (0, 1], and it equals 1 exactly when nothing remains. |
| `LoadQueue.ProgressIncreases` | Assets/Script/Core/ResourceLoad/MemoryManager.cs:138 | With the total fixed, fewer remaining bundles always means strictly more progress. |
| `LoadQueue.Apply` | Assets/Script/Core/ResourceLoad/MemoryManager.cs:77-157 | Each queue operation (submission, tick, load completion) keeps the queue invariant. |
| `LoadQueue.Run` | Assets/Script/Core/ResourceLoad/MemoryManager.cs:77-157 | The queue invariant holds after any sequence of submissions, ticks and completions. |
| `LoadQueue.DispatchesBoundedByCompletions` | Assets/Script/Core/ResourceLoad/MemoryManager.cs:105-157 | Over any run, the number of dispatches is at most the number of done completions, plus one if the run started idle, minus one if it ends idle. So at most one load is outstanding. |
| `LoadQueue.NoDispatchWhileLoading` | Assets/Script/Core/ResourceLoad/MemoryManager.cs:113 | While a load is in flight and no completion reports done, nothing more is dispatched, whatever else happens, and the flag stays set. |
| `LoadQueue.BatchRound` | Assets/Script/Core/ResourceLoad/MemoryManager.cs:131-157 | One round of "tick, then a done completion" from an idle queue dispatches the head bundle and reports `ReportedProgress` for that round (1 under `AsWritten`). The batch continues from the idle queue without its head. |
| `LoadQueue.BatchRun` | Assets/Script/Core/ResourceLoad/MemoryManager.cs:131-138 | After k rounds of "tick, then a done completion", exactly the first k pending bundles have been dispatched, in order. The rest are still pending and the queue is idle. Count and callbacks are unchanged. Report i is ("not done", `ReportedProgress` with \|list\|−1−i remaining), which is progress 1 under `AsWritten`. |
| `LoadQueue.BatchProgressIncreases` | Assets/Script/Core/ResourceLoad/MemoryManager.cs:137-142 | With the corrected formula, each report of a batch shows strictly more progress than the previous one. |
| `LoadQueue.BatchProgressAsWritten` | Assets/Script/Core/ResourceLoad/MemoryManager.cs:131-142 | With the code's formula, every one of the k reports of a batch is ("not done", progress 1), so the reported progress never rises. |
| `LoadQueue.SubmittedBatchDrains` | Assets/Script/Core/ResourceLoad/MemoryManager.cs:77-157 | Submitting a batch to a fresh queue, running its rounds and one more tick dispatches exactly that batch, in order. The last report is CompleteState. The queue ends empty and idle, with count 0 and no callback, even when every callback call throws. |
| `MemoryMonitor.ByteToM` | Assets/Script/Core/ResourceLoad/MemoryManager.cs:233-236 | The result is non-negative and equals the byte count divided by 1024·1024 (exact division). |
| `MemoryMonitor.TotalTier` | Assets/Script/Core/ResourceLoad/MemoryManager.cs:178-203 | The soft flag becomes "reserved > 0.7·max". The hard flag becomes "mono heap > max" when above soft, and is otherwise unchanged. |
| `MemoryMonitor.TotalTierCounts` | Assets/Script/Core/ResourceLoad/MemoryManager.cs:178-199 | FreeMemory runs once for a new soft crossing, plus once for a new hard crossing while above soft. An alarm is logged exactly for a new hard crossing. |
| `MemoryMonitor.HeapTier` | Assets/Script/Core/ResourceLoad/MemoryManager.cs:205-228 | The same flag rules, applied to the mono used size. The only thing it can emit is one heap alarm, exactly on a new hard crossing while above soft. No reclamation. |
| `MemoryMonitor.MonitorCounts` | Assets/Script/Core/ResourceLoad/MemoryManager.cs:176-229 | For one sample, the cascade and alarm counts equal those of the total tier alone. |
| `MemoryMonitor.MonitorHeapTierDoesNotReclaim` | Assets/Script/Core/ResourceLoad/MemoryManager.cs:176-229 | One sample emits the total tier's effects, then at most one more entry, which is not a reclamation. The total-tier flags are the total tier's. |
| `Governor.MemoryManager.MonitorMemorySize` | Assets/Script/Core/ResourceLoad/MemoryManager.cs:176-229 | The four flags and the log change exactly as `MemoryMonitor.Monitor` describes: the total tier, then the heap tier. |
| `Governor.MemoryManager.MonitorTotalMemory` | Assets/Script/Core/ResourceLoad/MemoryManager.cs:178-203 | The total-tier flags and the log change as `MemoryMonitor.TotalTier` describes. |
| `Governor.MemoryManager.MonitorHeapMemory` | Assets/Script/Core/ResourceLoad/MemoryManager.cs:205-228 | The heap-tier flags and the log change as `MemoryMonitor.HeapTier` describes. |
| `MemoryMonitor.SustainedHighFreesOncePerEdge` | Assets/Script/Core/ResourceLoad/MemoryManager.cs:178-199 | While reserved memory stays above soft, the number of cascades is one for entering that state (zero if already in it) plus one per rising edge of the hard level. Alarms equal those rising edges. Repeated samples add nothing more. |
| `MemoryMonitor.SustainedHighFreesOnce` | Assets/Script/Core/ResourceLoad/MemoryManager.cs:178-184 | From clear flags, any stretch of samples above soft and never above hard runs FreeMemory exactly once and logs no alarm. |
| `MemoryMonitor.DropBelowSoftRearms` | Assets/Script/Core/ResourceLoad/MemoryManager.cs:200-203 | A sample at or below soft clears the soft flag and leaves the hard flag alone. The next sample above soft runs FreeMemory again. |
| `MemoryMonitor.HardFlagSurvivesDropBelowSoft` | Assets/Script/Core/ResourceLoad/MemoryManager.cs:186-203 | Samples over-limit, below-soft, over-limit: FreeMemory runs three times but only one alarm is logged, because the hard flag never cleared. |

## Findings

| source | as written | input that shows it | evidently intended | confidence | as-written member | corrected member |
|---|---|---|---|---|---|---|
| Assets/Script/Core/ResourceLoad/MemoryManager.cs:138 | `1 - (s_LoadList.Count / s_loadCount)` divides two `int`s, so the quotient is 0 whenever bundles remain and the progress is always 1. | `LoadRes(["a","b","c"], cb)` in bundle mode, then three dispatching ticks: the reports are 1, 1, 1 (`LoadQueue.ProgressAsWrittenOnThreeBundles`: 2 of 3 remaining gives 1). | Share of the batch dispatched: 1/3, 2/3, 1, strictly increasing. | high; not executed | `LoadQueue.ProgressAsWritten`, `LoadQueue.BatchProgressAsWritten` | `LoadQueue.Progress`, `LoadQueue.BatchProgressIncreases` |

The class keeps the code's formula (`LoadQueue.AsWritten`). The queue lemmas hold under either rule; `LoadQueue.BatchProgressIncreases` is stated for `LoadQueue.Corrected` and `LoadQueue.BatchProgressAsWritten` for `LoadQueue.AsWritten`.

## Left out

- `Init` and `GUI` (lines 23-29, 40-44): registering event handlers and drawing the debug overlay are engine plumbing, not governor logic.
- Floating point: `ByteToM` and the `0.7f` factor become exact real arithmetic, so single-precision rounding near a threshold is not modelled.
- Integer width: `s_loadCount` is a 32-bit `int` in the source; the model uses unbounded integers, so overflow after 2^31 queued bundles is not modelled.
- Collaborators: `AssetsBundleManager`, `GameObjectManager`, `UIManager`, the data, config and record managers, `GlobalEvent`, `Debug.LogError` and `Profiler` are foreign code. They appear only as log entries or input samples.
- `ResourceManager.m_gameLoadType`: this is another component's state; it becomes the `resourceMode` parameter.
- The `LoadState` type is not part of this model. `CompleteState` is taken to be "done, progress 1", and the initial `s_loadStatus` to be "not done, progress 0". Progress is held as an exact fraction of two counts, and `Effects.Value` gives the number it stands for, so float rounding of the progress is not modelled.
- Timing of asynchronous completion: the loader's completion callback is a separate method that the environment may call between operations. Threads are not modelled, and the `Bundle` argument is ignored.
- Re-entrancy: callbacks and the loader are assumed not to call back into `MemoryManager` during an operation. In the source, a callback that calls `LoadRes` during the completion report (line 121) has its new callback and count wiped by lines 127-128, leaving more bundles than the count; the next dispatch then divides by zero at line 138. A loader that completes synchronously inside `LoadBundleAsync` (line 133) has its clearing of the flag overwritten by line 135. Neither is modelled.
- Profiler reads: one `MemoryMonitor.Sample` stands for the six separate profiler reads (lines 178, 186, 192, 205, 212, 217). Some of them come after a `FreeMemory` cascade and could see less memory, and the three mono used size reads are taken to be equal.
- Exceptions in callbacks: a failing callback is a parameter that adds one error log. A throw from the unguarded Resource-mode callback (line 81) is not modelled.
- Multicast delegates: the delegate is modelled as its invocation list, and one call is one log entry. If one subscriber throws, later subscribers are skipped in the source; the model does not capture that.
- Null callbacks: a callback is never null. The consequences of passing `null` to `LoadRes` (the null invocations at lines 81 and 142) are not modelled.
- Shared mutable `s_loadStatus`: callbacks receive the `LoadState` value at the moment of the call. A callback that keeps the object would see later changes to it; this aliasing is not modelled.
- `Governor.MemoryManager.MonitorMemorySize`: the method calls `MonitorTotalMemory` and then `MonitorHeapMemory` instead of holding both tiers inline. These two helper methods are not in the source; the observable behaviour is the same.
