# Device tracer model

This project is a Dafny model of the GPU device tracer in Paddle's
`paddle/fluid/platform/device_tracer.cc`. The tracer records CUDA kernel executions that the
CUPTI profiling library reports. It labels each execution with the name of the framework
operation that launched it and produces a `Profile` report.

The tracer keeps two tables that fill up asynchronously:

- a **correlation table**, from the correlation id of a kernel launch to an annotation. The
  launch callback fills it as each kernel is launched.
- a **kernel-record log** of start/end/device/stream/correlation id. The buffer-completion
  callback fills it when CUPTI hands back activity buffers.

`GenProfile` joins the two tables by correlation id.

With the mutex, the thread-local slot and the vendor library abstracted away, the state is one
immutable value (`Tracer.Tracer`) and every operation is a pure function of it. Each vendor
call becomes an input to the operation that makes it: its status, the records it yields, or
the timestamp it reports. A failing `CUPTI_CALL` (`exit(-1)`) and a failing `PADDLE_ENFORCE`
become an `Abort` outcome.

Modules, one per component:

- `Types`: `uint32`/`uint64`, `Option`, 32-bit truncation, wrapping 64-bit subtraction, and two arithmetic helper lemmas.
- `Seqs`: an order-preserving filter-and-map and its selected positions. Both the buffer drain and the report join use it.
- `Cupti`: the vendor boundary as data: call statuses, activity records, completed buffers and callback notifications. It also holds the rule "the first failing required call aborts".
- `Tracer`: the state, `AddAnnotation` (upsert), `AddKernelRecords` (append) and `IsEnabled`.
- `ActivityBuffers`: `ALIGN_BUFFER`, `bufferRequested`, `bufferCompleted` and the flush of pending buffers.
- `Lifecycle`: `Enable` and `Disable`.
- `Callback`: `SetCurAnnotation`, `ClearCurAnnotation` and the launch callback `ApiCallback`.
- `Report`: `GenProfile`'s join and its per-name `event_times` grouping.
- `Summary`: the per-name totals of `GenProfile`'s printed summary. `Summary.AccumulateIntAsWritten` is the total as the code prints it (accumulated in `int`). `Summary.Summarize` gives the corrected totals (accumulated in `uint64_t`, exact below 2^64); see "## Findings".
- `Device`: the `DeviceTracer` interface, `CreateTracer`, and the inert `DeviceTracerDummy`.
- `Scenarios`: end-to-end runs, and the general launch-then-completion property they are instances of.

Three behaviours of the code that the model keeps exactly as written:

- A repeated correlation id overwrites its entry (`correlations_[id] = anno`, line 137), so the last write wins (`Tracer.LastWriteWins`).
- `Disable` (lines 209-218) has no enabled guard, so disabling a disabled tracer runs the whole teardown again (`Lifecycle.DisableHasNoGuard`).
- A duration is `end - start` computed in `uint64_t` with no check (line 197), so a record whose end precedes its start wraps (`Types.WrappingSub64`).

## Model

| member | source | states |
|---|---|---|
| Tracer.NewTracer | paddle/fluid/platform/device_tracer.cc:133 | a new tracer is disabled with an empty log and an empty correlation table |
| Tracer.AddAnnotation | paddle/fluid/platform/device_tracer.cc:135-138 | after the call the table maps the id, cut to its low 32 bits, to the annotation. The key set grows by exactly that key, every other entry keeps its value, and the log and session fields are unchanged |
| Tracer.TruncatedIdsCollide | paddle/fluid/platform/device_tracer.cc:243 | two ids that differ by 2^32 land on the same `uint32_t` key, so the second annotation replaces the first |
| Tracer.LastWriteWins | paddle/fluid/platform/device_tracer.cc:137 | writing an id twice equals writing only the second annotation (last write wins) |
| Tracer.DistinctWritesCommute | paddle/fluid/platform/device_tracer.cc:137 | writes to ids with different 32-bit keys commute |
| Tracer.AddKernelRecords | paddle/fluid/platform/device_tracer.cc:140-145 | the log grows by one, the old log is its prefix, the new last entry carries exactly the given fields, and the table and session fields are unchanged |
| Lifecycle.IsEnabledFollowsSession | paddle/fluid/platform/device_tracer.cc:147-150 | `IsEnabled` is false for a new tracer, true after a successful `Enable`, false after a successful `Disable`, and unchanged by `AddAnnotation` and `AddKernelRecords` |
| Tracer.AppendsAccumulateInOrder | paddle/fluid/platform/device_tracer.cc:143-144 | two appends leave the two records at the end of the log in call order |
| Types.Truncate32 | paddle/fluid/platform/device_tracer.cc:243 | the key is congruent to the id modulo 2^32 and equals it when the id fits in 32 bits |
| Types.WrappingSub64 | paddle/fluid/platform/device_tracer.cc:197 | the duration is `end - start` when end >= start. Otherwise it wraps to `end - start + 2^64`, since there is no check |
| Cupti.FirstFailure | paddle/fluid/platform/device_tracer.cc:42-52 | there is no failure exactly when every status is success. A reported failure is a non-success status that occurs in the list with only successes before it |
| ActivityBuffers.MaskIsRemainder | paddle/fluid/platform/device_tracer.cc:38 | for a power-of-two alignment, masking an address with `align - 1` gives its remainder modulo `align` |
| ActivityBuffers.AlignBuffer | paddle/fluid/platform/device_tracer.cc:37-40 | the result is a multiple of `align`, lies in `[buf, buf + align)`, and equals `buf` when `buf` is already aligned |
| ActivityBuffers.BufferRequested | paddle/fluid/platform/device_tracer.cc:84-90 | the granted buffer is 8-aligned, of size `kBufSize`, with `maxNumRecords` 0. It lies inside the `kBufSize + kAlignSize` allocation, equals the allocation when that is already aligned, and is null when the allocation is null |
| ActivityBuffers.DrainRecords | paddle/fluid/platform/device_tracer.cc:97-118 | the record loop only appends: the old log is a prefix of the new one, it adds at most one record per activity, and the table and session fields are unchanged |
| ActivityBuffers.DrainAppendsKernelRecords | paddle/fluid/platform/device_tracer.cc:96-111 | the record loop appends exactly the `KERNEL`/`CONCURRENT_KERNEL` records, in buffer order, after the unchanged log, and changes nothing else |
| ActivityBuffers.BufferCompleted | paddle/fluid/platform/device_tracer.cc:92-128 | with `validSize` 0 nothing changes. Otherwise it succeeds exactly when the walk ends at `MAX_LIMIT_REACHED` and the dropped-count query succeeds, and then it appends the buffer's kernel records. Any other walk error aborts with that error |
| ActivityBuffers.DrainAll | paddle/fluid/platform/device_tracer.cc:209-211 | flushing the pending buffers succeeds exactly when each buffer drains, and then appends their kernel records buffer after buffer |
| Lifecycle.Enable | paddle/fluid/platform/device_tracer.cc:152-178 | on an enabled tracer it changes nothing, including `start_ns`. Otherwise it succeeds exactly when every required call succeeds, aborts with one of the failing statuses, and on success sets the flag and `start_ns` to the timestamp. The log, the table and `end_ns` are kept |
| Lifecycle.EnableIsIdempotent | paddle/fluid/platform/device_tracer.cc:153-157 | enabling a second time returns the same tracer, whatever the library would answer |
| Lifecycle.Disable | paddle/fluid/platform/device_tracer.cc:209-218 | it succeeds exactly when the flush, the required calls and finalize succeed. Then it clears the flag, sets `end_ns` to the timestamp, keeps `start_ns` and the table, and extends the log with the flushed kernel records |
| Lifecycle.DisableHasNoGuard | paddle/fluid/platform/device_tracer.cc:209-218 | disabling an already disabled tracer still overwrites `end_ns` |
| Lifecycle.RecordsSurviveSessions | paddle/fluid/platform/device_tracer.cc:209-218 | after Disable and a fresh Enable the old log is still a prefix of the log and the table is unchanged, so records accumulate across sessions |
| Callback.ApiCallback | paddle/fluid/platform/device_tracer.cc:221-236 | only a driver-API `cuLaunchKernel` enter notification records anything. It stores the current annotation, or the symbol name when none is set, under the launch's correlation id, and leaves other entries and the log alone. Any other notification returns the tracer unchanged |
| Callback.SetCurAnnotation | paddle/fluid/platform/device_tracer.cc:280 | once `anno` is the current annotation, every driver-API `cuLaunchKernel` enter notification, on any tracer, annotates its correlation id with `anno` |
| Callback.ClearCurAnnotation | paddle/fluid/platform/device_tracer.cc:282 | once the annotation is cleared, every such launch is annotated with its kernel symbol name |
| Callback.AnnotationNamesLaunch | paddle/fluid/platform/device_tracer.cc:280 | after `SetCurAnnotation(a)`, a launch's correlation id is annotated `a` |
| Callback.ClearedAnnotationFallsBackToSymbol | paddle/fluid/platform/device_tracer.cc:282 | after `ClearCurAnnotation`, a launch is annotated with its kernel symbol name |
| Callback.OnlyLaunchEnterIsRecorded | paddle/fluid/platform/device_tracer.cc:226-235 | exit notifications and other callbacks change nothing |
| Report.GenProfile | paddle/fluid/platform/device_tracer.cc:180-196 | the report carries the tracer's `start_ns`/`end_ns`, has at most one event per record, and every event name is an annotation from the table |
| Report.JoinExactlyResolved | paddle/fluid/platform/device_tracer.cc:186-196 | event k comes from the k-th log record whose id is in the table. The positions are strictly increasing and cover every such record, so there is exactly one event per resolvable record, in log order. Its name is the table entry, and start, end, device and stream are copied |
| Report.UnresolvableRecordIsSkipped | paddle/fluid/platform/device_tracer.cc:187-190 | a record whose id is not in the table adds no event |
| Report.JoinOfAppend | paddle/fluid/platform/device_tracer.cc:186-196 | joining a concatenated log is concatenating the joins, so new records only add events at the end |
| Report.JoinPartitionsLog | paddle/fluid/platform/device_tracer.cc:186-190 | events plus unrelated records add up to the log length |
| Report.EventTimes | paddle/fluid/platform/device_tracer.cc:185-197 | the grouping is empty exactly when there are no events, and every list is non-empty and no longer than the event sequence |
| Report.EventTimesGroupsByName | paddle/fluid/platform/device_tracer.cc:185-197 | `event_times` has a key for exactly the names of the events. Each list is that name's durations in event order |
| Report.EventTimesCounts | paddle/fluid/platform/device_tracer.cc:197 | each list has one entry per event with that name |
| Report.EventTimesTotal | paddle/fluid/platform/device_tracer.cc:185-198 | the list lengths add up to the number of events |
| Summary.AccumulateIntAsWritten | paddle/fluid/platform/device_tracer.cc:203 | the printed total always lies in the signed 32-bit `int` range and is 0 for an empty list, however large the durations are |
| Summary.AccumulateIntKeepsLow32Bits | paddle/fluid/platform/device_tracer.cc:203 | the total the source prints is the exact sum cut to a signed 32-bit `int` |
| Summary.LongKernelPrintsNegativeTotal | paddle/fluid/platform/device_tracer.cc:203 | one 3,000,000,000 ns kernel is printed with total -1,294,967,296 ns |
| Summary.TotalNs | paddle/fluid/platform/device_tracer.cc:203 | the corrected total equals the exact sum whenever that sum fits in 64 bits |
| Summary.Summarize | paddle/fluid/platform/device_tracer.cc:199-205 | there is one summary line per `event_times` name. Its kernel count is the list length. Its total is the corrected `uint64_t` total, which equals the exact sum of the durations when that sum is below 2^64. The printed total is `Summary.AccumulateIntAsWritten` instead |
| Summary.SummaryOfEvents | paddle/fluid/platform/device_tracer.cc:197-204 | a name's summary line counts the events with that name and totals their durations |
| Device.CreateTracer | paddle/fluid/platform/device_tracer.cc:267-273 | a CUPTI build gives a disabled CUPTI-backed tracer with an empty log and table, and any other build gives the inert tracer |
| Device.DummyIsInert | paddle/fluid/platform/device_tracer.cc:249-265 | after any sequence of calls the inert tracer is unchanged and never aborts. `IsEnabled` is false and the report is the default one with no events |
| Device.ImplRecords | paddle/fluid/platform/device_tracer.cc:135-145 | the CUPTI-backed tracer, unlike the inert one, reports an annotated record as its last event |
| Scenarios.LaunchBufferDrainsKernelOnly | paddle/fluid/platform/device_tracer.cc:100-110 | a buffer of a memcpy record and a concurrent-kernel record drains to the kernel's record alone |
| Scenarios.LaunchRecordJoinsToOneEvent | paddle/fluid/platform/device_tracer.cc:191-197 | record {1000, 1500, 0, 1, id 7} with annotation "matmul_0" joins to one event, with durations ["matmul_0" -> [500]] and summary 500 ns over 1 kernel |
| Scenarios.EnableThenLaunch | paddle/fluid/platform/device_tracer.cc:152-178 | enabling a fresh tracer at time 10 sets the flag and `start_ns`, and the annotated launch of id 7 adds the entry 7 -> "matmul_0" |
| Scenarios.DisableFlushesLaunch | paddle/fluid/platform/device_tracer.cc:209-218 | disabling at time 2000 flushes the pending buffer, so the log holds the kernel's record, `end_ns` is 2000 and the flag is clear |
| Scenarios.AnnotatedLaunchIsReported | paddle/fluid/platform/device_tracer.cc:180-197 | the whole run (Enable, annotate, launch, flush in Disable, GenProfile) reports exactly one event, "matmul_0" {1000, 1500, device 0, stream 1}, with the session timestamps |
| Scenarios.LaunchThenCompletionIsReported | paddle/fluid/platform/device_tracer.cc:186-196 | for any tracer, a kernel launch seen at API enter and then the drained completion record with the same correlation id add exactly one event at the end of the report. Its name is the annotation current at launch, or the symbol name, and its timing and location come from the record |
| Scenarios.UnannotatedRecordIsDropped | paddle/fluid/platform/device_tracer.cc:187-190 | a drained record with unannotated id 99 gives no event and one unrelated record, without failure |

## Left out

- CUPTI itself. The statuses of `cuptiActivityEnable`/`Disable`, `cuptiActivityRegisterCallbacks`, `cuptiEnableCallback`, `cuptiGetTimestamp`, `cuptiActivityGetNumDroppedRecords` and `cuptiFinalize` are inputs. So are the records `cuptiActivityGetNextRecord` yields, the pending buffers `cuptiActivityFlushAll` forces out, and the timestamps. The `reinterpret_cast` of raw buffers is replaced by the `Activity` datatype.
- The statuses of `cuptiSubscribe` (lines 165-171), `cuptiActivityFlushAll` and `cuptiUnsubscribe` are not inputs. Each is only printed or ignored, so none can change the outcome.
- A walk over a buffer that never reports its end is not modelled. The walk is a finite record list plus how it ended.
- What happens after an abort is not modelled: `exit(-1)` ends the process. `PADDLE_ENFORCE` throws instead, and a caller that catches it would see `end_ns` already updated and the flag still set. The model treats both as terminal. `enforce.h` is not part of this model; a non-success `cuptiFinalize` status is taken to fail the enforcement.
- `std::mutex`, the `thread_local` annotation (one `Option<string>` passed explicitly) and the `std::call_once` singleton `GetDeviceTracer` (lines 275-278) are left out. The model is sequential. `Disable` is modelled as "drain the pending buffers, then transition".
- `SetCurAnnotation` stores a raw pointer, not a copy. The model stores the string, so a dangling pointer cannot be expressed.
- `malloc` and `free` are left out. The address `malloc` returns is an input to `BufferRequested`. `free(buffer)` frees the aligned address. That address is the allocated one whenever the allocation is 8-aligned, as `BufferRequested` states, and the release is not modelled.
- Messages written to stderr and `VLOG` are left out. "cannot relate a kernel activity" is represented by the `Unrelated` count, and "Dropped %u activity records" by nothing.
- The printed summary's floating-point division by 1,000,000 and its print order are left out. `Summarize` gives the totals in nanoseconds as a map.
- `proto::Profile` and `KernelRecord` (declared in `device_tracer.h`, which is not part of this model) are plain datatypes. Their field widths are taken from the argument types of `AddKernelRecords`.
- The constructor leaves `start_ns_` and `end_ns_` uninitialised. `NewTracer` and `CreateTracer` take them as parameters, so any value is covered.
- ActivityBuffers.AlignBuffer: models the macro only for power-of-two alignments. The source uses only 8, and for other alignments the mask is not a remainder.
- Summary.TotalNs: exact only when the sum of a name's durations fits in 64 bits. Above that, `uint64_t` accumulation wraps.
- Report.GenProfile: its own contract states only the timestamps, the event bound and that names come from the table. The full join property is `Report.JoinExactlyResolved`.

## Findings

| source | as written | input that shows it | evidently intended | confidence | as-written member | corrected member |
|---|---|---|---|---|---|---|
| paddle/fluid/platform/device_tracer.cc:203 | `std::accumulate(begin, end, 0)` over `uint64_t` durations accumulates in `int`, so the printed per-name total keeps only the low 32 bits, read as signed | a single kernel of 3,000,000,000 ns prints a total of -1294.967296 ms | the total accumulated in `uint64_t` (initial value `0UL`): 3000 ms | high; not executed | Summary.AccumulateIntAsWritten (exhibited by Summary.LongKernelPrintsNegativeTotal and Summary.AccumulateIntKeepsLow32Bits) | Summary.TotalNs (used by Summary.Summarize) |
