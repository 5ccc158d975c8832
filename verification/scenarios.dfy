/**
 End-to-end runs of the tracer: annotate, launch, drain a completion buffer, disable, report.
 */
module Scenarios {
  import opened Types
  import opened Seqs
  import opened Cupti
  import opened Tracer
  import opened ActivityBuffers
  import opened Lifecycle
  import opened Callback
  import opened Report
  import opened Summary

  /** The flushed buffer of the annotated-launch run: a memcpy record, then the kernel's record. */
  function LaunchBuffer(): CompletedBuffer {
    CompletedBuffer(64, [Activity(KindMemcpy, 900, 950, 0, 1, 6), Activity(KindConcurrentKernel, 1000, 1500, 0, 1, 7)],
                    LimitReached, Success)
  }

  /** Draining that buffer keeps only the kernel's record. */
  lemma LaunchBufferDrainsKernelOnly()
    ensures DrainedFromAll([LaunchBuffer()]) == [KernelRecord(1000, 1500, 0, 1, 7)]
  {
    var memcpy := Activity(KindMemcpy, 900, 950, 0, 1, 6);
    var kernel := Activity(KindConcurrentKernel, 1000, 1500, 0, 1, 7);
    assert [memcpy, kernel][..1] == [memcpy] && [memcpy][..0] == [];
    assert KernelRecordsOf([memcpy]) == [];
    assert DrainedFrom(LaunchBuffer()) == [KernelRecord(1000, 1500, 0, 1, 7)];
  }

  /** The joined record becomes one event named by its annotation, and one 500 ns summary line. */
  lemma LaunchRecordJoinsToOneEvent()
    ensures Join([KernelRecord(1000, 1500, 0, 1, 7)], map[7 := "matmul_0"]) == [Event("matmul_0", 1000, 1500, 0, 1)]
    ensures EventTimes([Event("matmul_0", 1000, 1500, 0, 1)]) == map["matmul_0" := [500]]
    ensures Summarize(map["matmul_0" := [500]]) == map["matmul_0" := Totals(500, 1)]
  {
    var record := KernelRecord(1000, 1500, 0, 1, 7);
    var event := Event("matmul_0", 1000, 1500, 0, 1);
    assert [record][..0] == [];
    assert [event][..0] == [];
    assert EventTimes([event][..0]) == map[];
    assert Duration(event) == 500;
    var m: map<string, seq<uint64>> := map[];
    assert EventTimes([event]) == m[event.name := [] + [Duration(event)]];
    assert [] + [Duration(event)] == [500];
    assert [500][..0] == [];
    assert TotalNs([500]) == 500;
  }

  /** The tracer after Enable at time 10 and the launch annotated "matmul_0" with correlation id 7. */
  function Launched(): Tracer {
    Tracer(true, 10, 0, [], map[7 := "matmul_0"])
  }

  /** Enabling a fresh tracer and launching under annotation "matmul_0" reaches `Launched()`. */
  lemma EnableThenLaunch(on: EnableEnv)
    requires on == EnableEnv([Success, Success, Success, Success, Success, Success, Success, Success], 10)
    ensures Enable(NewTracer(0, 0), on) == Ok(Tracer(true, 10, 0, [], map[]))
    ensures ApiCallback(Tracer(true, 10, 0, [], map[]), SetCurAnnotation("matmul_0"), DriverApi, LaunchKernel,
                        CallbackData(ApiEnter, 7, "sgemm_kernel")) == Launched()
  {
    assert FirstFailure(on.required) == None;
    var t := Tracer(true, 10, 0, [], map[]);
    var r := ApiCallback(t, SetCurAnnotation("matmul_0"), DriverApi, LaunchKernel,
                         CallbackData(ApiEnter, 7, "sgemm_kernel"));
    assert r.correlations == map[7 := "matmul_0"];
  }

  /** Disabling at time 2000 flushes the launch buffer into the log. */
  lemma DisableFlushesLaunch(off: DisableEnv)
    requires off == DisableEnv([LaunchBuffer()], [Success, Success, Success, Success, Success, Success,
                                                  Success, Success, Success, Success, Success], Success, 2000)
    ensures Disable(Launched(), off) == Ok(Tracer(false, 10, 2000, [KernelRecord(1000, 1500, 0, 1, 7)], map[7 := "matmul_0"]))
  {
    LaunchBufferDrainsKernelOnly();
    assert DisableSucceeds(off);
    assert Launched().records + [KernelRecord(1000, 1500, 0, 1, 7)] == [KernelRecord(1000, 1500, 0, 1, 7)];
  }

  /**
   One annotated launch. "matmul_0" is set, a kernel with correlation id 7 is launched, and a
   buffer holding a memcpy record and that kernel's record {1000, 1500, device 0, stream 1}
   is flushed by Disable. The report has the one event, and the summary shows 500 ns over
   one kernel.
   */
  lemma AnnotatedLaunchIsReported(on: EnableEnv, off: DisableEnv)
    requires on == EnableEnv([Success, Success, Success, Success, Success, Success, Success, Success], 10)
    requires off == DisableEnv([LaunchBuffer()], [Success, Success, Success, Success, Success, Success,
                                                  Success, Success, Success, Success, Success], Success, 2000)
    ensures Enable(NewTracer(0, 0), on).Ok?
    ensures var launched := ApiCallback(Enable(NewTracer(0, 0), on).value, SetCurAnnotation("matmul_0"),
                                        DriverApi, LaunchKernel, CallbackData(ApiEnter, 7, "sgemm_kernel"));
            && Disable(launched, off).Ok?
            && GenProfile(Disable(launched, off).value) == Profile(10, 2000, [Event("matmul_0", 1000, 1500, 0, 1)])
  {
    EnableThenLaunch(on);
    DisableFlushesLaunch(off);
    LaunchRecordJoinsToOneEvent();
  }

  /**
   A kernel record whose correlation id 99 was never annotated is dropped. The report has no
   events and one unrelated record, and nothing fails.
   */
  lemma UnannotatedRecordIsDropped(t: Tracer)
    requires t.records == [] && 99 !in t.correlations
    ensures var buf := CompletedBuffer(64, [Activity(KindKernel, 1000, 1500, 0, 1, 99)], LimitReached, Success);
            var drained := BufferCompleted(t, buf);
            && drained.Ok?
            && GenProfile(drained.value).events == []
            && Unrelated(drained.value.records, drained.value.correlations) == 1
  {
    var kernel := Activity(KindKernel, 1000, 1500, 0, 1, 99);
    var buf := CompletedBuffer(64, [kernel], LimitReached, Success);
    var record := KernelRecord(1000, 1500, 0, 1, 99);
    assert [kernel][..0] == [];
    assert KernelRecordsOf([kernel]) == [record];
    var drained := BufferCompleted(t, buf);
    assert drained.value.records == [record];
    assert [record][..0] == [];
    UnresolvableRecordIsSkipped([], record, drained.value.correlations);
  }

  /**
   A launch seen by the callback, followed by the drained completion record with the same
   correlation id, is reported as the last event. Its name is the annotation that was current
   at launch (or the symbol name), and its timing and location come from the record.
   */
  lemma LaunchThenCompletionIsReported(t: Tracer, cur: Option<string>, data: CallbackData, a: Activity)
    requires data.site == ApiEnter && IsKernelActivity(a) && a.correlationId == data.correlationId
    ensures var launched := ApiCallback(t, cur, DriverApi, LaunchKernel, data);
            var events := GenProfile(DrainRecords(launched, [a])).events;
            && |events| == |GenProfile(launched).events| + 1
            && events[|events| - 1] == Event(cur.GetOr(data.symbolName), a.start, a.end, a.deviceId, a.streamId)
  {
    var launched := ApiCallback(t, cur, DriverApi, LaunchKernel, data);
    DrainAppendsKernelRecords(launched, [a]);
    assert [a][..0] == [];
    var record := ToKernelRecord(a);
    assert KernelRecordsOf([a]) == [record];
    JoinOfAppend(launched.records, [record], launched.correlations);
    assert [record][..0] == [];
  }
}
