/**
 The state of the CUPTI-backed device tracer (`DeviceTracerImpl`) and its two mutators. With the
 mutex abstracted away, the state is one immutable value and every operation is a function.
 */
module Tracer {
  import opened Types

  /** One completed kernel execution, as the drain step copies it out of an activity record. */
  datatype KernelRecord = KernelRecord(startNs: uint64, endNs: uint64, deviceId: uint32,
                                       streamId: uint32, correlationId: uint32)

  /**
   The tracer's state: the enabled flag, the session timestamps, the kernel-record log and the
   correlation table from correlation id to annotation.
   */
  datatype Tracer = Tracer(enabled: bool, startNs: uint64, endNs: uint64,
                           records: seq<KernelRecord>, correlations: map<uint32, string>)

  /**
   A freshly constructed tracer: disabled, with an empty log and table. The constructor does
   not initialise the timestamps, so their values are parameters here.
   */
  function NewTracer(startNs: uint64, endNs: uint64): (t: Tracer)
    ensures !t.enabled && t.records == [] && t.correlations == map[]
  {
    Tracer(false, startNs, endNs, [], map[])
  }

  /**
   Records `anno` as the annotation of correlation id `id`. The table is keyed by `uint32_t`,
   so the 64-bit id is truncated. A later write to the same key replaces the earlier one.
   */
  function AddAnnotation(t: Tracer, id: uint64, anno: string): (r: Tracer)
    ensures Truncate32(id) in r.correlations && r.correlations[Truncate32(id)] == anno
    ensures r.correlations.Keys == t.correlations.Keys + {Truncate32(id)}
    ensures forall k :: k in t.correlations && k != Truncate32(id) ==> r.correlations[k] == t.correlations[k]
    ensures r.records == t.records
    ensures r.enabled == t.enabled && r.startNs == t.startNs && r.endNs == t.endNs
  {
    t.(correlations := t.correlations[Truncate32(id) := anno])
  }

  /** Appends one kernel record to the end of the log. */
  function AddKernelRecords(t: Tracer, startNs: uint64, endNs: uint64, deviceId: uint32,
                            streamId: uint32, correlationId: uint32): (r: Tracer)
    ensures |r.records| == |t.records| + 1
    ensures r.records[..|t.records|] == t.records
    ensures r.records[|t.records|] == KernelRecord(startNs, endNs, deviceId, streamId, correlationId)
    ensures r.correlations == t.correlations
    ensures r.enabled == t.enabled && r.startNs == t.startNs && r.endNs == t.endNs
  {
    t.(records := t.records + [KernelRecord(startNs, endNs, deviceId, streamId, correlationId)])
  }

  /** Whether a session is active. */
  function IsEnabled(t: Tracer): bool {
    t.enabled
  }

  /** Writing the same id twice keeps only the second annotation. */
  lemma LastWriteWins(t: Tracer, id: uint64, first: string, second: string)
    ensures AddAnnotation(AddAnnotation(t, id, first), id, second) == AddAnnotation(t, id, second)
  {
  }

  /** Ids that agree in their low 32 bits share one table entry: the second write replaces the first. */
  lemma TruncatedIdsCollide(t: Tracer, id: uint32, first: string, second: string)
    ensures var wide := id + TWO_TO_THE_32;
            AddAnnotation(AddAnnotation(t, id, first), wide, second).correlations[id] == second
  {
    var wide := id + TWO_TO_THE_32;
    assert Truncate32(wide) == id;
  }

  /** Writes to ids that differ in their low 32 bits do not interfere, so their order does not matter. */
  lemma DistinctWritesCommute(t: Tracer, id1: uint64, a1: string, id2: uint64, a2: string)
    requires Truncate32(id1) != Truncate32(id2)
    ensures AddAnnotation(AddAnnotation(t, id1, a1), id2, a2) == AddAnnotation(AddAnnotation(t, id2, a2), id1, a1)
  {
  }

  /** Appending records one after another builds the log in call order. */
  lemma AppendsAccumulateInOrder(t: Tracer, a: KernelRecord, b: KernelRecord)
    ensures AddKernelRecords(AddKernelRecords(t, a.startNs, a.endNs, a.deviceId, a.streamId, a.correlationId),
                             b.startNs, b.endNs, b.deviceId, b.streamId, b.correlationId).records
            == t.records + [a, b]
  {
    var t1 := AddKernelRecords(t, a.startNs, a.endNs, a.deviceId, a.streamId, a.correlationId);
    assert t1.records == t.records + [a];
  }
}
