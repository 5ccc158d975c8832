/**
 The `DeviceTracer` interface and its two implementations: the CUPTI-backed tracer, and the
 inert `DeviceTracerDummy` built when CUPTI is not available.
 */
module Device {
  import opened Types
  import opened Cupti
  import Tracer
  import Lifecycle
  import Report

  datatype DeviceTracer = Impl(state: Tracer.Tracer) | Dummy

  /**
   `CreateTracer`: the CUPTI-backed tracer when the build has CUPTI, the inert one otherwise.
   The CUPTI-backed tracer starts disabled with an empty log and table. Its uninitialised
   timestamps are parameters.
   */
  function CreateTracer(withCupti: bool, startNs: uint64, endNs: uint64): (d: DeviceTracer)
    ensures d.Impl? <==> withCupti
    ensures d.Impl? ==> !d.state.enabled && d.state.records == [] && d.state.correlations == map[]
  {
    if withCupti then Impl(Tracer.NewTracer(startNs, endNs)) else Dummy
  }

  function Lift(r: Outcome<Tracer.Tracer>): Outcome<DeviceTracer> {
    match r
    case Ok(t) => Ok(Impl(t))
    case Abort(f) => Abort(f)
  }

  function AddAnnotation(d: DeviceTracer, id: uint64, anno: string): DeviceTracer {
    match d
    case Impl(t) => Impl(Tracer.AddAnnotation(t, id, anno))
    case Dummy => Dummy
  }

  function AddKernelRecords(d: DeviceTracer, startNs: uint64, endNs: uint64, deviceId: uint32,
                            streamId: uint32, correlationId: uint32): DeviceTracer {
    match d
    case Impl(t) => Impl(Tracer.AddKernelRecords(t, startNs, endNs, deviceId, streamId, correlationId))
    case Dummy => Dummy
  }

  function IsEnabled(d: DeviceTracer): bool {
    match d
    case Impl(t) => Tracer.IsEnabled(t)
    case Dummy => false
  }

  function Enable(d: DeviceTracer, env: Lifecycle.EnableEnv): Outcome<DeviceTracer> {
    match d
    case Impl(t) => Lift(Lifecycle.Enable(t, env))
    case Dummy => Ok(Dummy)
  }

  function Disable(d: DeviceTracer, env: Lifecycle.DisableEnv): Outcome<DeviceTracer> {
    match d
    case Impl(t) => Lift(Lifecycle.Disable(t, env))
    case Dummy => Ok(Dummy)
  }

  /** The inert tracer returns a default-constructed report: zero timestamps and no events. */
  function GenProfile(d: DeviceTracer): Report.Profile {
    match d
    case Impl(t) => Report.GenProfile(t)
    case Dummy => Report.Profile(0, 0, [])
  }

  /** A call of the interface that may change the tracer. */
  datatype Call =
    | AddAnnotationCall(id: uint64, anno: string)
    | AddKernelRecordsCall(record: Tracer.KernelRecord)
    | EnableCall(enableEnv: Lifecycle.EnableEnv)
    | DisableCall(disableEnv: Lifecycle.DisableEnv)

  function Apply(d: DeviceTracer, c: Call): Outcome<DeviceTracer> {
    match c
    case AddAnnotationCall(id, anno) => Ok(AddAnnotation(d, id, anno))
    case AddKernelRecordsCall(k) =>
      Ok(AddKernelRecords(d, k.startNs, k.endNs, k.deviceId, k.streamId, k.correlationId))
    case EnableCall(env) => Enable(d, env)
    case DisableCall(env) => Disable(d, env)
  }

  /** Makes the calls in order, stopping at the first abort. */
  function Run(d: DeviceTracer, calls: seq<Call>): Outcome<DeviceTracer>
    decreases |calls|
  {
    if |calls| == 0 then Ok(d)
    else
      match Apply(d, calls[0])
      case Abort(f) => Abort(f)
      case Ok(d1) => Run(d1, calls[1..])
  }

  /**
   The inert tracer is inert: after any calls at all it is still the inert tracer, it never
   aborts, it reports itself disabled, and its report is empty.
   */
  lemma {:induction false} DummyIsInert(calls: seq<Call>)
    ensures Run(Dummy, calls) == Ok(Dummy)
    ensures !IsEnabled(Run(Dummy, calls).value)
    ensures GenProfile(Run(Dummy, calls).value) == Report.Profile(0, 0, [])
    decreases |calls|
  {
    if |calls| > 0 {
      DummyIsInert(calls[1..]);
    }
  }

  /** The CUPTI-backed tracer, by contrast, does record: an annotated record shows up in its report. */
  lemma ImplRecords(t: Tracer.Tracer, id: uint32, anno: string, k: Tracer.KernelRecord)
    requires k.correlationId == id
    ensures var d := AddKernelRecords(AddAnnotation(Impl(t), id, anno),
                                      k.startNs, k.endNs, k.deviceId, k.streamId, k.correlationId);
            var events := GenProfile(d).events;
            |events| > 0 && events[|events| - 1] == Report.Event(anno, k.startNs, k.endNs, k.deviceId, k.streamId)
  {
    var t1 := Tracer.AddAnnotation(t, id, anno);
    var t2 := Tracer.AddKernelRecords(t1, k.startNs, k.endNs, k.deviceId, k.streamId, k.correlationId);
    assert t2.records == t1.records + [k];
    Report.JoinOfAppend(t1.records, [k], t2.correlations);
    assert [k][..0] == [];
  }
}
