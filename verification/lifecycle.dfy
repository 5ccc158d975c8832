/**
 The tracer's session state machine, Disabled -> Enabled -> Disabled, re-enterable. The
 vendor calls made while switching are inputs: the status of each call that must succeed,
 and the timestamp the library reports.
 */
module Lifecycle {
  import opened Types
  import opened Cupti
  import opened Tracer
  import opened ActivityBuffers

  /**
   What the library answers while the tracer is enabled. `required` holds, in call order,
   the statuses of the calls wrapped in CUPTI_CALL: the five `cuptiActivityEnable` calls,
   `cuptiActivityRegisterCallbacks`, `cuptiEnableCallback` and `cuptiGetTimestamp`. The
   `cuptiSubscribe` status is left out because it only selects a warning. `now` is the
   timestamp read.
   */
  datatype EnableEnv = EnableEnv(required: seq<Status>, now: uint64)

  /**
   What the library answers while the tracer is disabled. `pending` holds the buffers that
   `cuptiActivityFlushAll` forces through the completion callback. `required` holds the
   statuses of the ten `cuptiActivityDisable` calls and of `cuptiGetTimestamp`, in call order.
   `finalize` is the status of `cuptiFinalize`, and `now` is the timestamp read. The flush
   and unsubscribe statuses are ignored, so they are not inputs.
   */
  datatype DisableEnv = DisableEnv(pending: seq<CompletedBuffer>, required: seq<Status>,
                                   finalize: Status, now: uint64)

  /**
   `Enable`. On an enabled tracer it does nothing (it only warns). Otherwise it makes the
   required calls, aborting on the first failure, then records the start time and sets the
   flag. The log and the table are kept.
   */
  function Enable(t: Tracer, env: EnableEnv): (r: Outcome<Tracer>)
    ensures t.enabled ==> r == Ok(t)
    ensures !t.enabled ==> (r.Ok? <==> forall i :: 0 <= i < |env.required| ==> env.required[i] == Success)
    ensures r.Abort? ==> exists i :: 0 <= i < |env.required| && env.required[i] != Success &&
                                     r.fatal == CallFailed(env.required[i])
    ensures r.Ok? ==> r.value.enabled && r.value.endNs == t.endNs
    ensures r.Ok? ==> r.value.records == t.records && r.value.correlations == t.correlations
    ensures r.Ok? && !t.enabled ==> r.value.startNs == env.now
  {
    if t.enabled then Ok(t)
    else
      match FirstFailure(env.required)
      case Some(s) => Abort(CallFailed(s))
      case None => Ok(t.(startNs := env.now, enabled := true))
  }

  /** Whether every call of `Disable` that is checked succeeds. */
  predicate DisableSucceeds(env: DisableEnv) {
    && (forall i :: 0 <= i < |env.pending| ==> BufferSucceeds(env.pending[i]))
    && (forall i :: 0 <= i < |env.required| ==> env.required[i] == Success)
    && env.finalize == Success
  }

  /**
   `Disable`. There is no enabled guard. It first drains the pending buffers, then makes the
   required calls and finalizes the library, then records the end time and clears the flag.
   The log and the table are kept, so records build up across sessions.
   */
  function Disable(t: Tracer, env: DisableEnv): (r: Outcome<Tracer>)
    ensures r.Ok? <==> DisableSucceeds(env)
    ensures r.Ok? ==> !r.value.enabled && r.value.endNs == env.now && r.value.startNs == t.startNs
    ensures r.Ok? ==> r.value.records == t.records + DrainedFromAll(env.pending)
    ensures r.Ok? ==> r.value.correlations == t.correlations
  {
    match DrainAll(t, env.pending)
    case Abort(f) => Abort(f)
    case Ok(drained) =>
      match FirstFailure(env.required)
      case Some(s) => Abort(CallFailed(s))
      case None =>
        if env.finalize != Success then Abort(EnforceFailed(env.finalize))
        else Ok(drained.(endNs := env.now, enabled := false))
  }

  /**
   `IsEnabled` reports exactly whether a session is open: a new tracer is off, a successful
   `Enable` turns it on, a successful `Disable` turns it off, and recording changes nothing.
   */
  lemma IsEnabledFollowsSession(t: Tracer, enable: EnableEnv, disable: DisableEnv, id: uint64,
                                anno: string, r: KernelRecord)
    ensures forall s: uint64, e: uint64 :: !IsEnabled(NewTracer(s, e))
    ensures Enable(t, enable).Ok? ==> IsEnabled(Enable(t, enable).value)
    ensures Disable(t, disable).Ok? ==> !IsEnabled(Disable(t, disable).value)
    ensures IsEnabled(AddAnnotation(t, id, anno)) == IsEnabled(t)
    ensures IsEnabled(AddKernelRecords(t, r.startNs, r.endNs, r.deviceId, r.streamId, r.correlationId)) == IsEnabled(t)
  {
  }

  /** Enabling twice is enabling once: the second call changes nothing, not even the start time. */
  lemma EnableIsIdempotent(t: Tracer, env1: EnableEnv, env2: EnableEnv)
    requires Enable(t, env1).Ok?
    ensures Enable(Enable(t, env1).value, env2) == Enable(t, env1)
  {
  }

  /** Disabling a disabled tracer still runs the whole teardown and overwrites the end time. */
  lemma DisableHasNoGuard(t: Tracer, env: DisableEnv)
    requires !t.enabled && DisableSucceeds(env) && env.now != t.endNs
    ensures Disable(t, env).Ok? && Disable(t, env).value.endNs != t.endNs
  {
  }

  /**
   A full Disable-then-Enable cycle keeps every earlier record and annotation. The new
   session starts with the old log as a prefix.
   */
  lemma RecordsSurviveSessions(t: Tracer, off: DisableEnv, on: EnableEnv)
    requires DisableSucceeds(off)
    requires forall i :: 0 <= i < |on.required| ==> on.required[i] == Success
    ensures var t1 := Disable(t, off).value;
            var t2 := Enable(t1, on);
            && t2.Ok? && t2.value.enabled && t2.value.startNs == on.now
            && t2.value.records[..|t.records|] == t.records
            && t2.value.correlations == t.correlations
  {
    var t1 := Disable(t, off).value;
    assert (t.records + DrainedFromAll(off.pending))[..|t.records|] == t.records;
  }
}
