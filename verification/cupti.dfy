/**
 The boundary with the CUPTI vendor library. The library itself is opaque. Everything it
 hands the tracer (call statuses, activity records, callback notifications) is modelled here
 as plain data that the tracer's operations take as input.
 */
module Cupti {
  import opened Types

  /** The result code of a CUPTI call. */
  datatype Status = Success | MaxLimitReached | Failed(code: nat)

  /** Why the tracer stopped the process. */
  datatype Fatal =
    | CallFailed(status: Status)     // CUPTI_CALL printed the error and called exit(-1)
    | EnforceFailed(status: Status)  // PADDLE_ENFORCE rejected the status

  /** The result of an operation that may abort the process. */
  datatype Outcome<+T> = Ok(value: T) | Abort(fatal: Fatal)

  /** The first status in `calls` that is not `Success`. `calls` lists the results of CUPTI_CALL-wrapped calls in call order. */
  function FirstFailure(calls: seq<Status>): (r: Option<Status>)
    ensures r.None? <==> forall i :: 0 <= i < |calls| ==> calls[i] == Success
    ensures r.Some? ==> r.value != Success
    ensures r.Some? ==> exists i :: 0 <= i < |calls| && calls[i] == r.value &&
                                   (forall j :: 0 <= j < i ==> calls[j] == Success)
    decreases |calls|
  {
    if |calls| == 0 then None
    else if calls[0] != Success then Some(calls[0])
    else
      var r := FirstFailure(calls[1..]);
      assert forall i :: 1 <= i < |calls| ==> calls[i] == calls[1..][i - 1];
      r
  }

  /** The kind tag of an activity record. */
  datatype ActivityKind =
    | KindMemcpy | KindKernel | KindConcurrentKernel | KindDevice | KindMemset | KindOverhead
    | KindOther(code: nat)

  /** An activity record. The timing and id fields carry meaning only for the two kernel kinds. */
  datatype Activity = Activity(kind: ActivityKind, start: uint64, end: uint64,
                               deviceId: uint32, streamId: uint32, correlationId: uint32)

  /** How `cuptiActivityGetNextRecord` ended the walk over a buffer: at its normal end, or with an error code. */
  datatype WalkEnd = LimitReached | WalkFailed(code: nat)

  /**
   A buffer handed back by the library through the completion callback: the count of valid
   bytes, the records the walk over it yields, how the walk ends, and the status of the
   dropped-records query.
   */
  datatype CompletedBuffer = CompletedBuffer(validSize: nat, records: seq<Activity>,
                                             walkEnd: WalkEnd, droppedQuery: Status)

  /** The callback domain, callback id and call site of a callback notification. */
  datatype CallbackDomain = DriverApi | RuntimeApi | OtherDomain(code: nat)
  datatype CallbackId = LaunchKernel | OtherCallback(code: nat)
  datatype CallbackSite = ApiEnter | ApiExit

  /** The fields of `CUpti_CallbackData` that the launch callback reads. */
  datatype CallbackData = CallbackData(site: CallbackSite, correlationId: uint32, symbolName: string)
}
