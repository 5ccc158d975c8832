/**
 The launch-callback half of the CUPTI adapter, with the thread's annotation slot. The
 `thread_local` slot is modelled as one `Option<string>` passed to the callback explicitly.
 */
module Callback {
  import opened Types
  import opened Cupti
  import opened Tracer

  /** `SetCurAnnotation`: the current annotation becomes `anno`, which then names every launch. */
  function SetCurAnnotation(anno: string): (cur: Option<string>)
    ensures forall t: Tracer, id: uint32, symbol: string ::
              var r := ApiCallback(t, cur, DriverApi, LaunchKernel, CallbackData(ApiEnter, id, symbol));
              id in r.correlations && r.correlations[id] == anno
  {
    Some(anno)
  }

  /**
   `ClearCurAnnotation`: back to no annotation (a null pointer), so a launch is named by its
   kernel symbol.
   */
  function ClearCurAnnotation(): (cur: Option<string>)
    ensures forall t: Tracer, id: uint32, symbol: string ::
              var r := ApiCallback(t, cur, DriverApi, LaunchKernel, CallbackData(ApiEnter, id, symbol));
              id in r.correlations && r.correlations[id] == symbol
  {
    None
  }

  /** The one notification the callback acts on: entering the driver API's `cuLaunchKernel`. */
  predicate IsLaunchEnter(domain: CallbackDomain, cbid: CallbackId, site: CallbackSite) {
    domain == DriverApi && cbid == LaunchKernel && site == ApiEnter
  }

  /**
   `ApiCallback`. On entering a kernel launch it stores the current annotation under the
   launch's correlation id, or the kernel's symbol name when no annotation is set. Every
   other notification leaves the tracer as it was.
   */
  function ApiCallback(t: Tracer, cur: Option<string>, domain: CallbackDomain, cbid: CallbackId,
                       data: CallbackData): (r: Tracer)
    ensures IsLaunchEnter(domain, cbid, data.site) ==>
              && data.correlationId in r.correlations
              && r.correlations[data.correlationId] == (if cur.Some? then cur.value else data.symbolName)
              && r.correlations.Keys == t.correlations.Keys + {data.correlationId}
              && (forall k :: k in t.correlations && k != data.correlationId ==> r.correlations[k] == t.correlations[k])
    ensures !IsLaunchEnter(domain, cbid, data.site) ==> r == t
    ensures r.records == t.records
    ensures r.enabled == t.enabled && r.startNs == t.startNs && r.endNs == t.endNs
  {
    if IsLaunchEnter(domain, cbid, data.site) then
      AddAnnotation(t, data.correlationId, cur.GetOr(data.symbolName))
    else t
  }

  /** An annotation set before the launch names that launch's correlation id. */
  lemma AnnotationNamesLaunch(t: Tracer, anno: string, id: uint32, symbol: string)
    ensures var r := ApiCallback(t, SetCurAnnotation(anno), DriverApi, LaunchKernel,
                                 CallbackData(ApiEnter, id, symbol));
            id in r.correlations && r.correlations[id] == anno
  {
  }

  /** After the annotation is cleared, a launch is named by its kernel symbol. */
  lemma ClearedAnnotationFallsBackToSymbol(t: Tracer, id: uint32, symbol: string)
    ensures var cur := ClearCurAnnotation();
            var r := ApiCallback(t, cur, DriverApi, LaunchKernel, CallbackData(ApiEnter, id, symbol));
            id in r.correlations && r.correlations[id] == symbol
  {
  }

  /** The launch's exit notification, and notifications for other calls, record nothing. */
  lemma OnlyLaunchEnterIsRecorded(t: Tracer, cur: Option<string>, domain: CallbackDomain,
                                  cbid: CallbackId, data: CallbackData)
    requires data.site == ApiExit || domain != DriverApi || cbid != LaunchKernel
    ensures ApiCallback(t, cur, domain, cbid, data) == t
  {
  }
}
