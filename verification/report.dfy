/**
 The report builder, `GenProfile`. It joins the kernel-record log with the correlation table
 by correlation id. It also groups kernel durations per annotation name, as the summary the
 tracer prints does. Nothing here changes the tracer.
 */
module Report {
  import opened Types
  import opened Seqs
  import opened Tracer

  /** One resolved kernel execution in the report. */
  datatype Event = Event(name: string, startNs: uint64, endNs: uint64, deviceId: uint32, streamId: uint32)

  /** The report: the session timestamps and the events in log order. */
  datatype Profile = Profile(startNs: uint64, endNs: uint64, events: seq<Event>)

  /** A record is resolvable when the table has an annotation for its correlation id. */
  function Resolvable(table: map<uint32, string>): KernelRecord -> bool {
    (r: KernelRecord) => r.correlationId in table
  }

  /** The event for a record: its annotation as the name, with timing and location copied over. */
  function ToEvent(table: map<uint32, string>): KernelRecord -> Event {
    (r: KernelRecord) => Event(if r.correlationId in table then table[r.correlationId] else "",
                               r.startNs, r.endNs, r.deviceId, r.streamId)
  }

  /** The join of the log with the table: one event per resolvable record, in log order. */
  function Join(log: seq<KernelRecord>, table: map<uint32, string>): seq<Event> {
    FilterMap(log, Resolvable(table), ToEvent(table))
  }

  /** The log positions that the join turns into events. */
  function ResolvedPositions(log: seq<KernelRecord>, table: map<uint32, string>): seq<nat> {
    KeptIndices(log, Resolvable(table))
  }

  /** `GenProfile`: the session timestamps and the joined events. Unresolvable records are skipped. */
  function GenProfile(t: Tracer): (p: Profile)
    ensures p.startNs == t.startNs && p.endNs == t.endNs
    ensures |p.events| <= |t.records|
    ensures forall k :: 0 <= k < |p.events| ==> p.events[k].name in t.correlations.Values
  {
    JoinExactlyResolved(t.records, t.correlations);
    Profile(t.startNs, t.endNs, Join(t.records, t.correlations))
  }

  /**
   The join emits exactly one event per log record whose id is in the table, in log order.
   Event k comes from the k-th such record, carries that id's annotation as its name, and
   copies start, end, device and stream from the record.
   */
  lemma JoinExactlyResolved(log: seq<KernelRecord>, table: map<uint32, string>)
    ensures var pos := ResolvedPositions(log, table);
            && |Join(log, table)| == |pos|
            && (forall k :: 0 <= k < |pos| ==>
                  pos[k] < |log| && log[pos[k]].correlationId in table &&
                  Join(log, table)[k] == Event(table[log[pos[k]].correlationId], log[pos[k]].startNs,
                                               log[pos[k]].endNs, log[pos[k]].deviceId, log[pos[k]].streamId))
            && (forall k, l :: 0 <= k < l < |pos| ==> pos[k] < pos[l])
            && (forall j :: 0 <= j < |log| && log[j].correlationId in table ==> j in pos)
  {
    FilterMapAtKept(log, Resolvable(table), ToEvent(table));
  }

  /** A record with no table entry adds no event and raises no error. */
  lemma UnresolvableRecordIsSkipped(log: seq<KernelRecord>, r: KernelRecord, table: map<uint32, string>)
    requires r.correlationId !in table
    ensures Join(log + [r], table) == Join(log, table)
  {
    assert (log + [r])[..|log|] == log;
  }

  /** Joining a longer log extends the earlier join: new records only add events at the end. */
  lemma JoinOfAppend(log: seq<KernelRecord>, more: seq<KernelRecord>, table: map<uint32, string>)
    ensures Join(log + more, table) == Join(log, table) + Join(more, table)
  {
    FilterMapAppend(log, more, Resolvable(table), ToEvent(table));
  }

  /** The number of records the join cannot relate; `GenProfile` prints one complaint for each. */
  function Unrelated(log: seq<KernelRecord>, table: map<uint32, string>): nat
    decreases |log|
  {
    if |log| == 0 then 0
    else Unrelated(log[..|log| - 1], table) + (if log[|log| - 1].correlationId in table then 0 else 1)
  }

  /** Every record is either joined into an event or counted as unrelated. */
  lemma {:induction false} JoinPartitionsLog(log: seq<KernelRecord>, table: map<uint32, string>)
    ensures |Join(log, table)| + Unrelated(log, table) == |log|
    decreases |log|
  {
    if |log| > 0 {
      JoinPartitionsLog(log[..|log| - 1], table);
    }
  }

  /** The kernel's run time, `end_ns - start_ns` in unsigned 64-bit arithmetic (it wraps if end < start). */
  function Duration(e: Event): uint64 {
    WrappingSub64(e.endNs, e.startNs)
  }

  function Named(name: string): Event -> bool {
    (e: Event) => e.name == name
  }

  /** The durations of the events called `name`, in event order. */
  function DurationsNamed(events: seq<Event>, name: string): seq<uint64> {
    FilterMap(events, Named(name), Duration)
  }

  /** `event_times`: for each name, the durations pushed back event after event. */
  function EventTimes(events: seq<Event>): (m: map<string, seq<uint64>>)
    ensures |events| == 0 <==> m == map[]
    ensures forall name :: name in m ==> 0 < |m[name]| <= |events|
    decreases |events|
  {
    if |events| == 0 then map[]
    else
      var m := EventTimes(events[..|events| - 1]);
      var e := events[|events| - 1];
      m[e.name := (if e.name in m then m[e.name] else []) + [Duration(e)]]
  }

  /**
   The grouping has a key for exactly the names some event carries. The list under a name is
   the durations of that name's events, in event order.
   */
  lemma {:induction false} EventTimesGroupsByName(events: seq<Event>)
    ensures forall name :: name in EventTimes(events) <==> exists k :: 0 <= k < |events| && events[k].name == name
    ensures forall name :: name in EventTimes(events) ==> EventTimes(events)[name] == DurationsNamed(events, name)
    ensures forall name :: name !in EventTimes(events) ==> DurationsNamed(events, name) == []
    decreases |events|
  {
    if |events| > 0 {
      var p := events[..|events| - 1];
      var e := events[|events| - 1];
      EventTimesGroupsByName(p);
      assert forall k :: 0 <= k < |p| ==> p[k] == events[k];
      forall name
        ensures DurationsNamed(events, name) == DurationsNamed(p, name) + (if e.name == name then [Duration(e)] else [])
      {
      }
    }
  }

  /** The list under a name has one entry per event with that name. */
  lemma EventTimesCounts(events: seq<Event>, name: string)
    requires name in EventTimes(events)
    ensures |EventTimes(events)[name]| == |KeptIndices(events, Named(name))|
  {
    EventTimesGroupsByName(events);
    FilterMapAtKept(events, Named(name), Duration);
  }

  /** The total length of all lists in a grouping. */
  ghost function SumLengths(m: map<string, seq<uint64>>): nat
    decreases |m|
  {
    if |m| == 0 then 0
    else
      var k :| k in m;
      assert |m - {k}| < |m| by {
        assert (m - {k}).Keys == m.Keys - {k};
      }
      |m[k]| + SumLengths(m - {k})
  }

  /** Taking a key out of a map makes it smaller. */
  lemma RemoveShrinks(m: map<string, seq<uint64>>, k: string)
    requires k in m
    ensures |m - {k}| == |m| - 1
  {
    assert (m - {k}).Keys == m.Keys - {k};
  }

  /** Some key realises the total, namely the one its definition picks. */
  lemma SumLengthsPicked(m: map<string, seq<uint64>>) returns (k: string)
    requires |m| != 0
    ensures k in m && SumLengths(m) == |m[k]| + SumLengths(m - {k})
  {
    k :| k in m && SumLengths(m) == |m[k]| + SumLengths(m - {k});
  }

  /** Taking two distinct keys out in either order gives the same map. */
  lemma RemoveTwo(m: map<string, seq<uint64>>, k: string, k': string)
    requires k in m && k' in m && k != k'
    ensures k in m - {k'} && k' in m - {k}
    ensures (m - {k'})[k] == m[k] && (m - {k})[k'] == m[k']
    ensures (m - {k'}) - {k} == (m - {k}) - {k'}
  {
  }

  /** The total may be computed by taking any key out first. */
  lemma {:induction false} SumLengthsRemove(m: map<string, seq<uint64>>, k: string)
    requires k in m
    ensures SumLengths(m) == |m[k]| + SumLengths(m - {k})
    decreases |m|
  {
    assert |m| != 0 by { assert k in m.Keys; }
    var k' := SumLengthsPicked(m);
    if k' != k {
      RemoveShrinks(m, k);
      RemoveShrinks(m, k');
      RemoveTwo(m, k, k');
      SumLengthsRemove(m - {k'}, k);
      SumLengthsRemove(m - {k}, k');
    }
  }

  /** Replacing the list under a key changes the total by the difference in length. */
  lemma SumLengthsUpdate(m: map<string, seq<uint64>>, k: string, v: seq<uint64>)
    ensures SumLengths(m[k := v]) + (if k in m then |m[k]| else 0) == SumLengths(m) + |v|
  {
    var m' := m[k := v];
    SumLengthsRemove(m', k);
    assert m' - {k} == m - {k};
    if k in m {
      SumLengthsRemove(m, k);
    } else {
      assert m - {k} == m;
    }
  }

  /** The list lengths of the grouping add up to the number of events. */
  lemma {:induction false} EventTimesTotal(events: seq<Event>)
    ensures SumLengths(EventTimes(events)) == |events|
    decreases |events|
  {
    if |events| > 0 {
      var p := events[..|events| - 1];
      var e := events[|events| - 1];
      var m := EventTimes(p);
      EventTimesTotal(p);
      SumLengthsUpdate(m, e.name, (if e.name in m then m[e.name] else []) + [Duration(e)]);
    }
  }
}
