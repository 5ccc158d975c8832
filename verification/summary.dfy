/**
 The per-name summary `GenProfile` prints after building the report: for every name, the
 total kernel time and the number of kernels. The source adds up the durations with
 `std::accumulate(begin, end, 0)`. Its `int` initial value makes the accumulator an `int`,
 so the total keeps only its low 32 bits. The summary is modelled with a `uint64_t`
 accumulator, and the as-written total is kept beside it to exhibit the difference.
 */
module Summary {
  import opened Types
  import opened Seqs
  import opened Report

  /** The exact sum of the durations. */
  function Sum(ds: seq<uint64>): nat
    decreases |ds|
  {
    if |ds| == 0 then 0 else Sum(ds[..|ds| - 1]) + ds[|ds| - 1]
  }

  /** What converting to a 32-bit `int` leaves of `x`: its low 32 bits read in two's complement. */
  function ToInt32(x: int): (r: int)
    ensures -0x8000_0000 <= r < 0x8000_0000
    ensures (x - r) % TWO_TO_THE_32 == 0
  {
    var low := x % TWO_TO_THE_32;
    if low < 0x8000_0000 then low else low - TWO_TO_THE_32
  }

  /** Numbers that agree modulo 2^32 convert to the same `int`. */
  lemma ToInt32Congruent(x: int, y: int, q: int)
    requires x - y == q * TWO_TO_THE_32
    ensures ToInt32(x) == ToInt32(y)
  {
    var qy := y / TWO_TO_THE_32;
    assert y == qy * TWO_TO_THE_32 + y % TWO_TO_THE_32;
    assert x == (qy + q) * TWO_TO_THE_32 + y % TWO_TO_THE_32;
    DivModUnique(x, TWO_TO_THE_32, qy + q, y % TWO_TO_THE_32);
  }

  /**
   The total as the source computes it. Each step converts the `int` accumulator to
   `uint64_t`, adds the next duration modulo 2^64, and stores the result back into the `int`.
   */
  function AccumulateIntAsWritten(ds: seq<uint64>): (total: int)
    ensures -0x8000_0000 <= total < 0x8000_0000
    ensures |ds| == 0 ==> total == 0
    decreases |ds|
  {
    if |ds| == 0 then 0
    else ToInt32((AccumulateIntAsWritten(ds[..|ds| - 1]) % TWO_TO_THE_64 + ds[|ds| - 1]) % TWO_TO_THE_64)
  }

  /** One accumulation step depends only on the low 32 bits of the accumulator. */
  lemma AccumulateStep(acc: int, exact: int, d: uint64)
    requires (exact - acc) % TWO_TO_THE_32 == 0
    ensures ToInt32((acc % TWO_TO_THE_64 + d) % TWO_TO_THE_64) == ToInt32(exact + d)
  {
    var q64a := acc / TWO_TO_THE_64;
    var s := acc % TWO_TO_THE_64 + d;
    var q64s := s / TWO_TO_THE_64;
    var q32 := (exact - acc) / TWO_TO_THE_32;
    assert acc == q64a * TWO_TO_THE_64 + acc % TWO_TO_THE_64;
    assert s == q64s * TWO_TO_THE_64 + s % TWO_TO_THE_64;
    assert exact - acc == q32 * TWO_TO_THE_32;
    var q := q64s * TWO_TO_THE_32 + q64a * TWO_TO_THE_32 + q32;
    assert (exact + d) - s % TWO_TO_THE_64 == q * TWO_TO_THE_32;
    ToInt32Congruent(exact + d, s % TWO_TO_THE_64, q);
  }

  /** The printed total is the exact sum cut down to a 32-bit `int`. */
  lemma {:induction false} AccumulateIntKeepsLow32Bits(ds: seq<uint64>)
    ensures AccumulateIntAsWritten(ds) == ToInt32(Sum(ds))
    decreases |ds|
  {
    if |ds| > 0 {
      var p := ds[..|ds| - 1];
      AccumulateIntKeepsLow32Bits(p);
      AccumulateStep(AccumulateIntAsWritten(p), Sum(p), ds[|ds| - 1]);
    }
  }

  /** A single kernel of 3 seconds is reported with a negative total. */
  lemma LongKernelPrintsNegativeTotal()
    ensures Sum([3_000_000_000]) == 3_000_000_000
    ensures AccumulateIntAsWritten([3_000_000_000]) == -1_294_967_296
  {
    assert [3_000_000_000][..0] == [];
  }

  /** The corrected total: accumulated in `uint64_t`, exact unless the sum itself passes 2^64. */
  function TotalNs(ds: seq<uint64>): (r: uint64)
    ensures Sum(ds) < TWO_TO_THE_64 ==> r == Sum(ds)
    decreases |ds|
  {
    if |ds| == 0 then 0 else (TotalNs(ds[..|ds| - 1]) + ds[|ds| - 1]) % TWO_TO_THE_64
  }

  /** One summary line: total kernel time and number of kernels. */
  datatype Totals = Totals(totalNs: uint64, kernels: nat)

  /** The summary printed for `event_times`, one line per name. */
  function Summarize(eventTimes: map<string, seq<uint64>>): (s: map<string, Totals>)
    ensures s.Keys == eventTimes.Keys
    ensures forall name :: name in s ==> s[name].kernels == |eventTimes[name]|
    ensures forall name :: name in s && Sum(eventTimes[name]) < TWO_TO_THE_64 ==>
              s[name].totalNs == Sum(eventTimes[name])
  {
    map name | name in eventTimes :: Totals(TotalNs(eventTimes[name]), |eventTimes[name]|)
  }

  /**
   For the events of a report, the summary line of a name counts the events with that name.
   Its total is the sum of their durations.
   */
  lemma SummaryOfEvents(events: seq<Event>, name: string)
    requires name in EventTimes(events)
    requires Sum(DurationsNamed(events, name)) < TWO_TO_THE_64
    ensures var line := Summarize(EventTimes(events))[name];
            && line.kernels == |KeptIndices(events, Named(name))|
            && line.totalNs == Sum(DurationsNamed(events, name))
  {
    EventTimesGroupsByName(events);
    EventTimesCounts(events, name);
  }
}
