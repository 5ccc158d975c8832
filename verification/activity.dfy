/**
 The buffer-exchange half of the CUPTI adapter. `bufferRequested` hands the library an aligned
 scratch buffer. `bufferCompleted` drains a filled buffer into the kernel-record log.
 */
module ActivityBuffers {
  import opened Types
  import opened Seqs
  import opened Cupti
  import opened Tracer

  /** `kBufSize`: the usable size of every scratch buffer. */
  const BUF_SIZE: nat := 32 * 1024
  /** `kAlignSize`: the alignment of the address handed to the library. */
  const ALIGN_SIZE: nat := 8

  predicate IsPowerOfTwo(n: nat)
    decreases n
  {
    n == 1 || (n >= 2 && n % 2 == 0 && IsPowerOfTwo(n / 2))
  }

  /** Bitwise AND of two naturals, one binary digit at a time. */
  function BitAnd(x: nat, y: nat): nat
    decreases x
  {
    if x == 0 || y == 0 then 0
    else 2 * BitAnd(x / 2, y / 2) + (x % 2) * (y % 2)
  }

  /** Masking with `align - 1` keeps the offset of `x` within its `align`-sized block. */
  lemma {:induction false} MaskIsRemainder(x: nat, align: nat)
    requires IsPowerOfTwo(align)
    ensures BitAnd(x, align - 1) == x % align
    decreases align
  {
    if align == 1 {
    } else if x == 0 {
    } else {
      var half := align / 2;
      assert (align - 1) / 2 == half - 1 && (align - 1) % 2 == 1;
      if half == 1 {
        assert BitAnd(x / 2, 0) == 0;
      } else {
        MaskIsRemainder(x / 2, half);
      }
      assert BitAnd(x, align - 1) == 2 * ((x / 2) % half) + x % 2;
      RemainderOfDouble(x, half);
    }
  }

  /** Splitting off the lowest binary digit of `x` before dividing by `half`. */
  lemma RemainderOfDouble(x: nat, half: nat)
    requires half > 0
    ensures x % (2 * half) == 2 * ((x / 2) % half) + x % 2
  {
    var q := (x / 2) / half;
    var r := (x / 2) % half;
    assert x / 2 == q * half + r;
    assert x == 2 * (x / 2) + x % 2;
    assert x == q * (2 * half) + (2 * r + x % 2);
    DivModUnique(x, 2 * half, q, 2 * r + x % 2);
  }

  /** Rounding up by the remainder lands on the next multiple of `align`. */
  lemma RoundUpIsMultiple(buf: nat, align: nat)
    requires align > 0 && buf % align != 0
    ensures (buf + align - buf % align) % align == 0
  {
    var q := buf / align;
    assert buf == q * align + buf % align;
    assert (q + 1) * align == q * align + align;
    DivModUnique(buf + align - buf % align, align, q + 1, 0);
  }

  /**
   `ALIGN_BUFFER(buffer, align)`: rounds an address up to the next multiple of `align`,
   found by masking the low bits. The macro is only meaningful for a power-of-two `align`.
   */
  function AlignBuffer(buf: nat, align: nat): (r: nat)
    requires IsPowerOfTwo(align)
    ensures r % align == 0
    ensures buf <= r < buf + align
    ensures buf % align == 0 ==> r == buf
  {
    MaskIsRemainder(buf, align);
    var offset := BitAnd(buf, align - 1);
    if offset != 0 then
      RoundUpIsMultiple(buf, align);
      buf + align - offset
    else buf
  }

  /** What `bufferRequested` reports back to the library. */
  datatype BufferGrant = BufferGrant(buffer: nat, size: nat, maxNumRecords: nat)

  /**
   `bufferRequested`. `block` is the address `malloc(kBufSize + kAlignSize)` returned. The
   granted region starts at the aligned address and lies inside the allocation. No null
   check is made: a null allocation is passed on as a null buffer.
   */
  function BufferRequested(block: uint64): (g: BufferGrant)
    requires block + BUF_SIZE + ALIGN_SIZE <= TWO_TO_THE_64
    ensures g.size == BUF_SIZE && g.maxNumRecords == 0
    ensures g.buffer % ALIGN_SIZE == 0
    ensures block <= g.buffer && g.buffer + g.size <= block + BUF_SIZE + ALIGN_SIZE
    ensures block % ALIGN_SIZE == 0 ==> g.buffer == block
    ensures block == 0 ==> g.buffer == 0
  {
    BufferGrant(AlignBuffer(block, ALIGN_SIZE), BUF_SIZE, 0)
  }

  /** The two activity kinds the drain keeps: `KERNEL` and `CONCURRENT_KERNEL`. */
  predicate IsKernelActivity(a: Activity) {
    a.kind == KindKernel || a.kind == KindConcurrentKernel
  }

  function ToKernelRecord(a: Activity): KernelRecord {
    KernelRecord(a.start, a.end, a.deviceId, a.streamId, a.correlationId)
  }

  /** The log entries a walk over `acts` should produce: the kernel activities, in buffer order. */
  function KernelRecordsOf(acts: seq<Activity>): seq<KernelRecord> {
    FilterMap(acts, IsKernelActivity, ToKernelRecord)
  }

  /** One pass of the drain loop: a kernel activity goes to `AddKernelRecords`, anything else is skipped. */
  function DrainStep(t: Tracer, a: Activity): Tracer {
    if IsKernelActivity(a) then AddKernelRecords(t, a.start, a.end, a.deviceId, a.streamId, a.correlationId)
    else t
  }

  /** The drain loop over the records `cuptiActivityGetNextRecord` yields, in order. */
  function DrainRecords(t: Tracer, acts: seq<Activity>): (r: Tracer)
    ensures t.records <= r.records && |r.records| <= |t.records| + |acts|
    ensures r.correlations == t.correlations
    ensures r.enabled == t.enabled && r.startNs == t.startNs && r.endNs == t.endNs
    decreases |acts|
  {
    if |acts| == 0 then t else DrainRecords(DrainStep(t, acts[0]), acts[1..])
  }

  /**
   The drain loop appends exactly the kernel records of the buffer, in order, after the
   existing log, and changes nothing else.
   */
  lemma {:induction false} DrainAppendsKernelRecords(t: Tracer, acts: seq<Activity>)
    ensures DrainRecords(t, acts) == t.(records := t.records + KernelRecordsOf(acts))
    decreases |acts|
  {
    if |acts| == 0 {
      assert t.records + [] == t.records;
    } else {
      var t1 := DrainStep(t, acts[0]);
      DrainAppendsKernelRecords(t1, acts[1..]);
      FilterMapCons(acts[0], acts[1..], IsKernelActivity, ToKernelRecord);
      assert [acts[0]] + acts[1..] == acts;
    }
  }

  /** Whether draining `b` completes without aborting the process. */
  predicate BufferSucceeds(b: CompletedBuffer) {
    b.validSize == 0 || (b.walkEnd == LimitReached && b.droppedQuery == Success)
  }

  /** The records draining `b` adds to the log. A buffer with no valid bytes is not walked. */
  function DrainedFrom(b: CompletedBuffer): seq<KernelRecord> {
    if b.validSize == 0 then [] else KernelRecordsOf(b.records)
  }

  /**
   `bufferCompleted`. When `validSize` is 0 nothing happens. Otherwise the records are drained
   until the walk reports `MAX_LIMIT_REACHED`. Any other walk error, or a failing
   dropped-records query, aborts the process. The dropped count itself is only printed.
   */
  function BufferCompleted(t: Tracer, b: CompletedBuffer): (r: Outcome<Tracer>)
    ensures b.validSize == 0 ==> r == Ok(t)
    ensures r.Ok? <==> BufferSucceeds(b)
    ensures r.Ok? ==> r.value == t.(records := t.records + DrainedFrom(b))
    ensures b.validSize > 0 && b.walkEnd.WalkFailed? ==> r == Abort(CallFailed(Failed(b.walkEnd.code)))
  {
    if b.validSize == 0 then Ok(t)
    else
      var drained := DrainRecords(t, b.records);
      DrainAppendsKernelRecords(t, b.records);
      match b.walkEnd
      case WalkFailed(code) => Abort(CallFailed(Failed(code)))
      case LimitReached =>
        if b.droppedQuery != Success then Abort(CallFailed(b.droppedQuery)) else Ok(drained)
  }

  /** The records draining all of `bufs` adds, buffer after buffer. */
  function DrainedFromAll(bufs: seq<CompletedBuffer>): seq<KernelRecord>
    decreases |bufs|
  {
    if |bufs| == 0 then [] else DrainedFrom(bufs[0]) + DrainedFromAll(bufs[1..])
  }

  /**
   Drains the pending buffers one after the other, as `cuptiActivityFlushAll` makes the
   library do, stopping at the first abort.
   */
  function DrainAll(t: Tracer, bufs: seq<CompletedBuffer>): (r: Outcome<Tracer>)
    ensures r.Ok? <==> forall i :: 0 <= i < |bufs| ==> BufferSucceeds(bufs[i])
    ensures r.Ok? ==> r.value == t.(records := t.records + DrainedFromAll(bufs))
    decreases |bufs|
  {
    if |bufs| == 0 then
      assert t.records + [] == t.records;
      Ok(t)
    else
      match BufferCompleted(t, bufs[0])
      case Abort(f) => Abort(f)
      case Ok(t1) =>
        var r := DrainAll(t1, bufs[1..]);
        assert forall i :: 1 <= i < |bufs| ==> bufs[i] == bufs[1..][i - 1];
        assert t.records + DrainedFrom(bufs[0]) + DrainedFromAll(bufs[1..])
            == t.records + (DrainedFrom(bufs[0]) + DrainedFromAll(bufs[1..]));
        r
  }
}
