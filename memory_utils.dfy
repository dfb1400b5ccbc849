/**
 * Aligned sub-allocation, host memory accounting and the per-device
 * workspace cache (src/ksana_llm/utils/memory_utils.cpp). All sizes are
 * size_t values; where the source's 64-bit arithmetic can wrap, the model
 * reduces modulo 2^64 explicitly.
 */
module MemoryUtils {
  import opened Wrappers
  import opened Numerals
  import Logger

  /** A pointer: null, or an address. */
  datatype Ptr = Null | Addr(addr: nat)

  // ---------------------------------------------------------------------
  // Integer facts
  // ---------------------------------------------------------------------

  lemma MulNonNegative(x: int, y: int)
    requires x >= 0 && y >= 0
    ensures x * y >= 0
  {
  }

  /** Euclidean division is unique. */
  lemma DivModUnique(y: int, a: int, q: int, r: int)
    requires a > 0 && 0 <= r < a && y == q * a + r
    ensures y / a == q && y % a == r
  {
    var q', r' := y / a, y % a;
    assert (q - q') * a == r' - r;
    if q > q' {
      MulNonNegative(q - q' - 1, a);
    } else if q < q' {
      MulNonNegative(q' - q - 1, a);
    }
  }

  /** Adding to a value already reduced modulo 2^64 reduces to the same value. */
  lemma AddMod(t: int, x: int)
    requires t >= 0 && x >= 0
    ensures (t % SIZE_T_MOD + x) % SIZE_T_MOD == (t + x) % SIZE_T_MOD
  {
    var q, r := t / SIZE_T_MOD, t % SIZE_T_MOD;
    var q2, r2 := (r + x) / SIZE_T_MOD, (r + x) % SIZE_T_MOD;
    DivModUnique(t + x, SIZE_T_MOD, q + q2, r2);
  }

  // ---------------------------------------------------------------------
  // Power of two
  // ---------------------------------------------------------------------

  /** Bitwise and of two naturals, bit by bit from the least significant one. */
  function BitAnd(a: nat, b: nat): nat
  {
    if a == 0 || b == 0 then 0
    else 2 * BitAnd(a / 2, b / 2) + (if a % 2 == 1 && b % 2 == 1 then 1 else 0)
  }

  /** `x && !(x & (x - 1))` on a size_t (x - 1 is never evaluated for x == 0). */
  predicate IsPowerOfTwo(x: nat)
  {
    x != 0 && BitAnd(x, x - 1) == 0
  }

  function Pow2(k: nat): nat
  {
    if k == 0 then 1 else 2 * Pow2(k - 1)
  }

  lemma {:induction false} BitAndSelf(y: nat)
    ensures BitAnd(y, y) == y
  {
    if y != 0 {
      BitAndSelf(y / 2);
    }
  }

  /** For x >= 2 the test reduces to x being even with x / 2 passing it. */
  lemma PowerOfTwoStep(x: nat)
    requires x >= 2
    ensures IsPowerOfTwo(x) <==> x % 2 == 0 && IsPowerOfTwo(x / 2)
  {
    var y := x / 2;
    if x % 2 == 1 {
      BitAndSelf(y);
      assert BitAnd(x, x - 1) == 2 * BitAnd(y, y);
    } else {
      assert (x - 1) / 2 == y - 1 && (x - 1) % 2 == 1;
      assert BitAnd(x, x - 1) == 2 * BitAnd(y, y - 1);
    }
  }

  /** The exponent of a power of two. */
  function Log2(x: nat): (k: nat)
    requires IsPowerOfTwo(x)
    ensures Pow2(k) == x
  {
    if x == 1 then 0
    else
      PowerOfTwoStep(x);
      Log2(x / 2) + 1
  }

  lemma {:induction false} Pow2IsPowerOfTwo(k: nat)
    ensures IsPowerOfTwo(Pow2(k))
  {
    if k > 0 {
      Pow2IsPowerOfTwo(k - 1);
      PowerOfTwoStep(Pow2(k));
    }
  }

  /** The bit test accepts exactly the powers of two. */
  lemma PowerOfTwoCharacterization(x: nat)
    ensures IsPowerOfTwo(x) <==> exists k: nat :: Pow2(k) == x
  {
    if IsPowerOfTwo(x) {
      var k := Log2(x);
      assert Pow2(k) == x;
    } else {
      forall k: nat
        ensures Pow2(k) != x
      {
        Pow2IsPowerOfTwo(k);
      }
    }
  }

  // ---------------------------------------------------------------------
  // Prefix sums
  // ---------------------------------------------------------------------

  function Sum(ys: seq<nat>): nat
  {
    if ys == [] then 0 else Sum(ys[..|ys| - 1]) + ys[|ys| - 1]
  }

  lemma SumStep(ys: seq<nat>, i: nat)
    requires i < |ys|
    ensures Sum(ys[..i + 1]) == Sum(ys[..i]) + ys[i]
  {
    assert ys[..i + 1][..i] == ys[..i];
  }

  lemma {:induction false} SumMonotone(ys: seq<nat>, i: nat, j: nat)
    requires i <= j <= |ys|
    ensures Sum(ys[..i]) <= Sum(ys[..j])
    decreases j
  {
    if i < j {
      SumStep(ys, j - 1);
      SumMonotone(ys, i, j - 1);
    }
  }

  /**
   * If each ys[k] covers xs[k], the interval [Sum(ys[..i]), Sum(ys[..i]) + xs[i])
   * ends before Sum(ys[..j]) for every later j.
   */
  lemma PrefixSumsSeparate(xs: seq<nat>, ys: seq<nat>, i: nat, j: nat)
    requires |xs| == |ys| && forall k :: 0 <= k < |ys| ==> xs[k] <= ys[k]
    requires i < j <= |ys|
    ensures Sum(ys[..i]) + xs[i] <= Sum(ys[..j])
  {
    SumStep(ys, i);
    SumMonotone(ys, i + 1, j);
  }

  lemma AddMultiples(x: int, y: int, a: int, p: int, q: int)
    requires a >= 1 && x % a == 0 && y % a == 0 && p == x / a && q == y / a
    ensures x + y == (p + q) * a
  {
    assert x == p * a && y == q * a;
  }

  /** A sum of multiples of a is a multiple of a. */
  lemma {:induction false} SumOfMultiples(ys: seq<nat>, a: nat, i: nat)
    requires a >= 1 && i <= |ys| && forall k :: 0 <= k < |ys| ==> ys[k] % a == 0
    ensures Sum(ys[..i]) % a == 0
  {
    if i > 0 {
      SumStep(ys, i - 1);
      SumOfMultiples(ys, a, i - 1);
      var p, q := Sum(ys[..i - 1]) / a, ys[i - 1] / a;
      AddMultiples(Sum(ys[..i - 1]), ys[i - 1], a, p, q);
      DivModUnique(Sum(ys[..i]), a, p + q, 0);
    }
  }

  // ---------------------------------------------------------------------
  // AlignedMemoryQueue
  // ---------------------------------------------------------------------

  /**
   * A queue of pending requests for aligned regions, served by one call of the
   * allocator. Each queued item stands for a pointer slot of the caller and a
   * size; item i's slot is identified by its position in the queue.
   */
  class AlignedMemoryQueue {
    const alignment: nat
    /** The allocator: the base address it returns for a request of the given size. */
    const allocator: nat -> nat
    var queue: seq<nat>

    ghost predicate Valid()
      reads this
    {
      && alignment < SIZE_T_MOD && IsPowerOfTwo(alignment)
      && forall i :: 0 <= i < |queue| ==> queue[i] < SIZE_T_MOD
    }

    constructor(alignment: nat, allocator: nat -> nat)
      requires alignment < SIZE_T_MOD && IsPowerOfTwo(alignment)
      ensures Valid() && this.alignment == alignment && this.allocator == allocator && queue == []
    {
      this.alignment := alignment;
      this.allocator := allocator;
      queue := [];
    }

    /** The message of the runtime_error the constructor throws for a bad alignment. */
    static function AlignmentError(file: string, alignment: nat): string
    {
      Logger.RuntimeErrorMessage(file, 24, "Alignment must be a power of two. Current value: " + NatToString(alignment))
    }

    /**
     * The constructing expression: unless the alignment is a power of two it
     * throws through KLLM_THROW at line 24 of the file named by `file`
     * (__FILE__), with the message ThrowRuntimeError formats.
     */
    static method Create(alignment: nat, allocator: nat -> nat, file: string) returns (r: Result<AlignedMemoryQueue, string>)
      requires alignment < SIZE_T_MOD
      ensures r.Failure? <==> !IsPowerOfTwo(alignment)
      ensures r.Failure? ==> r.error == "Alignment must be a power of two. Current value: " + NatToString(alignment)
                                        + " (" + file + ":24)"
      ensures r.Success? ==> fresh(r.value) && r.value.Valid() && r.value.alignment == alignment && r.value.queue == []
    {
      if !IsPowerOfTwo(alignment) {
        return Failure(AlignmentError(file, alignment));
      }
      var q := new AlignedMemoryQueue(alignment, allocator);
      return Success(q);
    }

    /** Queues a pointer slot and the size the caller wants for it. */
    method Add(size: nat)
      requires Valid() && size < SIZE_T_MOD
      modifies this
      ensures Valid() && queue == old(queue) + [size]
    {
      queue := queue + [size];
    }

    /** `((size + alignment - 1) / alignment) * alignment` in size_t arithmetic. */
    function AlignSize(size: nat): (r: nat)
      requires 1 <= alignment < SIZE_T_MOD && size < SIZE_T_MOD
      ensures r < SIZE_T_MOD
    {
      var q := ((size + alignment - 1) % SIZE_T_MOD) / alignment;
      MulNonNegative(q, alignment);
      q * alignment
    }

    /**
     * Unless size + alignment - 1 overflows, AlignSize gives the least multiple
     * of the alignment that is at least size; in particular 0 for 0.
     */
    lemma AlignSizeIsLeastMultiple(size: nat)
      requires 1 <= alignment < SIZE_T_MOD && size + alignment - 1 < SIZE_T_MOD
      ensures AlignSize(size) % alignment == 0
      ensures size <= AlignSize(size) < size + alignment
      ensures size == 0 ==> AlignSize(size) == 0
    {
      var y := size + alignment - 1;
      var q, rem := y / alignment, y % alignment;
      DivModUnique(q * alignment, alignment, q, 0);
      if size == 0 {
        DivModUnique(alignment - 1, alignment, 0, alignment - 1);
      }
    }

    /** The bounds part of AlignSizeIsLeastMultiple. */
    lemma AlignSizeCovers(size: nat)
      requires 1 <= alignment < SIZE_T_MOD && size + alignment - 1 < SIZE_T_MOD
      ensures size <= AlignSize(size) < size + alignment
    {
      AlignSizeIsLeastMultiple(size);
    }

    /** Aligning an aligned size changes nothing. */
    lemma AlignSizeIdempotent(size: nat)
      requires 1 <= alignment < SIZE_T_MOD && size + alignment - 1 < SIZE_T_MOD
      requires AlignSize(size) + alignment - 1 < SIZE_T_MOD
      ensures AlignSize(AlignSize(size)) == AlignSize(size)
    {
      AlignSizeIsLeastMultiple(size);
      var r := AlignSize(size);
      var q := r / alignment;
      assert r == q * alignment;
      DivModUnique(r + alignment - 1, alignment, q, alignment - 1);
    }

    /** Every size is a size_t value. */
    predicate SizesBelow(sizes: seq<nat>)
    {
      forall k :: 0 <= k < |sizes| ==> sizes[k] < SIZE_T_MOD
    }

    /** The aligned size of every item. */
    function AlignedSizes(sizes: seq<nat>): (ys: seq<nat>)
      requires 1 <= alignment < SIZE_T_MOD && SizesBelow(sizes)
      ensures |ys| == |sizes| && forall k :: 0 <= k < |sizes| ==> ys[k] == AlignSize(sizes[k])
    {
      if sizes == [] then [] else AlignedSizes(sizes[..|sizes| - 1]) + [AlignSize(sizes[|sizes| - 1])]
    }

    /** The sum of the aligned sizes, without wrap-around. */
    function TotalAligned(sizes: seq<nat>): nat
      requires 1 <= alignment < SIZE_T_MOD && SizesBelow(sizes)
    {
      Sum(AlignedSizes(sizes))
    }

    /** Where item i starts: the aligned sizes of the items before it, without wrap-around. */
    function Offset(sizes: seq<nat>, i: nat): nat
      requires 1 <= alignment < SIZE_T_MOD && SizesBelow(sizes) && i <= |sizes|
    {
      Sum(AlignedSizes(sizes)[..i])
    }

    /** The address item i receives from AllocateAndAlign, given the allocator's base. */
    function ItemPtr(sizes: seq<nat>, i: nat, base: nat): Ptr
      requires 1 <= alignment < SIZE_T_MOD && SizesBelow(sizes) && i < |sizes|
    {
      if sizes[i] == 0 then Null else Addr(base + Offset(sizes, i) % SIZE_T_MOD)
    }

    /** The first loop of AllocateAndAlign: the size_t sum of the aligned sizes. */
    method SumAlignedSizes(sizes: seq<nat>) returns (total_size: nat)
      requires 1 <= alignment < SIZE_T_MOD && SizesBelow(sizes)
      ensures total_size == TotalAligned(sizes) % SIZE_T_MOD
    {
      ghost var ys := AlignedSizes(sizes);
      total_size := 0;
      var i := 0;
      while i < |sizes|
        invariant 0 <= i <= |sizes|
        invariant total_size == Sum(ys[..i]) % SIZE_T_MOD
      {
        SumStep(ys, i);
        var aligned := AlignSize(sizes[i]);
        AddMod(Sum(ys[..i]), aligned);
        total_size := (total_size + aligned) % SIZE_T_MOD;
        i := i + 1;
      }
      assert ys[..i] == ys;
    }

    /** The second loop of AllocateAndAlign: each item's address from the base. */
    method PlaceItems(sizes: seq<nat>, base: nat) returns (handed_out: seq<Ptr>)
      requires 1 <= alignment < SIZE_T_MOD && SizesBelow(sizes)
      ensures |handed_out| == |sizes|
      ensures forall i :: 0 <= i < |sizes| ==> handed_out[i] == ItemPtr(sizes, i, base)
    {
      ghost var ys := AlignedSizes(sizes);
      var offset := 0;
      handed_out := [];
      var i := 0;
      while i < |sizes|
        invariant 0 <= i <= |sizes| && |handed_out| == i
        invariant offset == Sum(ys[..i]) % SIZE_T_MOD
        invariant forall j :: 0 <= j < i ==> handed_out[j] == ItemPtr(sizes, j, base)
      {
        SumStep(ys, i);
        var aligned := AlignSize(sizes[i]);
        AddMod(Sum(ys[..i]), aligned);
        handed_out := handed_out + [if sizes[i] == 0 then Null else Addr(base + offset)];
        offset := (offset + aligned) % SIZE_T_MOD;
        i := i + 1;
      }
    }

    /**
     * Asks the allocator once, for the sum of the aligned sizes (in size_t
     * arithmetic), hands item i the base plus the aligned sizes of the items
     * before it (null for a zero size), and empties the queue.
     */
    method AllocateAndAlign() returns (total_size: nat, handed_out: seq<Ptr>)
      requires Valid()
      modifies this
      ensures Valid() && queue == []
      ensures SizesBelow(old(queue)) && total_size == TotalAligned(old(queue)) % SIZE_T_MOD
      ensures |handed_out| == |old(queue)|
      ensures forall i :: 0 <= i < |handed_out| ==> handed_out[i] == ItemPtr(old(queue), i, allocator(total_size))
    {
      assert SizesBelow(queue);
      total_size := SumAlignedSizes(queue);
      var base := allocator(total_size);
      handed_out := PlaceItems(queue, base);
      queue := [];
    }

    /**
     * When the total does not overflow and no single size wraps when rounded
     * up, the non-empty regions handed out lie inside the allocation, one
     * after another, without overlap.
     */
    lemma RegionsDisjoint(sizes: seq<nat>, base: nat, i: nat, j: nat)
      requires 1 <= alignment < SIZE_T_MOD && SizesBelow(sizes)
      requires forall k :: 0 <= k < |sizes| ==> sizes[k] + alignment - 1 < SIZE_T_MOD
      requires TotalAligned(sizes) < SIZE_T_MOD
      requires i < j < |sizes| && sizes[i] != 0 && sizes[j] != 0
      ensures ItemPtr(sizes, i, base).Addr? && ItemPtr(sizes, j, base).Addr?
      ensures ItemPtr(sizes, i, base).addr + sizes[i] <= ItemPtr(sizes, j, base).addr
      ensures ItemPtr(sizes, j, base).addr + sizes[j] <= base + TotalAligned(sizes)
    {
      var ys := AlignedSizes(sizes);
      forall k | 0 <= k < |sizes|
        ensures sizes[k] <= ys[k]
      {
        AlignSizeCovers(sizes[k]);
      }
      assert ys[..|ys|] == ys;
      PrefixSumsSeparate(sizes, ys, i, j);
      PrefixSumsSeparate(sizes, ys, j, |ys|);
      DivModUnique(Sum(ys[..i]), SIZE_T_MOD, 0, Sum(ys[..i]));
      DivModUnique(Sum(ys[..j]), SIZE_T_MOD, 0, Sum(ys[..j]));
    }

    /** Every region starts at a multiple of the alignment from the base. */
    lemma OffsetsAligned(sizes: seq<nat>, i: nat)
      requires 1 <= alignment < SIZE_T_MOD && SizesBelow(sizes) && i <= |sizes|
      requires forall k :: 0 <= k < |sizes| ==> sizes[k] + alignment - 1 < SIZE_T_MOD
      ensures Offset(sizes, i) % alignment == 0
    {
      var ys := AlignedSizes(sizes);
      forall k | 0 <= k < |sizes|
        ensures ys[k] % alignment == 0
      {
        AlignSizeIsLeastMultiple(sizes[k]);
      }
      SumOfMultiples(ys, alignment, i);
    }
  }

  // ---------------------------------------------------------------------
  // GetHostMemoryInfo
  // ---------------------------------------------------------------------

  /** `value <<= 10` on a size_t: kB to bytes. */
  function KiBToBytes(kb: nat): (b: nat)
    ensures kb * 1024 < SIZE_T_MOD ==> b == kb * 1024
  {
    (kb * 1024) % SIZE_T_MOD
  }

  /** Cgroup usage with the inactive file cache taken off, unless the cache is not below it. */
  function EffectiveUsage(usage: nat, cache: nat): (u: nat)
    ensures u <= usage && (cache < usage ==> u + cache == usage)
    ensures cache >= usage ==> u == usage
  {
    if cache < usage then usage - cache else usage
  }

  /** The status and the two out-parameters of GetHostMemoryInfo. */
  datatype HostMemoryInfo = HostMemoryInfo(ok: bool, free: nat, total: nat)

  /**
   * The combination step of GetHostMemoryInfo. The inputs are what its reads
   * found: MemTotal and MemAvailable of /proc/meminfo in kB (None when the
   * line was not found or did not parse), the cgroup limit and usage (the
   * last of the v1 and v2 files that could be read), the inactive file cache
   * (0 if absent), and the callers' initial *free and *total.
   */
  function CombineHostMemoryInfo(mem_total_kb: Option<nat>, mem_available_kb: Option<nat>,
                                 cgroup_mem_total: Option<nat>, cgroup_mem_usage: Option<nat>,
                                 cgroup_cache: nat, free_in: nat, total_in: nat): (r: HostMemoryInfo)
  {
    var found_total := mem_total_kb.Some?;
    var total := if found_total then KiBToBytes(mem_total_kb.value) else total_in;
    var found_free := mem_available_kb.Some?;
    var free := if found_free then KiBToBytes(mem_available_kb.value) else free_in;
    if cgroup_mem_total.None? then
      HostMemoryInfo(found_free && found_total, free, total)
    else
      var limited := if found_total then Min(total, cgroup_mem_total.value) else cgroup_mem_total.value;
      if cgroup_mem_usage.Some? && EffectiveUsage(cgroup_mem_usage.value, cgroup_cache) <= limited then
        HostMemoryInfo(true, limited - EffectiveUsage(cgroup_mem_usage.value, cgroup_cache), limited)
      else
        HostMemoryInfo(found_free, free, limited)
  }

  /** The status is OK exactly when both a free and a total figure were obtained from some source. */
  lemma HostMemoryStatus(mem_total_kb: Option<nat>, mem_available_kb: Option<nat>,
                         cgroup_mem_total: Option<nat>, cgroup_mem_usage: Option<nat>,
                         cgroup_cache: nat, free_in: nat, total_in: nat)
    ensures var r := CombineHostMemoryInfo(mem_total_kb, mem_available_kb, cgroup_mem_total, cgroup_mem_usage,
                                           cgroup_cache, free_in, total_in);
            var cgroup_free := cgroup_mem_total.Some? && cgroup_mem_usage.Some? &&
                               EffectiveUsage(cgroup_mem_usage.value, cgroup_cache) <= r.total;
            r.ok <==> (mem_available_kb.Some? || cgroup_free) && (mem_total_kb.Some? || cgroup_mem_total.Some?)
  {
  }

  /**
   * A cgroup limit caps the total: it becomes min(meminfo total, limit), or the
   * limit alone without a meminfo total; and a free figure computed from the
   * cgroup usage is what remains of that total.
   */
  lemma CgroupLimitCapsTotal(mem_total_kb: Option<nat>, mem_available_kb: Option<nat>,
                             limit: nat, cgroup_mem_usage: Option<nat>,
                             cgroup_cache: nat, free_in: nat, total_in: nat)
    ensures var r := CombineHostMemoryInfo(mem_total_kb, mem_available_kb, Some(limit), cgroup_mem_usage,
                                           cgroup_cache, free_in, total_in);
            && r.total <= limit
            && (mem_total_kb.Some? ==> r.total == Min(KiBToBytes(mem_total_kb.value), limit))
            && (mem_total_kb.None? ==> r.total == limit)
            && (cgroup_mem_usage.Some? && EffectiveUsage(cgroup_mem_usage.value, cgroup_cache) <= r.total ==>
                  r.ok && r.free + EffectiveUsage(cgroup_mem_usage.value, cgroup_cache) == r.total)
  {
  }

  /** Without a cgroup limit the figures are those of /proc/meminfo, converted to bytes. */
  lemma NoCgroupUsesMeminfo(mem_total_kb: nat, mem_available_kb: nat, cgroup_mem_usage: Option<nat>,
                            cgroup_cache: nat, free_in: nat, total_in: nat)
    ensures CombineHostMemoryInfo(Some(mem_total_kb), Some(mem_available_kb), None, cgroup_mem_usage,
                                  cgroup_cache, free_in, total_in)
            == HostMemoryInfo(true, KiBToBytes(mem_available_kb), KiBToBytes(mem_total_kb))
  {
  }

  // ---------------------------------------------------------------------
  // GetWorkSpaceImpl
  // ---------------------------------------------------------------------

  datatype WorkspaceMeta = WorkspaceMeta(space_size: nat, space_ptr: Ptr)

  /**
   * The process-wide per-device workspace cache (the function-local static
   * vector of GetWorkSpaceImpl). The device count, the current device and
   * the pointers Malloc returns are parameters.
   */
  class WorkspaceCache {
    var metas: seq<WorkspaceMeta>
    /** The (device, size) requests served so far. */
    ghost var served: set<(nat, nat)>

    /** Every request served fits in the workspace now cached for its device. */
    ghost predicate Valid()
      reads this
    {
      forall p | p in served :: p.0 < |metas| && p.1 <= metas[p.0].space_size
    }

    constructor()
      ensures Valid() && metas == [] && served == {}
    {
      metas := [];
      served := {};
    }

    /** The table after the lazy sizing: an empty table is resized to the device count. */
    function Sized(device_count: nat): seq<WorkspaceMeta>
      reads this
    {
      if metas == [] then seq(device_count, _ => WorkspaceMeta(0, Null)) else metas
    }

    /**
     * Returns the cached workspace of the current device in ws_addr (left as it
     * was for size 0), replacing it by a fresh Malloc of `size` bytes, and
     * freeing the old one if any, only when the cached one is smaller.
     */
    method GetWorkSpace(size: nat, device_count: nat, device_id: nat, ws_addr: Ptr, malloc_ptr: Ptr)
      returns (ws_addr_out: Ptr, freed: Ptr)
      requires Valid()
      requires size > 0 ==> device_id < |Sized(device_count)|
      modifies this
      ensures Valid()
      ensures size == 0 ==> metas == old(Sized(device_count)) && ws_addr_out == ws_addr && freed == Null
      ensures size > 0 ==>
        var before := old(Sized(device_count))[device_id];
        && (before.space_size < size ==>
              metas == old(Sized(device_count))[device_id := WorkspaceMeta(size, malloc_ptr)] && freed == before.space_ptr)
        && (before.space_size >= size ==> metas == old(Sized(device_count)) && freed == Null)
        && ws_addr_out == metas[device_id].space_ptr
        && (device_id, size) in served
      ensures |metas| == |old(Sized(device_count))|
      ensures forall d :: 0 <= d < |metas| ==> metas[d].space_size >= old(Sized(device_count))[d].space_size
    {
      if metas == [] {
        metas := seq(device_count, _ => WorkspaceMeta(0, Null));
      }
      ws_addr_out, freed := ws_addr, Null;
      if size > 0 {
        var workspace_meta := metas[device_id];
        if workspace_meta.space_size < size {
          freed := workspace_meta.space_ptr;
          metas := metas[device_id := WorkspaceMeta(size, malloc_ptr)];
        }
        ws_addr_out := metas[device_id].space_ptr;
        served := served + {(device_id, size)};
      }
    }
  }
}
