/**
  The two integer passes of `ndCountingSort` and the block arithmetic of its
  driver. `CountItems` fills one radix histogram per compute unit into the
  scans buffer; `AddPrefix` turns them into per-unit running sums and appends
  the exclusive prefix scan of the per-radix totals. The key evaluator's
  `GetRadix` is the function parameter `radix`; the source items are the
  first `GetCount()` elements of the source buffer.
*/
module CudaCountingSort {

  /** `D_HOST_SORT_BLOCK_SIZE` and `D_HOST_MAX_RADIX_SIZE`. */
  const SortBlockSize: nat := 256
  const MaxRadixSize: nat := 256

  function Pow2(e: nat): (p: nat)
    ensures p >= 1
  {
    if e == 0 then 1 else 2 * Pow2(e - 1)
  }

  predicate IsPowerOfTwo(n: int)
    decreases n
  {
    n == 1 || (n > 1 && n % 2 == 0 && IsPowerOfTwo(n / 2))
  }

  lemma {:induction false} Pow2IsPowerOfTwo(e: nat)
    ensures IsPowerOfTwo(Pow2(e))
  {
    if e > 0 {
      Pow2IsPowerOfTwo(e - 1);
      assert Pow2(e) / 2 == Pow2(e - 1);
    }
  }

  /** The exponent of a power of two. */
  function Log2(n: int): nat
    decreases n
  {
    if n <= 1 then 0 else 1 + Log2(n / 2)
  }

  lemma {:induction false} Log2Exact(n: int)
    requires IsPowerOfTwo(n)
    ensures Pow2(Log2(n)) == n
    decreases n
  {
    if n > 1 {
      Log2Exact(n / 2);
    }
  }

  /** A smaller power of two doubles at most up to a larger one, so it is at
      most half of it. */
  lemma {:induction false} Pow2Below(k: nat, e: nat)
    requires Pow2(k) < Pow2(e)
    ensures k < e && 2 * Pow2(k) <= Pow2(e) && Pow2(k) <= Pow2(e) / 2
  {
    if k >= e {
      Pow2Mono(e, k);
    }
    Pow2Mono(k + 1, e);
  }

  lemma {:induction false} Pow2Mono(k: nat, e: nat)
    requires k <= e
    ensures Pow2(k) <= Pow2(e)
    decreases e - k
  {
    if k < e {
      Pow2Mono(k + 1, e);
    }
  }

  /** Entry `k` of a buffer, 0 outside it. */
  function Entry(a: seq<int>, k: int): int
  {
    if 0 <= k < |a| then a[k] else 0
  }

  // ---------------------------------------------------------------------------
  // CountItems

  /** Number of source positions in `[lo, hi)` whose key has radix `r`. */
  function CountIn<T>(src: seq<T>, radix: T -> int, lo: int, hi: int, r: int): (n: nat)
    ensures n <= Max0(hi - lo)
    decreases hi - lo
  {
    if hi <= lo then 0
    else CountIn(src, radix, lo, hi - 1, r) + (if 0 <= hi - 1 < |src| && radix(src[hi - 1]) == r then 1 else 0)
  }

  function Max0(x: int): nat { if x >= 0 then x else 0 }

  /** Number of source positions in `[lo, hi)` whose key has a radix below `m`. */
  function CountBelow<T>(src: seq<T>, radix: T -> int, lo: int, hi: int, m: nat): int
  {
    if m == 0 then 0 else CountBelow(src, radix, lo, hi, m - 1) + CountIn(src, radix, lo, hi, m - 1)
  }

  lemma {:induction false} CountBelowEmpty<T>(src: seq<T>, radix: T -> int, lo: int, hi: int, m: nat)
    requires hi <= lo
    ensures CountBelow(src, radix, lo, hi, m) == 0
  {
    if m > 0 {
      CountBelowEmpty(src, radix, lo, hi, m - 1);
    }
  }

  lemma {:induction false} CountBelowStep<T>(src: seq<T>, radix: T -> int, lo: int, hi: int, m: nat)
    requires lo < hi
    ensures CountBelow(src, radix, lo, hi, m)
         == CountBelow(src, radix, lo, hi - 1, m)
            + (if 0 <= hi - 1 < |src| && 0 <= radix(src[hi - 1]) < m then 1 else 0)
  {
    if m > 0 {
      CountBelowStep(src, radix, lo, hi, m - 1);
    }
  }

  /** Counting below every radix counts every item: with all radices in
      `[0, m)`, the histogram of `[lo, hi)` sums to the number of source items
      in that range. */
  lemma {:induction false} HistogramTotal<T>(src: seq<T>, radix: T -> int, lo: int, hi: int, m: nat)
    requires 0 <= lo
    requires forall k :: 0 <= k < |src| ==> 0 <= radix(src[k]) < m
    ensures CountBelow(src, radix, lo, hi, m) == Max0(Min(hi, |src|) - lo)
    decreases hi - lo
  {
    if hi <= lo {
      CountBelowEmpty(src, radix, lo, hi, m);
    } else {
      CountBelowStep(src, radix, lo, hi, m);
      HistogramTotal(src, radix, lo, hi - 1, m);
    }
  }

  function Min(a: int, b: int): int { if a <= b then a else b }

  /** Adjacent ranges count additively. */
  lemma {:induction false} CountInSplit<T>(src: seq<T>, radix: T -> int, lo: int, mid: int, hi: int, r: int)
    requires lo <= mid <= hi
    ensures CountIn(src, radix, lo, hi, r) == CountIn(src, radix, lo, mid, r) + CountIn(src, radix, mid, hi, r)
    decreases hi - mid
  {
    if hi > mid {
      CountInSplit(src, radix, lo, mid, hi - 1, r);
    }
  }

  /** The scans buffer after `CountItems(blockIndex, blocksCount)`: the
      `radixStride` entries of that unit hold the histogram of its
      `blocksCount * 256` items, everything else is as before. */
  function CountItemsResult<T>(scans: seq<int>, src: seq<T>, radix: T -> int, radixStride: nat,
                               blockIndex: nat, blocksCount: nat): seq<int>
  {
    var lo := blocksCount * SortBlockSize * blockIndex;
    var hi := lo + blocksCount * SortBlockSize;
    seq(|scans|, k requires 0 <= k < |scans| =>
      if radixStride * blockIndex <= k < radixStride * blockIndex + radixStride
      then CountIn(src, radix, lo, hi, k - radixStride * blockIndex)
      else scans[k])
  }

  /** Lines 315-340 of `CountItems`: the radix histogram of the
      `blocksCount` batches of `SortBlockSize` items from `lo` on; positions at
      or beyond the source count are skipped. */
  method Histogram<T>(src: seq<T>, radix: T -> int, radixStride: nat, lo: nat, blocksCount: nat)
      returns (radixCountBuffer: array<int>)
    requires radixStride <= MaxRadixSize
    requires forall k :: 0 <= k < |src| ==> 0 <= radix(src[k]) < radixStride
    ensures fresh(radixCountBuffer) && radixCountBuffer.Length == MaxRadixSize
    ensures forall r :: 0 <= r < radixStride ==>
              radixCountBuffer[r] == CountIn(src, radix, lo, lo + blocksCount * SortBlockSize, r)
  {
    var size := |src|;
    var blockStride := SortBlockSize;
    var bashSize := lo;
    radixCountBuffer := new int[MaxRadixSize];
    for threadId := 0 to radixStride
      invariant forall r :: 0 <= r < threadId ==> radixCountBuffer[r] == 0
    {
      radixCountBuffer[threadId] := 0;
    }

    for i := 0 to blocksCount
      invariant bashSize == lo + i * blockStride
      invariant forall r :: 0 <= r < radixStride ==> radixCountBuffer[r] == CountIn(src, radix, lo, bashSize, r)
    {
      for threadId := 0 to blockStride
        invariant forall r :: 0 <= r < radixStride ==>
                    radixCountBuffer[r] == CountIn(src, radix, lo, bashSize + threadId, r)
      {
        var index := bashSize + threadId;
        if index < size {
          var rad := radix(src[index]);
          radixCountBuffer[rad] := radixCountBuffer[rad] + 1;
        }
      }
      bashSize := bashSize + blockStride;
    }
  }

  /** `CountItems(blockIndex, blocksCount)`: unit `blockIndex` counts its
      batches and stores the histogram at its `radixStride` entries of the
      scans buffer (lines 342-346). */
  method CountItems<T>(src: seq<T>, radix: T -> int, exponentRadix: nat, scans: array<int>,
                       blockIndex: nat, blocksCount: nat)
    requires Pow2(exponentRadix) <= MaxRadixSize
    requires forall k :: 0 <= k < |src| ==> 0 <= radix(src[k]) < Pow2(exponentRadix)
    requires Pow2(exponentRadix) * blockIndex + Pow2(exponentRadix) <= scans.Length
    modifies scans
    ensures scans[..] == CountItemsResult(old(scans[..]), src, radix, Pow2(exponentRadix), blockIndex, blocksCount)
  {
    var radixStride := Pow2(exponentRadix);
    var bashSize := blocksCount * SortBlockSize * blockIndex;
    var radixCountBuffer := Histogram(src, radix, radixStride, bashSize, blocksCount);
    ghost var hi := bashSize + blocksCount * SortBlockSize;
    var base := radixStride * blockIndex;

    ghost var before := scans[..];
    ghost var counts := radixCountBuffer[..radixStride];
    for threadId := 0 to radixStride
      modifies scans
      invariant forall k :: 0 <= k < scans.Length && !(base <= k < base + threadId) ==> scans[k] == before[k]
      invariant forall t :: 0 <= t < threadId ==> scans[base + t] == counts[t]
    {
      var index := threadId + base;
      scans[index] := radixCountBuffer[threadId];
    }
    CountItemsAssembled(before, src, radix, radixStride, blockIndex, blocksCount, counts, scans[..]);
  }

  lemma CountItemsAssembled<T>(before: seq<int>, src: seq<T>, radix: T -> int, radixStride: nat,
                               blockIndex: nat, blocksCount: nat, counts: seq<int>, s: seq<int>)
    requires |s| == |before| && |counts| == radixStride && radixStride * blockIndex + radixStride <= |s|
    requires forall r :: 0 <= r < radixStride ==>
               counts[r] == CountIn(src, radix, blocksCount * SortBlockSize * blockIndex,
                                    blocksCount * SortBlockSize * blockIndex + blocksCount * SortBlockSize, r)
    requires forall k :: 0 <= k < |s| && !(radixStride * blockIndex <= k < radixStride * blockIndex + radixStride) ==>
               s[k] == before[k]
    requires forall t :: 0 <= t < radixStride ==> s[radixStride * blockIndex + t] == counts[t]
    ensures s == CountItemsResult(before, src, radix, radixStride, blockIndex, blocksCount)
  {
    var base := radixStride * blockIndex;
    forall k | 0 <= k < |s|
      ensures s[k] == CountItemsResult(before, src, radix, radixStride, blockIndex, blocksCount)[k]
    {
      if base <= k < base + radixStride {
        assert s[base + (k - base)] == counts[k - base];
      }
    }
  }

  // ---------------------------------------------------------------------------
  // AddPrefix

  /** Running sum of radix `t` over the first `b` units: `a[t] + a[R + t] + ...`. */
  function ColumnSum(a: seq<int>, radixStride: nat, t: int, b: nat): int
  {
    if b == 0 then 0 else ColumnSum(a, radixStride, t, b - 1) + UnitEntry(a, radixStride, b - 1, t)
  }

  /** Unit `b`'s entry for radix `t`. */
  function UnitEntry(a: seq<int>, radixStride: nat, b: int, t: int): int
  {
    Entry(a, b * radixStride + t)
  }

  /** Sum of the first `t` elements. */
  function PrefixSum(s: seq<int>, t: int): int
    decreases t
  {
    if t <= 0 || |s| == 0 then 0 else PrefixSum(s, t - 1) + (if t - 1 < |s| then s[t - 1] else 0)
  }

  /** The per-radix totals over all `computeUnits` units. */
  function Totals(a: seq<int>, radixStride: nat, computeUnits: nat): (s: seq<int>)
    ensures |s| == radixStride
  {
    seq(radixStride, t => ColumnSum(a, radixStride, t, computeUnits))
  }

  /** The scans buffer after `AddPrefix(_, R, computeUnits)`: unit `b`'s entry
      for radix `t` becomes the sum of the earlier units' counts for `t`; the
      `R` entries after the last unit hold, for each radix `t`, the total of
      all radices below `t`; the rest is as before. */
  function AddPrefixResult(a: seq<int>, radixStride: nat, computeUnits: nat): (r: seq<int>)
    requires radixStride > 0
    ensures |r| == |a|
  {
    seq(|a|, k requires 0 <= k < |a| =>
      if k < computeUnits * radixStride then ColumnSum(a, radixStride, k % radixStride, k / radixStride)
      else if k < computeUnits * radixStride + radixStride
      then PrefixSum(Totals(a, radixStride, computeUnits), k - computeUnits * radixStride)
      else a[k])
  }

  /** Position `b * R + t` is unit `b`, radix `t`. */
  lemma MulMono(x: int, y: int, m: nat)
    requires x <= y
    ensures x * m <= y * m
  {
  }

  lemma Slot(b: nat, radixStride: nat, t: int)
    requires 0 <= t < radixStride
    ensures (b * radixStride + t) / radixStride == b
    ensures (b * radixStride + t) % radixStride == t
  {
    var k := b * radixStride + t;
    var q, r := k / radixStride, k % radixStride;
    assert k == q * radixStride + r && 0 <= r < radixStride;
    if q > b {
      MulMono(b + 1, q, radixStride);
    } else if q < b {
      MulMono(q + 1, b, radixStride);
    }
  }

  lemma MulLess(i: nat, n: nat, radixStride: nat)
    requires i < n
    ensures i * radixStride + radixStride <= n * radixStride
  {
    MulMono(i + 1, n, radixStride);
    assert (i + 1) * radixStride == i * radixStride + radixStride;
  }

  /** Sum of `X` over `(lo, hi]`, where `X(j)` is the total of radix `j - 1`
      and 0 outside `[1, R]`: the value the scan keeps at each position. */
  function Window(totals: seq<int>, lo: int, hi: int): int
    decreases hi - lo
  {
    if hi <= lo then 0 else Window(totals, lo, hi - 1) + (if 1 <= hi <= |totals| then totals[hi - 1] else 0)
  }

  lemma {:induction false} WindowSplit(totals: seq<int>, lo: int, mid: int, hi: int)
    requires lo <= mid <= hi
    ensures Window(totals, lo, hi) == Window(totals, lo, mid) + Window(totals, mid, hi)
    decreases hi - mid
  {
    if hi > mid {
      WindowSplit(totals, lo, mid, hi - 1);
    }
  }

  lemma {:induction false} WindowNonPositive(totals: seq<int>, lo: int, hi: int)
    requires hi <= 0
    ensures Window(totals, lo, hi) == 0
    decreases hi - lo
  {
    if hi > lo {
      WindowNonPositive(totals, lo, hi - 1);
    }
  }

  lemma {:induction false} WindowIsPrefix(totals: seq<int>, t: nat)
    requires t <= |totals|
    ensures Window(totals, 0, t) == PrefixSum(totals, t)
  {
    if t > 0 {
      WindowIsPrefix(totals, t - 1);
    }
  }

  /** One doubling step of the scan: `W(t - i, t) + W(t - 2i, t - i) = W(t - 2i, t)`,
      where the second term is the zero padding when `t - i < 0`. */
  lemma ScanStep(totals: seq<int>, t: int, i: nat)
    requires 0 <= t
    ensures Window(totals, t - i, t) + (if t - i >= 0 then Window(totals, t - 2 * i, t - i) else 0)
         == Window(totals, t - 2 * i, t)
  {
    WindowSplit(totals, t - 2 * i, t - i, t);
    if t - i < 0 {
      WindowNonPositive(totals, t - 2 * i, t - i);
    }
  }

  /** The scans buffer once its first `n` entries hold their running sums. */
  function Accumulated(a: seq<int>, radixStride: nat, n: int): (r: seq<int>)
    requires radixStride > 0
    ensures |r| == |a|
  {
    seq(|a|, k requires 0 <= k < |a| =>
      if k < n then ColumnSum(a, radixStride, k % radixStride, k / radixStride) else a[k])
  }

  lemma AccumulatedStep(a: seq<int>, radixStride: nat, b: nat, base: int, t: int)
    requires base == b * radixStride
    requires 0 <= t < radixStride && base + t < |a|
    ensures Accumulated(a, radixStride, base + t)[base + t := ColumnSum(a, radixStride, t, b)]
         == Accumulated(a, radixStride, base + t + 1)
  {
    Slot(b, radixStride, t);
  }

  /** Unit `b` adds its own entry to radix `t`'s running sum. */
  lemma ColumnSumNext(a: seq<int>, radixStride: nat, t: int, b: nat, base: int)
    requires base == b * radixStride
    ensures ColumnSum(a, radixStride, t, b + 1) == ColumnSum(a, radixStride, t, b) + Entry(a, base + t)
  {
    assert b + 1 - 1 == b;
  }

  /** One pass of the outer loop at lines 279-288 of `AddPrefix`: unit `i`'s
      entries, from `base = i * blockDim` on, become the running sums of units
      `0..i-1`, the sums take in unit `i`, and the offsets move on to the next
      unit. */
  method AccumulateUnit(scans: array<int>, sum: array<int>, offset: array<int>, blockDim: nat,
                        i: nat, ghost base: nat, ghost a: seq<int>)
    requires 0 < blockDim <= sum.Length && blockDim <= offset.Length
    requires base == i * blockDim && base + blockDim <= scans.Length == |a|
    requires scans != sum && scans != offset && sum != offset
    requires forall t :: 0 <= t < blockDim ==> sum[t] == ColumnSum(a, blockDim, t, i)
    requires forall t :: 0 <= t < blockDim ==> offset[t] == base + t
    requires scans[..] == Accumulated(a, blockDim, base)
    modifies scans, sum, offset
    ensures forall t :: 0 <= t < blockDim ==> sum[t] == ColumnSum(a, blockDim, t, i + 1)
    ensures forall t :: 0 <= t < blockDim ==> offset[t] == base + blockDim + t
    ensures scans[..] == Accumulated(a, blockDim, base + blockDim)
  {
    for threadId := 0 to blockDim
      invariant forall t :: 0 <= t < blockDim ==>
                  sum[t] == ColumnSum(a, blockDim, t, if t < threadId then i + 1 else i)
      invariant forall t :: 0 <= t < blockDim ==>
                  offset[t] == base + t + (if t < threadId then blockDim else 0)
      invariant scans[..] == Accumulated(a, blockDim, base + threadId)
    {
      var count := scans[offset[threadId]];
      ColumnSumNext(a, blockDim, threadId, i, base);
      AccumulatedStep(a, blockDim, i, base, threadId);
      scans[offset[threadId]] := sum[threadId];
      sum[threadId] := sum[threadId] + count;
      offset[threadId] := offset[threadId] + blockDim;
    }
  }

  /** Lines 279-288 of `AddPrefix`: for each unit in turn, every radix's entry
      is replaced by the running sum of the earlier units, and the sums end as
      the per-radix totals. */
  method AccumulateUnits(scans: array<int>, sum: array<int>, offset: array<int>, blockDim: nat, computeUnits: nat)
    requires 0 < blockDim <= sum.Length && blockDim <= offset.Length
    requires computeUnits * blockDim + blockDim <= scans.Length
    requires scans != sum && scans != offset && sum != offset
    requires forall t :: 0 <= t < blockDim ==> sum[t] == 0 && offset[t] == t
    modifies scans, sum, offset
    ensures forall t :: 0 <= t < blockDim ==> sum[t] == ColumnSum(old(scans[..]), blockDim, t, computeUnits)
    ensures forall t :: 0 <= t < blockDim ==> offset[t] == computeUnits * blockDim + t
    ensures scans[..] == Accumulated(old(scans[..]), blockDim, computeUnits * blockDim)
  {
    ghost var a := scans[..];
    assert scans[..] == Accumulated(a, blockDim, 0 * blockDim);
    for i := 0 to computeUnits
      invariant forall t :: 0 <= t < blockDim ==> sum[t] == ColumnSum(a, blockDim, t, i)
      invariant forall t :: 0 <= t < blockDim ==> offset[t] == i * blockDim + t
      invariant scans[..] == Accumulated(a, blockDim, i * blockDim)
    {
      MulLess(i, computeUnits, blockDim);
      AccumulateUnit(scans, sum, offset, blockDim, i, i * blockDim, a);
      assert (i + 1) * blockDim == i * blockDim + blockDim;
    }
  }

  /** The scan buffer once the totals are in: zero padding up to `half`, and
      radix `t`'s total one place above `half + t`. */
  ghost predicate ScanLoaded(l: seq<int>, half: nat, totals: seq<int>)
  {
    && half + |totals| + 1 <= |l|
    && (forall j :: 0 <= j <= half ==> l[j] == 0)
    && (forall t :: 0 <= t < |totals| ==> l[half + t + 1] == totals[t])
  }

  /** The scan buffer at the end: position `half + t` holds the sum of the
      totals below `t`. */
  ghost predicate ScanDone(l: seq<int>, half: nat, totals: seq<int>)
  {
    && half + |totals| <= |l|
    && (forall t :: 0 <= t < |totals| ==> l[half + t] == PrefixSum(totals, t))
  }

  /** The scan buffer between passes: zero padding below `half`, and at
      `half + t` the window of width `w` ending at `t`. */
  ghost predicate ScanWindows(l: seq<int>, half: nat, blockDim: nat, w: int, totals: seq<int>)
  {
    && half + blockDim <= |l|
    && (forall t :: 0 <= t < half ==> l[t] == 0)
    && (forall j :: half <= j < half + blockDim ==> l[j] == Window(totals, j - half - w, j - half))
  }

  /** Before the first pass, position `half + t` holds the window of width 1
      ending at `t`. */
  lemma ScanStart(l: seq<int>, half: nat, totals: seq<int>)
    requires ScanLoaded(l, half, totals)
    ensures ScanWindows(l, half, |totals|, 1, totals)
  {
    forall j | half <= j < half + |totals|
      ensures l[j] == Window(totals, j - half - 1, j - half)
    {
      var t := j - half;
      assert Window(totals, t - 1, t) == (if 1 <= t <= |totals| then totals[t - 1] else 0);
      if t > 0 {
        assert l[half + (t - 1) + 1] == totals[t - 1];
      }
    }
  }

  /** Once the window is at least as wide as the totals, it is the whole
      prefix. */
  lemma ScanEnd(l: seq<int>, half: nat, i: int, totals: seq<int>)
    requires i >= |totals| && ScanWindows(l, half, |totals|, i, totals)
    ensures ScanDone(l, half, totals)
  {
    forall t | 0 <= t < |totals|
      ensures l[half + t] == PrefixSum(totals, t)
    {
      assert l[half + t] == Window(totals, t - i, t);
      WindowSplit(totals, t - i, 0, t);
      WindowNonPositive(totals, t - i, 0);
      WindowIsPrefix(totals, t);
    }
  }

  /** One doubling step of the scan at lines 297-304 of `AddPrefix`: each
      position adds the value `i` below it (zero padding under the first
      radix), through the `sum` buffer. The window each position covers
      doubles from `i` to `2 * i` totals. */
  method ScanPass(localPrefixScan: array<int>, sum: array<int>, half: nat, blockDim: nat, i: nat, ghost totals: seq<int>)
    requires 0 < i <= half && localPrefixScan != sum
    requires blockDim <= sum.Length
    requires ScanWindows(localPrefixScan[..], half, blockDim, i, totals)
    modifies localPrefixScan, sum
    ensures ScanWindows(localPrefixScan[..], half, blockDim, 2 * i, totals)
  {
    ghost var prev := localPrefixScan[..];
    for threadId := 0 to blockDim
      modifies sum
      invariant forall t :: 0 <= t < threadId ==> sum[t] == prev[half + t] + prev[half - i + t]
    {
      sum[threadId] := localPrefixScan[half + threadId] + localPrefixScan[half - i + threadId];
    }
    for threadId := 0 to blockDim
      modifies localPrefixScan
      invariant forall t :: 0 <= t < half ==> localPrefixScan[t] == 0
      invariant forall t :: 0 <= t < threadId ==> localPrefixScan[half + t] == sum[t]
      invariant forall j :: half + threadId <= j < half + blockDim ==> localPrefixScan[j] == prev[j]
    {
      localPrefixScan[half + threadId] := sum[threadId];
    }
    forall j | half <= j < half + blockDim
      ensures localPrefixScan[j] == Window(totals, j - half - 2 * i, j - half)
    {
      var t := j - half;
      assert localPrefixScan[half + t] == sum[t];
      assert prev[j] == Window(totals, t - i, t);
      ScanStep(totals, t, i);
      if t - i >= 0 {
        assert prev[half - i + t] == prev[half + (t - i)];
      }
    }
  }

  /** Lines 295-305 of `AddPrefix`: the double-buffered Hillis-Steele scan.
      Position `half + t` starts with the total of radix `t - 1` (0 for
      `t = 0`) over zero padding below it, and ends with the sum of the
      totals of all radices below `t`. */
  method ScanTotals(localPrefixScan: array<int>, sum: array<int>, blockDim: nat, ghost totals: seq<int>)
    requires IsPowerOfTwo(blockDim) && |totals| == blockDim && blockDim <= sum.Length
    requires localPrefixScan != sum
    requires ScanLoaded(localPrefixScan[..], blockDim / 2, totals)
    modifies localPrefixScan, sum
    ensures ScanDone(localPrefixScan[..], blockDim / 2, totals)
  {
    var half := blockDim / 2;
    ScanStart(localPrefixScan[..], half, totals);

    ghost var e := Log2(blockDim);
    Log2Exact(blockDim);
    var i := 1;
    ghost var k: nat := 0;
    while i < blockDim
      invariant i == Pow2(k) && i <= blockDim
      invariant ScanWindows(localPrefixScan[..], half, blockDim, i, totals)
      decreases blockDim - i
    {
      Pow2Below(k, e);
      ScanPass(localPrefixScan, sum, half, blockDim, i, totals);
      i, k := i * 2, k + 1;
    }
    ScanEnd(localPrefixScan[..], half, i, totals);
  }

  /** Lines 290-293 of `AddPrefix`: the totals move into the scan buffer one
      place above the middle, over the zeroed lower half. */
  method LoadTotals(localPrefixScan: array<int>, sum: array<int>, blockDim: nat, ghost totals: seq<int>)
    requires blockDim / 2 + blockDim + 1 <= localPrefixScan.Length && blockDim <= sum.Length
    requires |totals| == blockDim && localPrefixScan != sum
    requires forall j :: 0 <= j <= blockDim / 2 ==> localPrefixScan[j] == 0
    requires forall t :: 0 <= t < blockDim ==> sum[t] == totals[t]
    modifies localPrefixScan
    ensures ScanLoaded(localPrefixScan[..], blockDim / 2, totals)
  {
    for threadId := 0 to blockDim
      invariant forall j :: 0 <= j <= blockDim / 2 ==> localPrefixScan[j] == 0
      invariant forall t :: 0 <= t < threadId ==> localPrefixScan[blockDim / 2 + t + 1] == totals[t]
    {
      localPrefixScan[blockDim / 2 + threadId + 1] := sum[threadId];
    }
  }

  /** Lines 307-309 of `AddPrefix`: the scanned totals go to the `R` entries
      after the last unit, where the offsets now point. */
  method WriteTotals(scans: array<int>, localPrefixScan: array<int>, offset: array<int>, blockDim: nat,
                     computeUnits: nat, ghost totals: seq<int>)
    requires computeUnits * blockDim + blockDim <= scans.Length
    requires blockDim / 2 + blockDim <= localPrefixScan.Length && blockDim <= offset.Length
    requires scans != localPrefixScan && scans != offset
    requires forall t :: 0 <= t < blockDim ==> offset[t] == computeUnits * blockDim + t
    requires |totals| == blockDim && ScanDone(localPrefixScan[..], blockDim / 2, totals)
    modifies scans
    ensures forall k :: 0 <= k < scans.Length ==>
              scans[k] == if computeUnits * blockDim <= k < computeUnits * blockDim + blockDim
                          then PrefixSum(totals, k - computeUnits * blockDim) else old(scans[k])
  {
    for threadId := 0 to blockDim
      invariant forall k :: 0 <= k < scans.Length ==>
                  scans[k] == if computeUnits * blockDim <= k < computeUnits * blockDim + threadId
                              then PrefixSum(totals, k - computeUnits * blockDim) else old(scans[k])
    {
      scans[offset[threadId]] := localPrefixScan[blockDim / 2 + threadId];
    }
  }

  /** The running sums of every unit followed by the scanned totals make up
      `AddPrefixResult`. */
  lemma AddPrefixAssembled(a: seq<int>, radixStride: nat, computeUnits: nat, s: seq<int>)
    requires radixStride > 0 && |s| == |a|
    requires forall k :: 0 <= k < |s| ==>
               s[k] == if computeUnits * radixStride <= k < computeUnits * radixStride + radixStride
                       then PrefixSum(Totals(a, radixStride, computeUnits), k - computeUnits * radixStride)
                       else Accumulated(a, radixStride, computeUnits * radixStride)[k]
    ensures s == AddPrefixResult(a, radixStride, computeUnits)
  {
  }

  method AddPrefix(scans: array<int>, blockDim: nat, computeUnits: nat)
    requires IsPowerOfTwo(blockDim) && blockDim <= MaxRadixSize
    requires computeUnits * blockDim + blockDim <= scans.Length
    modifies scans
    ensures scans[..] == AddPrefixResult(old(scans[..]), blockDim, computeUnits)
  {
    ghost var a := scans[..];
    var sum := new int[MaxRadixSize];
    var offset := new int[MaxRadixSize];
    var localPrefixScan := new int[MaxRadixSize / 2 + MaxRadixSize + 1];

    for threadId := 0 to blockDim
      modifies sum, localPrefixScan, offset
      invariant forall t :: 0 <= t < threadId ==> sum[t] == 0 && localPrefixScan[t] == 0 && offset[t] == t
    {
      sum[threadId] := 0;
      localPrefixScan[threadId] := 0;
      offset[threadId] := threadId;
    }

    assert scans[..] == a;
    AccumulateUnits(scans, sum, offset, blockDim, computeUnits);
    assert scans[..] == Accumulated(a, blockDim, computeUnits * blockDim);
    assert forall t :: 0 <= t < blockDim ==> sum[t] == ColumnSum(a, blockDim, t, computeUnits);

    ghost var totals := Totals(a, blockDim, computeUnits);
    LoadTotals(localPrefixScan, sum, blockDim, totals);

    ScanTotals(localPrefixScan, sum, blockDim, totals);

    ghost var mid := scans[..];
    assert mid == Accumulated(a, blockDim, computeUnits * blockDim);
    WriteTotals(scans, localPrefixScan, offset, blockDim, computeUnits, totals);
    AddPrefixAssembled(a, blockDim, computeUnits, scans[..]);
  }

  // ---------------------------------------------------------------------------
  // The driver

  /** `deviceComputeUnits`: the driver fixes it to 1. */
  const DeviceComputeUnits: nat := 1

  /** The number of `SortBlockSize` batches each unit counts, and the number
      of units that take part. */
  datatype Partition = Partition(bashCount: nat, computeUnits: nat)

  datatype Option<T> = None | Some(value: T)

  /** `q = (x + m - 1) / m` is the least `q` with `q * m >= x`. */
  lemma CeilDiv(x: nat, m: nat)
    requires m > 0
    ensures (x + m - 1) / m * m >= x
    ensures (x + m - 1) / m * m < x + m
  {
    var q, r := (x + m - 1) / m, (x + m - 1) % m;
    assert x + m - 1 == q * m + r && 0 <= r < m;
  }

  /** A multiple of `m` below `y * m` is at most `(y - 1) * m`. */
  lemma MulBelow(q: int, y: int, m: nat)
    requires m > 0 && (q - 1) * m < y * m
    ensures q <= y
  {
    if q > y {
      MulMono(y, q - 1, m);
    }
  }

  /** Lines 1250-1254: the batch and unit counts for `itemCount` items on
      `deviceUnits` units. With no items `bashCount` is 0 and the last line
      divides by zero, which is `None`. */
  function BlockPartition(itemCount: nat, deviceUnits: nat): (p: Option<Partition>)
    requires deviceUnits > 0
    ensures p.Some? ==> p.value.bashCount > 0
  {
    var unitsBashCount := (itemCount + SortBlockSize - 1) / SortBlockSize;
    var bashCount := (unitsBashCount + deviceUnits - 1) / deviceUnits;
    if bashCount == 0 then None
    else Some(Partition(bashCount, (itemCount + bashCount * SortBlockSize - 1) / (bashCount * SortBlockSize)))
  }

  /** Only an empty source divides by zero. Otherwise between one and
      `deviceUnits` units are used, together they cover every item, and the
      last unit is not empty. */
  lemma BlockPartitionCovers(itemCount: nat, deviceUnits: nat)
    requires deviceUnits > 0
    ensures BlockPartition(itemCount, deviceUnits).None? <==> itemCount == 0
    ensures itemCount > 0 ==>
              var p := BlockPartition(itemCount, deviceUnits).value;
              && 1 <= p.computeUnits <= deviceUnits
              && p.computeUnits * (p.bashCount * SortBlockSize) >= itemCount
              && (p.computeUnits - 1) * (p.bashCount * SortBlockSize) < itemCount
  {
    var unitsBashCount := (itemCount + SortBlockSize - 1) / SortBlockSize;
    var bashCount := (unitsBashCount + deviceUnits - 1) / deviceUnits;
    CeilDiv(itemCount, SortBlockSize);
    CeilDiv(unitsBashCount, deviceUnits);
    if itemCount == 0 {
      assert unitsBashCount == 0;
      assert bashCount == 0;
    } else {
      assert unitsBashCount > 0;
      assert bashCount > 0;
      var width := bashCount * SortBlockSize;
      var computeUnits := (itemCount + width - 1) / width;
      CeilDiv(itemCount, width);
      assert deviceUnits * width >= itemCount by {
        MulMono(unitsBashCount, bashCount * deviceUnits, SortBlockSize);
        assert deviceUnits * width == bashCount * deviceUnits * SortBlockSize;
      }
      MulBelow(computeUnits, deviceUnits, width);
      assert computeUnits * width - width == (computeUnits - 1) * width;
    }
  }

  /** With the one device unit the driver uses, a single unit counts all
      items. */
  lemma SingleDeviceUnit(itemCount: nat)
    requires itemCount > 0
    ensures BlockPartition(itemCount, DeviceComputeUnits).Some?
    ensures BlockPartition(itemCount, DeviceComputeUnits).value.computeUnits == 1
  {
    BlockPartitionCovers(itemCount, DeviceComputeUnits);
  }

  /** The scans buffer after `CountItems` has run for units `0 .. units - 1`,
      each over `width` consecutive items. */
  function Counted<T>(a: seq<int>, src: seq<T>, radix: T -> int, radixStride: nat, width: nat, units: nat): (r: seq<int>)
    requires radixStride > 0
    ensures |r| == |a|
  {
    seq(|a|, k requires 0 <= k < |a| =>
      if k < units * radixStride
      then CountIn(src, radix, k / radixStride * width, (k / radixStride + 1) * width, k % radixStride)
      else a[k])
  }

  lemma CountedStep<T>(a: seq<int>, src: seq<T>, radix: T -> int, radixStride: nat, bashCount: nat, b: nat)
    requires radixStride > 0 && b * radixStride + radixStride <= |a|
    ensures CountItemsResult(Counted(a, src, radix, radixStride, bashCount * SortBlockSize, b),
                             src, radix, radixStride, b, bashCount)
         == Counted(a, src, radix, radixStride, bashCount * SortBlockSize, b + 1)
  {
    var width := bashCount * SortBlockSize;
    var before := Counted(a, src, radix, radixStride, width, b);
    var lhs := CountItemsResult(before, src, radix, radixStride, b, bashCount);
    var rhs := Counted(a, src, radix, radixStride, width, b + 1);
    assert (b + 1) * radixStride == b * radixStride + radixStride;
    forall k | 0 <= k < |a|
      ensures lhs[k] == rhs[k]
    {
      if b * radixStride <= k < b * radixStride + radixStride {
        Slot(b, radixStride, k - b * radixStride);
        assert radixStride * b == b * radixStride;
        assert (b + 1) * width == width * b + width;
      }
    }
  }

  /** Items beyond the source count nowhere. */
  lemma {:induction false} CountInClip<T>(src: seq<T>, radix: T -> int, lo: int, hi: int, r: int)
    requires 0 <= lo && |src| <= hi
    ensures CountIn(src, radix, lo, hi, r) == CountIn(src, radix, lo, Max0(|src| - lo) + lo, r)
    decreases hi - lo
  {
    if hi > Max0(|src| - lo) + lo {
      CountInClip(src, radix, lo, hi - 1, r);
    }
  }

  /** Each unit's entries hold the histogram of its own `width` items. */
  ghost predicate UnitHistograms<T>(c: seq<int>, src: seq<T>, radix: T -> int, radixStride: nat, width: nat, units: nat)
  {
    forall b: nat, t :: b < units && 0 <= t < radixStride ==>
      UnitEntry(c, radixStride, b, t) == CountIn(src, radix, b * width, b * width + width, t)
  }

  /** Over the counted units, a radix's running sum is its count in all
      earlier units' items. */
  lemma {:induction false} ColumnSumCounts<T>(c: seq<int>, src: seq<T>, radix: T -> int,
                                              radixStride: nat, width: nat, units: nat, t: int, b: nat)
    requires 0 <= t < radixStride && b <= units
    requires UnitHistograms(c, src, radix, radixStride, width, units)
    ensures ColumnSum(c, radixStride, t, b) == CountIn(src, radix, 0, b * width, t)
  {
    if b > 0 {
      ColumnSumCounts(c, src, radix, radixStride, width, units, t, b - 1);
      var lo := (b - 1) * width;
      assert lo + width == b * width;
      MulMono(0, b - 1, width);
      CountInSplit(src, radix, 0, lo, b * width, t);
    }
  }

  /** The counted scans buffer holds every unit's histogram. */
  lemma CountedHistograms<T>(a: seq<int>, src: seq<T>, radix: T -> int, radixStride: nat, width: nat, units: nat)
    requires 0 < radixStride && units * radixStride <= |a|
    ensures UnitHistograms(Counted(a, src, radix, radixStride, width, units), src, radix, radixStride, width, units)
  {
    forall b: nat, t | b < units && 0 <= t < radixStride
      ensures UnitEntry(Counted(a, src, radix, radixStride, width, units), radixStride, b, t)
           == CountIn(src, radix, b * width, b * width + width, t)
    {
      MulLess(b, units, radixStride);
      Slot(b, radixStride, t);
      assert (b + 1) * width == b * width + width;
    }
  }

  /** The scan of the totals counts the items whose radix is below `t`. */
  lemma {:induction false} PrefixSumCounts<T>(c: seq<int>, src: seq<T>, radix: T -> int,
                                              radixStride: nat, width: nat, units: nat, t: nat)
    requires 0 < radixStride && t <= radixStride
    requires UnitHistograms(c, src, radix, radixStride, width, units)
    ensures PrefixSum(Totals(c, radixStride, units), t) == CountBelow(src, radix, 0, units * width, t)
  {
    if t > 0 {
      PrefixSumCounts(c, src, radix, radixStride, width, units, t - 1);
      ColumnSumCounts(c, src, radix, radixStride, width, units, t - 1, units);
    }
  }

  lemma {:induction false} CountBelowClip<T>(src: seq<T>, radix: T -> int, hi: int, m: nat)
    requires |src| <= hi
    ensures CountBelow(src, radix, 0, hi, m) == CountBelow(src, radix, 0, |src|, m)
  {
    if m > 0 {
      CountBelowClip(src, radix, hi, m - 1);
      CountInClip(src, radix, 0, hi, m - 1);
    }
  }

  /** The prefix pass over the counted histograms: unit `b`'s entries count
      the earlier units' items, and the scanned totals count the items below
      each radix. */
  lemma CountedScans<T>(a: seq<int>, src: seq<T>, radix: T -> int, radixStride: nat, width: nat,
                        units: nat, s: seq<int>)
    requires 0 < radixStride && units * radixStride + radixStride <= |a|
    requires units * width >= |src|
    requires s == AddPrefixResult(Counted(a, src, radix, radixStride, width, units), radixStride, units)
    ensures forall k :: 0 <= k < units * radixStride ==>
              s[k] == CountIn(src, radix, 0, k / radixStride * width, k % radixStride)
    ensures forall t :: 0 <= t < radixStride ==>
              s[units * radixStride + t] == CountBelow(src, radix, 0, |src|, t)
    ensures forall k :: units * radixStride + radixStride <= k < |a| ==> s[k] == a[k]
  {
    var c := Counted(a, src, radix, radixStride, width, units);
    CountedHistograms(a, src, radix, radixStride, width, units);
    forall k | 0 <= k < units * radixStride
      ensures s[k] == CountIn(src, radix, 0, k / radixStride * width, k % radixStride)
    {
      UnitOf(k, units, radixStride);
      ColumnSumCounts(c, src, radix, radixStride, width, units, k % radixStride, k / radixStride);
      assert s[k] == ColumnSum(c, radixStride, k % radixStride, k / radixStride);
    }
    forall t | 0 <= t < radixStride
      ensures s[units * radixStride + t] == CountBelow(src, radix, 0, |src|, t)
    {
      PrefixSumCounts(c, src, radix, radixStride, width, units, t);
      CountBelowClip(src, radix, units * width, t);
      assert s[units * radixStride + t] == PrefixSum(Totals(c, radixStride, units), t);
    }
  }

  lemma UnitOf(k: int, units: nat, radixStride: nat)
    requires 0 <= k < units * radixStride
    ensures 0 <= k / radixStride < units && 0 <= k % radixStride < radixStride
  {
    assert k == k / radixStride * radixStride + k % radixStride;
    MulBelow(k / radixStride + 1, units, radixStride);
  }

  /** Lines 1246-1265 without the merge pass: one histogram per unit, then
      the prefix pass. Afterwards unit `b`'s entry for radix `t` is the number
      of radix-`t` items in the units before `b`, and entry `t` after the last
      unit is the number of items whose radix is below `t`: together, where
      the unit's first radix-`t` item goes in the sorted output. */
  method CountingSortScans<T>(src: seq<T>, dstCount: nat, radix: T -> int, exponentRadix: nat, scans: array<int>)
      returns (bashCount: nat, computeUnits: nat)
    requires |src| == dstCount && |src| > 0
    requires Pow2(exponentRadix) <= MaxRadixSize
    requires forall k :: 0 <= k < |src| ==> 0 <= radix(src[k]) < Pow2(exponentRadix)
    requires Pow2(exponentRadix) * 2 <= scans.Length
    modifies scans
    ensures computeUnits == 1
    ensures forall k :: 0 <= k < computeUnits * Pow2(exponentRadix) ==>
              scans[k] == CountIn(src, radix, 0, k / Pow2(exponentRadix) * (bashCount * SortBlockSize),
                                  k % Pow2(exponentRadix))
    ensures forall t :: 0 <= t < Pow2(exponentRadix) ==>
              scans[computeUnits * Pow2(exponentRadix) + t] == CountBelow(src, radix, 0, |src|, t)
    ensures forall k :: (computeUnits + 1) * Pow2(exponentRadix) <= k < scans.Length ==> scans[k] == old(scans[k])
  {
    var itemCount := |src|;
    var unitsBashCount := (itemCount + SortBlockSize - 1) / SortBlockSize;
    bashCount := (unitsBashCount + DeviceComputeUnits - 1) / DeviceComputeUnits;
    computeUnits := (itemCount + bashCount * SortBlockSize - 1) / (bashCount * SortBlockSize);
    ghost var p := BlockPartition(itemCount, DeviceComputeUnits);
    assert p == Some(Partition(bashCount, computeUnits));
    BlockPartitionCovers(itemCount, DeviceComputeUnits);
    SingleDeviceUnit(itemCount);
    var radixStride := Pow2(exponentRadix);
    ghost var width := bashCount * SortBlockSize;
    assert computeUnits * width >= |src|;
    ghost var a := scans[..];

    for block := 0 to computeUnits
      invariant scans[..] == Counted(a, src, radix, radixStride, width, block)
    {
      CountedStep(a, src, radix, radixStride, bashCount, block);
      CountItems(src, radix, exponentRadix, scans, block, bashCount);
    }

    Pow2IsPowerOfTwo(exponentRadix);
    AddPrefix(scans, radixStride, computeUnits);
    CountedScans(a, src, radix, radixStride, width, computeUnits, scans[..]);
  }
}
