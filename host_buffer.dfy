/**
  `ndCudaHostBuffer<T>`: a growable pinned-memory array with a separate count
  (`m_size`) and capacity (`m_capacity`), and `ndBankFreeArray`, the padded
  address map that spreads consecutive 32-word rows over shared-memory banks.
  The pinned allocation and the device copies (`cudaMallocHost`, `cudaMemcpy`,
  `cudaFreeHost`) become a fresh Dafny array and an element-wise copy.
*/
module CudaHostBuffer {

  function Max(a: int, b: int): int { if a >= b then a else b }
  function Min(a: int, b: int): int { if a <= b then a else b }

  /** The capacity `SetCount(count)` ends with, starting from `capacity`: its
      loop calls `Resize(capacity * 2)` while the count does not fit, and each
      such call grows the capacity to `max(2 * capacity, granularity)`. The
      result holds the count, never shrinks, and overshoots by less than a
      factor of two (measured from the granularity for tiny requests). */
  function GrownCapacity(capacity: nat, count: int, granularity: nat): (c: nat)
    requires granularity > 0
    ensures c >= capacity && c >= count
    ensures count <= capacity ==> c == capacity
    ensures count > capacity ==> c < 2 * Max(count, granularity)
    ensures capacity >= granularity || count > capacity ==> c >= granularity
    decreases count - capacity
  {
    if count <= capacity then capacity
    else GrownCapacity(Max(2 * capacity, granularity), count, granularity)
  }

  /** The bookkeeping of `Resize` exactly as the source writes it, on the
      numbers alone: the new count and capacity, and how many elements each
      branch copies out of the old allocation. */
  datatype ResizeEffect = ResizeEffect(size: int, capacity: int, copied: int)

  function ResizeAsWritten(size: int, capacity: int, newSize: int, granularity: int): (e: ResizeEffect)
    ensures e.size == size
    ensures newSize > capacity || capacity == 0 ==> e.capacity == Max(newSize, granularity) && e.copied == size
    ensures !(newSize > capacity || capacity == 0) && newSize < capacity ==>
              e.capacity == Max(newSize, granularity) && e.copied == e.capacity
    ensures !(newSize > capacity || capacity == 0) && newSize >= capacity ==>
              e == ResizeEffect(size, capacity, 0)
  {
    if newSize > capacity || capacity == 0 then
      ResizeEffect(size, Max(newSize, granularity), size)
    else if newSize < capacity then
      ResizeEffect(size, Max(newSize, granularity), Max(newSize, granularity))
    else
      ResizeEffect(size, capacity, 0)
  }

  /** As written, a shrinking `Resize` below the count leaves the count above
      the capacity, and the next growing `Resize` then copies `m_size`
      elements: more than the old allocation holds and more than the new one
      can take. This happens for every full buffer shrunk to at least one
      granule and then grown to any size strictly between the two (a buffer
      of 100 shrunk to 50 and grown to 60, say). */
  lemma ShrinkThenGrowOverruns(size: int, newSize: int, n: int, granularity: int)
    requires 0 < granularity <= newSize < n < size
    ensures var shrunk := ResizeAsWritten(size, size, newSize, granularity);
            var grown := ResizeAsWritten(shrunk.size, shrunk.capacity, n, granularity);
            && shrunk.capacity == newSize
            && shrunk.size > shrunk.capacity
            && grown.capacity == n
            && grown.copied == size
            && grown.copied > shrunk.capacity
            && grown.copied > grown.capacity
  {
  }

  class HostBuffer<T(0)> {
    /** `m_array`; the empty array stands for the initial null pointer. */
    var arr: array<T>
    /** `m_size`. */
    var size: nat
    /** `m_capacity`. */
    var capacity: nat
    /** `D_GRANULARITY`, the smallest allocation. */
    const granularity: nat

    /** The allocation is exactly `capacity` long, holds the count, and is at
        least one granule once anything has been allocated. */
    ghost predicate Valid()
      reads this
    {
      && granularity > 0
      && arr.Length == capacity
      && size <= capacity
      && (capacity == 0 || capacity >= granularity)
    }

    /** The elements in use, `[0, GetCount())`. */
    ghost function Elements(): seq<T>
      reads this, arr
      requires Valid()
    {
      arr[..size]
    }

    /** The constructor allocates through `SetCount(D_GRANULARITY)` and then
        sets the count back to 0. */
    constructor (granularity: nat)
      requires granularity > 0
      ensures Valid()
      ensures size == 0 && capacity == granularity
      ensures this.granularity == granularity
    {
      this.granularity := granularity;
      arr := new T[0];
      size, capacity := 0, 0;
      new;
      SetCount(granularity);
      SetCount(0);
    }

    function GetCount(): (n: nat)
      reads this
      ensures n == size
    {
      size
    }

    function GetCapacity(): (n: nat)
      reads this
      ensures n == capacity
    {
      capacity
    }

    /** `operator[]`: element `i` of the elements in use. */
    function At(i: int): (x: T)
      reads this, arr
      requires Valid()
      requires 0 <= i < size
      ensures x == Elements()[i]
    {
      arr[i]
    }

    /** Writing through the reference `operator[]` returns. */
    method Put(i: int, x: T)
      requires Valid()
      requires 0 <= i < size
      modifies arr
      ensures Valid()
      ensures Elements() == old(Elements())[i := x]
    {
      arr[i] := x;
    }

    /** Doubles the capacity until `count` fits, then sets the count. The
        elements in use that stay in use are kept. */
    method SetCount(count: nat)
      requires Valid()
      modifies this
      ensures Valid()
      ensures size == count
      ensures capacity == GrownCapacity(old(capacity), count, granularity)
      ensures capacity >= old(capacity) && capacity >= count
      ensures arr[..Min(old(size), count)] == old(arr[..Min(size, count)])
    {
      while count > capacity
        invariant Valid()
        invariant GrownCapacity(capacity, count, granularity) == GrownCapacity(old(capacity), count, granularity)
        invariant size == old(size)
        invariant arr[..size] == old(arr[..size])
        decreases count - capacity
      {
        Resize(capacity * 2);
      }
      assert arr[..Min(size, count)] == arr[..size][..Min(size, count)];
      size := count;
    }

    method Clear()
      requires Valid()
      modifies this`size
      ensures Valid()
      ensures size == 0
    {
      size := 0;
    }

    /** A growing request (above the capacity, or anything while nothing is
        allocated) allocates `max(newSize, granularity)` and keeps the count
        and the elements in use. A shrinking request allocates
        `max(newSize, granularity)` and keeps the elements that fit; the count
        is cut to the new capacity (see the findings). A request equal to the
        capacity changes nothing. */
    method Resize(newSize: int)
      requires Valid()
      modifies this
      ensures Valid()
      ensures old(newSize > capacity || capacity == 0) ==>
                && capacity == Max(newSize, granularity)
                && size == old(size)
                && arr[..size] == old(arr[..size])
      ensures old(!(newSize > capacity || capacity == 0) && newSize < capacity) ==>
                && capacity == Max(newSize, granularity)
                && size == Min(old(size), capacity)
                && arr[..] == old(arr[..])[..capacity]
      ensures old(!(newSize > capacity || capacity == 0) && newSize >= capacity) ==>
                capacity == old(capacity) && size == old(size) && arr == old(arr)
    {
      if newSize > capacity || capacity == 0 {
        var n := Max(newSize, granularity);
        var newArray := new T[n];
        forall k | 0 <= k < size {
          newArray[k] := arr[k];
        }
        arr := newArray;
        capacity := n;
      } else if newSize < capacity {
        var n := Max(newSize, granularity);
        var newArray := new T[n];
        forall k | 0 <= k < n {
          newArray[k] := arr[k];
        }
        capacity := n;
        arr := newArray;
        size := Min(size, n);
      }
    }

    /** Exchanges count, storage and capacity with `other`. Both buffers come
        from the same `D_GRANULARITY`. */
    method Swap(other: HostBuffer<T>)
      requires Valid() && other.Valid()
      requires other.granularity == granularity
      modifies this, other
      ensures Valid() && other.Valid()
      ensures size == old(other.size) && arr == old(other.arr) && capacity == old(other.capacity)
      ensures other.size == old(size) && other.arr == old(arr) && other.capacity == old(capacity)
    {
      size, other.size := other.size, size;
      arr, other.arr := other.arr, arr;
      capacity, other.capacity := other.capacity, capacity;
    }
  }

  /** `Swap` is an involution: exchanging twice restores both buffers. */
  method SwapTwice<T(0)>(a: HostBuffer<T>, b: HostBuffer<T>)
    requires a.Valid() && b.Valid() && a.granularity == b.granularity
    modifies a, b
    ensures a.Valid() && b.Valid()
    ensures a.size == old(a.size) && a.arr == old(a.arr) && a.capacity == old(a.capacity)
    ensures b.size == old(b.size) && b.arr == old(b.arr) && b.capacity == old(b.capacity)
  {
    a.Swap(b);
    a.Swap(b);
  }

  /** `D_LOG_BANK_COUNT`, `D_BANK_COUNT`, `D_BANK_PADD`. */
  const LogBankCount: nat := 5
  const BankCount: nat := 32
  const BankPadd: nat := 1

  /** `GetBankAddress`: `(address >> 5) * 33 + (address & 31)`. The arithmetic
      shift and the mask are floor division and the non-negative remainder,
      which is what Dafny's `/` and `%` compute. */
  function BankAddress(address: int): (slot: int)
    ensures slot - address == (address / BankCount) * BankPadd
    ensures address >= 0 ==> slot >= address
  {
    (address / BankCount) * (BankCount + BankPadd) + address % BankCount
  }

  /** The padded row keeps the address's column and row. */
  lemma BankAddressColumn(address: int)
    ensures BankAddress(address) % (BankCount + BankPadd) == address % BankCount
    ensures BankAddress(address) / (BankCount + BankPadd) == address / BankCount
  {
    var q, r := address / BankCount, address % BankCount;
    assert BankAddress(address) == q * 33 + r && 0 <= r < 33;
  }

  /** No two addresses share a slot. */
  lemma BankAddressInjective(a: int, b: int)
    requires BankAddress(a) == BankAddress(b)
    ensures a == b
  {
    BankAddressColumn(a);
    BankAddressColumn(b);
    assert a == (a / 32) * 32 + a % 32;
    assert b == (b / 32) * 32 + b % 32;
  }

  /** Length of `ndBankFreeArray<size>::m_array`. */
  function BankArrayLength(size: nat): (length: nat)
    ensures length % (BankCount + BankPadd) == 0
    ensures size <= length < size + BankCount + (size + BankCount - 1) / BankCount
  {
    ((size + BankCount - 1) / BankCount) * (BankCount + BankPadd)
  }

  /** Every address below `size` maps inside the array. */
  lemma BankAddressInRange(address: int, size: nat)
    requires 0 <= address < size
    ensures 0 <= BankAddress(address) < BankArrayLength(size)
  {
    var q, r := address / 32, address % 32;
    var rows := (size + 31) / 32;
    assert address == q * 32 + r;
    assert q < rows by {
      assert (size + 31) == rows * 32 + (size + 31) % 32;
    }
    assert BankAddress(address) == q * 33 + r;
    assert q * 33 + r < (q + 1) * 33;
    assert (q + 1) * 33 <= rows * 33;
  }

  class BankFreeArray {
    const size: nat
    var data: array<int>

    ghost predicate Valid()
      reads this
    {
      data.Length == BankArrayLength(size)
    }

    constructor (size: nat)
      ensures Valid() && this.size == size
    {
      this.size := size;
      data := new int[BankArrayLength(size)];
    }

    /** Reading `operator[](address)`. */
    function Get(address: int): (v: int)
      reads this, data
      requires Valid() && 0 <= address < size
      ensures 0 <= BankAddress(address) < data.Length && v == data[BankAddress(address)]
    {
      BankAddressInRange(address, size);
      data[BankAddress(address)]
    }

    /** Writing through `operator[](address)`: that address reads back the new
        value and every other address keeps its value. */
    method Put(address: int, v: int)
      requires Valid() && 0 <= address < size
      modifies data
      ensures Valid()
      ensures Get(address) == v
      ensures forall a :: 0 <= a < size && a != address ==> Get(a) == old(Get(a))
    {
      BankAddressInRange(address, size);
      data[BankAddress(address)] := v;
      forall a | 0 <= a < size && a != address
        ensures Get(a) == old(Get(a))
      {
        BankAddressInRange(a, size);
        if BankAddress(a) == BankAddress(address) {
          BankAddressInjective(a, address);
        }
      }
    }
  }
}
