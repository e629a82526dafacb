/**
 * The block allocator over one CBV/SRV/UAV descriptor heap: the heap is cut
 * into blocks of `BlockSize` descriptors, free blocks wait in a FIFO queue,
 * and each `Allocation` owns one block and hands out its slots in order.
 * The heap's start handles, its descriptor count and the device's
 * descriptor increment are inputs; the device's descriptor writes are
 * recorded in a map from CPU handle to the view written there.
 */
module DescriptorHeap {

  import opened Wrappers

  /** Descriptors per block. */
  const BlockSize: nat := 8

  /** The CPU or GPU handle of the first descriptor of block `Block`. */
  function BlockAddress(Start: nat, DescriptorSize: nat, Block: nat): nat {
    Start + DescriptorSize * Block * BlockSize
  }

  /** `Get*Handle(Offset)`: the handle Offset descriptors past Base. */
  function SlotAddress(Base: nat, DescriptorSize: nat, Offset: nat): nat {
    Base + Offset * DescriptorSize
  }

  /** Slot o of block b is descriptor b * BlockSize + o of the heap. */
  lemma SlotIsHeapDescriptor(Start: nat, DescriptorSize: nat, Block: nat, Offset: nat)
    ensures SlotAddress(BlockAddress(Start, DescriptorSize, Block), DescriptorSize, Offset)
      == Start + DescriptorSize * (Block * BlockSize + Offset)
  {
    assert DescriptorSize * Block * BlockSize + Offset * DescriptorSize == DescriptorSize * (Block * BlockSize + Offset);
  }

  /** A positive factor can be cancelled. */
  lemma MulCancel(d: nat, x: nat, y: nat)
    requires d > 0 && d * x == d * y
    ensures x == y
  {
  }

  /** A heap descriptor index splits uniquely into block and slot. */
  lemma BlockSlotUnique(b1: nat, o1: nat, b2: nat, o2: nat)
    requires o1 < BlockSize && o2 < BlockSize && b1 * BlockSize + o1 == b2 * BlockSize + o2
    ensures b1 == b2 && o1 == o2
  {
  }

  /** Within their blocks, two different (block, slot) pairs address two different descriptors. */
  lemma SlotsDistinct(Start: nat, DescriptorSize: nat, b1: nat, o1: nat, b2: nat, o2: nat)
    requires DescriptorSize > 0 && o1 < BlockSize && o2 < BlockSize
    ensures SlotAddress(BlockAddress(Start, DescriptorSize, b1), DescriptorSize, o1)
      == SlotAddress(BlockAddress(Start, DescriptorSize, b2), DescriptorSize, o2)
      <==> b1 == b2 && o1 == o2
  {
    SlotIsHeapDescriptor(Start, DescriptorSize, b1, o1);
    SlotIsHeapDescriptor(Start, DescriptorSize, b2, o2);
    var i1, i2 := b1 * BlockSize + o1, b2 * BlockSize + o2;
    if DescriptorSize * i1 == DescriptorSize * i2 {
      MulCancel(DescriptorSize, i1, i2);
      BlockSlotUnique(b1, o1, b2, o2);
    }
  }

  /**
   * Slot `BlockSize` of block b, which `CreateBufferUAV`/`CBV` reach on the
   * ninth view because `NumDescriptors` is never compared with
   * `MaxDescriptors`, is slot 0 of block b + 1.
   */
  lemma NinthSlotIsNextBlock(Start: nat, DescriptorSize: nat, Block: nat)
    ensures SlotAddress(BlockAddress(Start, DescriptorSize, Block), DescriptorSize, BlockSize)
      == SlotAddress(BlockAddress(Start, DescriptorSize, Block + 1), DescriptorSize, 0)
  {
    SlotIsHeapDescriptor(Start, DescriptorSize, Block, BlockSize);
    SlotIsHeapDescriptor(Start, DescriptorSize, Block + 1, 0);
  }

  /** The blocks 0 .. n-1 in ascending order. */
  function Blocks(n: nat): (r: seq<nat>)
    ensures |r| == n && forall i :: 0 <= i < n ==> r[i] == i
  {
    seq(n, i => i)
  }

  /** The blocks 0 .. n-1 split into the queued ones, each queued once, and the owned ones. */
  ghost predicate Partition(FreeBlocks: seq<nat>, Outstanding: set<nat>, NumBlocks: nat) {
    (forall i :: 0 <= i < |FreeBlocks| ==> FreeBlocks[i] < NumBlocks && FreeBlocks[i] !in Outstanding)
    && (forall i, j :: 0 <= i < j < |FreeBlocks| ==> FreeBlocks[i] != FreeBlocks[j])
    && (forall b :: b in Outstanding ==> b < NumBlocks)
    && (forall b :: 0 <= b < NumBlocks ==> b in FreeBlocks || b in Outstanding)
  }

  /** The blocks a queue holds. */
  ghost function Queued(s: seq<nat>): set<nat> {
    set x | x in s
  }

  /** A queue without repeats holds as many blocks as it has entries. */
  lemma {:induction false} DistinctCard(s: seq<nat>)
    requires forall i, j :: 0 <= i < j < |s| ==> s[i] != s[j]
    ensures |Queued(s)| == |s|
  {
    if |s| > 0 {
      var t, last := s[..|s| - 1], s[|s| - 1];
      DistinctCard(t);
      assert Queued(s) == Queued(t) + {last} by {
        forall x | x in s
          ensures x in t || x == last
        {
          var k :| 0 <= k < |s| && s[k] == x;
          if k < |t| {
            assert t[k] == x;
          }
        }
        assert s == t + [last];
      }
      assert last !in Queued(t);
    }
  }

  /** With the blocks partitioned, the queued and the owned ones number `NumBlocks` together. */
  lemma BlockCount(FreeBlocks: seq<nat>, Outstanding: set<nat>, NumBlocks: nat)
    requires Partition(FreeBlocks, Outstanding, NumBlocks)
    ensures |FreeBlocks| + |Outstanding| == NumBlocks
  {
    DistinctCard(FreeBlocks);
    DistinctCard(Blocks(NumBlocks));
    assert Queued(FreeBlocks) !! Outstanding;
    assert Queued(FreeBlocks) + Outstanding == Queued(Blocks(NumBlocks)) by {
      forall b | b in Queued(Blocks(NumBlocks))
        ensures b in Queued(FreeBlocks) + Outstanding
      {
        var k :| 0 <= k < NumBlocks && Blocks(NumBlocks)[k] == b;
      }
      forall b | b in Queued(FreeBlocks) + Outstanding
        ensures b in Queued(Blocks(NumBlocks))
      {
        assert Blocks(NumBlocks)[b] == b;
      }
    }
  }

  /** What the device writes into a descriptor slot. */
  datatype DescriptorView =
    | BufferUAV(Resource: nat, NumElements: nat, ElementSize: nat, Format: nat)
    | BufferCBV(Address: nat, NumBytes: nat)

  class DescriptorHeapAllocator {
    const CurrentCPUHandle: nat
    const CurrentGPUHandle: nat
    const DescriptorSize: nat
    const NumBlocks: nat
    /** Free block indices; the front of the queue is index 0. */
    var FreeBlocks: seq<nat>
    /** The blocks live allocations own. */
    ghost var Outstanding: set<nat>
    /** The descriptors written into the heap, by CPU handle. */
    var Descriptors: map<nat, DescriptorView>

    /** Every block is either queued, once, or owned, and not both. */
    ghost predicate Valid()
      reads this
    {
      Partition(FreeBlocks, Outstanding, NumBlocks)
    }

    /**
     * The heap's NumDescriptors / BlockSize blocks, all free, queued in
     * ascending order.
     */
    constructor(HeapCPUStart: nat, HeapGPUStart: nat, HeapNumDescriptors: nat, IncrementSize: nat)
      ensures CurrentCPUHandle == HeapCPUStart && CurrentGPUHandle == HeapGPUStart
      ensures NumBlocks == HeapNumDescriptors / BlockSize && DescriptorSize == IncrementSize
      ensures FreeBlocks == Blocks(NumBlocks) && Outstanding == {} && Descriptors == map[]
      ensures Valid()
    {
      CurrentCPUHandle, CurrentGPUHandle := HeapCPUStart, HeapGPUStart;
      NumBlocks := HeapNumDescriptors / BlockSize;
      DescriptorSize := IncrementSize;
      Outstanding, Descriptors := {}, map[];
      FreeBlocks := [];
      new;
      var i := 0;
      while i < NumBlocks
        invariant 0 <= i <= NumBlocks
        invariant FreeBlocks == Blocks(i) && Outstanding == {} && Descriptors == map[]
      {
        FreeBlocks := FreeBlocks + [i];
        i := i + 1;
      }
      forall b | 0 <= b < NumBlocks
        ensures b in FreeBlocks
      {
        assert FreeBlocks[b] == b;
      }
    }

    /**
     * `GetAllocation`: null when no block is free; otherwise the front block,
     * removed from the queue, with its handles, `MaxDescriptors = BlockSize`
     * and no descriptors yet.
     */
    method GetAllocation() returns (Alloc: Allocation?)
      requires Valid()
      modifies this
      ensures Valid() && Descriptors == old(Descriptors)
      ensures Alloc == null <==> old(FreeBlocks) == []
      ensures Alloc == null ==> FreeBlocks == old(FreeBlocks) && Outstanding == old(Outstanding)
      ensures Alloc != null ==>
        fresh(Alloc)
        && Alloc.BlockHandle == old(FreeBlocks)[0] && FreeBlocks == old(FreeBlocks)[1..]
        && Outstanding == old(Outstanding) + {Alloc.BlockHandle}
        && Alloc.CPUHandle == BlockAddress(CurrentCPUHandle, DescriptorSize, Alloc.BlockHandle)
        && Alloc.GPUHandle == BlockAddress(CurrentGPUHandle, DescriptorSize, Alloc.BlockHandle)
        && Alloc.MaxDescriptors == BlockSize && Alloc.NumDescriptors == 0 && Alloc.Allocator == this
    {
      if FreeBlocks != [] {
        var Block := FreeBlocks[0];
        FreeBlocks := FreeBlocks[1..];
        Outstanding := Outstanding + {Block};
        Alloc := new Allocation(Block,
                                BlockAddress(CurrentCPUHandle, DescriptorSize, Block),
                                BlockAddress(CurrentGPUHandle, DescriptorSize, Block),
                                BlockSize, this);
        forall b | 0 <= b < NumBlocks
          ensures b in FreeBlocks || b in Outstanding
        {
          assert b in old(FreeBlocks) || b in old(Outstanding);
          if b in old(FreeBlocks) && b != Block {
            var k :| 0 <= k < |old(FreeBlocks)| && old(FreeBlocks)[k] == b;
            assert FreeBlocks[k - 1] == b;
          }
        }
        return;
      }
      return null;
    }

    /**
     * `Dealloc`: the block goes to the back of the queue; nothing else
     * changes. When the block was owned, the partition is kept.
     */
    method Dealloc(Alloc: Allocation)
      modifies this
      ensures FreeBlocks == old(FreeBlocks) + [Alloc.BlockHandle]
      ensures Outstanding == old(Outstanding) - {Alloc.BlockHandle} && Descriptors == old(Descriptors)
      ensures old(Valid()) && Alloc.BlockHandle in old(Outstanding) ==> Valid()
    {
      FreeBlocks := FreeBlocks + [Alloc.BlockHandle];
      Outstanding := Outstanding - {Alloc.BlockHandle};
    }
  }

  class Allocation {
    var CPUHandle: nat
    var GPUHandle: nat
    var BlockHandle: nat
    var NumDescriptors: nat
    var MaxDescriptors: nat
    var Allocator: DescriptorHeapAllocator?

    /** The fields `GetAllocation` fills in; a new allocation has no descriptors. */
    constructor(Block: nat, CPU: nat, GPU: nat, Max: nat, Owner: DescriptorHeapAllocator)
      ensures BlockHandle == Block && CPUHandle == CPU && GPUHandle == GPU
      ensures MaxDescriptors == Max && Allocator == Owner && NumDescriptors == 0
    {
      BlockHandle, CPUHandle, GPUHandle := Block, CPU, GPU;
      MaxDescriptors, Allocator, NumDescriptors := Max, Owner, 0;
    }

    /**
     * The move constructor: every field copied, and the source no longer
     * owns the block, so only the new allocation will return it.
     */
    constructor Move(Other: Allocation)
      modifies Other
      ensures Allocator == old(Other.Allocator) && CPUHandle == old(Other.CPUHandle) && GPUHandle == old(Other.GPUHandle)
      ensures NumDescriptors == old(Other.NumDescriptors) && MaxDescriptors == old(Other.MaxDescriptors)
      ensures BlockHandle == old(Other.BlockHandle)
      ensures Other.Allocator == null
      ensures Other.CPUHandle == old(Other.CPUHandle) && Other.GPUHandle == old(Other.GPUHandle)
      ensures Other.NumDescriptors == old(Other.NumDescriptors) && Other.MaxDescriptors == old(Other.MaxDescriptors)
      ensures Other.BlockHandle == old(Other.BlockHandle)
    {
      Allocator := Other.Allocator;
      CPUHandle := Other.CPUHandle;
      GPUHandle := Other.GPUHandle;
      NumDescriptors := Other.NumDescriptors;
      MaxDescriptors := Other.MaxDescriptors;
      BlockHandle := Other.BlockHandle;
      new;
      Other.Allocator := null;
    }

    /**
     * The destructor: an owning allocation gives its block back through
     * `Dealloc`; a moved-from one (null allocator) changes nothing.
     */
    method Destroy()
      modifies Allocator
      ensures Allocator != null ==>
        Allocator.FreeBlocks == old(Allocator.FreeBlocks) + [BlockHandle]
        && Allocator.Outstanding == old(Allocator.Outstanding) - {BlockHandle}
        && Allocator.Descriptors == old(Allocator.Descriptors)
        && (old(Allocator.Valid()) && BlockHandle in old(Allocator.Outstanding) ==> Allocator.Valid())
    {
      if Allocator != null {
        Allocator.Dealloc(this);
      }
    }

    /** `GetCPUHandle(Offset)`: slot Offset of the block; the allocation is not changed. */
    function GetCPUHandle(Offset: nat): (Handle: nat)
      requires Allocator != null
      reads this
      ensures Handle == SlotAddress(CPUHandle, Allocator.DescriptorSize, Offset)
      ensures Handle >= CPUHandle
    {
      CPUHandle + Offset * Allocator.DescriptorSize
    }

    /** `GetGPUHandle(Offset)`: slot Offset of the block, in the GPU address space. */
    function GetGPUHandle(Offset: nat): (Handle: nat)
      requires Allocator != null
      reads this
      ensures Handle == SlotAddress(GPUHandle, Allocator.DescriptorSize, Offset)
      ensures Handle >= GPUHandle
    {
      GPUHandle + Offset * Allocator.DescriptorSize
    }

    /**
     * `CreateBufferUAV`: the view is written at slot `NumDescriptors`, which
     * is returned and then counted; the slot is not checked against
     * `MaxDescriptors`.
     */
    method CreateBufferUAV(BufferResource: nat, NumElements: nat, ElementSize: nat, Format: nat) returns (Slot: nat)
      requires Allocator != null
      modifies this, Allocator
      ensures Allocator == old(Allocator) && Slot == old(NumDescriptors) && NumDescriptors == Slot + 1
      ensures Allocator.Descriptors
        == old(Allocator.Descriptors)[GetCPUHandle(Slot) := BufferUAV(BufferResource, NumElements, ElementSize, Format)]
      ensures Allocator.FreeBlocks == old(Allocator.FreeBlocks) && Allocator.Outstanding == old(Allocator.Outstanding)
      ensures CPUHandle == old(CPUHandle) && GPUHandle == old(GPUHandle) && BlockHandle == old(BlockHandle)
      ensures MaxDescriptors == old(MaxDescriptors)
    {
      var CurrentCPUHandle := CPUHandle + Allocator.DescriptorSize * NumDescriptors;
      Allocator.Descriptors := Allocator.Descriptors[CurrentCPUHandle := BufferUAV(BufferResource, NumElements, ElementSize, Format)];
      NumDescriptors := NumDescriptors + 1;
      Slot := NumDescriptors - 1;
    }

    /** `CreateBufferCBV`: as `CreateBufferUAV`, for a constant-buffer view. */
    method CreateBufferCBV(Address: nat, NumBytes: nat) returns (Slot: nat)
      requires Allocator != null
      modifies this, Allocator
      ensures Allocator == old(Allocator) && Slot == old(NumDescriptors) && NumDescriptors == Slot + 1
      ensures Allocator.Descriptors == old(Allocator.Descriptors)[GetCPUHandle(Slot) := BufferCBV(Address, NumBytes)]
      ensures Allocator.FreeBlocks == old(Allocator.FreeBlocks) && Allocator.Outstanding == old(Allocator.Outstanding)
      ensures CPUHandle == old(CPUHandle) && GPUHandle == old(GPUHandle) && BlockHandle == old(BlockHandle)
      ensures MaxDescriptors == old(MaxDescriptors)
    {
      var CurrentCPUHandle := CPUHandle + Allocator.DescriptorSize * NumDescriptors;
      Allocator.Descriptors := Allocator.Descriptors[CurrentCPUHandle := BufferCBV(Address, NumBytes)];
      NumDescriptors := NumDescriptors + 1;
      Slot := NumDescriptors - 1;
    }

    /**
     * `CreateBufferUAV` with the bound its `MaxDescriptors` field implies:
     * once the block is full nothing is written and `None` is returned, so
     * every view lands in the allocation's own block.
     */
    method CreateBufferUAVChecked(BufferResource: nat, NumElements: nat, ElementSize: nat, Format: nat) returns (Slot: Option<nat>)
      requires Allocator != null
      modifies this, Allocator
      ensures Allocator == old(Allocator) && MaxDescriptors == old(MaxDescriptors)
      ensures CPUHandle == old(CPUHandle) && GPUHandle == old(GPUHandle) && BlockHandle == old(BlockHandle)
      ensures Slot.None? <==> old(NumDescriptors) >= MaxDescriptors
      ensures Slot.None? ==> NumDescriptors == old(NumDescriptors) && Allocator.Descriptors == old(Allocator.Descriptors)
      ensures Slot.Some? ==>
        && Slot.value == old(NumDescriptors) < MaxDescriptors && NumDescriptors == Slot.value + 1
        && Allocator.Descriptors
           == old(Allocator.Descriptors)[GetCPUHandle(Slot.value) := BufferUAV(BufferResource, NumElements, ElementSize, Format)]
    {
      if NumDescriptors >= MaxDescriptors {
        return None;
      }
      var s := CreateBufferUAV(BufferResource, NumElements, ElementSize, Format);
      Slot := Some(s);
    }
  }

  /**
   * Moving an allocation and then destroying both the moved-from and the
   * moved-to object gives the block back exactly once, keeping the partition.
   */
  method MoveThenDestroyBoth(Source: Allocation)
    requires Source.Allocator != null && Source.Allocator.Valid() && Source.BlockHandle in Source.Allocator.Outstanding
    modifies Source, Source.Allocator
    ensures Source.Allocator == null
    ensures old(Source.Allocator).FreeBlocks == old(Source.Allocator.FreeBlocks) + [Source.BlockHandle]
    ensures old(Source.Allocator).Valid() && Source.BlockHandle !in old(Source.Allocator).Outstanding
  {
    var Moved := new Allocation.Move(Source);
    Source.Destroy();
    Moved.Destroy();
  }

  /**
   * A slot the checked creation hands out in an allocation taken from the
   * heap is a descriptor of that allocation's block and of no other block.
   */
  lemma CheckedSlotInOwnBlock(Start: nat, DescriptorSize: nat, Block: nat, Slot: nat, Other: nat, OtherSlot: nat)
    requires DescriptorSize > 0 && Slot < BlockSize && OtherSlot < BlockSize && Other != Block
    ensures SlotAddress(BlockAddress(Start, DescriptorSize, Block), DescriptorSize, Slot)
      != SlotAddress(BlockAddress(Start, DescriptorSize, Other), DescriptorSize, OtherSlot)
  {
    SlotsDistinct(Start, DescriptorSize, Block, Slot, Other, OtherSlot);
  }
}
