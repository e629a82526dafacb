/**
 * The renderer's bookkeeping: the fence counter, the command-allocator pool
 * gated by fence values, the recycled command lists, the upload-size rule
 * and the resize guard. Allocators, lists and resources are opaque ids; the
 * GPU's completed fence value and every newly created object are inputs.
 */
module Rendering {

  import opened Wrappers

  /** 2^32: `ExecuteCommandList` returns its fence value as a `uint32_t`. */
  const Uint32Modulus: nat := 0x1_0000_0000

  /** An executed allocator and the fence value that marks its work done. */
  datatype AllocatorTracker = AllocatorTracker(FenceValue: nat, Allocator: nat)

  /** The fence tags grow strictly from the front of the queue to the back. */
  ghost predicate TagsIncreasing(Trackers: seq<AllocatorTracker>) {
    forall i, j :: 0 <= i < j < |Trackers| ==> Trackers[i].FenceValue < Trackers[j].FenceValue
  }

  class Renderer {
    var FenceValue: nat
    var TrackedCommandAllocators: seq<AllocatorTracker>
    var AvailableCommandLists: seq<nat>
    /** The allocator each list was last given, stored on the list as private data. */
    var ListAllocator: map<nat, nat>
    var ClientWidth: nat
    var ClientHeight: nat

    /** The tags grow from front to back and none is past the last signalled value. */
    ghost predicate Valid()
      reads this
    {
      TagsIncreasing(TrackedCommandAllocators)
      && forall i :: 0 <= i < |TrackedCommandAllocators| ==> TrackedCommandAllocators[i].FenceValue <= FenceValue
    }

    /** Nothing signalled, nothing pooled. */
    constructor(Width: nat, Height: nat)
      ensures Valid() && FenceValue == 0 && TrackedCommandAllocators == [] && AvailableCommandLists == []
      ensures ListAllocator == map[] && ClientWidth == Width && ClientHeight == Height
    {
      FenceValue := 0;
      TrackedCommandAllocators := [];
      AvailableCommandLists := [];
      ListAllocator := map[];
      ClientWidth, ClientHeight := Width, Height;
    }

    /**
     * `GetCommandList`: the front allocator is reset and reused when the GPU
     * has passed its tag, otherwise `NewAllocator` is created and the queue
     * left alone; the front available list is reused, otherwise `NewList`
     * is created. The list remembers its allocator.
     */
    method GetCommandList(Completed: nat, NewAllocator: nat, NewList: nat) returns (List: nat, Allocator: nat)
      requires Valid()
      modifies this
      ensures Valid() && FenceValue == old(FenceValue)
      ensures old(TrackedCommandAllocators) == [] || Completed < old(TrackedCommandAllocators)[0].FenceValue ==>
        Allocator == NewAllocator && TrackedCommandAllocators == old(TrackedCommandAllocators)
      ensures old(TrackedCommandAllocators) != [] && Completed >= old(TrackedCommandAllocators)[0].FenceValue ==>
        Allocator == old(TrackedCommandAllocators)[0].Allocator && TrackedCommandAllocators == old(TrackedCommandAllocators)[1..]
      ensures old(AvailableCommandLists) == [] ==> List == NewList && AvailableCommandLists == []
      ensures old(AvailableCommandLists) != [] ==>
        List == old(AvailableCommandLists)[0] && AvailableCommandLists == old(AvailableCommandLists)[1..]
      ensures ListAllocator == old(ListAllocator)[List := Allocator]
      ensures ClientWidth == old(ClientWidth) && ClientHeight == old(ClientHeight)
    {
      if TrackedCommandAllocators == [] || Completed < TrackedCommandAllocators[0].FenceValue {
        Allocator := NewAllocator;
      } else {
        Allocator := TrackedCommandAllocators[0].Allocator;
        TrackedCommandAllocators := TrackedCommandAllocators[1..];
      }
      if AvailableCommandLists != [] {
        List := AvailableCommandLists[0];
        AvailableCommandLists := AvailableCommandLists[1..];
      } else {
        List := NewList;
      }
      ListAllocator := ListAllocator[List := Allocator];
    }

    /**
     * `ExecuteCommandList`: signals the next fence value, queues the list's
     * allocator tagged with it and the list itself at the back of their
     * pools, and returns the value cut to 32 bits.
     */
    method ExecuteCommandList(List: nat) returns (Result: nat)
      requires Valid() && List in ListAllocator
      modifies this
      ensures Valid() && FenceValue == old(FenceValue) + 1 && Result == FenceValue % Uint32Modulus
      ensures ListAllocator == old(ListAllocator)
      ensures TrackedCommandAllocators == old(TrackedCommandAllocators) + [AllocatorTracker(FenceValue, ListAllocator[List])]
      ensures AvailableCommandLists == old(AvailableCommandLists) + [List]
      ensures ClientWidth == old(ClientWidth) && ClientHeight == old(ClientHeight)
    {
      var Allocator := ListAllocator[List];
      FenceValue := FenceValue + 1;
      TrackedCommandAllocators := TrackedCommandAllocators + [AllocatorTracker(FenceValue, Allocator)];
      AvailableCommandLists := AvailableCommandLists + [List];
      Result := FenceValue % Uint32Modulus;
    }

    /**
     * `ExecuteCommandList` returning the full 64-bit fence value, as the
     * `uint64_t` fence values it is compared with expect.
     */
    method ExecuteCommandListWide(List: nat) returns (Result: nat)
      requires Valid() && List in ListAllocator
      modifies this
      ensures Valid() && FenceValue == old(FenceValue) + 1 && Result == FenceValue
      ensures ListAllocator == old(ListAllocator)
      ensures TrackedCommandAllocators == old(TrackedCommandAllocators) + [AllocatorTracker(FenceValue, ListAllocator[List])]
      ensures AvailableCommandLists == old(AvailableCommandLists) + [List]
    {
      var _ := ExecuteCommandList(List);
      Result := FenceValue;
    }

    /** `Flush`: signal the next value and wait for it; the GPU cannot have reached it yet, so this always waits. */
    method Flush(Completed: nat) returns (Waited: bool)
      requires Valid() && Completed <= FenceValue
      modifies this
      ensures Valid() && FenceValue == old(FenceValue) + 1 && Waited
      ensures TrackedCommandAllocators == old(TrackedCommandAllocators) && AvailableCommandLists == old(AvailableCommandLists)
      ensures ListAllocator == old(ListAllocator) && ClientWidth == old(ClientWidth) && ClientHeight == old(ClientHeight)
    {
      FenceValue := FenceValue + 1;
      Waited := WaitForFenceValue(Completed, FenceValue);
    }

    /**
     * `Resize`: nothing for a zero width or height or for the current size;
     * otherwise the size is stored and the queue flushed.
     */
    method Resize(Width: nat, Height: nat, Completed: nat)
      requires Valid() && Completed <= FenceValue
      modifies this
      ensures Valid()
      ensures Width == 0 || Height == 0 || (Width == old(ClientWidth) && Height == old(ClientHeight)) ==>
        ClientWidth == old(ClientWidth) && ClientHeight == old(ClientHeight) && FenceValue == old(FenceValue)
      ensures Width != 0 && Height != 0 && (Width != old(ClientWidth) || Height != old(ClientHeight)) ==>
        ClientWidth == Width && ClientHeight == Height && FenceValue == old(FenceValue) + 1
      ensures TrackedCommandAllocators == old(TrackedCommandAllocators) && AvailableCommandLists == old(AvailableCommandLists)
      ensures ListAllocator == old(ListAllocator)
    {
      if Width == 0 || Height == 0 {
        return;
      }
      if Width != ClientWidth || Height != ClientHeight {
        ClientWidth := Width;
        ClientHeight := Height;
        var _ := Flush(Completed);
      }
    }
  }

  /** `WaitForFenceValue`: it blocks exactly when the GPU has not yet reached the value. */
  method WaitForFenceValue(Completed: nat, Value: nat) returns (Waited: bool)
    ensures Waited <==> Completed < Value
  {
    Waited := false;
    if Completed < Value {
      Waited := true;
    }
  }

  /**
   * Only the front allocator needs checking: when the GPU has not reached
   * its tag it has reached none behind it either.
   */
  lemma FrontIsOldest(Trackers: seq<AllocatorTracker>, Completed: nat)
    requires TagsIncreasing(Trackers) && Trackers != [] && Completed < Trackers[0].FenceValue
    ensures forall i :: 0 <= i < |Trackers| ==> Completed < Trackers[i].FenceValue
  {
    forall i | 0 < i < |Trackers|
      ensures Completed < Trackers[i].FenceValue
    {
      assert Trackers[0].FenceValue < Trackers[i].FenceValue;
    }
  }

  /**
   * An allocator is handed out again only after the GPU has finished the
   * work recorded with it: one executed list's allocator comes back from
   * `GetCommandList` only once the completed value reaches its tag.
   */
  method AllocatorReusedAfterCompletion(R: Renderer, First: nat, Second: nat, Completed: nat, NewAllocator: nat, NewList: nat)
    returns (Allocator: nat)
    requires R.Valid() && R.TrackedCommandAllocators == [] && First != NewAllocator
    modifies R
    ensures Allocator == First <==> Completed >= R.FenceValue
  {
    var List, A := R.GetCommandList(Completed, First, Second);
    var Tag := R.ExecuteCommandList(List);
    var List2;
    List2, Allocator := R.GetCommandList(Completed, NewAllocator, NewList);
  }

  /**
   * As written, the 32-bit result misleads a wait: the 2^32-th signal
   * returns 0, and waiting for 0 does not block though the GPU has not
   * reached the value just signalled.
   */
  method TruncatedFenceSkipsWait(R: Renderer, List: nat) returns (Result: nat, Waited: bool)
    requires R.Valid() && List in R.ListAllocator && R.FenceValue == Uint32Modulus - 1
    modifies R
    ensures Result == 0 && R.FenceValue == Uint32Modulus && !Waited
  {
    Result := R.ExecuteCommandList(List);
    Waited := WaitForFenceValue(Uint32Modulus - 1, Result);
  }

  /**
   * With the full value returned, waiting for it after any number of
   * signals blocks until the GPU reaches the list just executed.
   */
  method WideFenceWaits(R: Renderer, List: nat, Completed: nat) returns (Result: nat, Waited: bool)
    requires R.Valid() && List in R.ListAllocator && Completed <= R.FenceValue
    modifies R
    ensures Result == R.FenceValue && Waited
  {
    Result := R.ExecuteCommandListWide(List);
    Waited := WaitForFenceValue(Completed, Result);
  }

  /** A buffer resource and the size it was created with. */
  datatype BufferResource = BufferResource(Id: nat, Size: nat)

  /** What one upload leaves: the two resources and the bytes copied between them, if any. */
  datatype UploadResult = UploadResult(Buffer: Option<BufferResource>, Upload: Option<BufferResource>, CopiedBytes: Option<nat>)

  /**
   * `UploadDefaultBufferResource`: nothing without data. Otherwise each
   * missing resource is created with max(NumElements * ElementSize, MinSize)
   * bytes, existing ones are kept, and exactly NumElements * ElementSize
   * bytes are copied.
   */
  method UploadDefaultBufferResource(Buffer: Option<BufferResource>, Upload: Option<BufferResource>,
                                     NumElements: nat, ElementSize: nat, HasData: bool, MinSize: nat,
                                     NewBuffer: nat, NewUpload: nat)
    returns (r: UploadResult)
    ensures !HasData ==> r == UploadResult(Buffer, Upload, None)
    ensures HasData ==> r.CopiedBytes == Some(NumElements * ElementSize)
    ensures HasData && Buffer.Some? ==> r.Buffer == Buffer
    ensures HasData && Upload.Some? ==> r.Upload == Upload
    ensures HasData && Buffer.None? ==>
      r.Buffer.Some? && r.Buffer.value.Id == NewBuffer
      && r.Buffer.value.Size >= NumElements * ElementSize && r.Buffer.value.Size >= MinSize
      && (r.Buffer.value.Size == NumElements * ElementSize || r.Buffer.value.Size == MinSize)
    ensures HasData && Upload.None? ==>
      r.Upload.Some? && r.Upload.value.Id == NewUpload
      && r.Upload.value.Size >= NumElements * ElementSize && r.Upload.value.Size >= MinSize
      && (r.Upload.value.Size == NumElements * ElementSize || r.Upload.value.Size == MinSize)
  {
    if !HasData {
      return UploadResult(Buffer, Upload, None);
    }
    var NumBytes := NumElements * ElementSize;
    var NumBufferBytes := MinSize;
    if NumBytes > MinSize {
      NumBufferBytes := NumBytes;
    }
    var NewUploadResource := Upload;
    if NewUploadResource.None? {
      NewUploadResource := Some(BufferResource(NewUpload, NumBufferBytes));
    }
    var NewBufferResource := Buffer;
    if NewBufferResource.None? {
      NewBufferResource := Some(BufferResource(NewBuffer, NumBufferBytes));
    }
    return UploadResult(NewBufferResource, NewUploadResource, Some(NumBytes));
  }
}
