/**
 * The shader compiler's last-known-good cache and its work queue. The file
 * read and the DXC compile are not modelled: each compile takes its outcome
 * as an input, `Some(blob)` for a compiled object and `None` for any of the
 * failures (read error, error output, failed status), which all return false.
 */
module Shaders {

  import opened Wrappers

  /** A shader source: file, target profile and entry point (`main` by default). */
  datatype ShaderDesc = ShaderDesc(FileName: string, Target: string, EntryPoint: string)

  /** What the cache is keyed by: the file name alone as written, or the whole description. */
  datatype CacheKey = FileKey(FileName: string) | DescKey(Desc: ShaderDesc)

  /** A queued compile request; the completion callback is not modelled. */
  datatype CompileWorkItem = CompileWorkItem(Desc: ShaderDesc, ErrorOnFail: bool)

  /** The key a description is cached under. */
  function KeyOf(Desc: ShaderDesc, WholeDesc: bool): (k: CacheKey)
    ensures !WholeDesc ==> k == FileKey(Desc.FileName)
    ensures WholeDesc ==> k.DescKey? && k.Desc == Desc
  {
    if WholeDesc then DescKey(Desc) else FileKey(Desc.FileName)
  }

  class ShaderCompiler {
    /** False models the source, which keys `LastKnownGoodShaders` by file name only. */
    const WholeDescKey: bool
    var LastKnownGoodShaders: map<CacheKey, nat>
    var WorkQueue: seq<CompileWorkItem>
    /** Every item ever queued, and how many the workers have taken. */
    ghost var Enqueued: seq<CompileWorkItem>
    ghost var Taken: nat

    /** The queue holds exactly the items queued and not yet taken, oldest first. */
    ghost predicate Valid()
      reads this
    {
      Taken <= |Enqueued| && WorkQueue == Enqueued[Taken..]
    }

    /** An empty cache and an empty queue. */
    constructor(WholeDesc: bool)
      ensures Valid() && WholeDescKey == WholeDesc
      ensures LastKnownGoodShaders == map[] && WorkQueue == [] && Enqueued == []
    {
      WholeDescKey := WholeDesc;
      LastKnownGoodShaders := map[];
      WorkQueue := [];
      Enqueued := [];
      Taken := 0;
    }

    /**
     * `CompileShaderFromFile`: success exactly when the compile yields a
     * blob, which then overwrites the description's slot; a failure leaves
     * the last known good entry as it was.
     */
    method CompileShaderFromFile(Desc: ShaderDesc, ErrorOnFail: bool, Outcome: Option<nat>) returns (Success: bool)
      modifies this
      ensures Success <==> Outcome.Some?
      ensures Success ==> LastKnownGoodShaders == old(LastKnownGoodShaders)[KeyOf(Desc, WholeDescKey) := Outcome.value]
      ensures !Success ==> LastKnownGoodShaders == old(LastKnownGoodShaders)
      ensures WorkQueue == old(WorkQueue) && Enqueued == old(Enqueued) && Taken == old(Taken)
    {
      if Outcome.None? {
        return false;
      }
      LastKnownGoodShaders := LastKnownGoodShaders[KeyOf(Desc, WholeDescKey) := Outcome.value];
      return true;
    }

    /** `CompileShaderNonAsync`: a compile on the caller's thread. */
    method CompileShaderNonAsync(Desc: ShaderDesc, ErrorOnFail: bool, Outcome: Option<nat>)
      modifies this
      ensures Outcome.Some? ==> LastKnownGoodShaders == old(LastKnownGoodShaders)[KeyOf(Desc, WholeDescKey) := Outcome.value]
      ensures Outcome.None? ==> LastKnownGoodShaders == old(LastKnownGoodShaders)
      ensures WorkQueue == old(WorkQueue) && Enqueued == old(Enqueued) && Taken == old(Taken)
    {
      var _ := CompileShaderFromFile(Desc, ErrorOnFail, Outcome);
    }

    /**
     * `GetShader`: a cached blob is returned without compiling; on a miss
     * the description is compiled and the new blob returned, or nothing
     * when the compile fails.
     */
    method GetShader(Desc: ShaderDesc, Outcome: Option<nat>) returns (Blob: Option<nat>)
      modifies this
      ensures KeyOf(Desc, WholeDescKey) in old(LastKnownGoodShaders) ==>
        Blob == Some(old(LastKnownGoodShaders)[KeyOf(Desc, WholeDescKey)]) && LastKnownGoodShaders == old(LastKnownGoodShaders)
      ensures KeyOf(Desc, WholeDescKey) !in old(LastKnownGoodShaders) ==> Blob == Outcome
      ensures KeyOf(Desc, WholeDescKey) !in old(LastKnownGoodShaders) && Outcome.Some? ==>
        LastKnownGoodShaders == old(LastKnownGoodShaders)[KeyOf(Desc, WholeDescKey) := Outcome.value]
      ensures Outcome.None? ==> LastKnownGoodShaders == old(LastKnownGoodShaders)
      ensures Blob.Some? ==> (KeyOf(Desc, WholeDescKey) in LastKnownGoodShaders
                              && LastKnownGoodShaders[KeyOf(Desc, WholeDescKey)] == Blob.value)
      ensures WorkQueue == old(WorkQueue) && Enqueued == old(Enqueued) && Taken == old(Taken)
    {
      var Key := KeyOf(Desc, WholeDescKey);
      if Key in LastKnownGoodShaders {
        return Some(LastKnownGoodShaders[Key]);
      }
      var Success := CompileShaderFromFile(Desc, true, Outcome);
      if Success {
        return Some(LastKnownGoodShaders[Key]);
      }
      return None;
    }

    /** `CompileShader`: the request joins the back of the queue. */
    method CompileShader(Desc: ShaderDesc, ErrorOnFail: bool)
      requires Valid()
      modifies this
      ensures Valid() && WorkQueue == old(WorkQueue) + [CompileWorkItem(Desc, ErrorOnFail)]
      ensures Enqueued == old(Enqueued) + [CompileWorkItem(Desc, ErrorOnFail)] && Taken == old(Taken)
      ensures LastKnownGoodShaders == old(LastKnownGoodShaders)
    {
      WorkQueue := WorkQueue + [CompileWorkItem(Desc, ErrorOnFail)];
      Enqueued := Enqueued + [CompileWorkItem(Desc, ErrorOnFail)];
    }

    /**
     * One turn of a worker: with work queued, take the front item and
     * compile it, reporting the result it passes to the completion; with
     * none, nothing (the worker waits).
     */
    method RunNext(Outcome: Option<nat>) returns (Done: Option<(CompileWorkItem, bool)>)
      requires Valid()
      modifies this
      ensures Valid() && Enqueued == old(Enqueued)
      ensures old(WorkQueue) == [] ==> Done == None && Taken == old(Taken) && LastKnownGoodShaders == old(LastKnownGoodShaders)
      ensures old(WorkQueue) != [] ==>
        Done == Some((Enqueued[old(Taken)], Outcome.Some?)) && Taken == old(Taken) + 1
        && WorkQueue == old(WorkQueue)[1..]
      ensures old(WorkQueue) != [] && Outcome.Some? ==>
        LastKnownGoodShaders == old(LastKnownGoodShaders)[KeyOf(old(WorkQueue)[0].Desc, WholeDescKey) := Outcome.value]
      ensures Outcome.None? ==> LastKnownGoodShaders == old(LastKnownGoodShaders)
    {
      if WorkQueue == [] {
        return None;
      }
      var Item := WorkQueue[0];
      WorkQueue := WorkQueue[1..];
      Taken := Taken + 1;
      var Success := CompileShaderFromFile(Item.Desc, Item.ErrorOnFail, Outcome);
      return Some((Item, Success));
    }
  }

  /** The file all four MPM kernels are compiled from. */
  const MPMSolverFile: string := "D:\\Dev\\Projects\\FluidSim2024\\shaders\\MPMSolver.hlsl"

  /** The four MPM kernels: one file, one target, four entry points. */
  function MPMKernels(): (k: seq<ShaderDesc>)
    ensures |k| == 4 && forall i :: 0 <= i < 4 ==> k[i].FileName == MPMSolverFile
    ensures forall i, j :: 0 <= i < j < 4 ==> k[i] != k[j]
  {
    [ShaderDesc(MPMSolverFile, "cs_6_0", "ClearGrid"),
     ShaderDesc(MPMSolverFile, "cs_6_0", "ParticleToGrid"),
     ShaderDesc(MPMSolverFile, "cs_6_0", "GridUpdate"),
     ShaderDesc(MPMSolverFile, "cs_6_0", "GridToParticle")]
  }

  /**
   * The solver's pipeline creation as written: the four `GetShader` calls
   * in order, each compile yielding its own blob. The first compiles the
   * clear-grid kernel; the other three find its blob in the shared slot, so
   * all four pipeline states get the clear-grid kernel.
   */
  method MPMKernelsShareSlot(ClearGrid: nat, P2G: nat, GridUpdate: nat, G2P: nat) returns (Blobs: seq<Option<nat>>)
    ensures |Blobs| == 4 && forall i :: 0 <= i < 4 ==> Blobs[i] == Some(ClearGrid)
  {
    var Compiler := new ShaderCompiler(false);
    var Kernels := MPMKernels();
    var B0 := Compiler.GetShader(Kernels[0], Some(ClearGrid));
    var B1 := Compiler.GetShader(Kernels[1], Some(P2G));
    var B2 := Compiler.GetShader(Kernels[2], Some(GridUpdate));
    var B3 := Compiler.GetShader(Kernels[3], Some(G2P));
    Blobs := [B0, B1, B2, B3];
  }

  /** With the whole description as the key, each kernel gets the blob compiled for it. */
  method MPMKernelsOwnSlots(ClearGrid: nat, P2G: nat, GridUpdate: nat, G2P: nat) returns (Blobs: seq<Option<nat>>)
    ensures Blobs == [Some(ClearGrid), Some(P2G), Some(GridUpdate), Some(G2P)]
  {
    var Compiler := new ShaderCompiler(true);
    var Kernels := MPMKernels();
    var B0 := Compiler.GetShader(Kernels[0], Some(ClearGrid));
    var B1 := Compiler.GetShader(Kernels[1], Some(P2G));
    var B2 := Compiler.GetShader(Kernels[2], Some(GridUpdate));
    var B3 := Compiler.GetShader(Kernels[3], Some(G2P));
    Blobs := [B0, B1, B2, B3];
  }

  /**
   * A failed recompile keeps the last known good shader: after a good
   * compile and a failing one, `GetShader` still returns the good blob.
   */
  method LastKnownGoodSurvivesFailure(Compiler: ShaderCompiler, Desc: ShaderDesc, Good: nat, Later: Option<nat>)
    returns (Blob: Option<nat>)
    modifies Compiler
    ensures Blob == Some(Good)
  {
    Compiler.CompileShaderNonAsync(Desc, true, Some(Good));
    Compiler.CompileShaderNonAsync(Desc, true, None);
    Blob := Compiler.GetShader(Desc, Later);
  }

  /** The workers serve requests first in, first out. */
  method QueueIsFifo(Compiler: ShaderCompiler, First: ShaderDesc, Second: ShaderDesc, Outcome1: Option<nat>, Outcome2: Option<nat>)
    returns (Done1: Option<(CompileWorkItem, bool)>, Done2: Option<(CompileWorkItem, bool)>)
    requires Compiler.Valid() && Compiler.WorkQueue == []
    modifies Compiler
    ensures Done1 == Some((CompileWorkItem(First, false), Outcome1.Some?))
    ensures Done2 == Some((CompileWorkItem(Second, false), Outcome2.Some?))
    ensures Compiler.WorkQueue == []
  {
    Compiler.CompileShader(First, false);
    Compiler.CompileShader(Second, false);
    Done1 := Compiler.RunNext(Outcome1);
    Done2 := Compiler.RunNext(Outcome2);
  }
}
