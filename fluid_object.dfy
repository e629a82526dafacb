/**
 * The fluid object: its initial particle layout, the solver it creates and
 * the gating of its per-frame update. `rand()` is an input: the pair of
 * values drawn for particle i, each already divided by `RAND_MAX`.
 */
module Fluids {

  import opened Wrappers
  import opened Math3D
  import opened MPMKernels
  import MPM
  import Rendering

  /** `PARTICLE_COUNT`. */
  const ParticleCount: nat := 100000

  /** `int Rows = std::sqrt(PARTICLE_COUNT)`: the integer square root. */
  function Rows(): (r: nat)
    ensures r * r <= ParticleCount < (r + 1) * (r + 1)
  {
    316
  }

  /** The lattice spacing 0.8 / Rows. */
  function Delta(): (d: real)
    ensures d > 0.0 && d * (Rows() as real) == 0.8
  {
    0.8 / (Rows() as real)
  }

  /** Two values of `rand() / RAND_MAX`, each in [0, 1]. */
  predicate InUnit(r: (real, real)) {
    0.0 <= r.0 <= 1.0 && 0.0 <= r.1 <= 1.0
  }

  /** The jitter Delta * (r - 0.5) that one draw adds. */
  function JitterOf(r: real): (j: real)
    ensures 0.0 <= r <= 1.0 ==> -Delta() / 2.0 <= j <= Delta() / 2.0
  {
    Delta() * (r - 0.5)
  }

  /** Particle i: column i % Rows and row i / Rows of the lattice, jittered; z is 0 and the velocity `Vec4()`. */
  function LatticeParticle(i: nat, r: (real, real)): ParticleRenderData {
    ParticleRenderData(
      Point(((i % Rows()) as real) * Delta() + 0.1 + JitterOf(r.0),
            ((i / Rows()) as real) * Delta() + 0.1 + JitterOf(r.1), 0.0),
      Origin())
  }

  /** The solver's parameters: resolution 64, Lamda 40, Mu 20, a 0.002 s step, a unit domain. */
  function SolverParameters(): (p: FluidParameters)
    ensures WellFormedParameters(p) && p.GridResolution == 64 && p.Dx == 1.0 / 64.0
    ensures p.ElasticLamda == 40.0 && p.ElasticMu == 20.0 && p.DeltaTime == 0.002 && p.GridSize == 1.0
  {
    MakeFluidParameters(64, 40.0, 20.0, 0.002, 1.0)
  }

  class FluidObject {
    var Particles: seq<ParticleRenderData>
    const Solver: MPM.MPMSolver
    /** The descriptor block `CreateBuffers` obtained, if any. */
    var HeapAllocation: Option<nat>
    /** The particle instance buffer, as an opaque id. */
    var InstanceBuffer: nat

    /**
     * `FluidObject()`: PARTICLE_COUNT jittered lattice particles, in order,
     * and a solver over them with the fixed parameters.
     */
    constructor(Random: nat -> (real, real))
      ensures |Particles| == ParticleCount
      ensures forall i :: 0 <= i < ParticleCount ==> Particles[i] == LatticeParticle(i, Random(i))
      ensures fresh(Solver) && Solver.Valid() && Solver.NumParticles == ParticleCount
      ensures Solver.FluidValues == SolverParameters() && HeapAllocation == None
    {
      var Ps: seq<ParticleRenderData> := [];
      var i := 0;
      while i < ParticleCount
        invariant 0 <= i <= ParticleCount && |Ps| == i
        invariant forall k :: 0 <= k < i ==> Ps[k] == LatticeParticle(k, Random(k))
      {
        Ps := Ps + [LatticeParticle(i, Random(i))];
        i := i + 1;
      }
      Particles := Ps;
      Solver := new MPM.MPMSolver(Ps, SolverParameters());
      HeapAllocation := None;
      InstanceBuffer := 0;
    }

    /** `CreateBuffers`, only as far as the update sees it: the heap allocation it stores. */
    method CreateBuffers(Allocation: Option<nat>, Buffer: nat)
      modifies this
      ensures HeapAllocation == Allocation && InstanceBuffer == Buffer && Particles == old(Particles)
    {
      HeapAllocation := Allocation;
      InstanceBuffer := Buffer;
    }

    /**
     * `Update`: nothing until `CreateBuffers` has stored an allocation; then
     * one command list records the solver's four GPU stages and a barrier on
     * the instance buffer, is executed, and the queue is flushed. The CPU
     * path is never taken.
     */
    method Update(R: Rendering.Renderer, Completed: nat, NewAllocator: nat, NewList: nat)
      returns (Recorded: seq<MPM.Command>)
      requires R.Valid() && Solver.Valid() && Completed <= R.FenceValue
      modifies R
      ensures R.Valid()
      ensures HeapAllocation.None? ==> Recorded == [] && R.FenceValue == old(R.FenceValue)
      ensures HeapAllocation.Some? ==> R.FenceValue == old(R.FenceValue) + 2 && |Recorded| == 5 * MPM.StageCount + 1
      ensures HeapAllocation.Some? ==> Recorded[5 * MPM.StageCount] == MPM.UAVBarrier(InstanceBuffer)
      ensures HeapAllocation.Some? ==> forall s :: 0 <= s < MPM.StageCount ==>
        Recorded[5 * s] == MPM.SetPipelineState(Solver.PipelineStates[s]) && Recorded[5 * s + 1] == MPM.Dispatch(Solver.DispatchSizes[s])
    {
      Recorded := [];
      if HeapAllocation.Some? {
        var List, Allocator := R.GetCommandList(Completed, NewAllocator, NewList);
        var Solve := Solver.GPUSolve(InstanceBuffer);
        forall s | 0 <= s < MPM.StageCount
          ensures Solve[5 * s] == MPM.SetPipelineState(Solver.PipelineStates[s]) && Solve[5 * s + 1] == MPM.Dispatch(Solver.DispatchSizes[s])
        {
          assert Solve[5 * s .. 5 * s + 5][0] == Solve[5 * s];
          assert Solve[5 * s .. 5 * s + 5][1] == Solve[5 * s + 1];
        }
        Recorded := Solve + [MPM.UAVBarrier(InstanceBuffer)];
        var _ := R.ExecuteCommandList(List);
        var _ := R.Flush(Completed);
      }
    }
  }

  /** A product of a lattice index at most `n` with the spacing stays at most n * Delta. */
  lemma ScaledIndexBound(k: nat, n: nat)
    requires k <= n
    ensures 0.0 <= (k as real) * Delta() <= (n as real) * Delta()
  {
    assert (n as real) * Delta() - (k as real) * Delta() == ((n - k) as real) * Delta();
  }

  /**
   * Every coordinate of the initial layout: x lies in [0.1 - Delta/2,
   * 0.9 - Delta/2], y in [0.1 - Delta/2, 0.9 + Delta/2], since the row
   * index reaches Rows for the particles past Rows * Rows.
   */
  lemma LatticeBounds(i: nat, r: (real, real))
    requires i < ParticleCount && InUnit(r)
    ensures 0.1 - Delta() / 2.0 <= LatticeParticle(i, r).Position.x <= 0.9 - Delta() / 2.0
    ensures 0.1 - Delta() / 2.0 <= LatticeParticle(i, r).Position.y <= 0.9 + Delta() / 2.0
    ensures LatticeParticle(i, r).Position.z == 0.0
  {
    ScaledIndexBound(i % Rows(), Rows() - 1);
    assert i / Rows() <= Rows();
    ScaledIndexBound(i / Rows(), Rows());
  }

  /** The last particle sits in row Rows, whose base height is 0.9: one row past the 0.1 .. 0.9 square. */
  lemma LastRowPastSquare()
    ensures (ParticleCount - 1) / Rows() == Rows()
    ensures ((ParticleCount - 1) / Rows()) as real * Delta() + 0.1 == 0.9
    ensures ParticleCount - Rows() * Rows() == 144
  {
  }

  /**
   * The initial layout lies inside the band the corrected clamp keeps, so
   * neither clamp moves a particle before the first step.
   */
  lemma LatticeInsideClampBand(i: nat, r: (real, real))
    requires i < ParticleCount && InUnit(r)
    ensures var p := SolverParameters(); var pos := LatticeParticle(i, r).Position;
      ClampCoordinateFixed(pos.x, p.Dx, p.GridSize) == pos.x && ClampCoordinateFixed(pos.y, p.Dx, p.GridSize) == pos.y
      && ClampCoordinate(pos.x, p.Dx, p.GridSize) == pos.x && ClampCoordinate(pos.y, p.Dx, p.GridSize) == pos.y
  {
    LatticeBounds(i, r);
    assert Delta() / 2.0 < 0.01;
  }
}
