/**
 * The `MPMSolver` object of src/fluids/MPMSolver.cpp: the grid and the
 * per-particle physics data it owns, the four CPU stages that update them
 * in place (reset, particle to grid, grid update, grid to particle), the
 * dispatch sizes of the GPU kernels and the order in which `GPUSolve`
 * records them. Every stage is proved against the functions of
 * `MPMKernels`.
 */
module MPM {

  import opened Math3D
  import opened MPMKernels

  /** A command recorded on the compute command list; pipeline states and buffers are opaque ids. */
  datatype Command = SetPipelineState(Pso: nat) | Dispatch(Groups: nat) | UAVBarrier(Resource: nat)

  /** The grid with every cell reset, as the first loop of `CPUSolve` leaves it. */
  function ClearedGrid(g: seq<GridCell>): (r: seq<GridCell>)
    ensures |r| == |g|
    ensures forall i :: 0 <= i < |g| ==> r[i].VelocityMass == Vec4(0.0, 0.0, 0.0, 0.0)
    ensures forall i :: 0 <= i < |g| ==> r[i].(VelocityMass := g[i].VelocityMass) == g[i]
  {
    seq(|g|, i requires 0 <= i < |g| => ClearedCell(g[i]))
  }

  /** The grid after the velocity-update loop of `CPUSolve` has visited every cell. */
  function UpdatedGrid(g: seq<GridCell>, R: int, DeltaTime: real): (r: seq<GridCell>)
    requires R > 0
    ensures |r| == |g|
    ensures forall i :: 0 <= i < |g| ==> r[i].VelocityMass.w == g[i].VelocityMass.w
    ensures forall i :: 0 <= i < |g| && g[i].VelocityMass.w <= MassEpsilon ==> r[i] == g[i]
  {
    seq(|g|, i requires 0 <= i < |g| => UpdateCell(g[i], i, R, DeltaTime))
  }

  /**
   * One CPU step conserves mass: after the reset, P2G and the grid update,
   * the grid holds exactly the total mass of the particles.
   */
  lemma StepConservesMass(g: seq<GridCell>, dom: Domain, particles: seq<ParticleRenderData>,
                          data: seq<ParticlePhysicsData>, DeltaTime: real, Ln: real -> real)
    requires dom.R > 0 && |g| == dom.R * dom.R && Simulable(dom, particles, data)
    ensures TotalMass(UpdatedGrid(ScatterParticles(ClearedGrid(g), dom, particles, data, DeltaTime, Ln, |particles|), dom.R, DeltaTime))
      == SumMass(data[..|particles|])
  {
    var cleared := ClearedGrid(g);
    ClearedGridMass(cleared);
    var scattered := ScatterParticles(cleared, dom, particles, data, DeltaTime, Ln, |particles|);
    ScatterParticlesMass(cleared, dom, particles, data, DeltaTime, Ln, |particles|);
    GridUpdateMass(scattered, UpdatedGrid(scattered, dom.R, DeltaTime), dom.R, DeltaTime);
  }

  /** The four stages of one GPU step, in `PipelineStates` order. */
  const StageCount: nat := 4

  class MPMSolver {
    const Size: real
    const NumParticles: nat
    const GridResolution: nat
    const DX: real
    const InvDx: real
    const FluidValues: FluidParameters

    /** `Grid`: GridResolution x GridResolution cells, row x at indices x * GridResolution ..; */
    var Grid: seq<GridCell>
    /** `ParticleData`: the physics state of particle i at index i. */
    var ParticleData: seq<ParticlePhysicsData>

    /** The compute pipelines of the four stages (clear, P2G, grid update, G2P), as opaque ids. */
    var PipelineStates: seq<nat>
    /** Thread groups dispatched per stage. */
    var DispatchSizes: seq<nat>
    /** The grid and particle-data GPU buffers, as opaque ids. */
    var GridBuffer: nat
    var ParticleDataBuffer: nat

    /** The sizes the constructor gives the grid, the particle data and the per-stage tables. */
    predicate Valid()
      reads this
    {
      |Grid| == GridResolution * GridResolution && |ParticleData| == NumParticles
      && |PipelineStates| == StageCount && |DispatchSizes| == StageCount
    }

    /** The quantities the P2G and G2P kernels read. */
    function Dom(): (dom: Domain)
      ensures dom.R == GridResolution && dom.DX == DX && dom.InvDx == InvDx && dom.Size == Size
      ensures dom.Mu == FluidValues.ElasticMu && dom.Lamda == FluidValues.ElasticLamda
    {
      Domain(GridResolution, DX, InvDx, Size, FluidValues.ElasticMu, FluidValues.ElasticLamda)
    }

    /**
     * `MPMSolver(Particles, FluidParams)`: a grid of Resolution^2 value-initialised
     * cells and one default `ParticlePhysicsData` per particle.
     */
    constructor(Particles: seq<ParticleRenderData>, FluidParams: FluidParameters)
      requires FluidParams.GridResolution >= 0 && FluidParams.Dx != 0.0
      ensures Valid()
      ensures GridResolution == FluidParams.GridResolution && NumParticles == |Particles|
      ensures Size == FluidParams.GridSize && FluidValues == FluidParams
      ensures DX == FluidParams.Dx && InvDx == 1.0 / FluidParams.Dx
      ensures forall i :: 0 <= i < |Grid| ==> Grid[i] == DefaultCell()
      ensures forall i :: 0 <= i < |ParticleData| ==> ParticleData[i] == DefaultPhysicsData()
    {
      GridResolution := FluidParams.GridResolution;
      NumParticles := |Particles|;
      Size := FluidParams.GridSize;
      FluidValues := FluidParams;
      Grid := seq(FluidParams.GridResolution * FluidParams.GridResolution, _ => DefaultCell());
      ParticleData := seq(|Particles|, _ => DefaultPhysicsData());
      DX := FluidParams.Dx;
      InvDx := 1.0 / FluidParams.Dx;
      PipelineStates := [0, 0, 0, 0];
      DispatchSizes := [0, 0, 0, 0];
      GridBuffer := 0;
      ParticleDataBuffer := 0;
    }

    /** The first loop of `CPUSolve`: every cell's `VelocityMass` becomes (0, 0, 0, 0). */
    method ResetGrid()
      requires Valid()
      modifies this`Grid
      ensures Valid() && Grid == ClearedGrid(old(Grid))
      ensures TotalMass(Grid) == 0.0
    {
      ghost var g0 := Grid;
      var i := 0;
      while i < |Grid|
        invariant 0 <= i <= |Grid| == |g0|
        invariant forall j :: 0 <= j < i ==> Grid[j] == ClearedCell(g0[j])
        invariant forall j :: i <= j < |Grid| ==> Grid[j] == g0[j]
      {
        Grid := Grid[i := Grid[i].(VelocityMass := Vec4(0.0, 0.0, 0.0, 0.0))];
        i := i + 1;
      }
      ClearedGridMass(Grid);
    }

    /**
     * `ParticleToGrid`: for each particle, the nine cells of its stencil
     * receive mass times weight in w and (momentum + Affine * CellDistance)
     * times weight in x, y, z.
     */
    method ParticleToGrid(Particles: seq<ParticleRenderData>, DeltaTime: real, Ln: real -> real)
      requires Valid() && Simulable(Dom(), Particles, ParticleData)
      modifies this`Grid
      ensures Valid()
      ensures Grid == ScatterParticles(old(Grid), Dom(), Particles, ParticleData, DeltaTime, Ln, |Particles|)
    {
      ghost var g0 := Grid;
      var ParticleIndex := 0;
      while ParticleIndex < |Particles|
        invariant 0 <= ParticleIndex <= |Particles|
        invariant Valid()
        invariant Grid == ScatterParticles(g0, Dom(), Particles, ParticleData, DeltaTime, Ln, ParticleIndex)
      {
        ScatterParticleOf(g0, Particles, ParticleIndex, DeltaTime, Ln);
        ParticleIndex := ParticleIndex + 1;
      }
    }

    /**
     * The body of the particle loop of `ParticleToGrid`: the particle's
     * affine matrix, stencil cell and weights, then its nine cell updates.
     * After particles 0 .. ParticleIndex-1, the grid holds those of 0 .. ParticleIndex.
     */
    method ScatterParticleOf(ghost g0: seq<GridCell>, Particles: seq<ParticleRenderData>, ParticleIndex: nat,
                             DeltaTime: real, Ln: real -> real)
      requires Valid() && Simulable(Dom(), Particles, ParticleData) && ParticleIndex < |Particles| && |g0| == |Grid|
      requires Grid == ScatterParticles(g0, Dom(), Particles, ParticleData, DeltaTime, Ln, ParticleIndex)
      modifies this`Grid
      ensures Valid()
      ensures Grid == ScatterParticles(g0, Dom(), Particles, ParticleData, DeltaTime, Ln, ParticleIndex + 1)
    {
      var Particle, Data := Particles[ParticleIndex], ParticleData[ParticleIndex];
      ScatterParticlesNext(g0, Dom(), Particles, ParticleData, DeltaTime, Ln, ParticleIndex, ScatterOf(Dom(), Particle, Data, DeltaTime, Ln));
      var CellIndex := CellIndexOf(Particle.Position, InvDx);
      var CellDifference := Vec2(Particle.Position.x * InvDx - CellIndex.x as real,
                                 Particle.Position.y * InvDx - CellIndex.y as real);
      assert CellDifference == CellOffset(Particle.Position, InvDx, CellIndex);
      var Weights := QuadraticWeights(CellDifference);
      var Affine := AffineMatrix(Data, FluidValues.ElasticMu, FluidValues.ElasticLamda, InvDx, DeltaTime, Ln);
      ScatterOfLocals(GridResolution, DX, InvDx, Size, FluidValues.ElasticMu, FluidValues.ElasticLamda,
                      Particle, Data, DeltaTime, Ln, Affine, CellIndex, CellDifference, Weights);
      ScatterParticle(CellIndex, CellDifference, Weights, Affine, Data.Mass, Particle.Velocity);
    }

    /**
     * The two stencil loops of `ParticleToGrid` for one particle: stencil
     * cell 3x + y receives that cell's `CellContribution`.
     */
    method ScatterParticle(CellIndex: Vec2i, CellDifference: Vec2, Weights: seq<Vec2>, Affine: Matrix4x4, Mass: real, Velocity: Vec4)
      requires Valid() && StencilInside(CellIndex, GridResolution) && |Weights| == 3
      modifies this`Grid
      ensures Valid()
      ensures Grid == ScatterStencil(old(Grid), GridResolution, CellIndex,
        Contributions(Scatter(Stencil(CellIndex, CellDifference, Weights), Mass, Vec4Scale(Velocity, Mass).(w := 0.0), Affine), DX), 9)
    {
      ghost var s := Scatter(Stencil(CellIndex, CellDifference, Weights), Mass, Vec4Scale(Velocity, Mass).(w := 0.0), Affine);
      ghost var start := Grid;
      ghost var cs := Contributions(s, DX);
      ghost var n := 0;
      for x := 0 to 3
        invariant n == 3 * x
        invariant |Grid| == |start| && Grid == ScatterStencil(start, GridResolution, CellIndex, cs, n)
      {
        for y := 0 to 3
          invariant n == 3 * x + y
          invariant |Grid| == |start| && Grid == ScatterStencil(start, GridResolution, CellIndex, cs, n)
        {
          var Weight := Weights[x].x * Weights[y].y;
          var CellDistance := Vec4Scale(Vec4(x as real - CellDifference.x, y as real - CellDifference.y, 0.0, 0.0), DX);
          var AffineByDistance := MatVec(Affine, CellDistance);
          var Momentum := Vec4Scale(Velocity, Mass);
          Momentum := Momentum.(w := 0.0);
          var Index := (CellIndex.x + x) * GridResolution + CellIndex.y + y;
          LoopCellIndex(CellIndex, GridResolution, x, y, n);
          var Cell := Grid[Index];
          ScatterStep(CellIndex, CellDifference, Weights, Affine, Mass, Velocity, DX, x, y, n, Weight, CellDistance, Momentum, Cell);
          Cell := Cell.(VelocityMass := Cell.VelocityMass.(w := Cell.VelocityMass.w + Mass * Weight));
          Cell := Cell.(VelocityMass := Vec4AddAssign(Cell.VelocityMass, Vec4Scale(Vec4Add(Momentum, AffineByDistance), Weight)));
          Grid := Grid[Index := Cell];
          n := n + 1;
        }
      }
    }

    /**
     * The second loop of `CPUSolve`: cell i becomes `UpdateCell(cell, i)`:
     * momentum over mass plus gravity, boundary velocities zeroed, mass kept.
     */
    method UpdateGrid(DeltaTime: real)
      requires Valid()
      modifies this`Grid
      ensures Valid()
      ensures GridResolution > 0 ==> Grid == UpdatedGrid(old(Grid), GridResolution, DeltaTime)
      ensures GridResolution == 0 ==> Grid == old(Grid)
      ensures TotalMass(Grid) == TotalMass(old(Grid))
    {
      ghost var g0 := Grid;
      var Gravity := Vec4(0.0, -GravityAcceleration * DeltaTime, 0.0, 0.0);
      var i := 0;
      if |Grid| > 0 {
        assert GridResolution > 0;
      }
      while i < |Grid|
        invariant 0 <= i <= |Grid| == |g0|
        invariant Valid()
        invariant |Grid| > 0 ==> GridResolution > 0
        invariant forall j :: 0 <= j < i ==> Grid[j] == UpdateCell(g0[j], j, GridResolution, DeltaTime)
        invariant forall j :: i <= j < |Grid| ==> Grid[j] == g0[j]
      {
        var Cell := Grid[i];
        if Cell.VelocityMass.w > MassEpsilon {
          var vm := Cell.VelocityMass;
          vm := vm.(x := vm.x / vm.w);
          vm := vm.(y := vm.y / vm.w);
          vm := vm.(z := vm.z / vm.w);
          vm := Vec4AddAssign(vm, Gravity);
          var X := i / GridResolution;
          var Y := i % GridResolution;
          if X < 2 || X > GridResolution - 3 {
            vm := vm.(x := 0.0);
          }
          if Y < 2 || Y > GridResolution - 3 {
            vm := vm.(y := 0.0);
          }
          Grid := Grid[i := Cell.(VelocityMass := vm)];
        }
        i := i + 1;
      }
      if |Grid| > 0 {
        GridUpdateMass(g0, Grid, GridResolution, DeltaTime);
      }
    }

    /**
     * `GridToParticle`: each particle takes its velocity and C = 4 B from
     * its stencil, moves, is clamped, and updates F; the grid is only read.
     */
    method GridToParticle(Particles: array<ParticleRenderData>, DeltaTime: real)
      requires Valid() && Particles.Length <= |ParticleData|
      requires forall p :: 0 <= p < Particles.Length ==> StencilInside(CellIndexOf(Particles[p].Position, InvDx), GridResolution)
      modifies this`ParticleData, Particles
      ensures Valid()
      ensures forall p :: 0 <= p < Particles.Length ==>
        (Particles[p], ParticleData[p]) == GatherParticle(Grid, Dom(), old(Particles[p]), old(ParticleData[p]), DeltaTime)
      ensures forall p :: Particles.Length <= p < |ParticleData| ==> ParticleData[p] == old(ParticleData[p])
    {
      var ParticleIndex := 0;
      while ParticleIndex < Particles.Length
        invariant 0 <= ParticleIndex <= Particles.Length
        invariant Valid()
        invariant forall p :: 0 <= p < ParticleIndex ==>
          (Particles[p], ParticleData[p]) == GatherParticle(Grid, Dom(), old(Particles[p]), old(ParticleData[p]), DeltaTime)
        invariant forall p :: ParticleIndex <= p < Particles.Length ==> Particles[p] == old(Particles[p])
        invariant forall p :: ParticleIndex <= p < |ParticleData| ==> ParticleData[p] == old(ParticleData[p])
      {
        var Particle, Data := GatherParticleOf(Particles[ParticleIndex], ParticleData[ParticleIndex], DeltaTime);
        Particles[ParticleIndex] := Particle;
        ParticleData := ParticleData[ParticleIndex := Data];
        ParticleIndex := ParticleIndex + 1;
      }
    }

    /**
     * The body of the particle loop of `GridToParticle`, which only reads
     * the grid: the gathered velocity and C = 4 B, the advected and clamped
     * position, and F := (Identity + C dt) F.
     */
    method GatherParticleOf(Particle: ParticleRenderData, Data: ParticlePhysicsData, DeltaTime: real)
      returns (Updated: ParticleRenderData, UpdatedData: ParticlePhysicsData)
      requires Valid() && StencilInside(CellIndexOf(Particle.Position, InvDx), GridResolution)
      ensures (Updated, UpdatedData) == GatherParticle(Grid, Dom(), Particle, Data, DeltaTime)
    {
      var CellIndex := CellIndexOf(Particle.Position, InvDx);
      var CellDifference := Vec2(Particle.Position.x * InvDx - CellIndex.x as real,
                                 Particle.Position.y * InvDx - CellIndex.y as real);
      assert CellDifference == CellOffset(Particle.Position, InvDx, CellIndex);
      var Weights := QuadraticWeights(CellDifference);
      var Velocity, B := GatherStencil(CellIndex, CellDifference, Weights);
      Updated := Particle.(Velocity := Velocity);
      UpdatedData := Data.(C := MatScale(B, 4.0));
      Updated := Updated.(Position := Vec4AddAssign(Updated.Position, Vec4Scale(Updated.Velocity, DeltaTime)));
      Updated := Updated.(Position := Updated.Position.(x := ClampCoordinate(Updated.Position.x, DX, Size)));
      Updated := Updated.(Position := Updated.Position.(y := ClampCoordinate(Updated.Position.y, DX, Size)));
      UpdatedData := UpdatedData.(DeformGradient := Mult(MatAdd(Identity(), MatScale(UpdatedData.C, DeltaTime)), UpdatedData.DeformGradient));
      GatherParticleLocals(Grid, GridResolution, DX, InvDx, Size, FluidValues.ElasticMu, FluidValues.ElasticLamda,
                           Particle, Data, DeltaTime, CellIndex, CellDifference, Weights, Velocity, B, Updated, UpdatedData);
    }

    /**
     * The two stencil loops of `GridToParticle` for one particle: the
     * velocity starts at `Vec4()` and B at zero, and each stencil cell adds
     * its weighted velocity to the one and its `OuterProduct` with
     * `CellDistance`, times InvDx, to the other. The grid is only read.
     */
    method GatherStencil(CellIndex: Vec2i, CellDifference: Vec2, Weights: seq<Vec2>) returns (Velocity: Vec4, B: Matrix4x4)
      requires Valid() && StencilInside(CellIndex, GridResolution) && |Weights| == 3
      ensures Velocity == GatherVelocity(Grid, GridResolution, Stencil(CellIndex, CellDifference, Weights), 9)
      ensures B == GatherB(Grid, GridResolution, DX, InvDx, Stencil(CellIndex, CellDifference, Weights), 9)
    {
      ghost var st := Stencil(CellIndex, CellDifference, Weights);
      ghost var n := 0;
      Velocity := Origin();
      B := Zero();
      for x := 0 to 3
        invariant n == 3 * x
        invariant Velocity == GatherVelocity(Grid, GridResolution, st, n)
        invariant B == GatherB(Grid, GridResolution, DX, InvDx, st, n)
      {
        for y := 0 to 3
          invariant n == 3 * x + y
          invariant Velocity == GatherVelocity(Grid, GridResolution, st, n)
          invariant B == GatherB(Grid, GridResolution, DX, InvDx, st, n)
        {
          var Weight := Weights[x].x * Weights[y].y;
          var CellDistance := Vec4Scale(Vec4(x as real - CellDifference.x, y as real - CellDifference.y, 0.0, 0.0), DX);
          var Index := (CellIndex.x + x) * GridResolution + CellIndex.y + y;
          LoopCellIndex(CellIndex, GridResolution, x, y, n);
          var Cell := Grid[Index];
          var WeightedVelocity := Vec4(Cell.VelocityMass.x * Weight, Cell.VelocityMass.y * Weight, Cell.VelocityMass.z * Weight, 0.0);
          GatherStep(Grid, GridResolution, DX, CellIndex, CellDifference, Weights, x, y, n, Weight, CellDistance, Index, Cell, WeightedVelocity);
          GatherNext(Grid, GridResolution, DX, InvDx, st, n, WeightedVelocity, CellDistance);
          B := MatAdd(B, MatScale(OuterProduct(WeightedVelocity, CellDistance), InvDx));
          Velocity := Vec4AddAssign(Velocity, WeightedVelocity);
          n := n + 1;
        }
      }
    }

    /**
     * `CPUSolve`: reset, P2G, grid update, G2P. The grid ends up holding
     * exactly the particles' total mass, and each particle is updated by
     * `GatherParticle` from that grid.
     */
    method CPUSolve(Particles: array<ParticleRenderData>, DeltaTime: real, Ln: real -> real)
      requires Valid() && Simulable(Dom(), Particles[..], ParticleData)
      modifies this`Grid, this`ParticleData, Particles
      ensures Valid()
      ensures GridResolution > 0 ==>
        Grid == UpdatedGrid(ScatterParticles(ClearedGrid(old(Grid)), Dom(), old(Particles[..]), old(ParticleData),
                                             DeltaTime, Ln, Particles.Length), GridResolution, DeltaTime)
      ensures TotalMass(Grid) == SumMass(old(ParticleData)[..Particles.Length])
      ensures forall p :: 0 <= p < Particles.Length ==>
        (Particles[p], ParticleData[p]) == GatherParticle(Grid, Dom(), old(Particles[p]), old(ParticleData[p]), DeltaTime)
    {
      ghost var g0 := Grid;
      ResetGrid();
      ghost var cleared := Grid;
      ParticleToGrid(Particles[..], DeltaTime, Ln);
      ghost var scattered := Grid;
      UpdateGrid(DeltaTime);
      if GridResolution > 0 {
        StepConservesMass(g0, Dom(), Particles[..], ParticleData, DeltaTime, Ln);
      } else {
        ClearedGridMass(cleared);
      }
      GridToParticle(Particles, DeltaTime);
    }

    /**
     * `CreatePipelineStateObject`: the pipelines of clear, P2G, grid update
     * and G2P (built elsewhere, given as ids), and enough thread groups of
     * 64 for every cell (stages 0 and 2) or every particle (stages 1 and 3).
     */
    method CreatePipelineStateObject(Pipelines: seq<nat>)
      requires Valid() && |Pipelines| == StageCount
      modifies this`PipelineStates, this`DispatchSizes
      ensures Valid()
      ensures PipelineStates == Pipelines
      ensures DispatchSizes == [DispatchGroups(|Grid|), DispatchGroups(NumParticles),
                                DispatchGroups(|Grid|), DispatchGroups(NumParticles)]
    {
      PipelineStates := Pipelines;
      DispatchSizes := [DispatchGroups(|Grid|), DispatchGroups(NumParticles),
                        DispatchGroups(|Grid|), DispatchGroups(NumParticles)];
    }

    /**
     * `GPUSolve`: the commands it records, stage by stage in order: bind the
     * stage's pipeline, dispatch its groups, then a UAV barrier on the grid,
     * the particle data and the particle buffer.
     */
    method GPUSolve(ParticleBuffer: nat) returns (Recorded: seq<Command>)
      requires Valid()
      ensures |Recorded| == 5 * StageCount
      ensures forall i :: 0 <= i < StageCount ==>
        Recorded[5 * i .. 5 * i + 5] == [SetPipelineState(PipelineStates[i]), Dispatch(DispatchSizes[i]),
                                         UAVBarrier(GridBuffer), UAVBarrier(ParticleDataBuffer), UAVBarrier(ParticleBuffer)]
    {
      Recorded := [];
      for i := 0 to StageCount
        invariant |Recorded| == 5 * i
        invariant forall j :: 0 <= j < i ==>
          Recorded[5 * j .. 5 * j + 5] == [SetPipelineState(PipelineStates[j]), Dispatch(DispatchSizes[j]),
                                           UAVBarrier(GridBuffer), UAVBarrier(ParticleDataBuffer), UAVBarrier(ParticleBuffer)]
      {
        Recorded := Recorded + [SetPipelineState(PipelineStates[i]), Dispatch(DispatchSizes[i])];
        Recorded := Recorded + [UAVBarrier(GridBuffer), UAVBarrier(ParticleDataBuffer), UAVBarrier(ParticleBuffer)];
      }
    }
  }

  /** The constants P2G computes for a particle in its loop body are that particle's `ScatterOf`. */
  lemma ScatterOfLocals(R: int, DX: real, InvDx: real, Size: real, Mu: real, Lamda: real,
                        particle: ParticleRenderData, data: ParticlePhysicsData, DeltaTime: real, Ln: real -> real,
                        Affine: Matrix4x4, CellIndex: Vec2i, CellDifference: Vec2, Weights: seq<Vec2>)
    requires Determinant(Transpose(data.DeformGradient)) != 0.0
    requires Affine == AffineMatrix(data, Mu, Lamda, InvDx, DeltaTime, Ln)
    requires CellIndex == CellIndexOf(particle.Position, InvDx)
    requires CellDifference == CellOffset(particle.Position, InvDx, CellIndex)
    requires Weights == QuadraticWeights(CellDifference)
    ensures ScatterOf(Domain(R, DX, InvDx, Size, Mu, Lamda), particle, data, DeltaTime, Ln)
      == Scatter(Stencil(CellIndex, CellDifference, Weights), data.Mass, Vec4Scale(particle.Velocity, data.Mass).(w := 0.0), Affine)
  {
    StencilOfParts(particle.Position, InvDx, CellIndex, CellDifference, Weights);
  }

  /** The particle and data G2P writes back for one particle are that particle's `GatherParticle`. */
  lemma GatherParticleLocals(g: seq<GridCell>, R: int, DX: real, InvDx: real, Size: real, Mu: real, Lamda: real,
                             particle: ParticleRenderData, data: ParticlePhysicsData, DeltaTime: real,
                             CellIndex: Vec2i, CellDifference: Vec2, Weights: seq<Vec2>, Velocity: Vec4, B: Matrix4x4,
                             NewParticle: ParticleRenderData, NewData: ParticlePhysicsData)
    requires |g| == R * R
    requires CellIndex == CellIndexOf(particle.Position, InvDx) && StencilInside(CellIndex, R)
    requires CellDifference == CellOffset(particle.Position, InvDx, CellIndex)
    requires Weights == QuadraticWeights(CellDifference)
    requires Velocity == GatherVelocity(g, R, Stencil(CellIndex, CellDifference, Weights), 9)
    requires B == GatherB(g, R, DX, InvDx, Stencil(CellIndex, CellDifference, Weights), 9)
    requires NewParticle == ParticleRenderData(AdvectedPosition(particle.Position, Velocity, DeltaTime, DX, Size), Velocity)
    requires NewData == data.(C := MatScale(B, 4.0), DeformGradient := UpdatedDeformation(MatScale(B, 4.0), DeltaTime, data.DeformGradient))
    ensures (NewParticle, NewData) == GatherParticle(g, Domain(R, DX, InvDx, Size, Mu, Lamda), particle, data, DeltaTime)
  {
    StencilOfParts(particle.Position, InvDx, CellIndex, CellDifference, Weights);
  }

  /** Loop cell (x, y) of both stencil loops is stencil cell 3x + y, inside the grid. */
  lemma LoopCellIndex(ci: Vec2i, R: int, x: int, y: int, n: nat)
    requires StencilInside(ci, R) && 0 <= x < 3 && 0 <= y < 3 && n == 3 * x + y
    ensures StencilIndex(ci, R, n) == (ci.x + x) * R + ci.y + y
    ensures 0 <= (ci.x + x) * R + ci.y + y < R * R
  {
    assert n / 3 == x && n % 3 == y;
    StencilIndexInGrid(ci, R, n);
  }

  /**
   * The values P2G computes for loop cell (x, y) are those of stencil cell
   * 3x + y, so its two in-place updates of that cell are `AddToCell` with
   * the stencil cell's contribution.
   */
  lemma ScatterStep(CellIndex: Vec2i, CellDifference: Vec2, Weights: seq<Vec2>, Affine: Matrix4x4, Mass: real, Velocity: Vec4,
                    DX: real, x: int, y: int, n: nat, Weight: real, Distance: Vec4, Momentum: Vec4, Cell: GridCell)
    requires 0 <= x < 3 && 0 <= y < 3 && n == 3 * x + y && |Weights| == 3
    requires Weight == Weights[x].x * Weights[y].y
    requires Distance == Vec4Scale(Vec4(x as real - CellDifference.x, y as real - CellDifference.y, 0.0, 0.0), DX)
    requires Momentum == Vec4Scale(Velocity, Mass).(w := 0.0)
    ensures var vm := Cell.VelocityMass.(w := Cell.VelocityMass.w + Mass * Weight);
      var s := Scatter(Stencil(CellIndex, CellDifference, Weights), Mass, Momentum, Affine);
      Cell.(VelocityMass := Vec4AddAssign(vm, Vec4Scale(Vec4Add(Momentum, MatVec(Affine, Distance)), Weight)))
      == AddToCell(Cell, CellContribution(s, DX, n))
  {
    var s := Scatter(Stencil(CellIndex, CellDifference, Weights), Mass, Momentum, Affine);
    assert n / 3 == x && n % 3 == y;
    assert Weight == StencilWeight(s.St.Weights, n);
    assert Distance == CellDistance(s.St, DX, n);
  }

  /** The weighted velocity and the distance G2P computes for loop cell (x, y) are those of stencil cell 3x + y. */
  lemma GatherStep(g: seq<GridCell>, R: int, DX: real, CellIndex: Vec2i, CellDifference: Vec2, Weights: seq<Vec2>,
                   x: int, y: int, n: nat, Weight: real, Distance: Vec4, Index: int, Cell: GridCell, Weighted: Vec4)
    requires 0 <= x < 3 && 0 <= y < 3 && n == 3 * x + y && |Weights| == 3
    requires |g| == R * R && StencilInside(CellIndex, R)
    requires Weight == Weights[x].x * Weights[y].y
    requires Distance == Vec4Scale(Vec4(x as real - CellDifference.x, y as real - CellDifference.y, 0.0, 0.0), DX)
    requires Index == (CellIndex.x + x) * R + CellIndex.y + y && 0 <= Index < |g| && Cell == g[Index]
    requires Weighted == Vec4(Cell.VelocityMass.x * Weight, Cell.VelocityMass.y * Weight, Cell.VelocityMass.z * Weight, 0.0)
    ensures Weighted == StencilVelocity(g, R, Stencil(CellIndex, CellDifference, Weights), n)
    ensures Distance == CellDistance(Stencil(CellIndex, CellDifference, Weights), DX, n)
  {
    LoopCellIndex(CellIndex, R, x, y, n);
    assert n / 3 == x && n % 3 == y;
    assert Weight == StencilWeight(Weights, n);
  }

  /** Adding stencil cell n's weighted velocity and its B term extends the gather by that cell. */
  lemma GatherNext(g: seq<GridCell>, R: int, DX: real, InvDx: real, st: Stencil, n: nat, Weighted: Vec4, Distance: Vec4)
    requires |g| == R * R && StencilInside(st.CellIndex, R) && |st.Weights| == 3 && n < 9
    requires Weighted == StencilVelocity(g, R, st, n) && Distance == CellDistance(st, DX, n)
    ensures GatherVelocity(g, R, st, n + 1) == Vec4AddAssign(GatherVelocity(g, R, st, n), Weighted)
    ensures GatherB(g, R, DX, InvDx, st, n + 1) == MatAdd(GatherB(g, R, DX, InvDx, st, n), MatScale(OuterProduct(Weighted, Distance), InvDx))
  {
  }
}
