/**
 * The per-particle and per-cell arithmetic of the CPU Material Point Method
 * solver (src/fluids/MPMSolver.h, src/fluids/MPMSolver.cpp): the records it
 * keeps, the quadratic B-spline weights of the 3x3 stencil, the grid-index
 * arithmetic, the Neo-Hookean stress and the rules that update one cell or
 * one particle. The stages that loop over the whole grid and every particle
 * are the methods of `MPM.MPMSolver`, proved against the functions here.
 */
module MPMKernels {

  import opened Math3D
  import opened Math3DLemmas

  /** `GROUP_SIZE`: threads per compute thread group. */
  const GroupSize: nat := 64

  /** A cell whose mass is at most this is left alone by the grid update. */
  const MassEpsilon: real := 0.00001

  /** Gravity along -y, per second squared. */
  const GravityAcceleration: real := 9.8

  // ---------------------------------------------------------------- records

  /** `GridCell`: velocity (momentum while scattering) in x, y, z and mass in w, plus four padding words. */
  datatype GridCell = GridCell(VelocityMass: Vec4, IntHolder1: int, IntHolder2: int, IntHolder3: int, IntHolder4: int)

  /**
   * A cell of `std::vector<GridCell>(n)`: value-initialisation zeroes the
   * padding and runs `Vec4()`, whose w is 1.
   */
  function DefaultCell(): GridCell {
    GridCell(Origin(), 0, 0, 0, 0)
  }

  /** `FluidParameters`, the constant buffer shared with the compute shaders (the padding float is left out). */
  datatype FluidParameters = FluidParameters(
    GridResolution: int, Dx: real, InvDx: real,
    ElasticMu: real, ElasticLamda: real, DeltaTime: real, GridSize: real)

  /**
   * What every value built by the only `FluidParameters` constructor
   * satisfies: the cell width times the resolution is the domain size and
   * `InvDx` is its reciprocal.
   */
  predicate WellFormedParameters(p: FluidParameters) {
    p.GridResolution > 0 && p.Dx != 0.0
    && p.Dx * (p.GridResolution as real) == p.GridSize && p.InvDx * p.Dx == 1.0
  }

  /**
   * The constructor `FluidParameters(Resolution, Lamda, Mu, Timestep, Size)`.
   * Its argument order puts Lamda second and Mu third; both override the
   * in-class defaults 40 and 20. A zero size would make `InvDx` an IEEE
   * infinity, which exact reals cannot express.
   */
  function MakeFluidParameters(Resolution: nat, Lamda: real, Mu: real, Timestep: real, Size: real): (p: FluidParameters)
    requires Resolution > 0 && Size != 0.0
    ensures WellFormedParameters(p)
    ensures p.GridResolution == Resolution && p.GridSize == Size && p.DeltaTime == Timestep
    ensures p.ElasticMu == Mu && p.ElasticLamda == Lamda
  {
    var dx := Size / (Resolution as real);
    FluidParameters(Resolution, dx, 1.0 / dx, Mu, Lamda, Timestep, Size)
  }

  /** `ParticlePhysicsData`: affine velocity matrix C, deformation gradient F, mass, rest volume. */
  datatype ParticlePhysicsData = ParticlePhysicsData(C: Matrix4x4, DeformGradient: Matrix4x4, Mass: real, InitialVolume: real)

  /** A default-constructed `ParticlePhysicsData`. */
  function DefaultPhysicsData(): ParticlePhysicsData {
    ParticlePhysicsData(Zero(), Identity(), 0.5, 3.0)
  }

  /** `ParticleRenderData` (src/fluids/FluidObject.h): what the vertex shader instances read. */
  datatype ParticleRenderData = ParticleRenderData(Position: Vec4, Velocity: Vec4)

  // ---------------------------------------------------------------- stencil

  /** The `float` to `int32_t` conversion: rounds toward zero (the 32-bit range is not modelled). */
  function Trunc(v: real): (n: int)
    ensures v >= 0.0 ==> n as real <= v < n as real + 1.0
    ensures v < 0.0 ==> n as real - 1.0 < v <= n as real
  {
    if v >= 0.0 then v.Floor else -((-v).Floor)
  }

  /** `CellIndex`: the stencil's lower-left cell, `int32_t(p * InvDx - 0.5)` per axis. */
  function CellIndexOf(p: Vec4, InvDx: real): Vec2i {
    Vec2i(Trunc(p.x * InvDx - 0.5), Trunc(p.y * InvDx - 0.5))
  }

  /** `CellDifference`: the particle's offset from cell ci, in cells. */
  function CellOffset(p: Vec4, InvDx: real, ci: Vec2i): Vec2 {
    Vec2(p.x * InvDx - ci.x as real, p.y * InvDx - ci.y as real)
  }

  /**
   * The three quadratic B-spline weights per axis for the offset f of the
   * particle from the stencil's first cell:
   * 0.5 (1.5 - f)^2, 0.75 - (f - 1)^2 and 0.5 (f - 0.5)^2.
   */
  function QuadraticWeights(f: Vec2): (w: seq<Vec2>)
    ensures |w| == 3
  {
    [Vec2Scale(Vec2Pow(Vec2(1.5 - f.x, 1.5 - f.y), 2), 0.5),
     Vec2Sub(Vec2(0.75, 0.75), Vec2Pow(Vec2(f.x - 1.0, f.y - 1.0), 2)),
     Vec2Scale(Vec2Pow(Vec2(f.x - 0.5, f.y - 0.5), 2), 0.5)]
  }

  /** Where a particle sits on the grid: its stencil's first cell, its offset from it, and the weights. */
  datatype Stencil = Stencil(CellIndex: Vec2i, CellDifference: Vec2, Weights: seq<Vec2>)

  /**
   * The stencil of a particle at p. Once p lies at least half a cell from the
   * lower edges, the offset from the first cell is in [0.5, 1.5) on both axes.
   */
  function StencilOf(p: Vec4, InvDx: real): (s: Stencil)
    ensures |s.Weights| == 3
    ensures p.x * InvDx >= 0.5 ==> 0.5 <= s.CellDifference.x < 1.5
    ensures p.y * InvDx >= 0.5 ==> 0.5 <= s.CellDifference.y < 1.5
  {
    var ci := CellIndexOf(p, InvDx);
    var f := CellOffset(p, InvDx, ci);
    Stencil(ci, f, QuadraticWeights(f))
  }

  /** The three values the kernels compute one after the other for a particle at p are its stencil. */
  lemma StencilOfParts(p: Vec4, InvDx: real, ci: Vec2i, f: Vec2, w: seq<Vec2>)
    requires ci == CellIndexOf(p, InvDx)
    requires f == CellOffset(p, InvDx, ci)
    requires w == QuadraticWeights(f)
    ensures StencilOf(p, InvDx) == Stencil(ci, f, w)
  {
  }

  /** The weight of stencil cell k = 3x + y (x outer, y inner, as the loops run): `Weights[x].x * Weights[y].y`. */
  function StencilWeight(w: seq<Vec2>, k: nat): real
    requires |w| == 3 && k < 9
  {
    w[k / 3].x * w[k % 3].y
  }

  /** The sum of the weights of stencil cells 0 .. n-1. */
  function StencilWeightSum(w: seq<Vec2>, n: nat): real
    requires |w| == 3 && n <= 9
  {
    if n == 0 then 0.0 else StencilWeightSum(w, n - 1) + StencilWeight(w, n - 1)
  }

  /** `Index`: the grid cell of stencil cell k = 3x + y, `(CellIndex.x + x) * GridResolution + CellIndex.y + y`. */
  function StencilIndex(ci: Vec2i, R: int, k: nat): int
    requires k < 9
  {
    (ci.x + k / 3) * R + ci.y + k % 3
  }

  /** The 3x3 stencil at ci lies inside an R x R grid. */
  predicate StencilInside(ci: Vec2i, R: int) {
    0 <= ci.x && ci.x + 2 < R && 0 <= ci.y && ci.y + 2 < R
  }

  /** A positive multiple of a positive number is at least that number. */
  lemma MulAtLeast(a: int, R: int)
    requires a >= 1 && R > 0
    ensures a * R >= R
  {
  }

  /** Multiplying by a non-negative number keeps order. */
  lemma MulMonotone(a: int, b: int, R: int)
    requires a <= b && R >= 0
    ensures a * R <= b * R
  {
    assert b * R - a * R == (b - a) * R;
  }

  /** Integer division of q R + r by R, for 0 <= r < R, gives back q and r. */
  lemma DivModOfSum(q: int, r: int, R: int)
    requires 0 <= r < R
    ensures (q * R + r) / R == q && (q * R + r) % R == r
  {
    var n := q * R + r;
    var d := n / R;
    var m := n % R;
    assert 0 <= m < R && d * R + m == n;
    assert (q - d) * R == m - r by {
      assert (q - d) * R == q * R - d * R;
    }
    if q > d {
      MulAtLeast(q - d, R);
      assert false;
    } else if q < d {
      MulAtLeast(d - q, R);
      assert false;
    }
  }

  /** Inside the grid, every stencil cell's index is a valid index of the R x R grid. */
  lemma StencilIndexInGrid(ci: Vec2i, R: int, k: nat)
    requires StencilInside(ci, R) && k < 9
    ensures 0 <= StencilIndex(ci, R, k) < R * R
  {
    var row := ci.x + k / 3;
    var col := ci.y + k % 3;
    assert StencilIndex(ci, R, k) == row * R + col;
    MulMonotone(row, R - 1, R);
    MulMonotone(0, row, R);
    assert (R - 1) * R == R * R - R;
  }

  /**
   * Inside the grid, stencil cell k = 3x + y is grid cell
   * (CellIndex.x + x, CellIndex.y + y): row and column come back out of its
   * index, so no stencil cell wraps into another row.
   */
  lemma StencilIndexRowColumn(ci: Vec2i, R: int, k: nat)
    requires StencilInside(ci, R) && k < 9
    ensures StencilIndex(ci, R, k) / R == ci.x + k / 3
    ensures StencilIndex(ci, R, k) % R == ci.y + k % 3
  {
    DivModOfSum(ci.x + k / 3, ci.y + k % 3, R);
  }

  /** Inside the grid, the nine stencil cells are nine different grid cells. */
  lemma StencilIndicesDistinct(ci: Vec2i, R: int, j: nat, k: nat)
    requires StencilInside(ci, R) && j < 9 && k < 9 && j != k
    ensures StencilIndex(ci, R, j) != StencilIndex(ci, R, k)
  {
    StencilIndexRowColumn(ci, R, j);
    StencilIndexRowColumn(ci, R, k);
  }

  /** The three weights on each axis sum to exactly 1, whatever the offset. */
  lemma WeightsPartitionOfUnity(f: Vec2)
    ensures QuadraticWeights(f)[0].x + QuadraticWeights(f)[1].x + QuadraticWeights(f)[2].x == 1.0
    ensures QuadraticWeights(f)[0].y + QuadraticWeights(f)[1].y + QuadraticWeights(f)[2].y == 1.0
  {
    Vec2PowSquare(Vec2(1.5 - f.x, 1.5 - f.y));
    Vec2PowSquare(Vec2(f.x - 1.0, f.y - 1.0));
    Vec2PowSquare(Vec2(f.x - 0.5, f.y - 0.5));
  }

  /** On the offsets a particle can have, [0.5, 1.5], no weight is negative. */
  lemma WeightsNonNegative(f: Vec2, i: nat)
    requires 0.5 <= f.x <= 1.5 && 0.5 <= f.y <= 1.5 && i < 3
    ensures QuadraticWeights(f)[i].x >= 0.0 && QuadraticWeights(f)[i].y >= 0.0
  {
    Vec2PowSquare(Vec2(1.5 - f.x, 1.5 - f.y));
    Vec2PowSquare(Vec2(f.x - 1.0, f.y - 1.0));
    Vec2PowSquare(Vec2(f.x - 0.5, f.y - 0.5));
    CentredSquareSmall(f.x - 1.0);
    CentredSquareSmall(f.y - 1.0);
  }

  /** A value within half a cell of the centre has a square of at most 1/4. */
  lemma CentredSquareSmall(d: real)
    requires -0.5 <= d <= 0.5
    ensures d * d <= 0.25
  {
    if d >= 0.0 {
      assert d * d <= 0.5 * d;
    } else {
      assert d * d <= -0.5 * d;
    }
  }

  /** The nine stencil weights are the product of the two per-axis sums. */
  lemma StencilWeightSumFactors(w: seq<Vec2>)
    requires |w| == 3
    ensures StencilWeightSum(w, 9) == (w[0].x + w[1].x + w[2].x) * (w[0].y + w[1].y + w[2].y)
  {
    var sy := w[0].y + w[1].y + w[2].y;
    assert StencilWeightSum(w, 1) == w[0].x * w[0].y;
    assert StencilWeightSum(w, 2) == w[0].x * w[0].y + w[0].x * w[1].y;
    assert StencilWeightSum(w, 3) == w[0].x * sy;
    assert StencilWeightSum(w, 4) == w[0].x * sy + w[1].x * w[0].y;
    assert StencilWeightSum(w, 5) == w[0].x * sy + w[1].x * w[0].y + w[1].x * w[1].y;
    assert StencilWeightSum(w, 6) == (w[0].x + w[1].x) * sy;
    assert StencilWeightSum(w, 7) == (w[0].x + w[1].x) * sy + w[2].x * w[0].y;
    assert StencilWeightSum(w, 8) == (w[0].x + w[1].x) * sy + w[2].x * w[0].y + w[2].x * w[1].y;
  }

  /** Partition of unity on the stencil: the nine weights of any particle sum to 1. */
  lemma StencilWeightsSumToOne(f: Vec2)
    ensures StencilWeightSum(QuadraticWeights(f), 9) == 1.0
  {
    StencilWeightSumFactors(QuadraticWeights(f));
    WeightsPartitionOfUnity(f);
  }

  /** `Size - DX` is the as-written upper edge of the position clamp. */
  function ClampCoordinate(v: real, DX: real, Size: real): (r: real)
    ensures DX <= Size - DX ==> DX <= r <= Size - DX
    ensures DX <= v <= Size - DX ==> r == v
  {
    var lo := if v < DX then DX else v;
    if Size - DX < lo then Size - DX else lo
  }

  /**
   * With 64 cells on a unit domain, a particle pushed to x = 0.99 is clamped
   * to 63/64 and its stencil's first column is 62: the stencil needs column
   * 64, past the last column 63, and its last cell's index passes 64 * 64.
   */
  lemma ClampLetsStencilLeaveGrid()
    ensures ClampCoordinate(0.99, 1.0 / 64.0, 1.0) == 63.0 / 64.0
    ensures CellIndexOf(Vec4(63.0 / 64.0, 0.5, 0.0, 1.0), 64.0).x == 62
    ensures !StencilInside(CellIndexOf(Vec4(63.0 / 64.0, 0.5, 0.0, 1.0), 64.0), 64)
    ensures StencilIndex(CellIndexOf(Vec4(63.0 / 64.0, 0.5, 0.0, 1.0), 64.0), 64, 8) >= 64 * 64
  {
    var ci := CellIndexOf(Vec4(63.0 / 64.0, 0.5, 0.0, 1.0), 64.0);
    assert ci == Vec2i(62, 31);
  }

  /**
   * On the y axis the same clamp does not leave the array: with 64 cells a
   * particle at y = 63/64 has its stencil start at column 62, and stencil
   * cell (0, 2) lands on index (ci.x + 1) * 64, column 0 of the next row:
   * a valid index, but a cell that is not the particle's neighbour.
   */
  lemma ClampWrapsIntoNextRow()
    ensures ClampCoordinate(0.99, 1.0 / 64.0, 1.0) == 63.0 / 64.0
    ensures CellIndexOf(Vec4(0.5, 63.0 / 64.0, 0.0, 1.0), 64.0) == Vec2i(31, 62)
    ensures StencilIndex(Vec2i(31, 62), 64, 2) == 32 * 64 + 0
    ensures 0 <= StencilIndex(Vec2i(31, 62), 64, 8) < 64 * 64
  {
    assert 0.5 * 64.0 - 0.5 == 31.5;
    assert 63.0 / 64.0 * 64.0 - 0.5 == 62.5;
  }

  /** On one axis, the cell index of coordinate c leaves room for the three stencil cells. */
  predicate AxisInside(c: real, InvDx: real, R: int) {
    0 <= Trunc(c * InvDx - 0.5) && Trunc(c * InvDx - 0.5) + 2 < R
  }

  /** The corrected clamp: the upper edge `Size - 2 DX` keeps the whole stencil inside the grid. */
  function ClampCoordinateFixed(v: real, DX: real, Size: real): (r: real)
    ensures DX <= Size - 2.0 * DX ==> DX <= r <= Size - 2.0 * DX
    ensures DX <= v <= Size - 2.0 * DX ==> r == v
  {
    var lo := if v < DX then DX else v;
    if Size - 2.0 * DX < lo then Size - 2.0 * DX else lo
  }

  /** On a grid of at least 3 cells, a coordinate clamped by the corrected rule has its stencil inside, on that axis. */
  lemma ClampFixedKeepsStencilInside(v: real, p: FluidParameters)
    requires WellFormedParameters(p) && p.Dx > 0.0 && p.GridResolution >= 3
    ensures AxisInside(ClampCoordinateFixed(v, p.Dx, p.GridSize), p.InvDx, p.GridResolution)
  {
    var R := p.GridResolution as real;
    var c := ClampCoordinateFixed(v, p.Dx, p.GridSize);
    assert p.InvDx > 0.0;
    assert p.GridSize * p.InvDx == R by {
      assert p.GridSize * p.InvDx == R * (p.Dx * p.InvDx);
    }
    assert DX2: 2.0 * p.Dx * p.InvDx == 2.0;
    assert p.Dx <= p.GridSize - 2.0 * p.Dx by {
      assert p.GridSize - 3.0 * p.Dx == (R - 3.0) * p.Dx;
    }
    assert (c - p.Dx) * p.InvDx >= 0.0;
    assert (p.GridSize - 2.0 * p.Dx - c) * p.InvDx >= 0.0;
    assert 1.0 <= c * p.InvDx <= R - 2.0;
  }

  // ---------------------------------------------------------------- stress

  /**
   * `P`: the first Piola-Kirchhoff stress of F, Mu (F - F^-T) + Lamda log(J) F^-T,
   * given F^-T and log J.
   */
  function PiolaKirchhoff(F: Matrix4x4, DeformTransposeInverse: Matrix4x4, LogVolume: real, Mu: real, Lamda: real): Matrix4x4 {
    MatAdd(MatScale(MatSub(F, DeformTransposeInverse), Mu), MatScale(DeformTransposeInverse, Lamda * LogVolume))
  }

  /** The returned stress: P F^T scaled by -(V0 * 4 * InvDx^2). */
  function ScaledStress(F: Matrix4x4, P: Matrix4x4, InitialVolume: real, InvDx: real): Matrix4x4 {
    MatScale(Mult(P, Transpose(F)), -(InitialVolume * 4.0 * InvDx * InvDx))
  }

  /**
   * `NeoHookeanStress`: the Piola-Kirchhoff stress of F with J = det F,
   * turned into the grid-force matrix. `Ln` stands for `std::log`; exact
   * reals need F invertible where the source would produce IEEE infinities.
   */
  function NeoHookeanStress(data: ParticlePhysicsData, Mu: real, Lamda: real, InvDx: real, Ln: real -> real): Matrix4x4
    requires Determinant(Transpose(data.DeformGradient)) != 0.0
  {
    var F := data.DeformGradient;
    var P := PiolaKirchhoff(F, Inverse(Transpose(F)), Ln(Determinant(F)), Mu, Lamda);
    ScaledStress(F, P, data.InitialVolume, InvDx)
  }

  /** With F^-T = F and log J = 0, P vanishes, whatever F is. */
  lemma PiolaKirchhoffAtRest(F: Matrix4x4, Mu: real, Lamda: real)
    ensures PiolaKirchhoff(F, F, 0.0, Mu, Lamda) == Zero()
  {
  }

  /** A zero P gives a zero stress. */
  lemma ScaledStressOfZero(F: Matrix4x4, InitialVolume: real, InvDx: real)
    ensures ScaledStress(F, Zero(), InitialVolume, InvDx) == Zero()
  {
    MultZeroLeft(Transpose(F));
  }

  /** An undeformed particle (F = Identity, so det F = 1 and log 1 = 0) feels no stress. */
  lemma StressAtRest(data: ParticlePhysicsData, Mu: real, Lamda: real, InvDx: real, Ln: real -> real)
    requires data.DeformGradient == Identity() && Ln(1.0) == 0.0
    ensures Determinant(Transpose(data.DeformGradient)) == 1.0
    ensures NeoHookeanStress(data, Mu, Lamda, InvDx, Ln) == Zero()
  {
    var F := data.DeformGradient;
    IdentityInverseTranspose(F);
    PiolaKirchhoffAtRest(F, Mu, Lamda);
    ScaledStressOfZero(F, data.InitialVolume, InvDx);
  }

  // ---------------------------------------------------------------- particle to grid

  /** Per-particle constants of P2G: the stencil, mass, momentum (w forced to 0) and the affine matrix. */
  datatype Scatter = Scatter(St: Stencil, Mass: real, Momentum: Vec4, Affine: Matrix4x4)

  /** `Affine`: stress times dt plus C times the mass. */
  function AffineMatrix(data: ParticlePhysicsData, Mu: real, Lamda: real, InvDx: real, DeltaTime: real, Ln: real -> real): Matrix4x4
    requires Determinant(Transpose(data.DeformGradient)) != 0.0
  {
    MatAdd(MatScale(NeoHookeanStress(data, Mu, Lamda, InvDx, Ln), DeltaTime), MatScale(data.C, data.Mass))
  }

  /** A particle that feels no stress and has C = 0 transfers no affine momentum (with `StressAtRest`: an undeformed one). */
  lemma AffineOfNoStress(data: ParticlePhysicsData, Mu: real, Lamda: real, InvDx: real, DeltaTime: real, Ln: real -> real)
    requires Determinant(Transpose(data.DeformGradient)) != 0.0 && data.C == Zero()
    requires NeoHookeanStress(data, Mu, Lamda, InvDx, Ln) == Zero()
    ensures AffineMatrix(data, Mu, Lamda, InvDx, DeltaTime, Ln) == Zero()
  {
    assert MatScale(Zero(), DeltaTime) == Zero();
    assert MatScale(Zero(), data.Mass) == Zero();
  }

  /** `Momentum`: velocity times mass, with w then set to 0. */
  function MomentumOf(particle: ParticleRenderData, data: ParticlePhysicsData): (m: Vec4)
    ensures m.w == 0.0
  {
    Vec4Scale(particle.Velocity, data.Mass).(w := 0.0)
  }

  /** `CellDistance`: the offset from the particle to stencil cell k = 3x + y, in world units, with w = 0. */
  function CellDistance(st: Stencil, DX: real, k: nat): Vec4
    requires k < 9
  {
    Vec4Scale(Vec4((k / 3) as real - st.CellDifference.x, (k % 3) as real - st.CellDifference.y, 0.0, 0.0), DX)
  }

  /** `(Momentum + AffineByDistance) * Weight`: the momentum stencil cell k receives; its w is 0. */
  function ScatterMomentum(s: Scatter, DX: real, k: nat): Vec4
    requires |s.St.Weights| == 3 && k < 9
  {
    var affineByDistance := MatVec(s.Affine, CellDistance(s.St, DX, k));
    Vec4Scale(Vec4Add(s.Momentum, affineByDistance), StencilWeight(s.St.Weights, k))
  }

  /**
   * What stencil cell k of one particle receives: (momentum + Affine *
   * CellDistance) times the weight in x, y, z, and mass times the weight in w.
   */
  function CellContribution(s: Scatter, DX: real, k: nat): (c: Vec4)
    requires |s.St.Weights| == 3 && k < 9
    ensures c.w == s.Mass * StencilWeight(s.St.Weights, k)
  {
    ScatterMomentum(s, DX, k).(w := s.Mass * StencilWeight(s.St.Weights, k))
  }

  /** The nine contributions of one particle, one per stencil cell. */
  function Contributions(s: Scatter, DX: real): (cs: seq<Vec4>)
    requires |s.St.Weights| == 3
    ensures |cs| == 9 && forall k :: 0 <= k < 9 ==> cs[k] == CellContribution(s, DX, k)
  {
    seq(9, k requires 0 <= k < 9 => CellContribution(s, DX, k))
  }

  /**
   * One P2G update of a cell: `VelocityMass.w += Mass * Weight` and then
   * `VelocityMass += (Momentum + AffineByDistance) * Weight`, which keeps
   * the new w. The padding is untouched.
   */
  function AddToCell(cell: GridCell, c: Vec4): (r: GridCell)
    ensures r.VelocityMass.w == cell.VelocityMass.w + c.w
    ensures r.(VelocityMass := cell.VelocityMass) == cell
  {
    var vm := cell.VelocityMass.(w := cell.VelocityMass.w + c.w);
    cell.(VelocityMass := Vec4AddAssign(vm, c.(w := 0.0)))
  }

  /** The grid after stencil cells 0 .. n-1 at ci have received the contributions cs; the grid keeps its size. */
  function ScatterStencil(g: seq<GridCell>, R: int, ci: Vec2i, cs: seq<Vec4>, n: nat): (r: seq<GridCell>)
    requires |g| == R * R && StencilInside(ci, R) && |cs| == 9 && n <= 9
    ensures |r| == |g|
  {
    if n == 0 then g
    else
      var prev := ScatterStencil(g, R, ci, cs, n - 1);
      var i := StencilIndex(ci, R, n - 1);
      StencilIndexInGrid(ci, R, n - 1);
      prev[i := AddToCell(prev[i], cs[n - 1])]
  }

  /** The solver's fixed quantities: resolution, cell width and its inverse, domain size, Lame parameters. */
  datatype Domain = Domain(R: int, DX: real, InvDx: real, Size: real, Mu: real, Lamda: real)

  /** What P2G and G2P need of every particle: its stencil inside the grid and an invertible F. */
  predicate Simulable(dom: Domain, particles: seq<ParticleRenderData>, data: seq<ParticlePhysicsData>) {
    |particles| <= |data|
    && (forall p :: 0 <= p < |particles| ==> StencilInside(CellIndexOf(particles[p].Position, dom.InvDx), dom.R))
    && (forall p :: 0 <= p < |particles| ==> Determinant(Transpose(data[p].DeformGradient)) != 0.0)
  }

  /** The P2G constants of one particle. */
  function ScatterOf(dom: Domain, particle: ParticleRenderData, data: ParticlePhysicsData, DeltaTime: real, Ln: real -> real): (s: Scatter)
    requires Determinant(Transpose(data.DeformGradient)) != 0.0
    ensures s.Mass == data.Mass && s.Momentum.w == 0.0
    ensures s.St == StencilOf(particle.Position, dom.InvDx)
  {
    Scatter(StencilOf(particle.Position, dom.InvDx), data.Mass, MomentumOf(particle, data),
            AffineMatrix(data, dom.Mu, dom.Lamda, dom.InvDx, DeltaTime, Ln))
  }

  // ---------------------------------------------------------------- mass

  /** The grid's total mass: the sum of the w channels. */
  function TotalMass(g: seq<GridCell>): real {
    if |g| == 0 then 0.0 else TotalMass(g[..|g| - 1]) + g[|g| - 1].VelocityMass.w
  }

  /** The particles' total mass. */
  function SumMass(data: seq<ParticlePhysicsData>): real {
    if |data| == 0 then 0.0 else SumMass(data[..|data| - 1]) + data[|data| - 1].Mass
  }

  /** The first n masses are the first n - 1 plus the n-th. */
  lemma SumMassPrefix(data: seq<ParticlePhysicsData>, n: nat)
    requires 0 < n <= |data|
    ensures SumMass(data[..n]) == SumMass(data[..n - 1]) + data[n - 1].Mass
  {
    assert data[..n][..n - 1] == data[..n - 1];
  }

  /** Replacing one cell changes the total mass by the difference of the two masses. */
  lemma {:induction false} TotalMassUpdate(g: seq<GridCell>, i: nat, c: GridCell)
    requires i < |g|
    ensures TotalMass(g[i := c]) == TotalMass(g) - g[i].VelocityMass.w + c.VelocityMass.w
  {
    var h := g[i := c];
    if i < |g| - 1 {
      assert h[..|h| - 1] == g[..|g| - 1][i := c];
      TotalMassUpdate(g[..|g| - 1], i, c);
    } else {
      assert h[..|h| - 1] == g[..|g| - 1];
    }
  }

  /** Two grids whose cells have the same masses have the same total mass. */
  lemma {:induction false} TotalMassSameMasses(g: seq<GridCell>, h: seq<GridCell>)
    requires |g| == |h|
    requires forall i :: 0 <= i < |g| ==> g[i].VelocityMass.w == h[i].VelocityMass.w
    ensures TotalMass(g) == TotalMass(h)
  {
    if |g| > 0 {
      TotalMassSameMasses(g[..|g| - 1], h[..|h| - 1]);
    }
  }

  /** Two particle lists with the same masses have the same total mass. */
  lemma {:induction false} SumMassSameMasses(a: seq<ParticlePhysicsData>, b: seq<ParticlePhysicsData>)
    requires |a| == |b|
    requires forall i :: 0 <= i < |a| ==> a[i].Mass == b[i].Mass
    ensures SumMass(a) == SumMass(b)
  {
    if |a| > 0 {
      SumMassSameMasses(a[..|a| - 1], b[..|b| - 1]);
    }
  }

  /** The mass m spread over stencil cells 0 .. n-1: m times each cell's weight, summed. */
  function MassShare(m: real, w: seq<Vec2>, n: nat): real
    requires |w| == 3 && n <= 9
  {
    if n == 0 then 0.0 else MassShare(m, w, n - 1) + m * StencilWeight(w, n - 1)
  }

  /** The shares of n cells add up to m times the sum of their weights. */
  lemma {:induction false} MassShareFactors(m: real, w: seq<Vec2>, n: nat)
    requires |w| == 3 && n <= 9
    ensures MassShare(m, w, n) == m * StencilWeightSum(w, n)
  {
    if n > 0 {
      MassShareFactors(m, w, n - 1);
    }
  }

  /** The mass carried by the first n contributions: the sum of their w. */
  function ContributionMass(cs: seq<Vec4>, n: nat): real
    requires n <= |cs|
  {
    if n == 0 then 0.0 else ContributionMass(cs, n - 1) + cs[n - 1].w
  }

  /** Contributions that each carry mass m times their cell's weight carry m's share of the mass. */
  lemma {:induction false} ContributionsMass(cs: seq<Vec4>, m: real, w: seq<Vec2>, n: nat)
    requires |cs| == 9 && |w| == 3 && n <= 9
    requires forall k :: 0 <= k < 9 ==> cs[k].w == m * StencilWeight(w, k)
    ensures ContributionMass(cs, n) == MassShare(m, w, n)
  {
    if n > 0 {
      ContributionsMass(cs, m, w, n - 1);
    }
  }

  /** Scattering to n stencil cells adds exactly the mass the first n contributions carry. */
  lemma {:induction false} ScatterStencilMass(g: seq<GridCell>, R: int, ci: Vec2i, cs: seq<Vec4>, n: nat)
    requires |g| == R * R && StencilInside(ci, R) && |cs| == 9 && n <= 9
    ensures TotalMass(ScatterStencil(g, R, ci, cs, n)) == TotalMass(g) + ContributionMass(cs, n)
  {
    if n > 0 {
      ScatterStencilMass(g, R, ci, cs, n - 1);
      var prev := ScatterStencil(g, R, ci, cs, n - 1);
      var i := StencilIndex(ci, R, n - 1);
      StencilIndexInGrid(ci, R, n - 1);
      TotalMassUpdate(prev, i, AddToCell(prev[i], cs[n - 1]));
    }
  }

  /** A particle's nine contributions carry exactly its mass: its weights sum to 1. */
  lemma ParticleContributionMass(s: Scatter, DX: real)
    requires s.St.Weights == QuadraticWeights(s.St.CellDifference)
    ensures ContributionMass(Contributions(s, DX), 9) == s.Mass
  {
    ContributionsMass(Contributions(s, DX), s.Mass, s.St.Weights, 9);
    MassShareFactors(s.Mass, s.St.Weights, 9);
    StencilWeightsSumToOne(s.St.CellDifference);
  }

  /** The grid after P2G has scattered the first n particles, each with its `ScatterOf` constants. */
  function ScatterParticles(g: seq<GridCell>, dom: Domain, particles: seq<ParticleRenderData>, data: seq<ParticlePhysicsData>,
                            DeltaTime: real, Ln: real -> real, n: nat): (r: seq<GridCell>)
    requires |g| == dom.R * dom.R && Simulable(dom, particles, data) && n <= |particles|
    ensures |r| == |g|
  {
    if n == 0 then g
    else
      var s := ScatterOf(dom, particles[n - 1], data[n - 1], DeltaTime, Ln);
      ScatterStencil(ScatterParticles(g, dom, particles, data, DeltaTime, Ln, n - 1), dom.R, s.St.CellIndex, Contributions(s, dom.DX), 9)
  }

  /** Scattering particle n, whose constants are s, extends the grid of the first n particles by its stencil. */
  lemma ScatterParticlesNext(g: seq<GridCell>, dom: Domain, particles: seq<ParticleRenderData>, data: seq<ParticlePhysicsData>,
                             DeltaTime: real, Ln: real -> real, n: nat, s: Scatter)
    requires |g| == dom.R * dom.R && Simulable(dom, particles, data) && n < |particles|
    requires s == ScatterOf(dom, particles[n], data[n], DeltaTime, Ln)
    ensures StencilInside(s.St.CellIndex, dom.R)
    ensures ScatterParticles(g, dom, particles, data, DeltaTime, Ln, n + 1)
      == ScatterStencil(ScatterParticles(g, dom, particles, data, DeltaTime, Ln, n), dom.R, s.St.CellIndex, Contributions(s, dom.DX), 9)
  {
  }

  /** Scattering one particle's constants adds exactly its mass to the grid. */
  lemma ParticleScatterMass(g: seq<GridCell>, R: int, DX: real, s: Scatter)
    requires |g| == R * R && StencilInside(s.St.CellIndex, R) && s.St.Weights == QuadraticWeights(s.St.CellDifference)
    ensures TotalMass(ScatterStencil(g, R, s.St.CellIndex, Contributions(s, DX), 9)) == TotalMass(g) + s.Mass
  {
    ScatterStencilMass(g, R, s.St.CellIndex, Contributions(s, DX), 9);
    ParticleContributionMass(s, DX);
  }

  /** Scattering particle n adds exactly its mass to the grid. */
  lemma ScatterParticlesMassStep(g: seq<GridCell>, dom: Domain, particles: seq<ParticleRenderData>,
                                 data: seq<ParticlePhysicsData>, DeltaTime: real, Ln: real -> real, n: nat)
    requires |g| == dom.R * dom.R && Simulable(dom, particles, data) && n < |particles|
    ensures TotalMass(ScatterParticles(g, dom, particles, data, DeltaTime, Ln, n + 1))
      == TotalMass(ScatterParticles(g, dom, particles, data, DeltaTime, Ln, n)) + data[n].Mass
  {
    var s := ScatterOf(dom, particles[n], data[n], DeltaTime, Ln);
    ScatterParticlesNext(g, dom, particles, data, DeltaTime, Ln, n, s);
    ParticleScatterMass(ScatterParticles(g, dom, particles, data, DeltaTime, Ln, n), dom.R, dom.DX, s);
  }

  /** P2G conserves mass: the grid gains exactly the total mass of the first n particles. */
  lemma {:induction false} ScatterParticlesMass(g: seq<GridCell>, dom: Domain, particles: seq<ParticleRenderData>,
                                                data: seq<ParticlePhysicsData>, DeltaTime: real, Ln: real -> real, n: nat)
    requires |g| == dom.R * dom.R && Simulable(dom, particles, data) && n <= |particles|
    ensures TotalMass(ScatterParticles(g, dom, particles, data, DeltaTime, Ln, n)) == TotalMass(g) + SumMass(data[..n])
  {
    if n > 0 {
      ScatterParticlesMass(g, dom, particles, data, DeltaTime, Ln, n - 1);
      ScatterParticlesMassStep(g, dom, particles, data, DeltaTime, Ln, n - 1);
      SumMassPrefix(data, n);
    }
  }

  // ---------------------------------------------------------------- grid update

  /** The reset before P2G: velocity and mass zeroed, padding kept. */
  function ClearedCell(c: GridCell): GridCell {
    c.(VelocityMass := Vec4(0.0, 0.0, 0.0, 0.0))
  }

  /** A cleared grid holds no mass. */
  lemma {:induction false} ClearedGridMass(g: seq<GridCell>)
    requires forall i :: 0 <= i < |g| ==> g[i] == ClearedCell(g[i])
    ensures TotalMass(g) == 0.0
  {
    if |g| > 0 {
      ClearedGridMass(g[..|g| - 1]);
    }
  }

  /**
   * The grid update of cell i on an R x R grid. A cell with mass above the
   * threshold has its momentum divided by its mass, gravity added to y, and
   * its x (y) velocity zeroed in the two outermost columns (rows) on either
   * side; the mass itself never changes, and a lighter cell is untouched.
   */
  function UpdateCell(c: GridCell, i: nat, R: int, DeltaTime: real): (r: GridCell)
    requires R > 0
    ensures r.VelocityMass.w == c.VelocityMass.w
    ensures r.(VelocityMass := c.VelocityMass) == c
    ensures c.VelocityMass.w <= MassEpsilon ==> r == c
    ensures c.VelocityMass.w > MassEpsilon ==>
      && r.VelocityMass.x == (if i / R < 2 || i / R > R - 3 then 0.0 else c.VelocityMass.x / c.VelocityMass.w)
      && r.VelocityMass.y == (if i % R < 2 || i % R > R - 3 then 0.0
                              else c.VelocityMass.y / c.VelocityMass.w - GravityAcceleration * DeltaTime)
      && r.VelocityMass.z == c.VelocityMass.z / c.VelocityMass.w
  {
    var vm := c.VelocityMass;
    if vm.w > MassEpsilon then
      var gravity := Vec4(0.0, -GravityAcceleration * DeltaTime, 0.0, 0.0);
      var v := Vec4AddAssign(Vec4(vm.x / vm.w, vm.y / vm.w, vm.z / vm.w, vm.w), gravity);
      var X := i / R;
      var Y := i % R;
      var vx := if X < 2 || X > R - 3 then v.(x := 0.0) else v;
      var vy := if Y < 2 || Y > R - 3 then vx.(y := 0.0) else vx;
      c.(VelocityMass := vy)
    else
      c
  }

  /** The grid update leaves every cell's mass, and so the total mass, as it was. */
  lemma GridUpdateMass(g: seq<GridCell>, h: seq<GridCell>, R: int, DeltaTime: real)
    requires R > 0 && |h| == |g|
    requires forall i :: 0 <= i < |g| ==> h[i] == UpdateCell(g[i], i, R, DeltaTime)
    ensures TotalMass(h) == TotalMass(g)
  {
    TotalMassSameMasses(g, h);
  }

  // ---------------------------------------------------------------- grid to particle

  /** The velocity carried in a `VelocityMass`: its x, y, z, with w = 0. */
  function VelocityPart(v: Vec4): Vec4 {
    Vec4(v.x, v.y, v.z, 0.0)
  }

  /** `WeightedVelocity`: the cell's velocity times the weight, with w = 0. */
  function WeightedVelocity(cell: GridCell, weight: real): (v: Vec4)
    ensures v.w == 0.0
  {
    Vec4Scale(VelocityPart(cell.VelocityMass), weight)
  }

  /** The grid cell under stencil cell k. */
  function StencilCell(g: seq<GridCell>, R: int, ci: Vec2i, k: nat): GridCell
    requires |g| == R * R && StencilInside(ci, R) && k < 9
  {
    StencilIndexInGrid(ci, R, k);
    g[StencilIndex(ci, R, k)]
  }

  /** The weighted velocity of stencil cell k. */
  function StencilVelocity(g: seq<GridCell>, R: int, st: Stencil, k: nat): Vec4
    requires |g| == R * R && StencilInside(st.CellIndex, R) && |st.Weights| == 3 && k < 9
  {
    WeightedVelocity(StencilCell(g, R, st.CellIndex, k), StencilWeight(st.Weights, k))
  }

  /** The particle velocity after stencil cells 0 .. n-1: `Vec4()` plus their weighted velocities. */
  function GatherVelocity(g: seq<GridCell>, R: int, st: Stencil, n: nat): Vec4
    requires |g| == R * R && StencilInside(st.CellIndex, R) && |st.Weights| == 3 && n <= 9
  {
    if n == 0 then Origin()
    else Vec4AddAssign(GatherVelocity(g, R, st, n - 1), StencilVelocity(g, R, st, n - 1))
  }

  /** B after stencil cells 0 .. n-1: the zero matrix plus each weighted velocity's `OuterProduct` with `CellDistance`, times InvDx. */
  function GatherB(g: seq<GridCell>, R: int, DX: real, InvDx: real, st: Stencil, n: nat): Matrix4x4
    requires |g| == R * R && StencilInside(st.CellIndex, R) && |st.Weights| == 3 && n <= 9
  {
    if n == 0 then Zero()
    else MatAdd(GatherB(g, R, DX, InvDx, st, n - 1),
                MatScale(OuterProduct(StencilVelocity(g, R, st, n - 1), CellDistance(st, DX, n - 1)), InvDx))
  }

  /**
   * The particle's new position: moved by velocity times dt, then x and y
   * clamped to [DX, Size - DX] as written; z moves freely and w is kept.
   */
  function AdvectedPosition(position: Vec4, velocity: Vec4, DeltaTime: real, DX: real, Size: real): (r: Vec4)
    ensures r.z == position.z + velocity.z * DeltaTime && r.w == position.w
    ensures DX <= Size - DX ==> DX <= r.x <= Size - DX && DX <= r.y <= Size - DX
    ensures var m := position.x + velocity.x * DeltaTime; DX <= m <= Size - DX ==> r.x == m
    ensures var m := position.y + velocity.y * DeltaTime; DX <= m <= Size - DX ==> r.y == m
  {
    var moved := Vec4AddAssign(position, Vec4Scale(velocity, DeltaTime));
    moved.(x := ClampCoordinate(moved.x, DX, Size), y := ClampCoordinate(moved.y, DX, Size))
  }

  /**
   * The corrected advection: the same move, clamped with the upper edge
   * `Size - 2 DX`, so on a grid of at least 3 cells the particle's next
   * stencil stays inside the grid.
   */
  function AdvectedPositionFixed(position: Vec4, velocity: Vec4, DeltaTime: real, p: FluidParameters): (r: Vec4)
    requires WellFormedParameters(p) && p.Dx > 0.0 && p.GridResolution >= 3
    ensures r.z == position.z + velocity.z * DeltaTime && r.w == position.w
    ensures StencilInside(CellIndexOf(r, p.InvDx), p.GridResolution)
  {
    var moved := Vec4AddAssign(position, Vec4Scale(velocity, DeltaTime));
    ClampedFixedInside(moved, p);
    moved.(x := ClampCoordinateFixed(moved.x, p.Dx, p.GridSize), y := ClampCoordinateFixed(moved.y, p.Dx, p.GridSize))
  }

  /** Both axes clamped by the corrected rule put the stencil inside the grid. */
  lemma ClampedFixedInside(v: Vec4, p: FluidParameters)
    requires WellFormedParameters(p) && p.Dx > 0.0 && p.GridResolution >= 3
    ensures StencilInside(CellIndexOf(v.(x := ClampCoordinateFixed(v.x, p.Dx, p.GridSize),
                                          y := ClampCoordinateFixed(v.y, p.Dx, p.GridSize)), p.InvDx), p.GridResolution)
  {
    ClampFixedKeepsStencilInside(v.x, p);
    ClampFixedKeepsStencilInside(v.y, p);
    InsideOfAxes(v, ClampCoordinateFixed(v.x, p.Dx, p.GridSize), ClampCoordinateFixed(v.y, p.Dx, p.GridSize),
                 p.InvDx, p.GridResolution);
  }

  /** A position inside on both axes has its stencil inside. */
  lemma InsideOfAxes(v: Vec4, x: real, y: real, InvDx: real, R: int)
    requires AxisInside(x, InvDx, R) && AxisInside(y, InvDx, R)
    ensures StencilInside(CellIndexOf(v.(x := x, y := y), InvDx), R)
  {
    assert CellIndexOf(v.(x := x, y := y), InvDx) == Vec2i(Trunc(x * InvDx - 0.5), Trunc(y * InvDx - 0.5));
  }

  /** `(Identity + C dt) F`: the deformation gradient after one step. */
  function UpdatedDeformation(C: Matrix4x4, DeltaTime: real, F: Matrix4x4): Matrix4x4 {
    Mult(MatAdd(Identity(), MatScale(C, DeltaTime)), F)
  }

  /** A particle with C = 0 keeps its deformation gradient. */
  lemma UpdatedDeformationStill(DeltaTime: real, F: Matrix4x4)
    ensures UpdatedDeformation(Zero(), DeltaTime, F) == F
  {
    assert MatAdd(Identity(), MatScale(Zero(), DeltaTime)) == Identity();
    MultIdentityLeft(F);
  }

  /**
   * G2P for one particle: velocity from the grid, C = 4 B, the advected
   * position and F := (Identity + C dt) F. Mass and rest volume are kept.
   */
  function GatherParticle(g: seq<GridCell>, dom: Domain, particle: ParticleRenderData, data: ParticlePhysicsData,
                          DeltaTime: real): (r: (ParticleRenderData, ParticlePhysicsData))
    requires |g| == dom.R * dom.R && StencilInside(CellIndexOf(particle.Position, dom.InvDx), dom.R)
    ensures r.1.Mass == data.Mass && r.1.InitialVolume == data.InitialVolume
    ensures r.0.Position == AdvectedPosition(particle.Position, r.0.Velocity, DeltaTime, dom.DX, dom.Size)
    ensures r.0.Position.w == particle.Position.w
    ensures dom.DX <= dom.Size - dom.DX ==> dom.DX <= r.0.Position.x <= dom.Size - dom.DX && dom.DX <= r.0.Position.y <= dom.Size - dom.DX
  {
    var st := StencilOf(particle.Position, dom.InvDx);
    var velocity := GatherVelocity(g, dom.R, st, 9);
    var C := MatScale(GatherB(g, dom.R, dom.DX, dom.InvDx, st, 9), 4.0);
    (ParticleRenderData(AdvectedPosition(particle.Position, velocity, DeltaTime, dom.DX, dom.Size), velocity),
     data.(C := C, DeformGradient := UpdatedDeformation(C, DeltaTime, data.DeformGradient)))
  }

  /** Every cell of the stencil at ci moves with velocity u in x, y, z. */
  predicate UniformStencil(g: seq<GridCell>, ci: Vec2i, R: int, u: Vec4)
    requires |g| == R * R && StencilInside(ci, R)
  {
    forall k :: 0 <= k < 9 ==> VelocityPart(StencilCell(g, R, ci, k).VelocityMass) == VelocityPart(u)
  }

  /** What G2P gathers after n stencil cells that all move with velocity u. */
  function UniformGather(u: Vec4, w: seq<Vec2>, n: nat): Vec4
    requires |w| == 3 && n <= 9
  {
    if n == 0 then Origin()
    else Vec4AddAssign(UniformGather(u, w, n - 1), Vec4Scale(VelocityPart(u), StencilWeight(w, n - 1)))
  }

  /** Over a stencil moving with velocity u, the gathered velocity only depends on u and the weights. */
  lemma {:induction false} GatherUniformVelocity(g: seq<GridCell>, R: int, st: Stencil, n: nat, u: Vec4)
    requires |g| == R * R && StencilInside(st.CellIndex, R) && |st.Weights| == 3 && n <= 9
    requires UniformStencil(g, st.CellIndex, R, u)
    ensures GatherVelocity(g, R, st, n) == UniformGather(u, st.Weights, n)
  {
    if n > 0 {
      GatherUniformVelocity(g, R, st, n - 1, u);
    }
  }

  /** Scaling a vector by s and by t and adding is scaling it by s + t. */
  lemma Vec4ScaleDistributes(a: Vec4, s: real, t: real)
    ensures Vec4Add(Vec4Scale(a, s), Vec4Scale(a, t)) == Vec4Scale(a, s + t)
  {
  }

  /** The uniform gather is `Vec4()` plus u times the sum of the first n weights. */
  lemma {:induction false} UniformGatherScales(u: Vec4, w: seq<Vec2>, n: nat)
    requires |w| == 3 && n <= 9
    ensures UniformGather(u, w, n) == Vec4AddAssign(Origin(), Vec4Scale(VelocityPart(u), StencilWeightSum(w, n)))
  {
    if n > 0 {
      UniformGatherScales(u, w, n - 1);
      var a := VelocityPart(u);
      Vec4AddAssignTwice(Origin(), Vec4Scale(a, StencilWeightSum(w, n - 1)), Vec4Scale(a, StencilWeight(w, n - 1)));
      Vec4ScaleDistributes(a, StencilWeightSum(w, n - 1), StencilWeight(w, n - 1));
    }
  }

  /** A particle inside a uniformly moving region of the grid takes exactly that velocity (and w = 1). */
  lemma GatherReproducesUniformVelocity(g: seq<GridCell>, dom: Domain, particle: ParticleRenderData, data: ParticlePhysicsData,
                                        DeltaTime: real, u: Vec4)
    requires |g| == dom.R * dom.R && StencilInside(CellIndexOf(particle.Position, dom.InvDx), dom.R)
    requires UniformStencil(g, CellIndexOf(particle.Position, dom.InvDx), dom.R, u)
    ensures GatherParticle(g, dom, particle, data, DeltaTime).0.Velocity == Vec4(u.x, u.y, u.z, 1.0)
  {
    var st := StencilOf(particle.Position, dom.InvDx);
    GatherUniformVelocity(g, dom.R, st, 9, u);
    UniformGatherScales(u, st.Weights, 9);
    StencilWeightsSumToOne(st.CellDifference);
  }

  /** Over a motionless stencil B stays the zero matrix. */
  lemma {:induction false} GatherStillB(g: seq<GridCell>, R: int, DX: real, InvDx: real, st: Stencil, n: nat)
    requires |g| == R * R && StencilInside(st.CellIndex, R) && |st.Weights| == 3 && n <= 9
    requires UniformStencil(g, st.CellIndex, R, Vec4(0.0, 0.0, 0.0, 0.0))
    ensures GatherB(g, R, DX, InvDx, st, n) == Zero()
  {
    if n > 0 {
      GatherStillB(g, R, DX, InvDx, st, n - 1);
      var wv := StencilVelocity(g, R, st, n - 1);
      assert wv == Vec4(0.0, 0.0, 0.0, 0.0);
      assert OuterProduct(wv, CellDistance(st, DX, n - 1)) == Zero();
    }
  }

  /** Over a motionless stencil the gathered velocity stays `Vec4()`. */
  lemma UniformGatherStill(w: seq<Vec2>)
    requires |w| == 3
    ensures UniformGather(Vec4(0.0, 0.0, 0.0, 0.0), w, 9) == Origin()
  {
    UniformGatherScales(Vec4(0.0, 0.0, 0.0, 0.0), w, 9);
  }

  /** A particle that does not move is only clamped. */
  lemma AdvectedPositionStill(position: Vec4, DeltaTime: real, DX: real, Size: real)
    ensures AdvectedPosition(position, Origin(), DeltaTime, DX, Size)
         == position.(x := ClampCoordinate(position.x, DX, Size), y := ClampCoordinate(position.y, DX, Size))
  {
  }

  /**
   * A particle over a motionless stencil keeps its deformation gradient,
   * gets C = 0 and velocity `Vec4()`, and is only clamped in place.
   */
  lemma GatherAtRest(g: seq<GridCell>, dom: Domain, particle: ParticleRenderData, data: ParticlePhysicsData, DeltaTime: real)
    requires |g| == dom.R * dom.R && StencilInside(CellIndexOf(particle.Position, dom.InvDx), dom.R)
    requires UniformStencil(g, CellIndexOf(particle.Position, dom.InvDx), dom.R, Vec4(0.0, 0.0, 0.0, 0.0))
    ensures var r := GatherParticle(g, dom, particle, data, DeltaTime);
      && r.0.Velocity == Origin()
      && r.1 == data.(C := Zero())
      && r.0.Position == particle.Position.(x := ClampCoordinate(particle.Position.x, dom.DX, dom.Size),
                                            y := ClampCoordinate(particle.Position.y, dom.DX, dom.Size))
  {
    var st := StencilOf(particle.Position, dom.InvDx);
    GatherUniformVelocity(g, dom.R, st, 9, Vec4(0.0, 0.0, 0.0, 0.0));
    GatherStillB(g, dom.R, dom.DX, dom.InvDx, st, 9);
    UniformGatherStill(st.Weights);
    assert MatScale(Zero(), 4.0) == Zero();
    UpdatedDeformationStill(DeltaTime, data.DeformGradient);
    AdvectedPositionStill(particle.Position, DeltaTime, dom.DX, dom.Size);
  }

  // ---------------------------------------------------------------- dispatch

  /** `ceil(n / GROUP_SIZE)`: the fewest thread groups of 64 that cover n items. */
  function DispatchGroups(n: nat): (groups: nat)
    ensures groups * GroupSize >= n
    ensures groups == 0 || (groups - 1) * GroupSize < n
  {
    (n + GroupSize - 1) / GroupSize
  }
}
