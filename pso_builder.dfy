/**
 * The pipeline-state builder: chained setters that fill in shaders, the
 * input layout, the render-target formats (a fixed array of eight) and the
 * root parameters, whose constant and constant-buffer parameters take
 * shader registers 0, 1, 2, ... in call order. Root signatures are kept in
 * class-wide statics shared by every builder. Blobs, input elements, ranges
 * and created D3D objects are opaque ids; the device always succeeds.
 */
module PSO {

  import opened Wrappers

  /** Size of `D3D12_RT_FORMAT_ARRAY::RTFormats`. */
  const MaxRenderTargets: nat := 8
  /** `D3D12_PRIMITIVE_TOPOLOGY_TYPE_TRIANGLE`, the default primitive type. */
  const TriangleTopology: nat := 3
  /** `DXGI_FORMAT_UNKNOWN`, what a value-initialised format array holds. */
  const FormatUnknown: nat := 0
  /** `DXGI_FORMAT_D32_FLOAT`, the depth format of every graphics pipeline. */
  const DepthFormatD32Float: nat := 40

  /** A root parameter: 32-bit constants, a descriptor table, or a root CBV. */
  datatype RootParameter =
    | Constants(ShaderRegister: nat, RegisterSpace: nat, Num32BitValues: nat)
    | DescriptorTable(NumRanges: nat, Ranges: nat)
    | ConstantBufferView(ShaderRegister: nat, RegisterSpace: nat)
  {
    /** Whether the parameter binds a `b` shader register. */
    predicate UsesRegister() {
      Constants? || ConstantBufferView?
    }
  }

  /** How many of the parameters bind a shader register. */
  function RegisterCount(ps: seq<RootParameter>): (n: nat)
    ensures n <= |ps|
  {
    if ps == [] then 0
    else RegisterCount(ps[..|ps| - 1]) + (if ps[|ps| - 1].UsesRegister() then 1 else 0)
  }

  /** Each register-binding parameter uses the register numbered by the binding parameters before it. */
  ghost predicate RegistersInOrder(ps: seq<RootParameter>) {
    ps == [] ||
    (RegistersInOrder(ps[..|ps| - 1]) &&
     (ps[|ps| - 1].UsesRegister() ==> ps[|ps| - 1].ShaderRegister == RegisterCount(ps[..|ps| - 1])))
  }

  /** Appending a parameter that takes the next register keeps registers in order and counts one more. */
  lemma RegistersAppend(ps: seq<RootParameter>, p: RootParameter)
    requires RegistersInOrder(ps)
    requires p.UsesRegister() ==> p.ShaderRegister == RegisterCount(ps)
    ensures RegistersInOrder(ps + [p])
    ensures RegisterCount(ps + [p]) == RegisterCount(ps) + (if p.UsesRegister() then 1 else 0)
  {
    assert (ps + [p])[..|ps|] == ps;
  }

  /** Registers in order: the parameter at any position uses the count of binding parameters before it. */
  lemma {:induction false} RegisterAt(ps: seq<RootParameter>, i: nat)
    requires RegistersInOrder(ps) && i < |ps| && ps[i].UsesRegister()
    ensures ps[i].ShaderRegister == RegisterCount(ps[..i])
  {
    if i < |ps| - 1 {
      var front := ps[..|ps| - 1];
      RegisterAt(front, i);
      assert front[..i] == ps[..i];
    }
  }

  /** Binding parameters further on have strictly more binding parameters before them. */
  lemma {:induction false} RegisterCountGrows(ps: seq<RootParameter>, i: nat, j: nat)
    requires i < j <= |ps| && ps[i].UsesRegister()
    ensures RegisterCount(ps[..i]) < RegisterCount(ps[..j])
  {
    if j == i + 1 {
      assert ps[..j][..i] == ps[..i];
    } else {
      RegisterCountGrows(ps, i, j - 1);
      assert ps[..j][..j - 1] == ps[..j - 1];
    }
  }

  /** Registers in order are distinct: later parameters use higher registers. */
  lemma RegistersDistinct(ps: seq<RootParameter>, i: nat, j: nat)
    requires RegistersInOrder(ps) && i < j < |ps| && ps[i].UsesRegister() && ps[j].UsesRegister()
    ensures ps[i].ShaderRegister < ps[j].ShaderRegister
  {
    RegisterAt(ps, i);
    RegisterAt(ps, j);
    RegisterCountGrows(ps, i, j);
  }

  /** A created root signature and the parameters it was serialised from. */
  datatype RootSignature = RootSignature(Id: nat, Parameters: seq<RootParameter>)

  /** What `BuildGraphics` hands the device. */
  datatype GraphicsStream = GraphicsStream(
    RootSignature: Option<RootSignature>, VertexShader: Option<nat>, FragmentShader: Option<nat>,
    InputLayout: seq<nat>, PrimitiveTopologyType: nat, RTFormats: seq<nat>, NumRenderTargets: nat,
    DepthStencilFormat: nat)

  /** What `BuildCompute` hands the device. */
  datatype ComputeStream = ComputeStream(RootSignature: Option<RootSignature>, ComputeShader: Option<nat>)

  /** Every field of a builder, as one value. */
  datatype BuilderState = BuilderState(
    ComputeShaderBlob: Option<nat>, VertexShaderBlob: Option<nat>, FragmentShaderBlob: Option<nat>,
    InputLayout: seq<nat>, RootParameters: seq<RootParameter>, PrimitiveType: nat,
    RTFormats: seq<nat>, NumRenderTargets: nat, ConstantBufferCount: nat)

  /** `PSOBuilder::GraphicsRootSignature` and `ComputeRootSignature`: one pair for all builders. */
  class RootSignatureStatics {
    var Graphics: Option<RootSignature>
    var Compute: Option<RootSignature>

    /** Before any build both statics are null. */
    constructor()
      ensures Graphics == None && Compute == None
    {
      Graphics, Compute := None, None;
    }
  }

  class PSOBuilder {
    const Statics: RootSignatureStatics
    var ComputeShaderBlob: Option<nat>
    var VertexShaderBlob: Option<nat>
    var FragmentShaderBlob: Option<nat>
    var InputLayout: seq<nat>
    var RootParameters: seq<RootParameter>
    var PrimitiveType: nat
    const RTFormats: array<nat>
    var NumRenderTargets: nat
    var ConstantBufferCount: nat

    /** Eight format slots, at most eight used, and registers handed out in order. */
    ghost predicate Valid()
      reads this, RTFormats
    {
      RTFormats.Length == MaxRenderTargets && NumRenderTargets <= MaxRenderTargets
      && ConstantBufferCount == RegisterCount(RootParameters) && RegistersInOrder(RootParameters)
    }

    /** The builder's fields. */
    function State(): BuilderState
      reads this, RTFormats
    {
      BuilderState(ComputeShaderBlob, VertexShaderBlob, FragmentShaderBlob, InputLayout, RootParameters,
                   PrimitiveType, RTFormats[..], NumRenderTargets, ConstantBufferCount)
    }

    /** A new builder: no shaders, no parameters, triangles, no render targets, register count 0. */
    constructor(Shared: RootSignatureStatics)
      ensures Valid() && fresh(RTFormats) && Statics == Shared
      ensures State() == BuilderState(None, None, None, [], [], TriangleTopology,
                                      seq(MaxRenderTargets, _ => FormatUnknown), 0, 0)
    {
      Statics := Shared;
      ComputeShaderBlob, VertexShaderBlob, FragmentShaderBlob := None, None, None;
      InputLayout, RootParameters := [], [];
      PrimitiveType := TriangleTopology;
      RTFormats := new nat[MaxRenderTargets](_ => FormatUnknown);
      NumRenderTargets, ConstantBufferCount := 0, 0;
    }

    /** `SetShaders`: replaces the vertex and fragment blobs only. */
    method SetShaders(VShaderBlob: nat, FShaderBlob: nat) returns (Self: PSOBuilder)
      modifies this
      ensures Self == this
      ensures State() == old(State()).(VertexShaderBlob := Some(VShaderBlob), FragmentShaderBlob := Some(FShaderBlob))
    {
      VertexShaderBlob := Some(VShaderBlob);
      FragmentShaderBlob := Some(FShaderBlob);
      return this;
    }

    /** `SetComputeShader`: replaces the compute blob only. */
    method SetComputeShader(CShaderBlob: nat) returns (Self: PSOBuilder)
      modifies this
      ensures Self == this
      ensures State() == old(State()).(ComputeShaderBlob := Some(CShaderBlob))
    {
      ComputeShaderBlob := Some(CShaderBlob);
      return this;
    }

    /** `SetPrimitiveType`: replaces the topology type only. */
    method SetPrimitiveType(Type: nat) returns (Self: PSOBuilder)
      modifies this
      ensures Self == this
      ensures State() == old(State()).(PrimitiveType := Type)
    {
      PrimitiveType := Type;
      return this;
    }

    /** `AddInputLayoutParameter`: appends the element, earlier ones kept. */
    method AddInputLayoutParameter(InputElementDesc: nat) returns (Self: PSOBuilder)
      modifies this
      ensures Self == this
      ensures State() == old(State()).(InputLayout := old(InputLayout) + [InputElementDesc])
    {
      InputLayout := InputLayout + [InputElementDesc];
      return this;
    }

    /**
     * `AddRenderTargetFormat`: with eight formats present nothing changes;
     * otherwise the format fills the next slot.
     */
    method AddRenderTargetFormat(Format: nat) returns (Self: PSOBuilder)
      requires Valid()
      modifies this, RTFormats
      ensures Self == this && Valid()
      ensures old(NumRenderTargets) >= MaxRenderTargets ==> State() == old(State())
      ensures old(NumRenderTargets) < MaxRenderTargets ==>
        State() == old(State()).(RTFormats := old(RTFormats[..])[old(NumRenderTargets) := Format],
                                 NumRenderTargets := old(NumRenderTargets) + 1)
    {
      if NumRenderTargets >= MaxRenderTargets {
        return this;
      }
      RTFormats[NumRenderTargets] := Format;
      NumRenderTargets := NumRenderTargets + 1;
      return this;
    }

    /** `AddConstantRootParameter`: 32-bit constants at the next shader register. */
    method AddConstantRootParameter(Num32BitValues: nat, RegisterSpace: nat) returns (Self: PSOBuilder)
      requires Valid()
      modifies this
      ensures Self == this && Valid()
      ensures State() == old(State()).(
        RootParameters := old(RootParameters) + [Constants(old(ConstantBufferCount), RegisterSpace, Num32BitValues)],
        ConstantBufferCount := old(ConstantBufferCount) + 1)
    {
      var RootParameter := Constants(ConstantBufferCount, RegisterSpace, Num32BitValues);
      RegistersAppend(RootParameters, RootParameter);
      RootParameters := RootParameters + [RootParameter];
      ConstantBufferCount := ConstantBufferCount + 1;
      return this;
    }

    /** `AddDescriptorTableRootParameter`: a table, which takes no shader register. */
    method AddDescriptorTableRootParameter(NumRanges: nat, Ranges: nat) returns (Self: PSOBuilder)
      requires Valid()
      modifies this
      ensures Self == this && Valid()
      ensures State() == old(State()).(RootParameters := old(RootParameters) + [DescriptorTable(NumRanges, Ranges)])
    {
      var RootParameter := DescriptorTable(NumRanges, Ranges);
      RegistersAppend(RootParameters, RootParameter);
      RootParameters := RootParameters + [RootParameter];
      return this;
    }

    /** `AddConstantBufferViewRootParameter`: a root CBV at the next shader register. */
    method AddConstantBufferViewRootParameter(RegisterSpace: nat) returns (Self: PSOBuilder)
      requires Valid()
      modifies this
      ensures Self == this && Valid()
      ensures State() == old(State()).(
        RootParameters := old(RootParameters) + [ConstantBufferView(old(ConstantBufferCount), RegisterSpace)],
        ConstantBufferCount := old(ConstantBufferCount) + 1)
    {
      var RootParameter := ConstantBufferView(ConstantBufferCount, RegisterSpace);
      RegistersAppend(RootParameters, RootParameter);
      RootParameters := RootParameters + [RootParameter];
      ConstantBufferCount := ConstantBufferCount + 1;
      return this;
    }

    /**
     * `BuildGraphicsRootSignature`: the device's root signature (`Created`)
     * for this builder's parameters overwrites the shared graphics static.
     */
    method BuildGraphicsRootSignature(Created: nat) returns (Signature: RootSignature)
      modifies Statics
      ensures Signature == RootSignature(Created, RootParameters)
      ensures Statics.Graphics == Some(Signature) && Statics.Compute == old(Statics.Compute)
    {
      Statics.Graphics := Some(RootSignature(Created, RootParameters));
      Signature := Statics.Graphics.value;
    }

    /** `BuildComputeRootSignature`: as above, for the shared compute static. */
    method BuildComputeRootSignature(Created: nat) returns (Signature: RootSignature)
      modifies Statics
      ensures Signature == RootSignature(Created, RootParameters)
      ensures Statics.Compute == Some(Signature) && Statics.Graphics == old(Statics.Graphics)
    {
      Statics.Compute := Some(RootSignature(Created, RootParameters));
      Signature := Statics.Compute.value;
    }

    /** `BuildGraphics`: the stream takes the shared graphics root signature and the builder's fields. */
    function GraphicsStreamOf(): (s: GraphicsStream)
      reads this, RTFormats, Statics
      ensures s.RootSignature == Statics.Graphics && s.DepthStencilFormat == DepthFormatD32Float
      ensures s.InputLayout == InputLayout && s.RTFormats == RTFormats[..] && s.NumRenderTargets == NumRenderTargets
    {
      GraphicsStream(Statics.Graphics, VertexShaderBlob, FragmentShaderBlob, InputLayout, PrimitiveType,
                     RTFormats[..], NumRenderTargets, DepthFormatD32Float)
    }

    /** `BuildCompute`: the shared compute root signature and the compute blob. */
    function ComputeStreamOf(): (s: ComputeStream)
      reads this, Statics
      ensures s.RootSignature == Statics.Compute && s.ComputeShader == ComputeShaderBlob
    {
      ComputeStream(Statics.Compute, ComputeShaderBlob)
    }
  }

  /**
   * The root-signature statics are shared: when two builders build in turn,
   * the first builder's pipeline uses the second builder's root signature.
   */
  method LastRootSignatureWins(First: PSOBuilder, Second: PSOBuilder, FirstId: nat, SecondId: nat)
    returns (Stream: GraphicsStream)
    requires First.Statics == Second.Statics
    modifies First.Statics
    ensures Stream.RootSignature == Some(RootSignature(SecondId, Second.RootParameters))
  {
    var _ := First.BuildGraphicsRootSignature(FirstId);
    var _ := Second.BuildGraphicsRootSignature(SecondId);
    Stream := First.GraphicsStreamOf();
  }

  /**
   * The graphics root signature the application builds at start-up: 32
   * constants at register 0, then a one-range descriptor table.
   */
  method ApplicationGraphicsRootSignature(Shared: RootSignatureStatics, Ranges: nat, Created: nat)
    returns (Signature: RootSignature)
    modifies Shared
    ensures Signature == RootSignature(Created, [Constants(0, 0, 32), DescriptorTable(1, Ranges)])
    ensures Shared.Graphics == Some(Signature)
  {
    var Builder := new PSOBuilder(Shared);
    var _ := Builder.AddConstantRootParameter(32, 0);
    assert Builder.RootParameters == [Constants(0, 0, 32)];
    var _ := Builder.AddDescriptorTableRootParameter(1, Ranges);
    assert Builder.RootParameters == [Constants(0, 0, 32), DescriptorTable(1, Ranges)];
    Signature := Builder.BuildGraphicsRootSignature(Created);
  }
}
