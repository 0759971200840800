// The pass that fills a depth buffer with mesh types: a full-screen
// triangle whose pixel shader looks up, through the material ID of each
// pixel, the mesh type of that material and writes it as depth. This model
// captures what the pass records on the CPU: the depth texture it owns, the
// barrier batch, the descriptor table and the commands of one frame.
module FillDepthBufferWithMeshType {
  import opened Gpu

  /** One state per resource the pass consumes or produces. */
  datatype ResourceStatesSet = ResourceStatesSet(
    materialIDTexture: ResourceStates,
    meshTypePerMaterialIDBuffer: ResourceStates,
    depthTextureWithMeshType: ResourceStates)

  /** Both inputs are read by the pixel shader; the depth texture is written. */
  const OutputStates: ResourceStatesSet := ResourceStatesSet(PixelShaderResource, PixelShaderResource, DepthWrite)

  datatype InitParams = InitParams(
    srvHeap: DescriptorHeap,
    inputStates: ResourceStatesSet,
    materialIDTexture: GraphicsResource,
    meshTypePerMaterialIDBuffer: GraphicsResource)

  /** The material-ID input is a colour texture: the depth texture takes its size. */
  predicate ValidInputs(p: InitParams)
  {
    p.materialIDTexture.desc.Texture2DDesc?
  }

  /** The resource-state changes the pass needs, in the order its barriers
      are created: material IDs, mesh types, then the owned depth texture. */
  function InitTransitions(p: InitParams, depth: GraphicsResource): (ts: seq<Transition>)
    ensures |ts| == 3
  {
    [Transition(p.materialIDTexture, p.inputStates.materialIDTexture, OutputStates.materialIDTexture),
     Transition(p.meshTypePerMaterialIDBuffer, p.inputStates.meshTypePerMaterialIDBuffer, OutputStates.meshTypePerMaterialIDBuffer),
     Transition(depth, p.inputStates.depthTextureWithMeshType, OutputStates.depthTextureWithMeshType)]
  }

  /** The initial barrier batch holds at most one barrier per resource, never
      a barrier whose states agree, and is empty exactly when the caller
      already supplies every resource in its required state. */
  lemma InitBarriersBound(p: InitParams, depth: GraphicsResource)
    ensures |Barriers(InitTransitions(p, depth))| <= 3
    ensures NoNoOps(Barriers(InitTransitions(p, depth)))
    ensures Barriers(InitTransitions(p, depth)) == [] <==>
      p.inputStates.materialIDTexture == PixelShaderResource &&
      p.inputStates.meshTypePerMaterialIDBuffer == PixelShaderResource &&
      p.inputStates.depthTextureWithMeshType == DepthWrite
  {
    var ts := InitTransitions(p, depth);
    BarriersExact(ts);
    BarriersEmptyIff(ts);
    assert ts[0] in ts && ts[1] in ts && ts[2] in ts;
  }

  /** The descriptor table: the material-ID texture and the mesh-type buffer,
      both as shader resources. */
  function TableViews(p: InitParams): (vs: seq<View>)
    ensures |vs| == 2
  {
    [SRVOf(p.materialIDTexture), SRVOf(p.meshTypePerMaterialIDBuffer)]
  }

  /** The root signature's descriptor table: two shader resources from register 0. */
  const TableRanges: seq<DescriptorRange> := [DescriptorRange(SRVRange, 2, 0)]

  /** The root signature's other parameter holds one 32-bit constant. */
  const NumRootConstants: nat := 1

  /** The slots written at initialisation have the kinds the root
      signature's table declares, slot for slot. */
  lemma TableMatchesRootSignature(p: InitParams)
    ensures SlotKinds(TableRanges) == Kinds(TableViews(p))
  {
    SlotKindsSingle(TableRanges[0]);
  }

  class FillDepthBufferWithMeshTypePass {
    const rootSignature: ApiObject
    const pipelineState: ApiObject
    const descriptorRanges: seq<DescriptorRange>
    var depthTextureWithMeshType: Option<GraphicsResource>
    var outputResourceStates: ResourceStatesSet
    var resourceBarriers: seq<Barrier>
    var srvHeapStart: DescriptorHandle
    var dsvHeapStart: Option<CpuHandle>

    /** What holds between construction and every Record call: the depth
      texture exists and the depth-stencil handle is its view. */
    ghost predicate Valid()
      reads this`depthTextureWithMeshType, this`dsvHeapStart
    {
      depthTextureWithMeshType.Some? && dsvHeapStart == Some(DSVOf(depthTextureWithMeshType.value))
    }

    constructor (p: InitParams)
      requires ValidInputs(p)
      requires p.srvHeap.Valid() && |p.srvHeap.slots| + 2 <= p.srvHeap.capacity
      modifies p.srvHeap
      ensures p.srvHeap.Valid() && Valid()
      ensures ResourcesInitialised(p, old(p.srvHeap.slots))
      ensures fresh(depthTextureWithMeshType.value)
      ensures descriptorRanges == TableRanges
    {
      rootSignature := new ApiObject();
      pipelineState := new ApiObject();
      // InitRootSignature only fills in a description that does not depend
      // on the resources.
      descriptorRanges := TableRanges;
      depthTextureWithMeshType := None;
      outputResourceStates := OutputStates;
      resourceBarriers := [];
      srvHeapStart := DescriptorHandle(0);
      dsvHeapStart := None;
      new;
      InitResources(p);
    }

    /** The owned depth texture, with the material-ID texture's size, a
      16-bit typeless format and the initial state the caller declared. */
    ghost predicate DepthTextureCreated(p: InitParams)
      reads this`depthTextureWithMeshType
    {
      depthTextureWithMeshType.Some? && p.materialIDTexture.desc.Texture2DDesc? &&
      depthTextureWithMeshType.value.desc ==
        Texture2DDesc(p.materialIDTexture.desc.width, p.materialIDTexture.desc.height, R16Typeless) &&
      depthTextureWithMeshType.value.initialState == p.inputStates.depthTextureWithMeshType
    }

    /** What InitResources establishes, given the heap's slots before the
      call: the advertised output states, the depth texture, one barrier per
      resource not already in its required state, the table in two
      consecutive new slots and the depth texture's view as depth target. */
    ghost predicate ResourcesInitialised(p: InitParams, slots0: seq<Slot>)
      reads this`outputResourceStates, this`depthTextureWithMeshType, this`resourceBarriers
      reads this`srvHeapStart, this`dsvHeapStart, p.srvHeap
    {
      outputResourceStates == OutputStates &&
      DepthTextureCreated(p) &&
      resourceBarriers == Barriers(InitTransitions(p, depthTextureWithMeshType.value)) &&
      srvHeapStart.index == |slots0| &&
      p.srvHeap.slots == slots0 + AsSlots(TableViews(p)) &&
      dsvHeapStart == Some(DSVOf(depthTextureWithMeshType.value))
    }

    method InitResources(p: InitParams)
      requires ValidInputs(p)
      requires p.srvHeap.Valid() && |p.srvHeap.slots| + 2 <= p.srvHeap.capacity
      requires depthTextureWithMeshType.None? && resourceBarriers == []
      modifies this`outputResourceStates, this`depthTextureWithMeshType, this`resourceBarriers
      modifies this`srvHeapStart, this`dsvHeapStart, p.srvHeap
      ensures p.srvHeap.Valid()
      ensures ResourcesInitialised(p, old(p.srvHeap.slots))
      ensures fresh(depthTextureWithMeshType.value)
    {
      outputResourceStates := OutputStates;
      var desc := Texture2DDesc(p.materialIDTexture.desc.width, p.materialIDTexture.desc.height, R16Typeless);
      var depth := new GraphicsResource("depth with mesh type", desc, p.inputStates.depthTextureWithMeshType);
      depthTextureWithMeshType := Some(depth);

      CreateInitialBarriers(p, depth);

      AllocateDescriptorTable(p);
      dsvHeapStart := Some(DSVOf(depth));
    }

    /** The descriptor part of InitResources: both shader resources in two
      consecutive new slots. */
    method AllocateDescriptorTable(p: InitParams)
      requires p.srvHeap.Valid() && |p.srvHeap.slots| + 2 <= p.srvHeap.capacity
      modifies p.srvHeap, this`srvHeapStart
      ensures p.srvHeap.Valid()
      ensures srvHeapStart.index == |old(p.srvHeap.slots)|
      ensures p.srvHeap.slots == old(p.srvHeap.slots) + AsSlots(TableViews(p))
    {
      var heap := p.srvHeap;
      srvHeapStart := heap.Allocate();
      heap.CopyDescriptor(srvHeapStart, SRVOf(p.materialIDTexture));
      var h := heap.Allocate();
      heap.CopyDescriptor(h, SRVOf(p.meshTypePerMaterialIDBuffer));
      assert AsSlots(TableViews(p)) == [Holds(SRVOf(p.materialIDTexture)), Holds(SRVOf(p.meshTypePerMaterialIDBuffer))];
    }

    /** The barrier part of InitResources. */
    method CreateInitialBarriers(p: InitParams, depth: GraphicsResource)
      requires resourceBarriers == []
      modifies this`resourceBarriers
      ensures resourceBarriers == Barriers(InitTransitions(p, depth))
    {
      var ins := p.inputStates;
      var ts := InitTransitions(p, depth);
      assert ts[..0] == [] && ts[..1] + [ts[1]] == ts[..2] && ts[..2] + [ts[2]] == ts;
      assert [] + [ts[0]] == ts[..1];
      CreateResourceBarrierIfRequired(p.materialIDTexture, ins.materialIDTexture, OutputStates.materialIDTexture);
      BarriersAppend([], ts[0]);
      CreateResourceBarrierIfRequired(p.meshTypePerMaterialIDBuffer, ins.meshTypePerMaterialIDBuffer,
        OutputStates.meshTypePerMaterialIDBuffer);
      BarriersAppend(ts[..1], ts[1]);
      CreateResourceBarrierIfRequired(depth, ins.depthTextureWithMeshType, OutputStates.depthTextureWithMeshType);
      BarriersAppend(ts[..2], ts[2]);
    }

    method CreateResourceBarrierIfRequired(resource: GraphicsResource, currState: ResourceStates, requiredState: ResourceStates)
      modifies this`resourceBarriers
      ensures resourceBarriers == old(resourceBarriers) + BarrierIfRequired(Transition(resource, currState, requiredState))
    {
      if currState != requiredState {
        resourceBarriers := resourceBarriers + [Barrier(resource, currState, requiredState)];
      }
    }

    /** The log after one Record call appended to `log0`: the pipeline and
      root signature are bound, the barrier batch is issued only when
      non-empty, the mesh-type count is passed as the root constant, the
      depth texture is the only target, and one full-screen triangle is
      drawn with the viewport's rectangle as scissor. */
    function RecordOnto(log0: seq<Command>, heap: ApiObject, numMeshTypes: u32, viewport: Viewport): seq<Command>
      reads this
    {
      log0 + [Begin(Some(pipelineState))] + [SetGraphicsRootSignature(rootSignature)] + BarrierBatch(resourceBarriers)
      + [SetDescriptorHeaps(heap)] + [SetGraphicsRoot32BitConstant(0, numMeshTypes, 0)]
      + [SetGraphicsRootDescriptorTable(1, srvHeapStart)] + [OMSetRenderTargets([], dsvHeapStart)]
      + [IASetPrimitiveTopology(TriangleList)] + [IASetVertexBuffers(0, 1, None)] + [IASetIndexBuffer(None)]
      + [RSSetViewports([viewport])] + [RSSetScissorRects([ExtractRect(viewport)])]
      + [DrawInstanced(3, 1, 0, 0)] + [End]
    }

    /** The commands of one frame on their own. */
    function RecordedCommands(heap: ApiObject, numMeshTypes: u32, viewport: Viewport): seq<Command>
      reads this
    {
      RecordOnto([], heap, numMeshTypes, viewport)
    }

    method Record(commandList: CommandList, heap: DescriptorHeap, numMeshTypes: u32, viewport: Viewport)
      modifies commandList
      ensures commandList.log == RecordOnto(old(commandList.log), heap.token, numMeshTypes, viewport)
    {
      commandList.Emit(Begin(Some(pipelineState)));
      commandList.Emit(SetGraphicsRootSignature(rootSignature));
      IssueBarrierBatch(commandList, resourceBarriers);
      commandList.Emit(SetDescriptorHeaps(heap.token));
      commandList.Emit(SetGraphicsRoot32BitConstant(0, numMeshTypes, 0));
      commandList.Emit(SetGraphicsRootDescriptorTable(1, srvHeapStart));
      commandList.Emit(OMSetRenderTargets([], dsvHeapStart));
      commandList.Emit(IASetPrimitiveTopology(TriangleList));
      commandList.Emit(IASetVertexBuffers(0, 1, None));
      commandList.Emit(IASetIndexBuffer(None));
      var scissorRect := ExtractRect(viewport);
      commandList.Emit(RSSetViewports([viewport]));
      commandList.Emit(RSSetScissorRects([scissorRect]));
      commandList.Emit(DrawInstanced(3, 1, 0, 0));
      commandList.Emit(End);
    }
  }

  /** The commands Record emits after the barrier batch. */
  function AfterBarriers(pass: FillDepthBufferWithMeshTypePass, heap: ApiObject, numMeshTypes: u32, viewport: Viewport): (cmds: seq<Command>)
    reads pass
    ensures NoBarrierCommands(cmds)
  {
    [SetDescriptorHeaps(heap), SetGraphicsRoot32BitConstant(0, numMeshTypes, 0),
     SetGraphicsRootDescriptorTable(1, pass.srvHeapStart), OMSetRenderTargets([], pass.dsvHeapStart),
     IASetPrimitiveTopology(TriangleList), IASetVertexBuffers(0, 1, None), IASetIndexBuffer(None),
     RSSetViewports([viewport]), RSSetScissorRects([ExtractRect(viewport)]),
     DrawInstanced(3, 1, 0, 0), End]
  }

  /** What Record appends, with the barrier batch separated from the rest. */
  lemma RecordSplit(pass: FillDepthBufferWithMeshTypePass, heap: ApiObject, numMeshTypes: u32, viewport: Viewport)
    ensures pass.RecordedCommands(heap, numMeshTypes, viewport)
         == [Begin(Some(pass.pipelineState)), SetGraphicsRootSignature(pass.rootSignature)]
            + BarrierBatch(pass.resourceBarriers) + AfterBarriers(pass, heap, numMeshTypes, viewport)
  {
    var prefix := [Begin(Some(pass.pipelineState)), SetGraphicsRootSignature(pass.rootSignature)] + BarrierBatch(pass.resourceBarriers);
    assert [] + [Begin(Some(pass.pipelineState))] + [SetGraphicsRootSignature(pass.rootSignature)]
        == [Begin(Some(pass.pipelineState)), SetGraphicsRootSignature(pass.rootSignature)];
    var after := AfterBarriers(pass, heap, numMeshTypes, viewport);
    var log := pass.RecordedCommands(heap, numMeshTypes, viewport);
    assert |log| == |prefix| + |after|;
    assert log[..|prefix|] == prefix;
    assert log[|prefix|..] == after;
    assert log == log[..|prefix|] + log[|prefix|..];
  }

  /** Record issues a barrier command exactly when the batch is non-empty,
      and then it is the whole batch, once, right after the root signature
      is bound. */
  lemma RecordBarrierBatch(pass: FillDepthBufferWithMeshTypePass, heap: ApiObject, numMeshTypes: u32, viewport: Viewport)
    ensures var log := pass.RecordedCommands(heap, numMeshTypes, viewport);
      (forall i :: 0 <= i < |log| && log[i].ResourceBarrier? ==> i == 2 && log[i] == ResourceBarrier(pass.resourceBarriers)) &&
      (pass.resourceBarriers != [] ==> log[2] == ResourceBarrier(pass.resourceBarriers)) &&
      (pass.resourceBarriers == [] ==> NoBarrierCommands(log))
  {
    RecordSplit(pass, heap, numMeshTypes, viewport);
    BatchIsOnlyBarrier([Begin(Some(pass.pipelineState)), SetGraphicsRootSignature(pass.rootSignature)],
      pass.resourceBarriers, AfterBarriers(pass, heap, numMeshTypes, viewport));
  }

  /** The draw: after binding, the frame draws one full-screen triangle into
      the depth texture alone (no render targets), with the mesh-type count as
      the root constant and the viewport's rectangle as scissor. */
  lemma RecordDrawsFullScreenTriangle(pass: FillDepthBufferWithMeshTypePass, heap: ApiObject, numMeshTypes: u32, viewport: Viewport)
    requires pass.Valid()
    ensures var log := pass.RecordedCommands(heap, numMeshTypes, viewport);
      var n := |log|;
      n == 13 + (if pass.resourceBarriers != [] then 1 else 0) &&
      log[0] == Begin(Some(pass.pipelineState)) && log[1] == SetGraphicsRootSignature(pass.rootSignature) &&
      log[n - 10] == SetGraphicsRoot32BitConstant(0, numMeshTypes, 0) &&
      log[n - 8] == OMSetRenderTargets([], Some(DSVOf(pass.depthTextureWithMeshType.value))) &&
      log[n - 3] == RSSetScissorRects([ExtractRect(viewport)]) &&
      log[n - 2] == DrawInstanced(3, 1, 0, 0) && log[n - 1] == End
  {
    RecordSplit(pass, heap, numMeshTypes, viewport);
  }

  /** Executing the recorded commands leaves each of the three resources in
      the state the pass advertises, provided each started in the state the
      caller declared and no two of them are the same resource. */
  lemma RecordLeavesOutputStates(pass: FillDepthBufferWithMeshTypePass, p: InitParams, heap: ApiObject,
                                 numMeshTypes: u32, viewport: Viewport, k: nat)
    requires pass.depthTextureWithMeshType.Some?
    requires pass.resourceBarriers == Barriers(InitTransitions(p, pass.depthTextureWithMeshType.value))
    requires k < 3
    requires DistinctResources(ResourcesOf(InitTransitions(p, pass.depthTextureWithMeshType.value)))
    ensures var t := InitTransitions(p, pass.depthTextureWithMeshType.value)[k];
            ApplyCommands(pass.RecordedCommands(heap, numMeshTypes, viewport), t.resource, t.current) == t.required
  {
    RecordSplit(pass, heap, numMeshTypes, viewport);
    BatchReachesRequired([Begin(Some(pass.pipelineState)), SetGraphicsRootSignature(pass.rootSignature)],
      InitTransitions(p, pass.depthTextureWithMeshType.value), AfterBarriers(pass, heap, numMeshTypes, viewport), k);
  }
}
