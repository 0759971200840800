// The pass that shows a texture on the back buffer: a full-screen triangle
// whose pixel shader decodes the texture according to its type (normals,
// texture coordinates, colours or a single channel). This model captures
// the barrier batch, the descriptor slot, the shader macro and the
// commands of one frame, with the optional profiling bracket.
module VisualizeTexture {
  import opened Gpu
  import opened Profiling

  /** How the pixel shader interprets the texture; the shader sees the
      numeric value. */
  datatype TextureType = Normal | TexCoord | RGB | R

  function TextureTypeValue(t: TextureType): (v: nat)
    ensures 1 <= v <= 4
  {
    match t
    case Normal => 1
    case TexCoord => 2
    case RGB => 3
    case R => 4
  }

  /** The type a numeric value denotes, if any. */
  function TextureTypeOf(v: nat): (t: Option<TextureType>)
    ensures t.Some? <==> 1 <= v <= 4
  {
    if v == 1 then Some(Normal)
    else if v == 2 then Some(TexCoord)
    else if v == 3 then Some(RGB)
    else if v == 4 then Some(R)
    else None
  }

  /** The TEXTURE_TYPE macro: the type's value in decimal. */
  function TextureTypeMacro(t: TextureType): (m: ShaderMacro)
    ensures m.name == "TEXTURE_TYPE" && DefinesValue(m, TextureTypeValue(t))
  {
    NumberMacro("TEXTURE_TYPE", TextureTypeValue(t))
  }

  /** The shader can recover the texture type from the macro's text, so
      different types compile to different shaders. */
  lemma TextureTypeMacroRoundTrip(t: TextureType)
    ensures TextureTypeOf(DecimalValue(TextureTypeMacro(t).definition)) == Some(t)
  {
  }

  lemma TextureTypeMacroInjective(t: TextureType, u: TextureType)
    requires TextureTypeMacro(t).definition == TextureTypeMacro(u).definition
    ensures t == u
  {
    TextureTypeMacroRoundTrip(t);
    TextureTypeMacroRoundTrip(u);
  }

  datatype ResourceStatesSet = ResourceStatesSet(inputTexture: ResourceStates, backBuffer: ResourceStates)

  /** The texture is read by the pixel shader and the back buffer is drawn to. */
  const OutputStates: ResourceStatesSet := ResourceStatesSet(PixelShaderResource, RenderTarget)

  datatype InitParams = InitParams(
    name: string,
    srvHeap: DescriptorHeap,
    inputStates: ResourceStatesSet,
    inputTexture: GraphicsResource,
    inputTextureSRV: CpuHandle,
    backBuffer: GraphicsResource,
    textureType: TextureType)

  /** The resource-state changes the pass needs: the texture, then the back buffer. */
  function InitTransitions(p: InitParams): (ts: seq<Transition>)
    ensures |ts| == 2
  {
    [Transition(p.inputTexture, p.inputStates.inputTexture, OutputStates.inputTexture),
     Transition(p.backBuffer, p.inputStates.backBuffer, OutputStates.backBuffer)]
  }

  /** At most two barriers, none a no-op, and none when both resources are
      already in their required states. */
  lemma InitBarriersBound(p: InitParams)
    ensures |Barriers(InitTransitions(p))| <= 2
    ensures NoNoOps(Barriers(InitTransitions(p)))
    ensures Barriers(InitTransitions(p)) == [] <==>
      p.inputStates.inputTexture == PixelShaderResource && p.inputStates.backBuffer == RenderTarget
  {
    var ts := InitTransitions(p);
    BarriersExact(ts);
    BarriersEmptyIff(ts);
    assert ts[0] in ts && ts[1] in ts;
  }

  /** The root signature's descriptor table: one shader resource at register 0. */
  const TableRanges: seq<DescriptorRange> := [DescriptorRange(SRVRange, 1, 0)]

  /** The single slot, filled from the caller's descriptor, has the kind the table declares. */
  lemma TableMatchesRootSignature(p: InitParams)
    ensures SlotKinds(TableRanges) == Kinds([CopiedSRV(p.inputTextureSRV)])
  {
    SlotKindsSingle(TableRanges[0]);
  }

  class VisualizeTexturePass {
    const name: string
    const rootSignature: ApiObject
    const pipelineState: ApiObject
    const descriptorRanges: seq<DescriptorRange>
    const shaderDefines: seq<ShaderMacro>
    var outputResourceStates: ResourceStatesSet
    var resourceBarriers: seq<Barrier>
    var srvHeapStart: DescriptorHandle
    var rtvHeapStart: Option<CpuHandle>

    ghost predicate Valid()
      reads this`rtvHeapStart
    {
      rtvHeapStart.Some?
    }

    constructor (p: InitParams)
      requires p.srvHeap.Valid() && |p.srvHeap.slots| < p.srvHeap.capacity
      modifies p.srvHeap
      ensures p.srvHeap.Valid() && Valid()
      ensures ResourcesInitialised(p, old(p.srvHeap.slots))
      ensures name == p.name && descriptorRanges == TableRanges
      ensures shaderDefines == [TextureTypeMacro(p.textureType)]
    {
      name := p.name;
      rootSignature := new ApiObject();
      pipelineState := new ApiObject();
      // InitRootSignature and InitPipelineState only fill in descriptions
      // that do not depend on the resources.
      descriptorRanges := TableRanges;
      shaderDefines := [TextureTypeMacro(p.textureType)];
      outputResourceStates := OutputStates;
      resourceBarriers := [];
      srvHeapStart := DescriptorHandle(0);
      rtvHeapStart := None;
      new;
      InitResources(p);
    }

    /** What InitResources establishes: the advertised output states, one
      barrier per resource not already in its required state, the caller's
      texture descriptor copied to one new slot, and the back buffer's
      render-target view as the only target. */
    ghost predicate ResourcesInitialised(p: InitParams, slots0: seq<Slot>)
      reads this`outputResourceStates, this`resourceBarriers, this`srvHeapStart, this`rtvHeapStart, p.srvHeap
    {
      outputResourceStates == OutputStates &&
      resourceBarriers == Barriers(InitTransitions(p)) &&
      srvHeapStart.index == |slots0| &&
      p.srvHeap.slots == slots0 + [Holds(CopiedSRV(p.inputTextureSRV))] &&
      rtvHeapStart == Some(RTVOf(p.backBuffer))
    }

    method InitResources(p: InitParams)
      requires p.srvHeap.Valid() && |p.srvHeap.slots| < p.srvHeap.capacity
      requires resourceBarriers == []
      modifies this`outputResourceStates, this`resourceBarriers, this`srvHeapStart, this`rtvHeapStart, p.srvHeap
      ensures p.srvHeap.Valid()
      ensures ResourcesInitialised(p, old(p.srvHeap.slots))
    {
      outputResourceStates := OutputStates;
      var ts := InitTransitions(p);
      assert ts[..0] == [] && [] + [ts[0]] == ts[..1] && ts[..1] + [ts[1]] == ts;
      AddResourceBarrierIfRequired(p.inputTexture, p.inputStates.inputTexture, OutputStates.inputTexture);
      BarriersAppend([], ts[0]);
      AddResourceBarrierIfRequired(p.backBuffer, p.inputStates.backBuffer, OutputStates.backBuffer);
      BarriersAppend(ts[..1], ts[1]);

      srvHeapStart := p.srvHeap.Allocate();
      p.srvHeap.CopyDescriptor(srvHeapStart, CopiedSRV(p.inputTextureSRV));
      rtvHeapStart := Some(RTVOf(p.backBuffer));
    }

    /** The part of Record between the barrier batch and the end of profiling. */
    method RecordDraw(commandList: CommandList, heap: DescriptorHeap, appDataBuffer: GraphicsResource, viewport: Viewport)
      requires Valid()
      modifies commandList
      ensures commandList.log == DrawOnto(old(commandList.log), this, heap.token, appDataBuffer, viewport)
    {
      commandList.Emit(SetDescriptorHeaps(heap.token));
      commandList.Emit(SetGraphicsRootConstantBufferView(0, appDataBuffer));
      commandList.Emit(SetGraphicsRootDescriptorTable(1, srvHeapStart));
      commandList.Emit(OMSetRenderTargets([rtvHeapStart.value], None));
      commandList.Emit(IASetPrimitiveTopology(TriangleList));
      commandList.Emit(IASetVertexBuffers(0, 1, None));
      commandList.Emit(IASetIndexBuffer(None));
      var scissorRect := ExtractRect(viewport);
      commandList.Emit(RSSetViewports([viewport]));
      commandList.Emit(RSSetScissorRects([scissorRect]));
      commandList.Emit(DrawInstanced(3, 1, 0, 0));
    }

    method AddResourceBarrierIfRequired(resource: GraphicsResource, currState: ResourceStates, requiredState: ResourceStates)
      modifies this`resourceBarriers
      ensures resourceBarriers == old(resourceBarriers) + BarrierIfRequired(Transition(resource, currState, requiredState))
    {
      if currState != requiredState {
        resourceBarriers := resourceBarriers + [Barrier(resource, currState, requiredState)];
      }
    }

    /** The log after one Record call appended to `log0`. `profileStart` and
      `profileEnd` are the profiler's commands when profiling is compiled in
      and empty otherwise. */
    function RecordOnto(log0: seq<Command>, heap: ApiObject, appDataBuffer: GraphicsResource, viewport: Viewport,
                        profileStart: seq<Command>, profileEnd: seq<Command>): seq<Command>
      requires Valid()
      reads this
    {
      log0 + [Begin(Some(pipelineState))] + profileStart + [SetGraphicsRootSignature(rootSignature)]
      + BarrierBatch(resourceBarriers) + DrawCommands(this, heap, appDataBuffer, viewport) + profileEnd + [End]
    }

    /** When `profiling` is set (the build's GPU-profiling switch), the draw
      is bracketed by a profile under the pass's name. */
    method Record(commandList: CommandList, heap: DescriptorHeap, appDataBuffer: GraphicsResource, viewport: Viewport,
                  profiler: Profiler, profiling: bool)
      requires Valid()
      requires profiling ==> profiler.Valid() && (name in profiler.UsedNames() || profiler.numUsedProfiles < profiler.maxNumProfiles)
      modifies commandList, profiler`profiles, profiler`numUsedProfiles
      ensures profiling ==> profiler.Valid()
      ensures profiling ==>
        var index := IndexOf(old(profiler.UsedNames()), name) as u32;
        commandList.log == RecordOnto(old(commandList.log), heap.token, appDataBuffer, viewport,
          [EndQuery(profiler.queryHeap, StartQueryIndex(index))], profiler.EndProfileCommands(index))
      ensures !profiling ==>
        unchanged(profiler) && commandList.log == RecordOnto(old(commandList.log), heap.token, appDataBuffer, viewport, [], [])
    {
      commandList.Emit(Begin(Some(pipelineState)));
      var profileIndex: u32 := 0;
      if profiling {
        profileIndex := profiler.StartProfile(commandList, name);
      }
      commandList.Emit(SetGraphicsRootSignature(rootSignature));
      IssueBarrierBatch(commandList, resourceBarriers);
      ghost var beforeDraw := commandList.log;
      RecordDraw(commandList, heap, appDataBuffer, viewport);
      DrawOntoAppends(beforeDraw, this, heap.token, appDataBuffer, viewport);
      if profiling {
        profiler.EndProfile(commandList, profileIndex);
      }
      commandList.Emit(End);
    }
  }

  /** The commands between the barrier batch and the end of profiling:
      bindings, the single render target, viewport and scissor, and the
      full-screen triangle. */
  function DrawCommands(pass: VisualizeTexturePass, heap: ApiObject, appDataBuffer: GraphicsResource, viewport: Viewport): (cmds: seq<Command>)
    requires pass.Valid()
    reads pass
    ensures |cmds| == 10 && NoBarrierCommands(cmds)
  {
    [SetDescriptorHeaps(heap), SetGraphicsRootConstantBufferView(0, appDataBuffer),
     SetGraphicsRootDescriptorTable(1, pass.srvHeapStart), OMSetRenderTargets([pass.rtvHeapStart.value], None),
     IASetPrimitiveTopology(TriangleList), IASetVertexBuffers(0, 1, None), IASetIndexBuffer(None),
     RSSetViewports([viewport]), RSSetScissorRects([ExtractRect(viewport)]),
     DrawInstanced(3, 1, 0, 0)]
  }

  /** DrawCommands appended one at a time, as RecordDraw emits them. */
  function DrawOnto(log0: seq<Command>, pass: VisualizeTexturePass, heap: ApiObject, appDataBuffer: GraphicsResource, viewport: Viewport): seq<Command>
    requires pass.Valid()
    reads pass
  {
    log0 + [SetDescriptorHeaps(heap)] + [SetGraphicsRootConstantBufferView(0, appDataBuffer)]
    + [SetGraphicsRootDescriptorTable(1, pass.srvHeapStart)] + [OMSetRenderTargets([pass.rtvHeapStart.value], None)]
    + [IASetPrimitiveTopology(TriangleList)] + [IASetVertexBuffers(0, 1, None)] + [IASetIndexBuffer(None)]
    + [RSSetViewports([viewport])] + [RSSetScissorRects([ExtractRect(viewport)])]
    + [DrawInstanced(3, 1, 0, 0)]
  }

  lemma DrawOntoAppends(log0: seq<Command>, pass: VisualizeTexturePass, heap: ApiObject, appDataBuffer: GraphicsResource, viewport: Viewport)
    requires pass.Valid()
    ensures DrawOnto(log0, pass, heap, appDataBuffer, viewport) == log0 + DrawCommands(pass, heap, appDataBuffer, viewport)
  {
    var log := DrawOnto(log0, pass, heap, appDataBuffer, viewport);
    var d := DrawCommands(pass, heap, appDataBuffer, viewport);
    assert log[..|log0|] == log0;
    assert log[|log0|..] == d;
  }

  /** The commands Record emits after the barrier batch. */
  function AfterBarriers(pass: VisualizeTexturePass, heap: ApiObject, appDataBuffer: GraphicsResource, viewport: Viewport,
                         profileEnd: seq<Command>): seq<Command>
    requires pass.Valid()
    reads pass
  {
    DrawCommands(pass, heap, appDataBuffer, viewport) + profileEnd + [End]
  }

  /** What Record appends, with the barrier batch separated from the rest. */
  lemma RecordSplit(pass: VisualizeTexturePass, heap: ApiObject, appData: GraphicsResource, viewport: Viewport,
                    profileStart: seq<Command>, profileEnd: seq<Command>)
    requires pass.Valid()
    ensures pass.RecordOnto([], heap, appData, viewport, profileStart, profileEnd)
         == [Begin(Some(pass.pipelineState))] + profileStart + [SetGraphicsRootSignature(pass.rootSignature)]
            + BarrierBatch(pass.resourceBarriers) + AfterBarriers(pass, heap, appData, viewport, profileEnd)
  {
    var prefix := [Begin(Some(pass.pipelineState))] + profileStart + [SetGraphicsRootSignature(pass.rootSignature)]
      + BarrierBatch(pass.resourceBarriers);
    assert [] + [Begin(Some(pass.pipelineState))] == [Begin(Some(pass.pipelineState))];
    var d := DrawCommands(pass, heap, appData, viewport);
    ConcatAssoc(prefix, d, profileEnd);
    ConcatAssoc(prefix, d + profileEnd, [End]);
  }

  /** The profile commands are queries, not barriers. */
  lemma ProfileCommandsNoBarriers(profiler: Profiler, index: u32)
    ensures NoBarrierCommands([EndQuery(profiler.queryHeap, StartQueryIndex(index))])
    ensures NoBarrierCommands(profiler.EndProfileCommands(index))
  {
  }

  /** Where each part of one frame's commands sits in the log. */
  lemma RecordLayout(pass: VisualizeTexturePass, heap: ApiObject, appData: GraphicsResource, viewport: Viewport,
                     s: seq<Command>, e: seq<Command>)
    requires pass.Valid()
    ensures var log := pass.RecordOnto([], heap, appData, viewport, s, e);
      var p := |s| + |BarrierBatch(pass.resourceBarriers)| + 2;
      |log| == p + 11 + |e| && log[0] == Begin(Some(pass.pipelineState)) && log[1..1 + |s|] == s &&
      log[p..p + 10] == DrawCommands(pass, heap, appData, viewport) &&
      log[p + 10..p + 10 + |e|] == e && log[|log| - 1] == End
  {
    RecordSplit(pass, heap, appData, viewport, s, e);
    var prefix := [Begin(Some(pass.pipelineState))] + s + [SetGraphicsRootSignature(pass.rootSignature)]
      + BarrierBatch(pass.resourceBarriers);
    var d := DrawCommands(pass, heap, appData, viewport);
    var log := pass.RecordOnto([], heap, appData, viewport, s, e);
    ConcatAssoc(prefix, d, e);
    ConcatAssoc(prefix, d + e, [End]);
    assert log == prefix + (d + e + [End]);
    assert log[..|prefix|] == prefix;
    assert prefix[1..1 + |s|] == s;
    assert log[|prefix|..] == d + e + [End];
    assert log[|prefix|..][..10] == d;
    assert log[|prefix|..][10..10 + |e|] == e;
  }

  /** One frame draws a full-screen triangle into the back buffer alone,
      with the viewport's rectangle as scissor, after Begin, the profiler's
      start commands s, the root signature and the optional barrier batch. */
  lemma {:induction false} RecordIssuesDraw(pass: VisualizeTexturePass, heap: ApiObject, appData: GraphicsResource,
                                            viewport: Viewport, s: seq<Command>, e: seq<Command>)
    requires pass.Valid()
    ensures var log := pass.RecordOnto([], heap, appData, viewport, s, e);
      var p := |s| + (if pass.resourceBarriers != [] then 1 else 0) + 2;
      p + 9 < |log| &&
      log[p] == SetDescriptorHeaps(heap) &&
      log[p + 1] == SetGraphicsRootConstantBufferView(0, appData) &&
      log[p + 3] == OMSetRenderTargets([pass.rtvHeapStart.value], None) &&
      log[p + 8] == RSSetScissorRects([ExtractRect(viewport)]) &&
      log[p + 9] == DrawInstanced(3, 1, 0, 0)
  {
    var log := pass.RecordOnto([], heap, appData, viewport, s, e);
    var p := |s| + |BarrierBatch(pass.resourceBarriers)| + 2;
    RecordLayout(pass, heap, appData, viewport, s, e);
    var draw := log[p..p + 10];
    assert log[p] == draw[0] && log[p + 1] == draw[1] && log[p + 3] == draw[3];
    assert log[p + 8] == draw[8] && log[p + 9] == draw[9];
  }

  /** With profiling, the frame's start query directly follows Begin and its
      end query follows the draw, for the same profile slot. */
  lemma {:induction false} RecordBracketsProfile(pass: VisualizeTexturePass, heap: ApiObject, appData: GraphicsResource,
                                                 viewport: Viewport, profiler: Profiler, index: u32)
    requires pass.Valid()
    ensures var log := pass.RecordOnto([], heap, appData, viewport, [EndQuery(profiler.queryHeap, StartQueryIndex(index))],
                                       profiler.EndProfileCommands(index));
      log[1] == EndQuery(profiler.queryHeap, StartQueryIndex(index)) &&
      log[|log| - 3] == EndQuery(profiler.queryHeap, EndQueryIndex(index))
  {
    var s := [EndQuery(profiler.queryHeap, StartQueryIndex(index))];
    var e := profiler.EndProfileCommands(index);
    var log := pass.RecordOnto([], heap, appData, viewport, s, e);
    var p := |s| + |BarrierBatch(pass.resourceBarriers)| + 2;
    RecordLayout(pass, heap, appData, viewport, s, e);
    assert log[1] == log[1..2][0];
    assert log[|log| - 3] == log[p + 10..p + 10 + |e|][0];
  }

  /** Executing one frame's commands leaves the texture and the back buffer
      in the advertised states, provided each started in the state the
      caller declared and they are different resources. */
  lemma RecordLeavesOutputStates(pass: VisualizeTexturePass, p: InitParams, heap: ApiObject, appData: GraphicsResource,
                                 viewport: Viewport, profiler: Profiler, index: u32, profiling: bool, k: nat)
    requires pass.Valid() && pass.resourceBarriers == Barriers(InitTransitions(p))
    requires p.inputTexture != p.backBuffer && k < 2
    ensures var s := if profiling then [EndQuery(profiler.queryHeap, StartQueryIndex(index))] else [];
      var e := if profiling then profiler.EndProfileCommands(index) else [];
      var t := InitTransitions(p)[k];
      ApplyCommands(pass.RecordOnto([], heap, appData, viewport, s, e), t.resource, t.current) == t.required
  {
    var s := if profiling then [EndQuery(profiler.queryHeap, StartQueryIndex(index))] else [];
    var e := if profiling then profiler.EndProfileCommands(index) else [];
    ProfileCommandsNoBarriers(profiler, index);
    RecordSplit(pass, heap, appData, viewport, s, e);
    var prefix := [Begin(Some(pass.pipelineState))] + s + [SetGraphicsRootSignature(pass.rootSignature)];
    var after := AfterBarriers(pass, heap, appData, viewport, e);
    assert NoBarrierCommands(prefix) by {
      assert forall i :: 0 <= i < |prefix| ==>
        (prefix[i] == Begin(Some(pass.pipelineState)) || prefix[i] in s || prefix[i] == SetGraphicsRootSignature(pass.rootSignature));
    }
    assert NoBarrierCommands(after) by {
      var d := DrawCommands(pass, heap, appData, viewport);
      assert forall i :: 0 <= i < |d| ==> after[i] == d[i];
      assert forall i :: |d| <= i < |after| ==> (after[i] in e || after[i] == End);
    }
    assert DistinctResources(ResourcesOf(InitTransitions(p)));
    BatchReachesRequired(prefix, InitTransitions(p), after, k);
  }
}
