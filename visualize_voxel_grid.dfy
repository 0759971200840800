// The recorder that visualises a voxel grid: a full-screen triangle whose
// pixel shader reads the grid through one descriptor table. Unlike the
// render passes it owns no resources; the caller hands it a resource list
// with the states the frame needs and the table and render-target handles.
module VisualizeVoxelGrid {
  import opened Gpu

  /** The only root parameter is the descriptor table. */
  const SRVRootParam: nat := 0

  /** The table: two constant buffers, then two shader resources. */
  const TableRanges: seq<DescriptorRange> := [DescriptorRange(CBVRange, 2, 0), DescriptorRange(SRVRange, 2, 0)]

  /** The slots the table spans, in order: the two constant buffers first. */
  lemma TableLayout()
    ensures SlotKinds(TableRanges) == [CBVRange, CBVRange, SRVRange, SRVRange]
  {
    SlotKindsPair(TableRanges[0], TableRanges[1]);
  }

  /** What the caller supplies for one frame: the states its resources must
      be in, where the table starts and the render target to draw into. */
  datatype ResourceList = ResourceList(
    requiredResourceStates: seq<Transition>,
    srvHeapStart: DescriptorHandle,
    rtvHeapStart: CpuHandle)

  class VisualizeVoxelGridRecorder {
    const rootSignature: ApiObject
    const pipelineState: ApiObject
    /** The ranges of the root signature's descriptor table. */
    const descriptorRanges: seq<DescriptorRange>
    /** The format the pipeline state renders to. */
    const rtvFormat: Format

    constructor (rtvFormat: Format)
      ensures descriptorRanges == TableRanges && this.rtvFormat == rtvFormat
      ensures fresh(rootSignature) && fresh(pipelineState)
    {
      descriptorRanges := TableRanges;
      rootSignature := new ApiObject();
      pipelineState := new ApiObject();
      this.rtvFormat := rtvFormat;
    }

    method Record(commandList: CommandList, allocator: ApiObject, heap: DescriptorHeap, resources: ResourceList,
                  viewport: Viewport)
      modifies commandList
      ensures commandList.log == old(commandList.log) + FrameCommands(this, allocator, heap.token, resources, viewport)
    {
      ghost var log0 := commandList.log;
      commandList.Emit(Reset(allocator, Some(pipelineState)));
      commandList.Emit(SetGraphicsRootSignature(rootSignature));
      commandList.Emit(SetRequiredResourceStates(resources.requiredResourceStates));
      commandList.Emit(SetDescriptorHeaps(heap.token));
      commandList.Emit(SetGraphicsRootDescriptorTable(SRVRootParam, resources.srvHeapStart));
      var rtvHeapStart := resources.rtvHeapStart;
      commandList.Emit(OMSetRenderTargets([rtvHeapStart], None));
      commandList.Emit(IASetPrimitiveTopology(TriangleList));
      commandList.Emit(IASetVertexBuffers(0, 1, None));
      commandList.Emit(IASetIndexBuffer(None));
      commandList.Emit(RSSetViewports([viewport]));
      var scissorRect := ExtractRect(viewport);
      commandList.Emit(RSSetScissorRects([scissorRect]));
      commandList.Emit(DrawInstanced(3, 1, 0, 0));
      commandList.Emit(Close);
      RecordAppendsFrame(this, log0, allocator, heap.token, resources, viewport);
    }
  }

  /** The log after one frame is recorded onto `log0`: the commands
      appended one at a time, in the order Record issues them. */
  function FrameOnto(recorder: VisualizeVoxelGridRecorder, log0: seq<Command>, allocator: ApiObject, heap: ApiObject,
                     resources: ResourceList, viewport: Viewport): seq<Command>
  {
    log0 + [Reset(allocator, Some(recorder.pipelineState))] + [SetGraphicsRootSignature(recorder.rootSignature)]
    + [SetRequiredResourceStates(resources.requiredResourceStates)] + [SetDescriptorHeaps(heap)]
    + [SetGraphicsRootDescriptorTable(SRVRootParam, resources.srvHeapStart)]
    + [OMSetRenderTargets([resources.rtvHeapStart], None)]
    + [IASetPrimitiveTopology(TriangleList)] + [IASetVertexBuffers(0, 1, None)] + [IASetIndexBuffer(None)]
    + [RSSetViewports([viewport])] + [RSSetScissorRects([ExtractRect(viewport)])]
    + [DrawInstanced(3, 1, 0, 0)] + [Close]
  }

  /** The commands of one frame on their own: thirteen, none of them a barrier. */
  function FrameCommands(recorder: VisualizeVoxelGridRecorder, allocator: ApiObject, heap: ApiObject,
                         resources: ResourceList, viewport: Viewport): (cmds: seq<Command>)
    ensures |cmds| == 13 && NoBarrierCommands(cmds)
  {
    FrameOnto(recorder, [], allocator, heap, resources, viewport)
  }

  /** Recording onto any log appends the same thirteen commands. */
  lemma RecordAppendsFrame(recorder: VisualizeVoxelGridRecorder, log0: seq<Command>, allocator: ApiObject, heap: ApiObject,
                           resources: ResourceList, viewport: Viewport)
    ensures FrameOnto(recorder, log0, allocator, heap, resources, viewport)
         == log0 + FrameCommands(recorder, allocator, heap, resources, viewport)
  {
    var log := FrameOnto(recorder, log0, allocator, heap, resources, viewport);
    var f := FrameCommands(recorder, allocator, heap, resources, viewport);
    assert |log| == |log0| + 13;
    assert log[..|log0|] == log0;
    assert forall j :: 0 <= j < 13 ==> log[|log0| + j] == f[j];
    assert log[|log0|..] == f;
  }

  /** One frame reopens the list with the recorder's pipeline state and
      closes it last; in between it installs the caller's required states,
      binds the table at the caller's start and the caller's single render
      target, scissors to the viewport and draws one full-screen triangle
      from no vertex or index buffer. */
  lemma RecordIssuesDraw(recorder: VisualizeVoxelGridRecorder, allocator: ApiObject, heap: ApiObject,
                         resources: ResourceList, viewport: Viewport)
    ensures var log := FrameCommands(recorder, allocator, heap, resources, viewport);
      log[0] == Reset(allocator, Some(recorder.pipelineState)) && log[|log| - 1] == Close &&
      log[1] == SetGraphicsRootSignature(recorder.rootSignature) &&
      log[2] == SetRequiredResourceStates(resources.requiredResourceStates) &&
      log[4] == SetGraphicsRootDescriptorTable(SRVRootParam, resources.srvHeapStart) &&
      log[5] == OMSetRenderTargets([resources.rtvHeapStart], None) &&
      log[7] == IASetVertexBuffers(0, 1, None) && log[8] == IASetIndexBuffer(None) &&
      log[9] == RSSetViewports([viewport]) && log[10] == RSSetScissorRects([ExtractRect(viewport)]) &&
      log[11] == DrawInstanced(3, 1, 0, 0)
  {
  }

  /** The frame's only draw is the one at position 11, and the only
      commands that reopen or close the list are its first and last. */
  lemma RecordDrawsOnce(recorder: VisualizeVoxelGridRecorder, allocator: ApiObject, heap: ApiObject,
                        resources: ResourceList, viewport: Viewport)
    ensures var log := FrameCommands(recorder, allocator, heap, resources, viewport);
      (forall i :: 0 <= i < |log| && (log[i].DrawInstanced? || log[i].DrawIndexedInstanced?) ==> i == 11) &&
      (forall i :: 0 < i < |log| - 1 ==> !log[i].Reset? && !log[i].Close?)
  {
  }

  /** The recorder issues no barrier of its own: every resource keeps its
      state through the frame, and the required states take effect only
      where the command list is executed. */
  lemma RecordKeepsStates(recorder: VisualizeVoxelGridRecorder, allocator: ApiObject, heap: ApiObject,
                          resources: ResourceList, viewport: Viewport, r: GraphicsResource, s: ResourceStates)
    ensures ApplyCommands(FrameCommands(recorder, allocator, heap, resources, viewport), r, s) == s
  {
    ApplyCommandsNoBarriers(FrameCommands(recorder, allocator, heap, resources, viewport), r, s);
  }
}
