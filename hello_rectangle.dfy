// The "Hello Rectangle" sample: one command list that clears the current
// back buffer and draws an indexed quad, recorded once per frame, with one
// fence value per back buffer so that the CPU never reuses a back buffer's
// command allocator while the GPU may still be executing from it.
// Device, swap chain and pipeline creation are outside this model: the
// objects they produce are handed to OnInit.
module HelloRectangle {
  import opened Gpu
  import opened Fences

  /** The objects OnInit builds through the device and the swap chain. */
  datatype RenderObjects = RenderObjects(
    backBuffers: seq<GraphicsResource>,
    rootSignature: ApiObject,
    pipelineState: ApiObject,
    vertexBuffer: GraphicsResource,
    vertexBufferView: ApiObject,
    indexBuffer: GraphicsResource,
    indexBufferView: ApiObject,
    viewport: Viewport,
    scissorRect: Rect)

  /** Indices of the quad: two triangles. */
  const QuadIndexCount: nat := 6

  /** The upload recorded at the end of OnInit: both buffers are copied from
      their upload copies and moved to the state they are read in. */
  function UploadCommands(o: RenderObjects, uploadVertexBuffer: GraphicsResource,
                          uploadIndexBuffer: GraphicsResource): seq<Command>
  {
    [CopyResource(o.vertexBuffer, uploadVertexBuffer),
     TransitionBarrier(o.vertexBuffer, CopyDest, VertexAndConstantBuffer),
     CopyResource(o.indexBuffer, uploadIndexBuffer),
     TransitionBarrier(o.indexBuffer, CopyDest, IndexBuffer),
     Close]
  }

  /** The start of one frame for back buffer `index`: reset, root
      signature, the back buffer made a render target, cleared and bound. */
  function FrameSetupCommands(o: RenderObjects, index: nat, allocator: ApiObject): seq<Command>
    requires index < |o.backBuffers|
  {
    var renderTarget := o.backBuffers[index];
    [Reset(allocator, Some(o.pipelineState)),
     SetGraphicsRootSignature(o.rootSignature),
     TransitionBarrier(renderTarget, Present, RenderTarget),
     ClearRenderTargetView(RTVOf(renderTarget)),
     OMSetRenderTargets([RTVOf(renderTarget)], None)]
  }

  /** The input assembly, rasterizer state and the draw of the quad. */
  function QuadDrawCommands(o: RenderObjects): seq<Command>
  {
    [IASetPrimitiveTopology(TriangleList),
     IASetVertexBuffers(0, 1, Some(o.vertexBufferView)),
     IASetIndexBuffer(Some(o.indexBufferView)),
     RSSetViewports([o.viewport]),
     RSSetScissorRects([o.scissorRect]),
     DrawIndexedInstanced(QuadIndexCount, 1, 0, 0, 0)]
  }

  /** The commands of one frame for back buffer `index`, up to and
      including the draw. */
  function FrameDrawCommands(o: RenderObjects, index: nat, allocator: ApiObject): seq<Command>
    requires index < |o.backBuffers|
  {
    FrameSetupCommands(o, index, allocator) + QuadDrawCommands(o)
  }

  /** The whole frame: the draw, then the back buffer goes back to PRESENT
      and the list is closed. */
  function FrameCommands(o: RenderObjects, index: nat, allocator: ApiObject): seq<Command>
    requires index < |o.backBuffers|
  {
    FrameDrawCommands(o, index, allocator)
      + [TransitionBarrier(o.backBuffers[index], RenderTarget, Present), Close]
  }

  /** After the upload the vertex buffer is readable as a vertex buffer and
      the index buffer as an index buffer (two distinct buffers). */
  lemma UploadStates(o: RenderObjects, uploadVertexBuffer: GraphicsResource, uploadIndexBuffer: GraphicsResource)
    requires o.vertexBuffer != o.indexBuffer
    ensures ApplyCommands(UploadCommands(o, uploadVertexBuffer, uploadIndexBuffer), o.vertexBuffer, CopyDest)
      == VertexAndConstantBuffer
    ensures ApplyCommands(UploadCommands(o, uploadVertexBuffer, uploadIndexBuffer), o.indexBuffer, CopyDest)
      == IndexBuffer
  {
    var cmds := UploadCommands(o, uploadVertexBuffer, uploadIndexBuffer);
    forall r | r == o.vertexBuffer || r == o.indexBuffer
      ensures ApplyCommands(cmds, r, CopyDest)
        == if r == o.vertexBuffer then VertexAndConstantBuffer else IndexBuffer
    {
      assert cmds[..1][..0] == [];
      assert ApplyCommands(cmds[..1], r, CopyDest) == CopyDest;
      assert cmds[..2][..1] == cmds[..1];
      assert ApplyCommands(cmds[..2], r, CopyDest) == if r == o.vertexBuffer then VertexAndConstantBuffer else CopyDest;
      assert cmds[..3][..2] == cmds[..2];
      assert ApplyCommands(cmds[..3], r, CopyDest) == if r == o.vertexBuffer then VertexAndConstantBuffer else CopyDest;
      assert cmds[..4][..3] == cmds[..3];
      assert ApplyCommands(cmds[..4], r, CopyDest) == if r == o.vertexBuffer then VertexAndConstantBuffer else IndexBuffer;
      assert cmds[..|cmds| - 1] == cmds[..4];
    }
  }

  /** A back buffer handed over in PRESENT is a render target when it is
      cleared and drawn to, and is in PRESENT again when the frame ends, so
      the next frame that picks it finds it as this one did. */
  lemma {:induction false} FrameStates(o: RenderObjects, index: nat, allocator: ApiObject)
    requires index < |o.backBuffers|
    ensures var rt := o.backBuffers[index];
      ApplyCommands(FrameDrawCommands(o, index, allocator)[..3], rt, Present) == RenderTarget &&
      ApplyCommands(FrameDrawCommands(o, index, allocator), rt, Present) == RenderTarget &&
      ApplyCommands(FrameCommands(o, index, allocator), rt, Present) == Present
  {
    var rt := o.backBuffers[index];
    var draw := FrameDrawCommands(o, index, allocator);
    assert draw[..3][..2][..1][..0] == [];
    assert draw[..3][..2][..1] == draw[..1];
    assert draw[..3][..2] == draw[..2];
    assert ApplyCommands(draw[..3], rt, Present) == RenderTarget;
    var tail := draw[3..];
    assert draw == draw[..3] + tail;
    assert NoBarrierCommands(tail);
    NoBarrierKeepsState(tail, rt, RenderTarget);
    ApplyCommandsConcat(draw[..3], tail, rt, Present);
    var ending := [TransitionBarrier(rt, RenderTarget, Present), Close];
    assert ending[..1][..0] == [];
    assert ending[..1] == ending[..|ending| - 1];
    ApplyCommandsConcat(draw, ending, rt, Present);
  }

  /** Commands without barriers leave every state alone. */
  lemma {:induction false} NoBarrierKeepsState(cmds: seq<Command>, r: GraphicsResource, s: ResourceStates)
    requires NoBarrierCommands(cmds)
    ensures ApplyCommands(cmds, r, s) == s
    decreases |cmds|
  {
    if cmds != [] {
      var prev := cmds[..|cmds| - 1];
      assert forall i :: 0 <= i < |prev| ==> prev[i] == cmds[i];
      NoBarrierKeepsState(prev, r, s);
    }
  }

  /** A new command list holding the upload of the two buffers. */
  method RecordUpload(o: RenderObjects, uploadVertexBuffer: GraphicsResource, uploadIndexBuffer: GraphicsResource)
    returns (list: CommandList)
    ensures fresh(list) && list.log == UploadCommands(o, uploadVertexBuffer, uploadIndexBuffer)
  {
    list := new CommandList();
    list.Emit(CopyResource(o.vertexBuffer, uploadVertexBuffer));
    list.Emit(TransitionBarrier(o.vertexBuffer, CopyDest, VertexAndConstantBuffer));
    list.Emit(CopyResource(o.indexBuffer, uploadIndexBuffer));
    list.Emit(TransitionBarrier(o.indexBuffer, CopyDest, IndexBuffer));
    list.Emit(Close);
  }

  /** Records the start of the frame for back buffer `index`. */
  method RecordSetup(list: CommandList, o: RenderObjects, index: nat, allocator: ApiObject)
    requires index < |o.backBuffers|
    modifies list
    ensures list.log == old(list.log) + FrameSetupCommands(o, index, allocator)
  {
    var renderTarget := o.backBuffers[index];
    list.Emit(Reset(allocator, Some(o.pipelineState)));
    list.Emit(SetGraphicsRootSignature(o.rootSignature));
    list.Emit(TransitionBarrier(renderTarget, Present, RenderTarget));
    list.Emit(ClearRenderTargetView(RTVOf(renderTarget)));
    list.Emit(OMSetRenderTargets([RTVOf(renderTarget)], None));
  }

  /** Records the draw of the quad. */
  method RecordQuad(list: CommandList, o: RenderObjects)
    modifies list
    ensures list.log == old(list.log) + QuadDrawCommands(o)
  {
    list.Emit(IASetPrimitiveTopology(TriangleList));
    list.Emit(IASetVertexBuffers(0, 1, Some(o.vertexBufferView)));
    list.Emit(IASetIndexBuffer(Some(o.indexBufferView)));
    list.Emit(RSSetViewports([o.viewport]));
    list.Emit(RSSetScissorRects([o.scissorRect]));
    list.Emit(DrawIndexedInstanced(QuadIndexCount, 1, 0, 0, 0));
  }

  /** Records the whole frame: the draw, the barrier back to PRESENT and the
      close. */
  method RecordFrame(list: CommandList, o: RenderObjects, index: nat, allocator: ApiObject)
    requires index < |o.backBuffers|
    modifies list
    ensures list.log == old(list.log) + FrameCommands(o, index, allocator)
  {
    RecordSetup(list, o, index, allocator);
    RecordQuad(list, o);
    list.Emit(TransitionBarrier(o.backBuffers[index], RenderTarget, Present));
    list.Emit(Close);
  }

  class DXApplication {
    const backBufferCount: nat
    const commandAllocators: array<ApiObject?>
    const fenceValues: array<nat>
    var backBufferIndex: nat
    var fence: Fence?
    var commandList: CommandList?
    var objects: Option<RenderObjects>

    /** The frame-pacing invariant: the current back buffer's fence value is
        the next value to signal, every other back buffer's value has already
        been signalled, and the fence history keeps the discipline. */
    ghost predicate FenceValid()
      reads this, fenceValues, fence
    {
      fenceValues.Length == backBufferCount && fence != null &&
      WellOrdered(fence.initialValue, fence.events) &&
      Paced(fenceValues[..], backBufferIndex, fence.Signalled())
    }

    /** Ready to render: the invariant above, one allocator per back buffer
        and the objects OnInit set up. */
    ghost predicate Valid()
      reads this, fenceValues, fence, commandAllocators
    {
      FenceValid() && commandAllocators.Length == backBufferCount &&
      (forall k :: 0 <= k < backBufferCount ==> commandAllocators[k] != null) &&
      commandList != null && objects.Some? && |objects.value.backBuffers| == backBufferCount
    }

    /** Every allocator slot starts empty and every fence value at zero. */
    constructor(backBufferCount: nat)
      requires backBufferCount > 0
      ensures this.backBufferCount == backBufferCount && backBufferIndex == 0
      ensures fresh(commandAllocators) && commandAllocators.Length == backBufferCount
      ensures fresh(fenceValues) && fenceValues.Length == backBufferCount
      ensures forall k :: 0 <= k < backBufferCount ==> commandAllocators[k] == null && fenceValues[k] == 0
      ensures fence == null && commandList == null && objects == None
    {
      this.backBufferCount := backBufferCount;
      backBufferIndex := 0;
      fence := null;
      commandList := null;
      objects := None;
      var allocators := new ApiObject?[backBufferCount];
      var index := 0;
      while index < backBufferCount
        invariant index <= backBufferCount
        invariant forall k :: 0 <= k < index ==> allocators[k] == null
      {
        allocators[index] := null;
        index := index + 1;
      }
      var values := new nat[backBufferCount];
      index := 0;
      while index < backBufferCount
        invariant index <= backBufferCount
        invariant forall k :: 0 <= k < index ==> values[k] == 0
        invariant forall k :: 0 <= k < backBufferCount ==> allocators[k] == null
      {
        values[index] := 0;
        index := index + 1;
      }
      commandAllocators := allocators;
      fenceValues := values;
    }

    /** Creates one allocator per back buffer and the fence at the current
        back buffer's value, then advances that value; records the upload of
        the two buffers and waits for it. */
    method OnInit(currentBackBufferIndex: nat, objects: RenderObjects,
                  uploadVertexBuffer: GraphicsResource, uploadIndexBuffer: GraphicsResource)
      requires currentBackBufferIndex < backBufferCount && |objects.backBuffers| == backBufferCount
      requires commandAllocators.Length == backBufferCount && fenceValues.Length == backBufferCount
      requires forall k :: 0 <= k < backBufferCount ==> fenceValues[k] == 0
      modifies this`backBufferIndex, this`fence, this`commandList, this`objects, commandAllocators, fenceValues
      ensures Valid() && fresh(fence) && fresh(commandList) && this.objects == Some(objects)
      ensures fence.initialValue == 0
      ensures fence.events == [QueueSignal(1), CpuWait(1)]
      ensures backBufferIndex == currentBackBufferIndex && fenceValues[backBufferIndex] == 2
      ensures forall k :: 0 <= k < backBufferCount && k != backBufferIndex ==> fenceValues[k] == 0
      ensures commandList.log == UploadCommands(objects, uploadVertexBuffer, uploadIndexBuffer)
    {
      backBufferIndex := currentBackBufferIndex;
      this.objects := Some(objects);
      CreateCommandAllocators();

      fence := new Fence(fenceValues[backBufferIndex]);
      fenceValues[backBufferIndex] := fenceValues[backBufferIndex] + 1;

      commandList := RecordUpload(objects, uploadVertexBuffer, uploadIndexBuffer);
      WaitForGPU();
    }

    /** One new allocator per back buffer. */
    method CreateCommandAllocators()
      modifies commandAllocators
      ensures forall k :: 0 <= k < commandAllocators.Length ==> commandAllocators[k] != null
    {
      var index := 0;
      while index < commandAllocators.Length
        invariant index <= commandAllocators.Length
        invariant forall k :: 0 <= k < index ==> commandAllocators[k] != null
      {
        commandAllocators[index] := new ApiObject();
        index := index + 1;
      }
    }

    /** Signals the current back buffer's value, waits until the GPU reaches
        it, and advances that value only. */
    method WaitForGPU()
      requires FenceValid()
      modifies fenceValues, fence`events
      ensures FenceValid()
      ensures fence.events == old(fence.events) + [QueueSignal(old(fenceValues[backBufferIndex])),
                                                  CpuWait(old(fenceValues[backBufferIndex]))]
      ensures fenceValues[backBufferIndex] == old(fenceValues[backBufferIndex]) + 1
      ensures forall k :: 0 <= k < backBufferCount && k != backBufferIndex ==> fenceValues[k] == old(fenceValues[k])
    {
      fence.Signal(fenceValues[backBufferIndex]);
      fence.Wait(fenceValues[backBufferIndex]);
      fenceValues[backBufferIndex] := fenceValues[backBufferIndex] + 1;
    }

    /** Signals the value of the frame just submitted, switches to the back
        buffer the swap chain presents next, waits for that buffer's last
        frame only when the GPU has not reached it (`completedValue` is the
        fence value the GPU has completed), and gives it the next value. */
    method MoveToNextFrame(nextBackBufferIndex: nat, completedValue: nat)
      requires FenceValid() && nextBackBufferIndex < backBufferCount
      requires completedValue <= fenceValues[backBufferIndex]
      modifies this`backBufferIndex, fenceValues, fence`events
      ensures FenceValid() && backBufferIndex == nextBackBufferIndex
      ensures var current := old(fenceValues[backBufferIndex]);
        var awaited := old(fenceValues[nextBackBufferIndex]);
        fence.events == old(fence.events) + [QueueSignal(current)]
                        + (if completedValue < awaited then [CpuWait(awaited)] else []) &&
        fenceValues[nextBackBufferIndex] == current + 1
      ensures forall k :: 0 <= k < backBufferCount && k != nextBackBufferIndex ==> fenceValues[k] == old(fenceValues[k])
    {
      var currentFenceValue := fenceValues[backBufferIndex];
      fence.Signal(currentFenceValue);

      backBufferIndex := nextBackBufferIndex;
      if completedValue < fenceValues[backBufferIndex] {
        fence.Wait(fenceValues[backBufferIndex]);
      }
      fenceValues[backBufferIndex] := currentFenceValue + 1;
    }

    /** Records the frame for the current back buffer, then moves to the
        next frame. */
    method OnRender(nextBackBufferIndex: nat, completedValue: nat)
      requires Valid() && nextBackBufferIndex < backBufferCount
      requires completedValue <= fenceValues[backBufferIndex]
      modifies this`backBufferIndex, fenceValues, fence`events, commandList
      ensures Valid() && backBufferIndex == nextBackBufferIndex
      ensures commandList.log
        == old(commandList.log) + FrameCommands(objects.value, old(backBufferIndex), commandAllocators[old(backBufferIndex)])
    {
      var commandAllocator := commandAllocators[backBufferIndex];
      var objects := this.objects.value;
      RecordFrame(commandList, objects, backBufferIndex, commandAllocator);
      MoveToNextFrame(nextBackBufferIndex, completedValue);
    }

    /** Waits for the GPU before the objects are released. */
    method OnDestroy()
      requires FenceValid()
      modifies fenceValues, fence`events
      ensures FenceValid()
      ensures fence.events == old(fence.events) + [QueueSignal(old(fenceValues[backBufferIndex])),
                                                  CpuWait(old(fenceValues[backBufferIndex]))]
    {
      WaitForGPU();
    }
  }
}
