// The "Scene Voxelization" sample: frame pacing with one fence value per
// back buffer, the clear at the start of a frame and the hand-back of the
// back buffer in PRESENT at its end (each transition issued only when the
// tracked state differs), and the layout of the shader-visible descriptor
// heap the recorders' tables live in.
// The sample's mesh setup is a stub that stops initialisation, so OnInit
// reports NotImplemented once the fence exists; what the recorders record
// in between is not modelled (their effect on the back buffer's state is a
// parameter of OnRender).
module SceneVoxelization {
  import opened Gpu
  import opened Fences
  import VisualizeVoxelGrid

  /** kBackBufferCount. */
  const BackBufferCount: nat := 3

  /** Capacity of the shader-visible CBV/SRV/UAV heap. */
  const ShaderVisibleSRVHeapCapacity: nat := 32

  /** Slots reserved at the start of that heap for null descriptors. */
  const NullSRVRangeSize: nat := 10

  /** The camera's clear flags. */
  type ClearFlags = bv8
  const ClearFlagColor: ClearFlags := 1
  const ClearFlagDepth: ClearFlags := 2

  /** The buffers and the depth texture the recorders' tables refer to. */
  datatype VoxelResources = VoxelResources(
    objectTransformBuffer: GraphicsResource,
    cameraTransformBuffer: GraphicsResource,
    gridConfigBuffer: GraphicsResource,
    gridBuffer: GraphicsResource,
    depthTexture: GraphicsResource)

  // ---------------------------------------------------------------------
  // Descriptor heap layout
  // ---------------------------------------------------------------------

  /** The table of the recorder that clears the grid. */
  function ClearGridViews(r: VoxelResources): seq<View>
  {
    [CBVOf(r.gridConfigBuffer), UAVOf(r.gridBuffer)]
  }

  /** The table of the recorder that voxelises the scene into the grid. */
  function CreateGridViews(r: VoxelResources): seq<View>
  {
    [CBVOf(r.objectTransformBuffer), CBVOf(r.cameraTransformBuffer), CBVOf(r.gridConfigBuffer), UAVOf(r.gridBuffer)]
  }

  /** The table of the grid visualisation, one per back buffer. */
  function VisualizeGridViews(r: VoxelResources): seq<View>
  {
    [CBVOf(r.gridConfigBuffer), CBVOf(r.cameraTransformBuffer), SRVOf(r.depthTexture), SRVOf(r.gridBuffer)]
  }

  /** The table of the mesh visualisation, one per back buffer. */
  function VisualizeMeshViews(r: VoxelResources): seq<View>
  {
    [CBVOf(r.objectTransformBuffer)]
  }

  /** `vs` written `n` times in a row. */
  function Repeated(vs: seq<View>, n: nat): seq<View>
    decreases n
  {
    if n == 0 then [] else Repeated(vs, n - 1) + vs
  }

  lemma {:induction false} RepeatedLength(vs: seq<View>, n: nat)
    ensures |Repeated(vs, n)| == n * |vs|
    decreases n
  {
    if n > 0 {
      RepeatedLength(vs, n - 1);
    }
  }

  /** Copy `i` of `vs` within `Repeated(vs, n)`. */
  lemma {:induction false} RepeatedCopy(vs: seq<View>, n: nat, i: nat, j: nat)
    requires i < n && j < |vs|
    ensures i * |vs| + j < |Repeated(vs, n)| && Repeated(vs, n)[i * |vs| + j] == vs[j]
    decreases n
  {
    RepeatedLength(vs, n - 1);
    if i < n - 1 {
      RepeatedCopy(vs, n - 1, i, j);
    }
  }

  /** Copy `i` of `vs` within `Repeated(vs, n)`, as a slice. */
  lemma RepeatedSlice(vs: seq<View>, n: nat, i: nat)
    requires i < n
    ensures i * |vs| + |vs| <= |Repeated(vs, n)| && Repeated(vs, n)[i * |vs| .. i * |vs| + |vs|] == vs
  {
    RepeatedLength(vs, n);
    assert i * |vs| + |vs| == (i + 1) * |vs| <= n * |vs|;
    forall j | 0 <= j < |vs|
      ensures Repeated(vs, n)[i * |vs| + j] == vs[j]
    {
      RepeatedCopy(vs, n, i, j);
    }
  }

  /** Every view the recorders' tables hold, in the order OnInit copies
      them into the heap after the null range. */
  function RecorderViews(r: VoxelResources): seq<View>
  {
    ClearGridViews(r) + CreateGridViews(r)
    + Repeated(VisualizeGridViews(r), BackBufferCount) + Repeated(VisualizeMeshViews(r), BackBufferCount)
  }

  /** The null range and the recorders' tables fit the heap: 10 + 2 + 4 +
      3 * 4 + 3 * 1 = 31 of 32 slots. */
  lemma DescriptorBudget(r: VoxelResources)
    ensures |RecorderViews(r)| == 21
    ensures NullSRVRangeSize + |RecorderViews(r)| <= ShaderVisibleSRVHeapCapacity
  {
    RepeatedLength(VisualizeGridViews(r), BackBufferCount);
    RepeatedLength(VisualizeMeshViews(r), BackBufferCount);
  }

  /** Each back buffer's grid-visualisation table starts at a slot holding
      the views the visualisation's root signature expects, in its order. */
  lemma VisualizeGridTableMatches(r: VoxelResources, i: nat)
    requires i < BackBufferCount
    ensures var views := RecorderViews(r);
      6 + 4 * i + 4 <= |views| &&
      views[6 + 4 * i .. 6 + 4 * i + 4] == VisualizeGridViews(r) &&
      Kinds(views[6 + 4 * i .. 6 + 4 * i + 4]) == SlotKinds(VisualizeVoxelGrid.TableRanges)
  {
    var grid := VisualizeGridViews(r);
    var views := RecorderViews(r);
    assert 6 + 4 * i + 4 <= |views| && views[6 + 4 * i .. 6 + 4 * i + 4] == grid by {
      var head := ClearGridViews(r) + CreateGridViews(r);
      var rep := Repeated(grid, BackBufferCount);
      RepeatedSlice(grid, BackBufferCount, i);
      assert views == head + rep + Repeated(VisualizeMeshViews(r), BackBufferCount);
      MiddleSlice(head, rep, Repeated(VisualizeMeshViews(r), BackBufferCount), 4 * i, 4 * i + 4);
    }
    assert Kinds(grid) == SlotKinds(VisualizeVoxelGrid.TableRanges) by {
      VisualizeVoxelGrid.TableLayout();
    }
  }

  lemma MiddleSlice(head: seq<View>, mid: seq<View>, tail: seq<View>, a: nat, b: nat)
    requires a <= b <= |mid|
    ensures (head + mid + tail)[|head| + a .. |head| + b] == mid[a..b]
  {
    assert forall k :: a <= k < b ==> (head + mid + tail)[|head| + k] == mid[k];
  }

  /** Copies a table's views into fresh consecutive slots. */
  method CopyTable(heap: DescriptorHeap, views: seq<View>) returns (start: DescriptorHandle)
    requires heap.Valid() && |heap.slots| + |views| <= heap.capacity && 1 <= |views| <= 4
    modifies heap
    ensures heap.Valid()
    ensures start.index == |old(heap.slots)|
    ensures heap.slots == old(heap.slots) + AsSlots(views)
  {
    start := CopyToNewSlot(heap, views[0]);
    if |views| > 1 {
      var _ := CopyToNewSlot(heap, views[1]);
    }
    if |views| > 2 {
      var _ := CopyToNewSlot(heap, views[2]);
    }
    if |views| > 3 {
      var _ := CopyToNewSlot(heap, views[3]);
    }
    assert views == views[..|views|];
  }

  /** Fills the recorders' tables: the grid clear, the voxelisation, then a
      grid-visualisation table and a mesh-visualisation table per back
      buffer. Returns where each table starts. */
  method AllocateRecorderDescriptors(heap: DescriptorHeap, r: VoxelResources)
    returns (clearGridStart: DescriptorHandle, createGridStart: DescriptorHandle,
             visualizeGridStarts: seq<DescriptorHandle>, visualizeMeshStarts: seq<DescriptorHandle>)
    requires heap.Valid() && |heap.slots| + |RecorderViews(r)| <= heap.capacity
    modifies heap
    ensures heap.Valid()
    ensures heap.slots == old(heap.slots) + AsSlots(RecorderViews(r))
    ensures clearGridStart.index == |old(heap.slots)| && createGridStart.index == |old(heap.slots)| + 2
    ensures |visualizeGridStarts| == BackBufferCount && |visualizeMeshStarts| == BackBufferCount
    ensures forall i :: 0 <= i < BackBufferCount ==> visualizeGridStarts[i].index == |old(heap.slots)| + 6 + 4 * i
    ensures forall i :: 0 <= i < BackBufferCount ==> visualizeMeshStarts[i].index == |old(heap.slots)| + 18 + i
  {
    DescriptorBudget(r);
    ghost var base := old(heap.slots);
    clearGridStart := CopyTable(heap, ClearGridViews(r));
    createGridStart := CopyTable(heap, CreateGridViews(r));
    ghost var tables := ClearGridViews(r) + CreateGridViews(r);
    assert heap.slots == base + AsSlots(tables) by {
      AsSlotsConcat(ClearGridViews(r), CreateGridViews(r));
    }

    visualizeGridStarts := [];
    var index := 0;
    while index < BackBufferCount
      invariant index <= BackBufferCount && heap.Valid()
      invariant |visualizeGridStarts| == index
      invariant forall i :: 0 <= i < index ==> visualizeGridStarts[i].index == |base| + 6 + 4 * i
      invariant |Repeated(VisualizeGridViews(r), index)| == 4 * index
      invariant heap.slots == base + AsSlots(tables + Repeated(VisualizeGridViews(r), index))
    {
      RepeatedLength(VisualizeGridViews(r), index + 1);
      var start := CopyTable(heap, VisualizeGridViews(r));
      AsSlotsConcat(tables + Repeated(VisualizeGridViews(r), index), VisualizeGridViews(r));
      visualizeGridStarts := visualizeGridStarts + [start];
      index := index + 1;
    }

    tables := tables + Repeated(VisualizeGridViews(r), BackBufferCount);
    visualizeMeshStarts := [];
    index := 0;
    while index < BackBufferCount
      invariant index <= BackBufferCount && heap.Valid()
      invariant |visualizeMeshStarts| == index
      invariant forall i :: 0 <= i < index ==> visualizeMeshStarts[i].index == |base| + 18 + i
      invariant |Repeated(VisualizeMeshViews(r), index)| == index
      invariant heap.slots == base + AsSlots(tables + Repeated(VisualizeMeshViews(r), index))
    {
      RepeatedLength(VisualizeMeshViews(r), index + 1);
      var start := CopyTable(heap, VisualizeMeshViews(r));
      AsSlotsConcat(tables + Repeated(VisualizeMeshViews(r), index), VisualizeMeshViews(r));
      visualizeMeshStarts := visualizeMeshStarts + [start];
      index := index + 1;
    }
  }

  // ---------------------------------------------------------------------
  // Frame commands
  // ---------------------------------------------------------------------

  /** The barrier moving `target` from its tracked state `state` to
      `required`, or nothing when it is already there. */
  function TransitionIfNeeded(target: GraphicsResource, state: ResourceStates, required: ResourceStates): seq<Command>
  {
    if state != required then [TransitionBarrier(target, state, required)] else []
  }

  /** The clear at the start of a frame, given the clear flags and the
      tracked states of the back buffer and the depth texture. */
  function ClearCommands(flags: ClearFlags, allocator: ApiObject, renderTarget: GraphicsResource,
                         renderTargetState: ResourceStates, depthTexture: GraphicsResource,
                         depthState: ResourceStates): seq<Command>
  {
    [Reset(allocator, None)]
    + (if flags & ClearFlagColor != 0
       then TransitionIfNeeded(renderTarget, renderTargetState, RenderTarget) + [ClearRenderTargetView(RTVOf(renderTarget))]
       else [])
    + (if flags & ClearFlagDepth != 0
       then TransitionIfNeeded(depthTexture, depthState, DepthWrite) + [ClearDepthView(DSVOf(depthTexture))]
       else [])
    + [Close]
  }

  /** The commands that hand the back buffer back in PRESENT at the end of a
      frame: none when it is already there. */
  function PresentCommands(allocator: ApiObject, renderTarget: GraphicsResource, state: ResourceStates): seq<Command>
  {
    if state != Present then [Reset(allocator, None), TransitionBarrier(renderTarget, state, Present), Close] else []
  }

  /** A conditional transition takes the resource to the required state,
      leaves every other resource alone, and never issues a barrier whose
      two states agree. */
  lemma TransitionIfNeededReaches(target: GraphicsResource, state: ResourceStates, required: ResourceStates,
                                  r: GraphicsResource, s: ResourceStates)
    ensures var cmds := TransitionIfNeeded(target, state, required);
      ApplyCommands(cmds, target, state) == required &&
      (r != target ==> ApplyCommands(cmds, r, s) == s) &&
      (cmds == [] <==> state == required) &&
      forall i :: 0 <= i < |cmds| ==> cmds[i].TransitionBarrier? && cmds[i].before != cmds[i].after
  {
    var cmds := TransitionIfNeeded(target, state, required);
    if cmds != [] {
      assert cmds[..0] == [];
    }
  }

  /** After the clear, the GPU has each cleared resource in its write state
      and the other one untouched. */
  lemma ClearCommandsStates(flags: ClearFlags, allocator: ApiObject, renderTarget: GraphicsResource,
                            renderTargetState: ResourceStates, depthTexture: GraphicsResource,
                            depthState: ResourceStates)
    requires renderTarget != depthTexture
    ensures var cmds := ClearCommands(flags, allocator, renderTarget, renderTargetState, depthTexture, depthState);
      ApplyCommands(cmds, renderTarget, renderTargetState)
        == (if flags & ClearFlagColor != 0 then RenderTarget else renderTargetState) &&
      ApplyCommands(cmds, depthTexture, depthState)
        == (if flags & ClearFlagDepth != 0 then DepthWrite else depthState)
  {
    var color := if flags & ClearFlagColor != 0
      then TransitionIfNeeded(renderTarget, renderTargetState, RenderTarget) + [ClearRenderTargetView(RTVOf(renderTarget))]
      else [];
    var depth := if flags & ClearFlagDepth != 0
      then TransitionIfNeeded(depthTexture, depthState, DepthWrite) + [ClearDepthView(DSVOf(depthTexture))]
      else [];
    var cmds := ClearCommands(flags, allocator, renderTarget, renderTargetState, depthTexture, depthState);
    assert cmds == [Reset(allocator, None)] + color + depth + [Close];
    forall r, s | r == renderTarget || r == depthTexture
      ensures ApplyCommands(cmds, r, s)
        == ApplyCommands(depth, r, ApplyCommands(color, r, s))
    {
      ApplyCommandsConcat([Reset(allocator, None)], color, r, s);
      assert [Reset(allocator, None)][..0] == [];
      ApplyCommandsConcat([Reset(allocator, None)] + color, depth, r, s);
      ApplyCommandsConcat([Reset(allocator, None)] + color + depth, [Close], r, s);
      assert [Close][..0] == [];
    }
    TransitionIfNeededReaches(renderTarget, renderTargetState, RenderTarget, depthTexture, depthState);
    TransitionIfNeededReaches(depthTexture, depthState, DepthWrite, renderTarget, RenderTarget);
    TransitionIfNeededReaches(depthTexture, depthState, DepthWrite, renderTarget, renderTargetState);
    if flags & ClearFlagColor != 0 {
      var t := TransitionIfNeeded(renderTarget, renderTargetState, RenderTarget);
      var c := [ClearRenderTargetView(RTVOf(renderTarget))];
      assert c[..0] == [];
      ApplyCommandsConcat(t, c, renderTarget, renderTargetState);
      ApplyCommandsConcat(t, c, depthTexture, depthState);
    }
    if flags & ClearFlagDepth != 0 {
      var t := TransitionIfNeeded(depthTexture, depthState, DepthWrite);
      var c := [ClearDepthView(DSVOf(depthTexture))];
      assert c[..0] == [];
      var rtMid := if flags & ClearFlagColor != 0 then RenderTarget else renderTargetState;
      TransitionIfNeededReaches(depthTexture, depthState, DepthWrite, renderTarget, rtMid);
      ApplyCommandsConcat(t, c, renderTarget, rtMid);
      ApplyCommandsConcat(t, c, depthTexture, depthState);
    }
  }

  /** Handing back ends in PRESENT whatever the tracked state was, and
      records nothing when it was PRESENT already. */
  lemma PresentCommandsReach(allocator: ApiObject, renderTarget: GraphicsResource, state: ResourceStates)
    ensures ApplyCommands(PresentCommands(allocator, renderTarget, state), renderTarget, state) == Present
    ensures PresentCommands(allocator, renderTarget, state) == [] <==> state == Present
  {
    var cmds := PresentCommands(allocator, renderTarget, state);
    if cmds != [] {
      assert cmds[..2][..1][..0] == [];
      assert cmds[..2][..1] == cmds[..1];
      assert cmds[..|cmds| - 1] == cmds[..2];
    }
  }

  /** The shader-visible CBV/SRV/UAV heap with its null range reserved;
      the recorders' tables fit in what is left. */
  method CreateShaderVisibleHeap() returns (heap: DescriptorHeap, nullStart: DescriptorHandle)
    ensures fresh(heap) && heap.Valid() && heap.capacity == ShaderVisibleSRVHeapCapacity
    ensures heap.slots == seq(NullSRVRangeSize, _ => Empty) && nullStart.index == 0
    ensures forall r :: |heap.slots| + |RecorderViews(r)| <= heap.capacity
  {
    var token := new ApiObject();
    heap := new DescriptorHeap(token, ShaderVisibleSRVHeapCapacity);
    nullStart := heap.AllocateRange(NullSRVRangeSize);
    forall r: VoxelResources
      ensures |heap.slots| + |RecorderViews(r)| <= heap.capacity
    {
      DescriptorBudget(r);
    }
  }

  /** One new command allocator per back buffer. */
  method CreateCommandAllocators(count: nat) returns (allocators: seq<ApiObject>)
    ensures |allocators| == count
    ensures forall k :: 0 <= k < count ==> fresh(allocators[k])
  {
    allocators := [];
    var index := 0;
    while index < count
      invariant index <= count && |allocators| == index
      invariant forall k :: 0 <= k < index ==> fresh(allocators[k])
    {
      var allocator := new ApiObject();
      allocators := allocators + [allocator];
      index := index + 1;
    }
  }

  // ---------------------------------------------------------------------
  // The application
  // ---------------------------------------------------------------------

  class DXApplication {
    const fenceValues: array<nat>
    var backBufferIndex: nat
    var fence: Fence?
    var commandList: CommandList?
    var commandAllocators: seq<ApiObject>
    var srvHeap: DescriptorHeap?
    var nullSRVHeapStart: DescriptorHandle
    var backBuffers: seq<GraphicsResource>
    var depthTexture: GraphicsResource?
    /** The state each back buffer and the depth texture were last moved to,
        as the resources track it. */
    var backBufferStates: seq<ResourceStates>
    var depthTextureState: ResourceStates

    /** The frame-pacing invariant, over the fence history. */
    ghost predicate FenceValid()
      reads this, fenceValues, fence
    {
      fenceValues.Length == BackBufferCount && fence != null &&
      WellOrdered(fence.initialValue, fence.events) &&
      Paced(fenceValues[..], backBufferIndex, fence.Signalled())
    }

    /** Ready to render: pacing, one allocator per back buffer, the command
        list, and tracked states for the back buffers and the depth texture. */
    ghost predicate Valid()
      reads this, fenceValues, fence
    {
      FenceValid() && |commandAllocators| == BackBufferCount && commandList != null &&
      |backBuffers| == BackBufferCount && |backBufferStates| == BackBufferCount &&
      depthTexture != null && depthTexture !in backBuffers
    }

    /** Every fence value starts at zero. */
    constructor()
      ensures fresh(fenceValues) && fenceValues.Length == BackBufferCount
      ensures forall k :: 0 <= k < BackBufferCount ==> fenceValues[k] == 0
      ensures backBufferIndex == 0 && fence == null && commandList == null && srvHeap == null
      ensures commandAllocators == [] && backBuffers == [] && depthTexture == null
    {
      fenceValues := new nat[BackBufferCount](_ => 0);
      backBufferIndex := 0;
      fence := null;
      commandList := null;
      commandAllocators := [];
      srvHeap := null;
      nullSRVHeapStart := DescriptorHandle(0);
      backBuffers := [];
      depthTexture := null;
      backBufferStates := [];
      depthTextureState := Common;
    }

    /** Creates the shader-visible heap and reserves its null range, one
        allocator per back buffer, the command list, the depth texture in
        DEPTH_WRITE and the fence at the current back buffer's value, then
        advances that value. The mesh setup that follows is a stub, so
        initialisation stops there. */
    method OnInit(currentBackBufferIndex: nat, backBuffers: seq<GraphicsResource>, depthTexture: GraphicsResource)
      returns (outcome: Outcome)
      requires currentBackBufferIndex < BackBufferCount && |backBuffers| == BackBufferCount
      requires depthTexture !in backBuffers
      requires fenceValues.Length == BackBufferCount
      requires forall k :: 0 <= k < BackBufferCount ==> fenceValues[k] == 0
      modifies this`backBufferIndex, this`fence, this`commandList, this`commandAllocators, this`srvHeap,
               this`nullSRVHeapStart, this`backBuffers, this`depthTexture, this`backBufferStates,
               this`depthTextureState, fenceValues
      ensures outcome.NotImplemented?
      ensures Valid() && fresh(fence) && fence.initialValue == 0 && fence.events == []
      ensures backBufferIndex == currentBackBufferIndex && fenceValues[backBufferIndex] == 1
      ensures forall k :: 0 <= k < BackBufferCount && k != backBufferIndex ==> fenceValues[k] == 0
      ensures fresh(srvHeap) && srvHeap.capacity == ShaderVisibleSRVHeapCapacity && srvHeap.Valid()
      ensures srvHeap.slots == seq(NullSRVRangeSize, _ => Empty) && nullSRVHeapStart.index == 0
      ensures forall r :: |srvHeap.slots| + |RecorderViews(r)| <= srvHeap.capacity
      ensures backBufferStates == seq(BackBufferCount, _ => Present) && depthTextureState == DepthWrite
    {
      CreateObjects(backBuffers, depthTexture);
      backBufferIndex := currentBackBufferIndex;
      InitFence();
      outcome := NotImplemented("mesh batch setup");
    }

    /** The heap, the allocators, the command list and the tracked states of
        the swap chain's back buffers and the depth texture. */
    method CreateObjects(backBuffers: seq<GraphicsResource>, depthTexture: GraphicsResource)
      modifies this`commandList, this`commandAllocators, this`srvHeap, this`nullSRVHeapStart,
               this`backBuffers, this`depthTexture, this`backBufferStates, this`depthTextureState
      ensures fresh(srvHeap) && srvHeap.capacity == ShaderVisibleSRVHeapCapacity && srvHeap.Valid()
      ensures srvHeap.slots == seq(NullSRVRangeSize, _ => Empty) && nullSRVHeapStart.index == 0
      ensures forall r :: |srvHeap.slots| + |RecorderViews(r)| <= srvHeap.capacity
      ensures |commandAllocators| == BackBufferCount && commandList != null && fresh(commandList)
      ensures this.backBuffers == backBuffers && this.depthTexture == depthTexture
      ensures backBufferStates == seq(BackBufferCount, _ => Present) && depthTextureState == DepthWrite
    {
      srvHeap, nullSRVHeapStart := CreateShaderVisibleHeap();
      commandAllocators := CreateCommandAllocators(BackBufferCount);
      commandList := new CommandList();
      this.backBuffers := backBuffers;
      backBufferStates := seq(BackBufferCount, _ => Present);
      this.depthTexture := depthTexture;
      depthTextureState := DepthWrite;
    }

    /** Creates the fence at the current back buffer's value and advances
        that value. */
    method InitFence()
      requires fenceValues.Length == BackBufferCount && backBufferIndex < BackBufferCount
      requires forall k :: 0 <= k < BackBufferCount ==> fenceValues[k] == 0
      modifies this`fence, fenceValues
      ensures FenceValid() && fresh(fence) && fence.initialValue == 0 && fence.events == []
      ensures fenceValues[..] == old(fenceValues[..])[backBufferIndex := 1]
    {
      fence := new Fence(fenceValues[backBufferIndex]);
      fenceValues[backBufferIndex] := fenceValues[backBufferIndex] + 1;
    }

    /** Signals the current back buffer's value, waits until the GPU reaches
        it, and advances that value only. */
    method WaitForGPU()
      requires FenceValid()
      modifies fenceValues, fence`events
      ensures FenceValid()
      ensures fence.events == old(fence.events) + [QueueSignal(old(fenceValues[backBufferIndex])),
                                                  CpuWait(old(fenceValues[backBufferIndex]))]
      ensures fenceValues[..] == old(fenceValues[..])[backBufferIndex := old(fenceValues[backBufferIndex]) + 1]
    {
      fence.Signal(fenceValues[backBufferIndex]);
      fence.Wait(fenceValues[backBufferIndex]);
      fenceValues[backBufferIndex] := fenceValues[backBufferIndex] + 1;
    }

    /** Signals the value of the frame just submitted, switches to the back
        buffer the swap chain presents next, waits for that buffer's last
        frame and gives it the next value. */
    method MoveToNextFrame(nextBackBufferIndex: nat)
      requires FenceValid() && nextBackBufferIndex < BackBufferCount
      modifies this`backBufferIndex, fenceValues, fence`events
      ensures FenceValid() && backBufferIndex == nextBackBufferIndex
      ensures var current := old(fenceValues[backBufferIndex]);
        fence.events == old(fence.events) + [QueueSignal(current), CpuWait(old(fenceValues[nextBackBufferIndex]))] &&
        fenceValues[..] == old(fenceValues[..])[nextBackBufferIndex := current + 1]
    {
      var currentFenceValue := fenceValues[backBufferIndex];
      fence.Signal(currentFenceValue);

      backBufferIndex := nextBackBufferIndex;
      fence.Wait(fenceValues[backBufferIndex]);
      fenceValues[backBufferIndex] := currentFenceValue + 1;
    }

    /** The clear at the start of a frame: each requested clear first moves
        its resource to its write state when the tracked state differs; the
        list is then executed and waited for. Nothing happens without
        flags. */
    method ClearTargets(flags: ClearFlags)
      requires Valid()
      modifies commandList, this`backBufferStates, this`depthTextureState, fenceValues, fence`events
      ensures Valid()
      ensures var rt := backBuffers[backBufferIndex];
        backBufferStates == (if flags & ClearFlagColor != 0 then old(backBufferStates)[backBufferIndex := RenderTarget]
                             else old(backBufferStates)) &&
        depthTextureState == (if flags & ClearFlagDepth != 0 then DepthWrite else old(depthTextureState)) &&
        commandList.log == old(commandList.log)
          + (if flags != 0
             then ClearCommands(flags, commandAllocators[backBufferIndex], rt, old(backBufferStates)[backBufferIndex],
                                depthTexture, old(depthTextureState))
             else [])
      ensures fence.events == old(fence.events)
        + (if flags != 0 then [QueueSignal(old(fenceValues[backBufferIndex])), CpuWait(old(fenceValues[backBufferIndex]))]
           else [])
    {
      if flags != 0 {
        var allocator := commandAllocators[backBufferIndex];
        ghost var log0 := commandList.log;
        ghost var rtState0 := backBufferStates[backBufferIndex];
        ghost var depthState0 := depthTextureState;
        commandList.Emit(Reset(allocator, None));
        ClearColor(flags);
        ClearDepth(flags);
        commandList.Emit(Close);
        assert commandList.log == log0 + ClearCommands(flags, allocator, backBuffers[backBufferIndex], rtState0,
                                                        depthTexture, depthState0);
        WaitForGPU();
      }
    }

    /** The colour part of the clear, when its flag is set. */
    method ClearColor(flags: ClearFlags)
      requires Valid()
      modifies commandList, this`backBufferStates
      ensures Valid()
      ensures var rt := backBuffers[backBufferIndex];
        if flags & ClearFlagColor != 0 then
          backBufferStates == old(backBufferStates)[backBufferIndex := RenderTarget] &&
          commandList.log == old(commandList.log)
            + TransitionIfNeeded(rt, old(backBufferStates)[backBufferIndex], RenderTarget) + [ClearRenderTargetView(RTVOf(rt))]
        else
          backBufferStates == old(backBufferStates) && commandList.log == old(commandList.log)
    {
      if flags & ClearFlagColor != 0 {
        var renderTarget := backBuffers[backBufferIndex];
        if backBufferStates[backBufferIndex] != RenderTarget {
          commandList.Emit(TransitionBarrier(renderTarget, backBufferStates[backBufferIndex], RenderTarget));
          backBufferStates := backBufferStates[backBufferIndex := RenderTarget];
        } else {
          assert backBufferStates == backBufferStates[backBufferIndex := RenderTarget];
        }
        commandList.Emit(ClearRenderTargetView(RTVOf(renderTarget)));
      }
    }

    /** The depth part of the clear, when its flag is set. */
    method ClearDepth(flags: ClearFlags)
      requires Valid()
      modifies commandList, this`depthTextureState
      ensures Valid()
      ensures if flags & ClearFlagDepth != 0 then
          depthTextureState == DepthWrite &&
          commandList.log == old(commandList.log)
            + TransitionIfNeeded(depthTexture, old(depthTextureState), DepthWrite) + [ClearDepthView(DSVOf(depthTexture))]
        else
          depthTextureState == old(depthTextureState) && commandList.log == old(commandList.log)
    {
      if flags & ClearFlagDepth != 0 {
        if depthTextureState != DepthWrite {
          commandList.Emit(TransitionBarrier(depthTexture, depthTextureState, DepthWrite));
          depthTextureState := DepthWrite;
        }
        commandList.Emit(ClearDepthView(DSVOf(depthTexture)));
      }
    }

    /** Hands the back buffer back in PRESENT when the frame's passes left
        it in another state. */
    method ReturnToPresent()
      requires Valid()
      modifies commandList, this`backBufferStates
      ensures Valid() && backBufferStates == old(backBufferStates)[backBufferIndex := Present]
      ensures commandList.log == old(commandList.log)
        + PresentCommands(commandAllocators[backBufferIndex], backBuffers[backBufferIndex], old(backBufferStates)[backBufferIndex])
    {
      var renderTarget := backBuffers[backBufferIndex];
      if backBufferStates[backBufferIndex] != Present {
        commandList.Emit(Reset(commandAllocators[backBufferIndex], None));
        commandList.Emit(TransitionBarrier(renderTarget, backBufferStates[backBufferIndex], Present));
        commandList.Emit(Close);
        backBufferStates := backBufferStates[backBufferIndex := Present];
      } else {
        assert backBufferStates == backBufferStates[backBufferIndex := Present];
      }
    }

    /** One frame: the clear, the mesh visualisation, grid clear and
        voxelisation passes (each executed and waited for), the grid
        visualisation, the hand-back in PRESENT and the move to the next
        frame. `passEndState` and `depthEndState` are the states the passes
        leave the back buffer and the depth texture in; the next frame's depth
        clear starts from the latter. */
    method OnRender(flags: ClearFlags, passEndState: ResourceStates, depthEndState: ResourceStates, nextBackBufferIndex: nat)
      requires Valid() && nextBackBufferIndex < BackBufferCount
      modifies commandList, this`backBufferStates, this`depthTextureState, this`backBufferIndex, fenceValues, fence`events
      ensures Valid() && backBufferIndex == nextBackBufferIndex
      ensures backBufferStates[old(backBufferIndex)] == Present && depthTextureState == depthEndState
      ensures forall k :: 0 <= k < BackBufferCount && k != old(backBufferIndex) ==> backBufferStates[k] == old(backBufferStates)[k]
      ensures commandList.log == old(commandList.log)
        + (if flags != 0
           then ClearCommands(flags, commandAllocators[old(backBufferIndex)], backBuffers[old(backBufferIndex)],
                              old(backBufferStates)[old(backBufferIndex)], depthTexture, old(depthTextureState))
           else [])
        + PresentCommands(commandAllocators[old(backBufferIndex)], backBuffers[old(backBufferIndex)], passEndState)
    {
      ghost var index := backBufferIndex;
      ghost var log0 := commandList.log;
      ClearTargets(flags);
      ghost var log1 := commandList.log;
      RunPasses(passEndState, depthEndState);
      ReturnToPresent();
      assert commandList.log == log1 + PresentCommands(commandAllocators[index], backBuffers[index], passEndState);
      MoveToNextFrame(nextBackBufferIndex);
    }

    /** The mesh visualisation, grid clear and voxelisation passes, each
        executed and waited for, then the grid visualisation; the back
        buffer ends up in `passEndState` and the depth texture, which the
        recorders move between its read and write states, in `depthEndState`. */
    method RunPasses(passEndState: ResourceStates, depthEndState: ResourceStates)
      requires Valid()
      modifies this`backBufferStates, this`depthTextureState, fenceValues, fence`events
      ensures Valid() && backBufferStates == old(backBufferStates)[backBufferIndex := passEndState]
      ensures depthTextureState == depthEndState
    {
      WaitForGPU();
      WaitForGPU();
      WaitForGPU();
      backBufferStates := backBufferStates[backBufferIndex := passEndState];
      depthTextureState := depthEndState;
    }

    /** Waits for the GPU before the objects are released. */
    method OnDestroy()
      requires FenceValid()
      modifies fenceValues, fence`events
      ensures FenceValid()
      ensures fence.events == old(fence.events) + [QueueSignal(old(fenceValues[backBufferIndex])),
                                                  CpuWait(old(fenceValues[backBufferIndex]))]
    {
      WaitForGPU();
    }
  }
}
