// Shared vocabulary of the renderer's Direct3D 12 wrapper: resource states,
// resources, transition barriers, descriptor heaps and command lists. The
// GPU itself is not modelled: a command list is the log of the commands
// recorded into it.
module Gpu {

  // ---------------------------------------------------------------------
  // Fixed-width integers
  // ---------------------------------------------------------------------

  const U32Modulus: int := 0x1_0000_0000

  type u32 = x: int | 0 <= x < 0x1_0000_0000

  /** A cube map, as a point light's shadow map is, has six faces. */
  const NumCubeMapFaces: u32 := 6

  /** 32-bit unsigned multiplication, which wraps around. */
  function MulU32(a: u32, b: u32): (r: u32)
    ensures a * b < U32Modulus ==> r == a * b
    ensures r == (a * b) % U32Modulus
  {
    (a * b) % U32Modulus
  }

  /** 32-bit unsigned addition, which wraps around. */
  function AddU32(a: u32, b: u32): (r: u32)
    ensures a + b < U32Modulus ==> r == a + b
    ensures a + b >= U32Modulus ==> r == a + b - U32Modulus
  {
    (a + b) % U32Modulus
  }

  // ---------------------------------------------------------------------
  // Resource states: the bit flags of D3D12_RESOURCE_STATES
  // ---------------------------------------------------------------------

  newtype ResourceStates = x: int | 0 <= x < 0x1_0000_0000

  const Common: ResourceStates := 0
  const VertexAndConstantBuffer: ResourceStates := 0x1
  const IndexBuffer: ResourceStates := 0x2
  const RenderTarget: ResourceStates := 0x4
  const UnorderedAccess: ResourceStates := 0x8
  const DepthWrite: ResourceStates := 0x10
  const DepthRead: ResourceStates := 0x20
  const NonPixelShaderResource: ResourceStates := 0x40
  const PixelShaderResource: ResourceStates := 0x80
  const IndirectArgument: ResourceStates := 0x200
  const CopyDest: ResourceStates := 0x400
  const CopySource: ResourceStates := 0x800
  /** VERTEX_AND_CONSTANT_BUFFER | INDEX_BUFFER | NON_PIXEL_SHADER_RESOURCE |
      PIXEL_SHADER_RESOURCE | INDIRECT_ARGUMENT | COPY_SOURCE */
  const GenericRead: ResourceStates := 0xAC3
  /** PRESENT shares the value of COMMON. */
  const Present: ResourceStates := 0

  // ---------------------------------------------------------------------
  // Resources and opaque API objects
  // ---------------------------------------------------------------------

  /** An API object the model only needs to tell apart from others
      (pipeline state, root signature, command allocator, heap, ...): only
      its identity matters. */
  class ApiObject {
    constructor () {}
  }

  datatype Option<T> = None | Some(value: T)

  datatype Format = R32Uint | R32G32Float | R16Typeless | R32Typeless | OtherFormat

  datatype ResourceDesc =
    | FormattedBufferDesc(numElements: u32, format: Format)
    | StructuredBufferDesc(numElements: u32, structureByteStride: nat)
    | Texture2DDesc(width: nat, height: nat, format: Format)

  /** A buffer or texture. Its identity is the object reference; its
      description and creation state never change after creation. */
  class GraphicsResource {
    const name: string
    const desc: ResourceDesc
    const initialState: ResourceStates

    constructor (name: string, desc: ResourceDesc, initialState: ResourceStates)
      ensures this.name == name && this.desc == desc && this.initialState == initialState
    {
      this.name := name;
      this.desc := desc;
      this.initialState := initialState;
    }
  }

  /** Duplicate-free list of resources (no two parameters alias). */
  ghost predicate DistinctResources(rs: seq<GraphicsResource>)
  {
    forall i, j :: 0 <= i < j < |rs| ==> rs[i] != rs[j]
  }

  // ---------------------------------------------------------------------
  // Transition barriers
  // ---------------------------------------------------------------------

  datatype Barrier = Barrier(resource: GraphicsResource, before: ResourceStates, after: ResourceStates)

  /** A resource, the state the caller says it is in, and the state the
      pass needs it in. */
  datatype Transition = Transition(resource: GraphicsResource, current: ResourceStates, required: ResourceStates)

  /** The barrier list a single "create barrier if required" call appends. */
  function BarrierIfRequired(t: Transition): (bs: seq<Barrier>)
    ensures bs == [] <==> t.current == t.required
    ensures bs != [] ==> bs == [Barrier(t.resource, t.current, t.required)]
  {
    if t.current != t.required then [Barrier(t.resource, t.current, t.required)] else []
  }

  ghost predicate NoNoOps(bs: seq<Barrier>)
  {
    forall i :: 0 <= i < |bs| ==> bs[i].before != bs[i].after
  }

  /** How many transitions actually change state. */
  function CountRequired(ts: seq<Transition>): (n: nat)
    ensures n <= |ts|
    decreases |ts|
  {
    if ts == [] then 0
    else CountRequired(ts[..|ts| - 1]) + (if ts[|ts| - 1].current != ts[|ts| - 1].required then 1 else 0)
  }

  /** The barrier list built by applying "create barrier if required" to each
      transition in order. */
  function Barriers(ts: seq<Transition>): (bs: seq<Barrier>)
    ensures |bs| == CountRequired(ts)
    decreases |ts|
  {
    if ts == [] then [] else Barriers(ts[..|ts| - 1]) + BarrierIfRequired(ts[|ts| - 1])
  }

  /** Exactly the changing transitions appear in the barrier list, and
      nothing else: no barrier is a no-op, every barrier comes from a listed
      transition, and every changing transition has its barrier. */
  lemma {:induction false} BarriersExact(ts: seq<Transition>)
    ensures NoNoOps(Barriers(ts))
    ensures forall b :: b in Barriers(ts) ==> Transition(b.resource, b.before, b.after) in ts
    ensures forall t :: t in ts && t.current != t.required ==> Barrier(t.resource, t.current, t.required) in Barriers(ts)
    decreases |ts|
  {
    if ts != [] {
      var init := ts[..|ts| - 1];
      var last := ts[|ts| - 1];
      BarriersExact(init);
      assert Barriers(ts) == Barriers(init) + BarrierIfRequired(last);
      assert forall t :: t in ts ==> t in init || t == last;
      assert forall t :: t in init ==> t in ts;
    }
  }

  /** No barrier is created when every resource is already in the state
      required, and at least one otherwise. */
  lemma BarriersEmptyIff(ts: seq<Transition>)
    ensures Barriers(ts) == [] <==> forall t :: t in ts ==> t.current == t.required
  {
    BarriersExact(ts);
    var bs := Barriers(ts);
    forall t | t in ts && t.current != t.required
      ensures bs != []
    {
      assert Barrier(t.resource, t.current, t.required) in bs;
    }
    if bs != [] {
      assert bs[0] in bs;
      assert Transition(bs[0].resource, bs[0].before, bs[0].after) in ts;
    }
  }

  lemma BarriersAppend(ts: seq<Transition>, t: Transition)
    ensures Barriers(ts + [t]) == Barriers(ts) + BarrierIfRequired(t)
  {
    assert (ts + [t])[..|ts|] == ts;
  }

  lemma {:induction false} BarriersConcat(a: seq<Transition>, b: seq<Transition>)
    ensures Barriers(a + b) == Barriers(a) + Barriers(b)
    decreases |b|
  {
    if b == [] {
      assert a + b == a;
    } else {
      var b' := b[..|b| - 1];
      var t := b[|b| - 1];
      assert a + b == (a + b') + [t];
      assert b == b' + [t];
      calc {
        Barriers(a + b);
        { BarriersAppend(a + b', t); }
        Barriers(a + b') + BarrierIfRequired(t);
        { BarriersConcat(a, b'); }
        Barriers(a) + Barriers(b') + BarrierIfRequired(t);
        { BarriersAppend(b', t); }
        Barriers(a) + Barriers(b);
      }
    }
  }

  lemma BarriersCons(t: Transition, ts: seq<Transition>)
    ensures Barriers([t] + ts) == BarrierIfRequired(t) + Barriers(ts)
  {
    BarriersConcat([t], ts);
    BarriersAppend([], t);
    assert [] + [t] == [t];
  }

  /** The state a resource is in after the GPU executes a barrier list,
      starting from `s`. */
  function ApplyBarriers(bs: seq<Barrier>, r: GraphicsResource, s: ResourceStates): ResourceStates
    decreases |bs|
  {
    if bs == [] then s
    else
      var prev := ApplyBarriers(bs[..|bs| - 1], r, s);
      if bs[|bs| - 1].resource == r then bs[|bs| - 1].after else prev
  }

  lemma {:induction false} ApplyBarriersConcat(a: seq<Barrier>, b: seq<Barrier>, r: GraphicsResource, s: ResourceStates)
    ensures ApplyBarriers(a + b, r, s) == ApplyBarriers(b, r, ApplyBarriers(a, r, s))
    decreases |b|
  {
    if b == [] {
      assert a + b == a;
    } else {
      var b' := b[..|b| - 1];
      assert (a + b)[..|a + b| - 1] == a + b';
      ApplyBarriersConcat(a, b', r, s);
    }
  }

  function ResourcesOf(ts: seq<Transition>): (rs: seq<GraphicsResource>)
    ensures |rs| == |ts|
    ensures forall i :: 0 <= i < |ts| ==> rs[i] == ts[i].resource
  {
    seq(|ts|, i requires 0 <= i < |ts| => ts[i].resource)
  }

  /** A resource no transition mentions keeps its state. */
  lemma {:induction false} BarriersLeaveOthers(ts: seq<Transition>, r: GraphicsResource, s: ResourceStates)
    requires forall i :: 0 <= i < |ts| ==> ts[i].resource != r
    ensures ApplyBarriers(Barriers(ts), r, s) == s
    decreases |ts|
  {
    if ts != [] {
      var init := ts[..|ts| - 1];
      BarriersLeaveOthers(init, r, s);
      ApplyBarriersConcat(Barriers(init), BarrierIfRequired(ts[|ts| - 1]), r, s);
    }
  }

  /** When no two transitions name the same resource, executing the barrier
      list leaves every listed resource in the state the pass required,
      provided it started in the state the caller declared. */
  lemma {:induction false} BarriersReachRequired(ts: seq<Transition>, k: nat)
    requires k < |ts|
    requires DistinctResources(ResourcesOf(ts))
    ensures ApplyBarriers(Barriers(ts), ts[k].resource, ts[k].current) == ts[k].required
    decreases |ts|
  {
    var init := ts[..|ts| - 1];
    var last := ts[|ts| - 1];
    var r := ts[k].resource;
    ApplyBarriersConcat(Barriers(init), BarrierIfRequired(last), r, ts[k].current);
    if k == |ts| - 1 {
      forall i | 0 <= i < |init|
        ensures init[i].resource != r
      {
        assert ResourcesOf(ts)[i] == init[i].resource;
        assert ResourcesOf(ts)[k] == r;
      }
      BarriersLeaveOthers(init, r, ts[k].current);
    } else {
      assert ResourcesOf(ts)[k] != ResourcesOf(ts)[|ts| - 1];
      forall i, j | 0 <= i < j < |init|
        ensures ResourcesOf(init)[i] != ResourcesOf(init)[j]
      {
        assert ResourcesOf(ts)[i] != ResourcesOf(ts)[j];
      }
      assert init[k] == ts[k];
      BarriersReachRequired(init, k);
    }
  }

  // ---------------------------------------------------------------------
  // Descriptors
  // ---------------------------------------------------------------------

  /** A shader-visible descriptor: the slot index in its heap. */
  datatype DescriptorHandle = DescriptorHandle(index: nat)

  /** A CPU descriptor owned by a resource (render-target or depth view) or
      handed over by the caller. */
  datatype CpuHandle = RTVOf(target: GraphicsResource) | DSVOf(target: GraphicsResource) | ExternalHandle(owner: ApiObject)

  datatype RangeKind = SRVRange | UAVRange | CBVRange

  /** What a descriptor slot was filled with. */
  datatype View =
    | SRVOf(resource: GraphicsResource)
    | UAVOf(resource: GraphicsResource)
    | CBVOf(resource: GraphicsResource)
    | CopiedSRV(source: CpuHandle)

  function KindOf(v: View): RangeKind
  {
    match v
    case SRVOf(_) => SRVRange
    case UAVOf(_) => UAVRange
    case CBVOf(_) => CBVRange
    case CopiedSRV(_) => SRVRange
  }

  function Kinds(vs: seq<View>): (ks: seq<RangeKind>)
    ensures |ks| == |vs|
    ensures forall i :: 0 <= i < |vs| ==> ks[i] == KindOf(vs[i])
  {
    seq(|vs|, i requires 0 <= i < |vs| => KindOf(vs[i]))
  }

  lemma KindsConcat(a: seq<View>, b: seq<View>)
    ensures Kinds(a + b) == Kinds(a) + Kinds(b)
  {
  }

  /** One range of a root-signature descriptor table. */
  datatype DescriptorRange = DescriptorRange(kind: RangeKind, numDescriptors: nat, baseRegister: nat)

  function Repeat(k: RangeKind, n: nat): (ks: seq<RangeKind>)
    ensures |ks| == n
    ensures forall i :: 0 <= i < n ==> ks[i] == k
  {
    seq(n, _ => k)
  }

  /** The descriptor kind expected at each consecutive slot of a table. */
  function SlotKinds(ranges: seq<DescriptorRange>): seq<RangeKind>
    decreases |ranges|
  {
    if ranges == [] then []
    else Repeat(ranges[0].kind, ranges[0].numDescriptors) + SlotKinds(ranges[1..])
  }

  lemma {:induction false} SlotKindsConcat(a: seq<DescriptorRange>, b: seq<DescriptorRange>)
    ensures SlotKinds(a + b) == SlotKinds(a) + SlotKinds(b)
    decreases |a|
  {
    if a == [] {
      assert a + b == b;
    } else {
      assert (a + b)[0] == a[0];
      assert (a + b)[1..] == a[1..] + b;
      SlotKindsConcat(a[1..], b);
    }
  }

  lemma SlotKindsSingle(r: DescriptorRange)
    ensures SlotKinds([r]) == Repeat(r.kind, r.numDescriptors)
  {
    assert [r][1..] == [];
  }

  lemma SlotKindsPair(r: DescriptorRange, q: DescriptorRange)
    ensures SlotKinds([r, q]) == Repeat(r.kind, r.numDescriptors) + Repeat(q.kind, q.numDescriptors)
  {
    assert [r, q] == [r] + [q];
    SlotKindsConcat([r], [q]);
    SlotKindsSingle(r);
    SlotKindsSingle(q);
  }

  datatype Slot = Empty | Holds(view: View)

  function AsSlots(vs: seq<View>): (ss: seq<Slot>)
    ensures |ss| == |vs|
    ensures forall i :: 0 <= i < |vs| ==> ss[i] == Holds(vs[i])
  {
    seq(|vs|, i requires 0 <= i < |vs| => Holds(vs[i]))
  }

  lemma AsSlotsConcat(a: seq<View>, b: seq<View>)
    ensures AsSlots(a + b) == AsSlots(a) + AsSlots(b)
  {
  }

  lemma AsSlotsAppend(vs: seq<View>, v: View)
    ensures AsSlots(vs + [v]) == AsSlots(vs) + [Holds(v)]
  {
  }

  /** A shader-visible descriptor heap handing out slots in increasing order
      (a bump allocator). */
  class DescriptorHeap {
    const token: ApiObject
    const capacity: nat
    var slots: seq<Slot>

    ghost predicate Valid()
      reads this
    {
      |slots| <= capacity
    }

    constructor (token: ApiObject, capacity: nat)
      ensures Valid()
      ensures this.token == token && this.capacity == capacity && slots == []
    {
      this.token := token;
      this.capacity := capacity;
      slots := [];
    }

    method Allocate() returns (h: DescriptorHandle)
      requires Valid() && |slots| < capacity
      modifies this
      ensures Valid()
      ensures h.index == |old(slots)|
      ensures slots == old(slots) + [Empty]
    {
      h := DescriptorHandle(|slots|);
      slots := slots + [Empty];
    }

    method AllocateRange(n: nat) returns (h: DescriptorHandle)
      requires Valid() && |slots| + n <= capacity
      modifies this
      ensures Valid()
      ensures h.index == |old(slots)|
      ensures slots == old(slots) + seq(n, _ => Empty)
    {
      h := DescriptorHandle(|slots|);
      slots := slots + seq(n, _ => Empty);
    }

    /** The device's CopyDescriptorsSimple into this heap. */
    method CopyDescriptor(dest: DescriptorHandle, v: View)
      requires dest.index < |slots|
      modifies this
      ensures slots == old(slots)[dest.index := Holds(v)]
    {
      slots := slots[dest.index := Holds(v)];
    }
  }

  /** Allocates the next heap slot and copies `v` into it. */
  method CopyToNewSlot(heap: DescriptorHeap, v: View) returns (h: DescriptorHandle)
    requires heap.Valid() && |heap.slots| < heap.capacity
    modifies heap
    ensures heap.Valid()
    ensures h.index == |old(heap.slots)|
    ensures heap.slots == old(heap.slots) + [Holds(v)]
  {
    h := heap.Allocate();
    heap.CopyDescriptor(h, v);
  }

  // ---------------------------------------------------------------------
  // Command lists
  // ---------------------------------------------------------------------

  datatype Viewport = Viewport(topLeftX: real, topLeftY: real, width: real, height: real, minDepth: real, maxDepth: real)

  /** Scissor rectangles. How a viewport is turned into a rectangle is not
      part of this model, so that rectangle is kept symbolic. */
  datatype Rect = RectFromViewport(viewport: Viewport) | Rect(left: int, top: int, right: int, bottom: int)

  function ExtractRect(v: Viewport): Rect
  {
    RectFromViewport(v)
  }

  datatype Topology = TriangleList

  datatype Command =
    | Begin(pipelineState: Option<ApiObject>)
    | End
    | Reset(allocator: ApiObject, pipelineState: Option<ApiObject>)
    | Close
    | SetComputeRootSignature(rootSignature: ApiObject)
    | SetGraphicsRootSignature(rootSignature: ApiObject)
    | ResourceBarrier(barriers: seq<Barrier>)
    | TransitionBarrier(resource: GraphicsResource, before: ResourceStates, after: ResourceStates)
    | CopyResource(dest: GraphicsResource, source: GraphicsResource)
    | SetRequiredResourceStates(states: seq<Transition>)
    | SetDescriptorHeaps(heap: ApiObject)
    | SetComputeRootConstantBufferView(rootParam: nat, buffer: GraphicsResource)
    | SetGraphicsRootConstantBufferView(rootParam: nat, buffer: GraphicsResource)
    | SetComputeRootDescriptorTable(rootParam: nat, baseDescriptor: DescriptorHandle)
    | SetGraphicsRootDescriptorTable(rootParam: nat, baseDescriptor: DescriptorHandle)
    | SetGraphicsRoot32BitConstant(rootParam: nat, value: u32, destOffset: nat)
    | ClearUnorderedAccessView(gpuHandle: DescriptorHandle, resource: GraphicsResource, clearValue: seq<u32>)
    | OMSetRenderTargets(renderTargets: seq<CpuHandle>, depthStencil: Option<CpuHandle>)
    | IASetPrimitiveTopology(topology: Topology)
    | IASetVertexBuffers(startSlot: nat, numViews: nat, view: Option<ApiObject>)
    | IASetIndexBuffer(view: Option<ApiObject>)
    | RSSetViewports(viewports: seq<Viewport>)
    | RSSetScissorRects(rects: seq<Rect>)
    | ClearRenderTargetView(rtv: CpuHandle)
    | ClearDepthView(dsv: CpuHandle)
    | DrawInstanced(vertexCountPerInstance: nat, instanceCount: nat, startVertex: nat, startInstance: nat)
    | DrawIndexedInstanced(indexCountPerInstance: nat, instanceCount: nat, startIndex: nat, baseVertex: int, startInstance: nat)
    | Dispatch(x: u32, y: u32, z: u32)
    | EndQuery(queryHeap: ApiObject, queryIndex: nat)
    | ResolveQueryData(queryHeap: ApiObject, startIndex: nat, numQueries: nat, destBuffer: GraphicsResource, destByteOffset: nat)

  /** The state of `r` after the GPU executes `cmds`, starting from `s`.
      Only barrier commands change resource states. */
  function ApplyCommands(cmds: seq<Command>, r: GraphicsResource, s: ResourceStates): ResourceStates
    decreases |cmds|
  {
    if cmds == [] then s
    else
      var prev := ApplyCommands(cmds[..|cmds| - 1], r, s);
      match cmds[|cmds| - 1]
      case ResourceBarrier(bs) => ApplyBarriers(bs, r, prev)
      case TransitionBarrier(res, _, after) => if res == r then after else prev
      case _ => prev
  }

  ghost predicate NoBarrierCommands(cmds: seq<Command>)
  {
    forall i :: 0 <= i < |cmds| ==> !cmds[i].ResourceBarrier? && !cmds[i].TransitionBarrier?
  }

  lemma {:induction false} ApplyCommandsConcat(a: seq<Command>, b: seq<Command>, r: GraphicsResource, s: ResourceStates)
    ensures ApplyCommands(a + b, r, s) == ApplyCommands(b, r, ApplyCommands(a, r, s))
    decreases |b|
  {
    if b == [] {
      assert a + b == a;
    } else {
      var b' := b[..|b| - 1];
      assert (a + b)[..|a + b| - 1] == a + b';
      assert (a + b)[|a + b| - 1] == b[|b| - 1];
      ApplyCommandsConcat(a, b', r, s);
    }
  }

  lemma {:induction false} ApplyCommandsNoBarriers(cmds: seq<Command>, r: GraphicsResource, s: ResourceStates)
    requires NoBarrierCommands(cmds)
    ensures ApplyCommands(cmds, r, s) == s
    decreases |cmds|
  {
    if cmds != [] {
      ApplyCommandsNoBarriers(cmds[..|cmds| - 1], r, s);
    }
  }

  /** The barrier command a pass issues for its batch: none for an empty batch. */
  function BarrierBatch(bs: seq<Barrier>): (cmds: seq<Command>)
    ensures |cmds| == if bs == [] then 0 else 1
  {
    if bs != [] then [ResourceBarrier(bs)] else []
  }

  /** The only state-changing part of a log of the shape
      prefix ++ [barrier batch if non-empty] ++ suffix is the batch. */
  lemma ApplyCommandsAroundBatch(prefix: seq<Command>, bs: seq<Barrier>, suffix: seq<Command>, r: GraphicsResource, s: ResourceStates)
    requires NoBarrierCommands(prefix) && NoBarrierCommands(suffix)
    ensures ApplyCommands(prefix + BarrierBatch(bs) + suffix, r, s) == ApplyBarriers(bs, r, s)
  {
    var batch := BarrierBatch(bs);
    ApplyCommandsConcat(prefix + batch, suffix, r, s);
    ApplyCommandsConcat(prefix, batch, r, s);
    ApplyCommandsNoBarriers(prefix, r, s);
    ApplyCommandsNoBarriers(suffix, r, ApplyCommands(prefix + batch, r, s));
    if bs != [] {
      assert batch[..0] == [];
    }
  }

  /** In such a log the batch is the only barrier command, it is issued
      exactly when non-empty, and then it holds the whole batch. */
  lemma BatchIsOnlyBarrier(prefix: seq<Command>, bs: seq<Barrier>, suffix: seq<Command>)
    requires NoBarrierCommands(prefix) && NoBarrierCommands(suffix)
    ensures var log := prefix + BarrierBatch(bs) + suffix;
      (forall i :: 0 <= i < |log| && (log[i].ResourceBarrier? || log[i].TransitionBarrier?) ==>
         i == |prefix| && log[i] == ResourceBarrier(bs)) &&
      (bs != [] ==> log[|prefix|] == ResourceBarrier(bs)) &&
      (bs == [] ==> NoBarrierCommands(log))
  {
    var log := prefix + BarrierBatch(bs) + suffix;
    assert forall i :: 0 <= i < |prefix| ==> log[i] == prefix[i];
    assert forall i :: |prefix| + |BarrierBatch(bs)| <= i < |log| ==> log[i] == suffix[i - |prefix| - |BarrierBatch(bs)|];
  }

  /** Executing a log whose only barrier command is the batch built from
      `ts` takes every listed resource from the state the caller declared to
      the state the pass requires, provided no two transitions name the same
      resource. */
  lemma BatchReachesRequired(prefix: seq<Command>, ts: seq<Transition>, suffix: seq<Command>, k: nat)
    requires NoBarrierCommands(prefix) && NoBarrierCommands(suffix)
    requires k < |ts| && DistinctResources(ResourcesOf(ts))
    ensures ApplyCommands(prefix + BarrierBatch(Barriers(ts)) + suffix, ts[k].resource, ts[k].current) == ts[k].required
  {
    ApplyCommandsAroundBatch(prefix, Barriers(ts), suffix, ts[k].resource, ts[k].current);
    BarriersReachRequired(ts, k);
  }

  lemma ConcatAssoc<T>(a: seq<T>, b: seq<T>, c: seq<T>)
    ensures a + b + c == a + (b + c)
  {
  }

  /** A command list: the log of what has been recorded into it. */
  class CommandList {
    var log: seq<Command>

    constructor ()
      ensures log == []
    {
      log := [];
    }

    method Emit(c: Command)
      modifies this
      ensures log == old(log) + [c]
    {
      log := log + [c];
    }
  }

  method IssueBarrierBatch(commandList: CommandList, bs: seq<Barrier>)
    modifies commandList
    ensures commandList.log == old(commandList.log) + BarrierBatch(bs)
  {
    if bs != [] {
      commandList.Emit(ResourceBarrier(bs));
    }
  }

  /** How far an operation got: some operations of the renderer are
      unfinished and stop at a failing assertion. */
  datatype Outcome = Done | NotImplemented(reason: string)

  /** Decimal text of a number, as `std::to_string` produces it for an
      unsigned value. */
  function NatToDecimal(n: nat): (s: string)
    ensures |s| >= 1
    ensures forall i :: 0 <= i < |s| ==> '0' <= s[i] <= '9'
    ensures n > 0 ==> s[0] != '0'
    decreases n
  {
    if n < 10 then [DigitChar(n)] else NatToDecimal(n / 10) + [DigitChar(n % 10)]
  }

  function DigitChar(d: nat): (c: char)
    requires d < 10
    ensures '0' <= c <= '9'
    ensures c as int - '0' as int == d
  {
    ('0' as int + d) as char
  }

  /** Reads decimal text back. */
  function DecimalValue(s: string): nat
    requires forall i :: 0 <= i < |s| ==> '0' <= s[i] <= '9'
    decreases |s|
  {
    if s == [] then 0 else DecimalValue(s[..|s| - 1]) * 10 + (s[|s| - 1] as int - '0' as int)
  }

  lemma {:induction false} DecimalRoundTrip(n: nat)
    ensures DecimalValue(NatToDecimal(n)) == n
    decreases n
  {
    if n >= 10 {
      var s := NatToDecimal(n);
      assert s[..|s| - 1] == NatToDecimal(n / 10);
      DecimalRoundTrip(n / 10);
    }
  }

  datatype ShaderMacro = ShaderMacro(name: string, definition: string)

  /** The macro's definition is the decimal text of `v`. */
  predicate DefinesValue(m: ShaderMacro, v: nat)
  {
    (forall i :: 0 <= i < |m.definition| ==> '0' <= m.definition[i] <= '9') && DecimalValue(m.definition) == v
  }

  /** A macro defined as a number, as `std::to_string` spells it. */
  function NumberMacro(name: string, v: nat): (m: ShaderMacro)
    ensures m.name == name && DefinesValue(m, v)
  {
    DecimalRoundTrip(v);
    ShaderMacro(name, NatToDecimal(v))
  }
}
