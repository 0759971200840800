// The tiled light-culling compute pass: for each screen tile it gathers the
// point and spot lights that touch the tile. This model captures what the
// pass records on the CPU: the buffers it owns, the barrier batch, the
// descriptor table and the commands of one frame.
module TiledLightCulling {
  import opened Gpu

  /** States of the five resources of one light kind (point or spot). */
  datatype LightStates = LightStates(
    numLightsBuffer: ResourceStates,
    lightIndexBuffer: ResourceStates,
    lightBoundsBuffer: ResourceStates,
    lightIndexPerTileBuffer: ResourceStates,
    lightRangePerTileBuffer: ResourceStates)

  /** One state per resource the pass consumes or produces. */
  datatype ResourceStatesSet = ResourceStatesSet(depthTexture: ResourceStates, pointLights: LightStates, spotLights: LightStates)

  /** Everything the pass reads is a non-pixel shader resource; the per-tile
      outputs stay in unordered access. */
  const LightOutputStates: LightStates := LightStates(
    NonPixelShaderResource, NonPixelShaderResource, NonPixelShaderResource, UnorderedAccess, UnorderedAccess)

  /** The states the pass leaves its resources in, whatever the inputs. */
  const OutputStates: ResourceStatesSet := ResourceStatesSet(NonPixelShaderResource, LightOutputStates, LightOutputStates)

  /** The caller's buffers of one light kind: light count, light indices and
      world-space bounds. */
  datatype LightInputs = LightInputs(numLights: GraphicsResource, lightIndex: GraphicsResource, worldBounds: GraphicsResource)

  /** The three buffers the pass creates for one light kind. */
  datatype LightBuffers = LightBuffers(indicesOffset: GraphicsResource, indexPerTile: GraphicsResource, rangePerTile: GraphicsResource)

  datatype InitParams = InitParams(
    srvHeap: DescriptorHeap,
    numTilesX: u32,
    numTilesY: u32,
    tileSize: u32,
    maxNumPointLights: u32,
    maxNumSpotLights: u32,
    inputStates: ResourceStatesSet,
    depthTexture: GraphicsResource,
    pointLights: Option<LightInputs>,
    spotLights: Option<LightInputs>)

  /** The light buffers the pass dereferences are supplied for every light
      kind it is configured for. */
  predicate SuppliesUsedInputs(p: InitParams)
  {
    (p.maxNumPointLights > 0 ==> p.pointLights.Some?) && (p.maxNumSpotLights > 0 ==> p.spotLights.Some?)
  }

  /** Owned buffers exist exactly for the configured light kinds. */
  predicate OwnedMatch(p: InitParams, point: Option<LightBuffers>, spot: Option<LightBuffers>)
  {
    (p.maxNumPointLights > 0 <==> point.Some?) && (p.maxNumSpotLights > 0 <==> spot.Some?)
  }

  /** Size in bytes of the per-tile range record: two u32 values. */
  const RangeByteSize: nat := 8

  /** Number of tiles, computed in 32-bit arithmetic. */
  function NumTiles(numTilesX: u32, numTilesY: u32): u32
  {
    MulU32(numTilesX, numTilesY)
  }

  /** Number of descriptors the pass's table takes. */
  function TableSize(maxNumPointLights: u32, maxNumSpotLights: u32): nat
  {
    1 + (if maxNumPointLights > 0 then 6 else 0) + (if maxNumSpotLights > 0 then 6 else 0)
  }

  /** `ts0` followed by the transitions for one light kind, in the order the
      barriers are created. */
  function LightTransitionsOnto(ts0: seq<Transition>, ins: LightInputs, b: LightBuffers, cur: LightStates): (ts: seq<Transition>)
    ensures |ts| == |ts0| + 5
  {
    ts0
    + [Transition(ins.numLights, cur.numLightsBuffer, LightOutputStates.numLightsBuffer)]
    + [Transition(ins.lightIndex, cur.lightIndexBuffer, LightOutputStates.lightIndexBuffer)]
    + [Transition(ins.worldBounds, cur.lightBoundsBuffer, LightOutputStates.lightBoundsBuffer)]
    + [Transition(b.indexPerTile, cur.lightIndexPerTileBuffer, LightOutputStates.lightIndexPerTileBuffer)]
    + [Transition(b.rangePerTile, cur.lightRangePerTileBuffer, LightOutputStates.lightRangePerTileBuffer)]
  }

  function OptLightTransitionsOnto(ts0: seq<Transition>, ins: Option<LightInputs>, b: Option<LightBuffers>, cur: LightStates): (ts: seq<Transition>)
    requires b.Some? ==> ins.Some?
    ensures |ts| == |ts0| + if b.Some? then 5 else 0
  {
    if b.Some? then LightTransitionsOnto(ts0, ins.value, b.value, cur) else ts0
  }

  /** The transitions requested at initialisation: depth, then the point-light
      resources, then the spot-light resources. */
  function InitTransitions(p: InitParams, point: Option<LightBuffers>, spot: Option<LightBuffers>): (ts: seq<Transition>)
    requires SuppliesUsedInputs(p) && OwnedMatch(p, point, spot)
    ensures |ts| == 1 + (if point.Some? then 5 else 0) + (if spot.Some? then 5 else 0)
    ensures ts[0] == Transition(p.depthTexture, p.inputStates.depthTexture, NonPixelShaderResource)
  {
    OptLightTransitionsOnto(
      OptLightTransitionsOnto([Transition(p.depthTexture, p.inputStates.depthTexture, OutputStates.depthTexture)],
        p.pointLights, point, p.inputStates.pointLights),
      p.spotLights, spot, p.inputStates.spotLights)
  }

  /** The initial barrier batch holds at most one barrier per consumed
      resource, never a barrier whose states agree, and is empty exactly when
      the caller already supplies every resource in its required state. */
  lemma InitBarriersBound(p: InitParams, point: Option<LightBuffers>, spot: Option<LightBuffers>)
    requires SuppliesUsedInputs(p) && OwnedMatch(p, point, spot)
    ensures |Barriers(InitTransitions(p, point, spot))| <= 1 + (if point.Some? then 5 else 0) + (if spot.Some? then 5 else 0)
    ensures NoNoOps(Barriers(InitTransitions(p, point, spot)))
    ensures Barriers(InitTransitions(p, point, spot)) == [] <==>
      (forall t :: t in InitTransitions(p, point, spot) ==> t.current == t.required)
  {
    BarriersExact(InitTransitions(p, point, spot));
    BarriersEmptyIff(InitTransitions(p, point, spot));
  }

  /** The six descriptors of one light kind: three SRVs of the inputs, then
      the UAVs of the offset buffer and the two per-tile buffers. */
  function LightViews(ins: LightInputs, b: LightBuffers): (vs: seq<View>)
    ensures |vs| == 6
  {
    [SRVOf(ins.numLights), SRVOf(ins.lightIndex), SRVOf(ins.worldBounds),
     UAVOf(b.indicesOffset), UAVOf(b.indexPerTile), UAVOf(b.rangePerTile)]
  }

  function OptLightViews(ins: Option<LightInputs>, b: Option<LightBuffers>): (vs: seq<View>)
    requires b.Some? ==> ins.Some?
    ensures |vs| == if b.Some? then 6 else 0
  {
    if b.Some? then LightViews(ins.value, b.value) else []
  }

  /** The views of the pass's descriptor table, slot by slot. */
  function TableViews(p: InitParams, point: Option<LightBuffers>, spot: Option<LightBuffers>): (vs: seq<View>)
    requires SuppliesUsedInputs(p) && OwnedMatch(p, point, spot)
    ensures |vs| == TableSize(p.maxNumPointLights, p.maxNumSpotLights)
    ensures vs[0] == SRVOf(p.depthTexture)
  {
    [SRVOf(p.depthTexture)] + OptLightViews(p.pointLights, point) + OptLightViews(p.spotLights, spot)
  }

  /** The ranges of the root signature's descriptor table: SRV t0 for the
      depth texture, then SRV t1-t3 / UAV u0-u2 for point lights and SRV
      t4-t6 / UAV u3-u5 for spot lights. */
  function TableRanges(maxNumPointLights: u32, maxNumSpotLights: u32): seq<DescriptorRange>
  {
    [DescriptorRange(SRVRange, 1, 0)] + LightRanges(maxNumPointLights > 0, 1, 0) + LightRanges(maxNumSpotLights > 0, 4, 3)
  }

  /** The two ranges of one light kind, when that kind is configured. */
  function LightRanges(configured: bool, srvBase: nat, uavBase: nat): seq<DescriptorRange>
  {
    if configured then [DescriptorRange(SRVRange, 3, srvBase), DescriptorRange(UAVRange, 3, uavBase)] else []
  }

  lemma LightKindsMatch(ins: Option<LightInputs>, b: Option<LightBuffers>, configured: bool, srvBase: nat, uavBase: nat)
    requires b.Some? ==> ins.Some?
    requires configured <==> b.Some?
    ensures Kinds(OptLightViews(ins, b)) == SlotKinds(LightRanges(configured, srvBase, uavBase))
  {
    if configured {
      SlotKindsPair(DescriptorRange(SRVRange, 3, srvBase), DescriptorRange(UAVRange, 3, uavBase));
      assert Kinds(OptLightViews(ins, b)) == Repeat(SRVRange, 3) + Repeat(UAVRange, 3);
    }
  }

  /** The descriptors written at initialisation have, slot by slot, the kinds
      the root signature's table declares. */
  lemma TableMatchesRootSignature(p: InitParams, point: Option<LightBuffers>, spot: Option<LightBuffers>)
    requires SuppliesUsedInputs(p) && OwnedMatch(p, point, spot)
    ensures Kinds(TableViews(p, point, spot)) == SlotKinds(TableRanges(p.maxNumPointLights, p.maxNumSpotLights))
  {
    var d := [DescriptorRange(SRVRange, 1, 0)];
    var pr := LightRanges(p.maxNumPointLights > 0, 1, 0);
    var sr := LightRanges(p.maxNumSpotLights > 0, 4, 3);
    SlotKindsConcat(d, pr);
    SlotKindsConcat(d + pr, sr);
    SlotKindsSingle(DescriptorRange(SRVRange, 1, 0));
    var dv := [SRVOf(p.depthTexture)];
    var pv := OptLightViews(p.pointLights, point);
    var sv := OptLightViews(p.spotLights, spot);
    KindsConcat(dv, pv);
    KindsConcat(dv + pv, sv);
    LightKindsMatch(p.pointLights, point, p.maxNumPointLights > 0, 1, 0);
    LightKindsMatch(p.spotLights, spot, p.maxNumSpotLights > 0, 4, 3);
    assert Kinds(dv) == Repeat(SRVRange, 1);
  }

  /** The owned buffers of one light kind: a one-element offset buffer created
      in unordered access, a per-tile index list of numTiles * maxNumLights
      elements and a per-tile range list, both created in the state the
      caller declared for them. */
  predicate OwnsLightBuffers(b: LightBuffers, numTiles: u32, maxNumLights: u32, cur: LightStates)
  {
    b.indicesOffset.desc == FormattedBufferDesc(1, R32Uint) && b.indicesOffset.initialState == UnorderedAccess &&
    b.indexPerTile.desc == FormattedBufferDesc(MulU32(numTiles, maxNumLights), R32Uint) &&
    b.indexPerTile.initialState == cur.lightIndexPerTileBuffer &&
    b.rangePerTile.desc == StructuredBufferDesc(numTiles, RangeByteSize) &&
    b.rangePerTile.initialState == cur.lightRangePerTileBuffer
  }

  method CreateLightBuffers(names: seq<string>, numTiles: u32, maxNumLights: u32, cur: LightStates) returns (b: LightBuffers)
    requires |names| == 3
    ensures OwnsLightBuffers(b, numTiles, maxNumLights, cur)
    ensures fresh(b.indicesOffset) && fresh(b.indexPerTile) && fresh(b.rangePerTile)
  {
    var offset := new GraphicsResource(names[0], FormattedBufferDesc(1, R32Uint), UnorderedAccess);
    var indexPerTile := new GraphicsResource(names[1], FormattedBufferDesc(MulU32(numTiles, maxNumLights), R32Uint), cur.lightIndexPerTileBuffer);
    var rangePerTile := new GraphicsResource(names[2], StructuredBufferDesc(numTiles, RangeByteSize), cur.lightRangePerTileBuffer);
    b := LightBuffers(offset, indexPerTile, rangePerTile);
  }

  method CreateOptLightBuffers(names: seq<string>, numTiles: u32, maxNumLights: u32, cur: LightStates) returns (b: Option<LightBuffers>)
    requires |names| == 3
    ensures b.Some? <==> maxNumLights > 0
    ensures b.Some? ==> OwnsLightBuffers(b.value, numTiles, maxNumLights, cur)
    ensures b.Some? ==> fresh(b.value.indicesOffset) && fresh(b.value.indexPerTile) && fresh(b.value.rangePerTile)
  {
    if maxNumLights > 0 {
      var created := CreateLightBuffers(names, numTiles, maxNumLights, cur);
      b := Some(created);
    } else {
      b := None;
    }
  }

  /** Writes the six descriptors of one light kind to consecutive new slots
      and returns the handle of the offset buffer's UAV (the fourth). */
  method CopyLightViews(heap: DescriptorHeap, ins: LightInputs, b: LightBuffers) returns (offsetUAV: DescriptorHandle)
    requires heap.Valid() && |heap.slots| + 6 <= heap.capacity
    modifies heap
    ensures heap.Valid()
    ensures heap.slots == old(heap.slots) + AsSlots(LightViews(ins, b))
    ensures offsetUAV.index == |old(heap.slots)| + 3
  {
    var h := CopyToNewSlot(heap, SRVOf(ins.numLights));
    h := CopyToNewSlot(heap, SRVOf(ins.lightIndex));
    h := CopyToNewSlot(heap, SRVOf(ins.worldBounds));
    offsetUAV := CopyToNewSlot(heap, UAVOf(b.indicesOffset));
    h := CopyToNewSlot(heap, UAVOf(b.indexPerTile));
    h := CopyToNewSlot(heap, UAVOf(b.rangePerTile));
    assert AsSlots(LightViews(ins, b)) == [Holds(SRVOf(ins.numLights)), Holds(SRVOf(ins.lightIndex)), Holds(SRVOf(ins.worldBounds)),
      Holds(UAVOf(b.indicesOffset)), Holds(UAVOf(b.indexPerTile)), Holds(UAVOf(b.rangePerTile))];
  }

  method CopyOptLightViews(heap: DescriptorHeap, ins: Option<LightInputs>, b: Option<LightBuffers>, keep: DescriptorHandle)
    returns (offsetUAV: DescriptorHandle)
    requires b.Some? ==> ins.Some?
    requires heap.Valid() && |heap.slots| + |OptLightViews(ins, b)| <= heap.capacity
    modifies heap
    ensures heap.Valid()
    ensures heap.slots == old(heap.slots) + AsSlots(OptLightViews(ins, b))
    ensures b.Some? ==> offsetUAV.index == |old(heap.slots)| + 3
    ensures b.None? ==> offsetUAV == keep
  {
    if b.Some? {
      offsetUAV := CopyLightViews(heap, ins.value, b.value);
    } else {
      offsetUAV := keep;
      assert heap.slots + AsSlots([]) == heap.slots;
    }
  }

  lemma TableSlots(s: seq<Slot>, p: InitParams, point: Option<LightBuffers>, spot: Option<LightBuffers>)
    requires SuppliesUsedInputs(p) && OwnedMatch(p, point, spot)
    ensures
      s + [Holds(SRVOf(p.depthTexture))] + AsSlots(OptLightViews(p.pointLights, point)) + AsSlots(OptLightViews(p.spotLights, spot))
      == s + AsSlots(TableViews(p, point, spot))
  {
    var pv := OptLightViews(p.pointLights, point);
    var sv := OptLightViews(p.spotLights, spot);
    AsSlotsConcat([SRVOf(p.depthTexture)], pv);
    AsSlotsConcat([SRVOf(p.depthTexture)] + pv, sv);
    assert AsSlots([SRVOf(p.depthTexture)]) == [Holds(SRVOf(p.depthTexture))];
  }

  /** The macros the compute shader is compiled with. */
  function PipelineDefines(p: InitParams): seq<ShaderMacro>
  {
    [NumberMacro("TILE_SIZE", p.tileSize), NumberMacro("NUM_TILES_X", p.numTilesX),
     NumberMacro("MAX_NUM_POINT_LIGHTS", p.maxNumPointLights), NumberMacro("MAX_NUM_SPOT_LIGHTS", p.maxNumSpotLights)]
  }

  /** The shader sees the tile size, the number of tile columns and the two
      light maxima, each as decimal text that reads back as the number. */
  lemma PipelineDefinesValues(p: InitParams)
    ensures var ms := PipelineDefines(p);
      |ms| == 4 &&
      ms[0].name == "TILE_SIZE" && DefinesValue(ms[0], p.tileSize) &&
      ms[1].name == "NUM_TILES_X" && DefinesValue(ms[1], p.numTilesX) &&
      ms[2].name == "MAX_NUM_POINT_LIGHTS" && DefinesValue(ms[2], p.maxNumPointLights) &&
      ms[3].name == "MAX_NUM_SPOT_LIGHTS" && DefinesValue(ms[3], p.maxNumSpotLights)
  {
  }

  class TiledLightCullingPass {
    const rootSignature: ApiObject
    const pipelineState: ApiObject
    const descriptorRanges: seq<DescriptorRange>
    const shaderDefines: seq<ShaderMacro>
    var pointLightBuffers: Option<LightBuffers>
    var spotLightBuffers: Option<LightBuffers>
    const numThreadGroupsX: u32
    const numThreadGroupsY: u32
    var outputResourceStates: ResourceStatesSet
    var resourceBarriers: seq<Barrier>
    var srvHeapStart: DescriptorHandle
    var pointLightIndicesOffsetBufferUAV: DescriptorHandle
    var spotLightIndicesOffsetBufferUAV: DescriptorHandle

    constructor (p: InitParams)
      requires SuppliesUsedInputs(p)
      requires p.srvHeap.Valid() && |p.srvHeap.slots| + TableSize(p.maxNumPointLights, p.maxNumSpotLights) <= p.srvHeap.capacity
      modifies p.srvHeap
      ensures p.srvHeap.Valid()
      ensures numThreadGroupsX == p.numTilesX && numThreadGroupsY == p.numTilesY
      ensures ResourcesInitialised(p, old(p.srvHeap.slots))
      ensures pointLightBuffers.Some? ==>
        fresh(pointLightBuffers.value.indicesOffset) && fresh(pointLightBuffers.value.indexPerTile) && fresh(pointLightBuffers.value.rangePerTile)
      ensures spotLightBuffers.Some? ==>
        fresh(spotLightBuffers.value.indicesOffset) && fresh(spotLightBuffers.value.indexPerTile) && fresh(spotLightBuffers.value.rangePerTile)
      ensures descriptorRanges == TableRanges(p.maxNumPointLights, p.maxNumSpotLights)
      ensures shaderDefines == PipelineDefines(p)
    {
      rootSignature := new ApiObject();
      pipelineState := new ApiObject();
      pointLightBuffers := None;
      spotLightBuffers := None;
      numThreadGroupsX := p.numTilesX;
      numThreadGroupsY := p.numTilesY;
      outputResourceStates := OutputStates;
      resourceBarriers := [];
      srvHeapStart := DescriptorHandle(0);
      pointLightIndicesOffsetBufferUAV := DescriptorHandle(0);
      spotLightIndicesOffsetBufferUAV := DescriptorHandle(0);
      // InitRootSignature and InitPipelineState only fill in descriptions
      // that do not depend on the resources.
      descriptorRanges := TableRanges(p.maxNumPointLights, p.maxNumSpotLights);
      shaderDefines := PipelineDefines(p);
      new;
      InitResources(p);
    }

    /** What InitResources establishes, given the heap's slots before the
      call: the advertised output states; owned buffers exactly for the
      configured light kinds, with their sizes, formats and initial states;
      one barrier per input not already in its required state; and the
      descriptor table written to consecutive new slots, with the handles of
      the offset buffers' UAVs. */
    predicate ResourcesInitialised(p: InitParams, slots0: seq<Slot>)
      reads this`outputResourceStates, this`pointLightBuffers, this`spotLightBuffers, this`resourceBarriers
      reads this`srvHeapStart, this`pointLightIndicesOffsetBufferUAV, this`spotLightIndicesOffsetBufferUAV, p.srvHeap
    {
      outputResourceStates == OutputStates &&
      SuppliesUsedInputs(p) && OwnedMatch(p, pointLightBuffers, spotLightBuffers) &&
      (pointLightBuffers.Some? ==>
        OwnsLightBuffers(pointLightBuffers.value, NumTiles(p.numTilesX, p.numTilesY), p.maxNumPointLights, p.inputStates.pointLights)) &&
      (spotLightBuffers.Some? ==>
        OwnsLightBuffers(spotLightBuffers.value, NumTiles(p.numTilesX, p.numTilesY), p.maxNumSpotLights, p.inputStates.spotLights)) &&
      resourceBarriers == Barriers(InitTransitions(p, pointLightBuffers, spotLightBuffers)) &&
      srvHeapStart.index == |slots0| &&
      p.srvHeap.slots == slots0 + AsSlots(TableViews(p, pointLightBuffers, spotLightBuffers)) &&
      (pointLightBuffers.Some? ==> pointLightIndicesOffsetBufferUAV.index == srvHeapStart.index + 4) &&
      (spotLightBuffers.Some? ==>
        spotLightIndicesOffsetBufferUAV.index == srvHeapStart.index + (if pointLightBuffers.Some? then 6 else 0) + 4)
    }

    /** Creates the owned buffers, the initial barrier batch and the
      descriptor table. */
    method InitResources(p: InitParams)
      requires SuppliesUsedInputs(p)
      requires p.srvHeap.Valid() && |p.srvHeap.slots| + TableSize(p.maxNumPointLights, p.maxNumSpotLights) <= p.srvHeap.capacity
      requires resourceBarriers == []
      modifies p.srvHeap, this`outputResourceStates, this`pointLightBuffers, this`spotLightBuffers, this`resourceBarriers
      modifies this`srvHeapStart, this`pointLightIndicesOffsetBufferUAV, this`spotLightIndicesOffsetBufferUAV
      ensures p.srvHeap.Valid()
      ensures ResourcesInitialised(p, old(p.srvHeap.slots))
      ensures pointLightBuffers.Some? ==>
        fresh(pointLightBuffers.value.indicesOffset) && fresh(pointLightBuffers.value.indexPerTile) && fresh(pointLightBuffers.value.rangePerTile)
      ensures spotLightBuffers.Some? ==>
        fresh(spotLightBuffers.value.indicesOffset) && fresh(spotLightBuffers.value.indexPerTile) && fresh(spotLightBuffers.value.rangePerTile)
    {
      outputResourceStates := OutputStates;
      var numTiles := NumTiles(p.numTilesX, p.numTilesY);
      pointLightBuffers := CreateOptLightBuffers(
        ["point offset", "point index", "point range"],
        numTiles, p.maxNumPointLights, p.inputStates.pointLights);
      spotLightBuffers := CreateOptLightBuffers(
        ["spot offset", "spot index", "spot range"],
        numTiles, p.maxNumSpotLights, p.inputStates.spotLights);
      CreateInitialBarriers(p);
      AllocateDescriptorTable(p);
    }

    /** The barrier part of InitResources. */
    method CreateInitialBarriers(p: InitParams)
      requires SuppliesUsedInputs(p) && OwnedMatch(p, pointLightBuffers, spotLightBuffers)
      requires resourceBarriers == []
      modifies this`resourceBarriers
      ensures resourceBarriers == Barriers(InitTransitions(p, pointLightBuffers, spotLightBuffers))
    {
      var ins := p.inputStates;
      ghost var depth := [Transition(p.depthTexture, ins.depthTexture, OutputStates.depthTexture)];
      CreateResourceBarrierIfRequired(p.depthTexture, ins.depthTexture, OutputStates.depthTexture);
      BarriersAppend([], depth[0]);
      assert [] + [depth[0]] == depth;
      CreateOptLightBarriers(p.pointLights, pointLightBuffers, ins.pointLights, depth);
      CreateOptLightBarriers(p.spotLights, spotLightBuffers, ins.spotLights,
        OptLightTransitionsOnto(depth, p.pointLights, pointLightBuffers, ins.pointLights));
    }

    method CreateOptLightBarriers(ins: Option<LightInputs>, b: Option<LightBuffers>, cur: LightStates, ghost ts0: seq<Transition>)
      requires b.Some? ==> ins.Some?
      requires resourceBarriers == Barriers(ts0)
      modifies this`resourceBarriers
      ensures resourceBarriers == Barriers(OptLightTransitionsOnto(ts0, ins, b, cur))
    {
      if b.Some? {
        CreateLightBarriers(ins.value, b.value, cur, ts0);
      }
    }

    /** The five barriers of one light kind, in the order of the source. */
    method CreateLightBarriers(ins: LightInputs, b: LightBuffers, cur: LightStates, ghost ts0: seq<Transition>)
      requires resourceBarriers == Barriers(ts0)
      modifies this`resourceBarriers
      ensures resourceBarriers == Barriers(LightTransitionsOnto(ts0, ins, b, cur))
    {
      ghost var t0 := Transition(ins.numLights, cur.numLightsBuffer, LightOutputStates.numLightsBuffer);
      ghost var t1 := Transition(ins.lightIndex, cur.lightIndexBuffer, LightOutputStates.lightIndexBuffer);
      ghost var t2 := Transition(ins.worldBounds, cur.lightBoundsBuffer, LightOutputStates.lightBoundsBuffer);
      ghost var t3 := Transition(b.indexPerTile, cur.lightIndexPerTileBuffer, LightOutputStates.lightIndexPerTileBuffer);
      ghost var t4 := Transition(b.rangePerTile, cur.lightRangePerTileBuffer, LightOutputStates.lightRangePerTileBuffer);
      CreateResourceBarrierIfRequired(ins.numLights, cur.numLightsBuffer, LightOutputStates.numLightsBuffer);
      BarriersAppend(ts0, t0);
      CreateResourceBarrierIfRequired(ins.lightIndex, cur.lightIndexBuffer, LightOutputStates.lightIndexBuffer);
      BarriersAppend(ts0 + [t0], t1);
      CreateResourceBarrierIfRequired(ins.worldBounds, cur.lightBoundsBuffer, LightOutputStates.lightBoundsBuffer);
      BarriersAppend(ts0 + [t0] + [t1], t2);
      CreateResourceBarrierIfRequired(b.indexPerTile, cur.lightIndexPerTileBuffer, LightOutputStates.lightIndexPerTileBuffer);
      BarriersAppend(ts0 + [t0] + [t1] + [t2], t3);
      CreateResourceBarrierIfRequired(b.rangePerTile, cur.lightRangePerTileBuffer, LightOutputStates.lightRangePerTileBuffer);
      BarriersAppend(ts0 + [t0] + [t1] + [t2] + [t3], t4);
    }

    /** Appends a barrier exactly when the current and required states differ. */
    method CreateResourceBarrierIfRequired(resource: GraphicsResource, currState: ResourceStates, requiredState: ResourceStates)
      modifies this`resourceBarriers
      ensures resourceBarriers == old(resourceBarriers) + BarrierIfRequired(Transition(resource, currState, requiredState))
    {
      if currState != requiredState {
        resourceBarriers := resourceBarriers + [Barrier(resource, currState, requiredState)];
      }
    }

    /** The descriptor part of InitResources: the depth SRV, then six
      descriptors per configured light kind, in consecutive slots. */
    method AllocateDescriptorTable(p: InitParams)
      requires SuppliesUsedInputs(p) && OwnedMatch(p, pointLightBuffers, spotLightBuffers)
      requires p.srvHeap.Valid() && |p.srvHeap.slots| + TableSize(p.maxNumPointLights, p.maxNumSpotLights) <= p.srvHeap.capacity
      modifies p.srvHeap, this`srvHeapStart, this`pointLightIndicesOffsetBufferUAV, this`spotLightIndicesOffsetBufferUAV
      ensures p.srvHeap.Valid()
      ensures srvHeapStart.index == |old(p.srvHeap.slots)|
      ensures p.srvHeap.slots == old(p.srvHeap.slots) + AsSlots(TableViews(p, pointLightBuffers, spotLightBuffers))
      ensures pointLightBuffers.Some? ==> pointLightIndicesOffsetBufferUAV.index == srvHeapStart.index + 4
      ensures spotLightBuffers.Some? ==>
        spotLightIndicesOffsetBufferUAV.index == srvHeapStart.index + (if pointLightBuffers.Some? then 6 else 0) + 4
    {
      var heap := p.srvHeap;
      ghost var slots0 := heap.slots;
      srvHeapStart := CopyToNewSlot(heap, SRVOf(p.depthTexture));
      pointLightIndicesOffsetBufferUAV := CopyOptLightViews(heap, p.pointLights, pointLightBuffers, pointLightIndicesOffsetBufferUAV);
      spotLightIndicesOffsetBufferUAV := CopyOptLightViews(heap, p.spotLights, spotLightBuffers, spotLightIndicesOffsetBufferUAV);
      TableSlots(slots0, p, pointLightBuffers, spotLightBuffers);
    }

    /** The log after one Record call appended to `log0`: the pipeline is
      bound first, the barrier batch is issued only when non-empty, the
      offset counters of the configured light kinds are cleared to zero,
      and a dispatch of one thread group per tile precedes End. */
    function RecordOnto(log0: seq<Command>, heap: ApiObject, appDataBuffer: GraphicsResource): seq<Command>
      reads this
    {
      log0 + [Begin(Some(pipelineState))] + [SetComputeRootSignature(rootSignature)] + BarrierBatch(resourceBarriers)
      + [SetDescriptorHeaps(heap)] + [SetComputeRootConstantBufferView(0, appDataBuffer)]
      + [SetComputeRootDescriptorTable(1, srvHeapStart)]
      + OffsetClear(pointLightBuffers, pointLightIndicesOffsetBufferUAV)
      + OffsetClear(spotLightBuffers, spotLightIndicesOffsetBufferUAV)
      + [Dispatch(numThreadGroupsX, numThreadGroupsY, 1)] + [End]
    }

    /** The commands of one frame on their own. */
    function RecordedCommands(heap: ApiObject, appDataBuffer: GraphicsResource): (log: seq<Command>)
      reads this
      ensures |log| == 7 + (if resourceBarriers != [] then 1 else 0)
                         + (if pointLightBuffers.Some? then 1 else 0) + (if spotLightBuffers.Some? then 1 else 0)
      ensures log[0] == Begin(Some(pipelineState)) && log[1] == SetComputeRootSignature(rootSignature)
      ensures log[|log| - 2] == Dispatch(numThreadGroupsX, numThreadGroupsY, 1) && log[|log| - 1] == End
    {
      RecordOnto([], heap, appDataBuffer)
    }

    method Record(commandList: CommandList, heap: DescriptorHeap, appDataBuffer: GraphicsResource)
      modifies commandList
      ensures commandList.log == RecordOnto(old(commandList.log), heap.token, appDataBuffer)
    {
      commandList.Emit(Begin(Some(pipelineState)));
      commandList.Emit(SetComputeRootSignature(rootSignature));
      IssueBarrierBatch(commandList, resourceBarriers);
      commandList.Emit(SetDescriptorHeaps(heap.token));
      commandList.Emit(SetComputeRootConstantBufferView(0, appDataBuffer));
      commandList.Emit(SetComputeRootDescriptorTable(1, srvHeapStart));
      ClearOffsetBufferIfCreated(commandList, pointLightBuffers, pointLightIndicesOffsetBufferUAV);
      ClearOffsetBufferIfCreated(commandList, spotLightBuffers, spotLightIndicesOffsetBufferUAV);
      commandList.Emit(Dispatch(numThreadGroupsX, numThreadGroupsY, 1));
      commandList.Emit(End);
    }
  }

  method ClearOffsetBufferIfCreated(commandList: CommandList, b: Option<LightBuffers>, uav: DescriptorHandle)
    modifies commandList
    ensures commandList.log == old(commandList.log) + OffsetClear(b, uav)
  {
    if b.Some? {
      commandList.Emit(ClearUnorderedAccessView(uav, b.value.indicesOffset, [0, 0, 0, 0]));
    }
  }

  /** Clearing a light kind's offset counter to zero, when that kind is configured. */
  function OffsetClear(b: Option<LightBuffers>, uav: DescriptorHandle): (cmds: seq<Command>)
    ensures |cmds| == if b.Some? then 1 else 0
  {
    if b.Some? then [ClearUnorderedAccessView(uav, b.value.indicesOffset, [0, 0, 0, 0])] else []
  }

  /** What Record appends, with the barrier batch separated from the rest. */
  lemma RecordSplit(pass: TiledLightCullingPass, heap: ApiObject, appData: GraphicsResource)
    ensures pass.RecordedCommands(heap, appData)
         == [Begin(Some(pass.pipelineState)), SetComputeRootSignature(pass.rootSignature)]
            + BarrierBatch(pass.resourceBarriers) + AfterBarriers(pass, heap, appData)
    ensures NoBarrierCommands(AfterBarriers(pass, heap, appData))
  {
    var prefix := [Begin(Some(pass.pipelineState)), SetComputeRootSignature(pass.rootSignature)] + BarrierBatch(pass.resourceBarriers);
    assert [] + [Begin(Some(pass.pipelineState))] + [SetComputeRootSignature(pass.rootSignature)]
        == [Begin(Some(pass.pipelineState)), SetComputeRootSignature(pass.rootSignature)];
    var q1, q2, q3 := [SetDescriptorHeaps(heap)], [SetComputeRootConstantBufferView(0, appData)], [SetComputeRootDescriptorTable(1, pass.srvHeapStart)];
    var q4 := OffsetClear(pass.pointLightBuffers, pass.pointLightIndicesOffsetBufferUAV);
    var q5 := OffsetClear(pass.spotLightBuffers, pass.spotLightIndicesOffsetBufferUAV);
    var q6, q7 := [Dispatch(pass.numThreadGroupsX, pass.numThreadGroupsY, 1)], [End];
    ConcatAssoc(prefix, q1, q2);
    ConcatAssoc(prefix, q1 + q2, q3);
    ConcatAssoc(prefix, q1 + q2 + q3, q4);
    ConcatAssoc(prefix, q1 + q2 + q3 + q4, q5);
    ConcatAssoc(prefix, q1 + q2 + q3 + q4 + q5, q6);
    ConcatAssoc(prefix, q1 + q2 + q3 + q4 + q5 + q6, q7);
  }

  /** Everything Record emits after the barrier batch. */
  function AfterBarriers(pass: TiledLightCullingPass, heap: ApiObject, appData: GraphicsResource): seq<Command>
    reads pass
  {
    [SetDescriptorHeaps(heap)] + [SetComputeRootConstantBufferView(0, appData)]
    + [SetComputeRootDescriptorTable(1, pass.srvHeapStart)]
    + OffsetClear(pass.pointLightBuffers, pass.pointLightIndicesOffsetBufferUAV)
    + OffsetClear(pass.spotLightBuffers, pass.spotLightIndicesOffsetBufferUAV)
    + [Dispatch(pass.numThreadGroupsX, pass.numThreadGroupsY, 1)] + [End]
  }

  /** Record issues a barrier command exactly when the batch is non-empty,
      and then it is the whole batch, once, right after the root signature
      is bound. */
  lemma RecordBarrierBatch(pass: TiledLightCullingPass, heap: ApiObject, appData: GraphicsResource)
    ensures var log := pass.RecordedCommands(heap, appData);
      (forall i :: 0 <= i < |log| && log[i].ResourceBarrier? ==> i == 2 && log[i] == ResourceBarrier(pass.resourceBarriers)) &&
      (pass.resourceBarriers != [] ==> log[2] == ResourceBarrier(pass.resourceBarriers)) &&
      (pass.resourceBarriers == [] ==> NoBarrierCommands(log))
  {
    RecordSplit(pass, heap, appData);
    BatchIsOnlyBarrier([Begin(Some(pass.pipelineState)), SetComputeRootSignature(pass.rootSignature)],
      pass.resourceBarriers, AfterBarriers(pass, heap, appData));
  }

  /** Executing the recorded commands leaves every resource the pass consumes
      in the state the pass advertises, provided each started in the state
      the caller declared and no two of them are the same resource. */
  lemma RecordLeavesOutputStates(pass: TiledLightCullingPass, p: InitParams, heap: ApiObject, appData: GraphicsResource, k: nat)
    requires SuppliesUsedInputs(p) && OwnedMatch(p, pass.pointLightBuffers, pass.spotLightBuffers)
    requires pass.resourceBarriers == Barriers(InitTransitions(p, pass.pointLightBuffers, pass.spotLightBuffers))
    requires k < |InitTransitions(p, pass.pointLightBuffers, pass.spotLightBuffers)|
    requires DistinctResources(ResourcesOf(InitTransitions(p, pass.pointLightBuffers, pass.spotLightBuffers)))
    ensures var t := InitTransitions(p, pass.pointLightBuffers, pass.spotLightBuffers)[k];
            ApplyCommands(pass.RecordedCommands(heap, appData), t.resource, t.current) == t.required
  {
    RecordSplit(pass, heap, appData);
    BatchReachesRequired([Begin(Some(pass.pipelineState)), SetComputeRootSignature(pass.rootSignature)],
      InitTransitions(p, pass.pointLightBuffers, pass.spotLightBuffers), AfterBarriers(pass, heap, appData), k);
  }
}
