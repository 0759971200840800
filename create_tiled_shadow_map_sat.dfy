// The compute pass that builds a summed-area table (SAT) of a tiled variance
// shadow map, in a row pass followed by a column pass. The model captures
// the resources the pass creates, its three barrier lists, its two
// descriptor tables, the pipeline permutations (one per tile size), the
// indirect-command layout and the unfinished recording routine.
module CreateTiledShadowMapSAT {
  import opened Gpu

  /** The light types the renderer knows; the pass accepts point and spot
      lights only. `OtherLightType` stands for any other enumerator. */
  datatype LightType = PointLight | SpotLight | OtherLightType

  /** The largest compute thread group the pass uses. */
  const MaxNumThreadsPerGroup: nat := 1024

  /** States of the shadow map read by the pass and of the SAT it writes. */
  datatype SATStates = SATStates(tiledVarianceShadowMap: ResourceStates, tiledVarianceShadowMapSAT: ResourceStates)

  /** The shadow map is read as a non-pixel shader resource; the finished SAT
      (the column texture) is left in unordered access. */
  const OutputStates: SATStates := SATStates(NonPixelShaderResource, UnorderedAccess)


  datatype InitParams = InitParams(
    srvHeap: DescriptorHeap,
    lightType: LightType,
    maxNumLights: u32,
    minTileSize: u32,
    maxTileSize: u32,
    tiledShadowMap: GraphicsResource,
    inputStates: SATStates)

  /** Number of tiles the argument buffer has room for: six faces per point
      light, one tile per spot light, in 32-bit arithmetic. */
  function MaxNumTiles(lightType: LightType, maxNumLights: u32): (n: u32)
    ensures lightType == PointLight ==> n == MulU32(NumCubeMapFaces, maxNumLights)
    ensures lightType != PointLight ==> n == maxNumLights
  {
    if lightType == PointLight then MulU32(NumCubeMapFaces, maxNumLights) else maxNumLights
  }

  /** What InitResources asserts of its parameters. */
  predicate ValidResourceParams(p: InitParams)
  {
    (p.lightType == PointLight || p.lightType == SpotLight) &&
    MaxNumTiles(p.lightType, p.maxNumLights) > 0 &&
    p.tiledShadowMap.desc.Texture2DDesc?
  }

  // ---------------------------------------------------------------------
  // Barrier lists
  // ---------------------------------------------------------------------

  /** Before new arguments are uploaded, the argument buffer becomes a copy
      destination. */
  function UploadBarriers(argumentBuffer: GraphicsResource): seq<Barrier>
  {
    [Barrier(argumentBuffer, IndirectArgument, CopyDest)]
  }

  /** Before the row pass: the argument buffer back to indirect arguments,
      the shadow map to a shader resource when it is not one already, and
      the row texture from shader resource to unordered access. */
  function RowBarriers(argumentBuffer: GraphicsResource, shadowMap: GraphicsResource, shadowMapState: ResourceStates,
                       satRow: GraphicsResource): seq<Barrier>
  {
    [Barrier(argumentBuffer, CopyDest, IndirectArgument)]
    + BarrierIfRequired(Transition(shadowMap, shadowMapState, OutputStates.tiledVarianceShadowMap))
    + [Barrier(satRow, NonPixelShaderResource, UnorderedAccess)]
  }

  /** Before the column pass: the column texture to unordered access when it
      is not there already, and the row texture back to a shader resource. */
  function ColumnBarriers(satColumn: GraphicsResource, satState: ResourceStates, satRow: GraphicsResource): seq<Barrier>
  {
    BarrierIfRequired(Transition(satColumn, satState, OutputStates.tiledVarianceShadowMapSAT))
    + [Barrier(satRow, UnorderedAccess, NonPixelShaderResource)]
  }

  /** The three lists hold no no-op barrier; the conditional entries are
      present exactly when the declared state differs from the needed one. */
  lemma BarrierListsShape(arg: GraphicsResource, shadowMap: GraphicsResource, shadowMapState: ResourceStates,
                          satRow: GraphicsResource, satColumn: GraphicsResource, satState: ResourceStates)
    ensures NoNoOps(UploadBarriers(arg))
    ensures var row := RowBarriers(arg, shadowMap, shadowMapState, satRow);
      NoNoOps(row) &&
      |row| == 2 + (if shadowMapState != NonPixelShaderResource then 1 else 0) &&
      row[0] == Barrier(arg, CopyDest, IndirectArgument) &&
      row[|row| - 1] == Barrier(satRow, NonPixelShaderResource, UnorderedAccess)
    ensures var column := ColumnBarriers(satColumn, satState, satRow);
      NoNoOps(column) &&
      |column| == 1 + (if satState != UnorderedAccess then 1 else 0) &&
      column[|column| - 1] == Barrier(satRow, UnorderedAccess, NonPixelShaderResource)
  {
  }

  /** One barrier applied to a resource. */
  lemma ApplySingle(b: Barrier, r: GraphicsResource, s: ResourceStates)
    ensures ApplyBarriers([b], r, s) == if b.resource == r then b.after else s
  {
    assert [b][..0] == [];
  }

  lemma ApplyIfRequired(t: Transition, r: GraphicsResource, s: ResourceStates)
    ensures ApplyBarriers(BarrierIfRequired(t), r, s) == if t.resource == r && t.current != t.required then t.required else s
  {
    if t.current != t.required {
      ApplySingle(Barrier(t.resource, t.current, t.required), r, s);
    }
  }

  /** Executing the lists in the order upload, row, column: the argument
      buffer returns to indirect arguments after the upload, the shadow map
      is readable and the row texture writable for the row pass, and then
      the column texture is writable while the row texture is back in the
      state it was created in. */
  lemma BarrierListsReachStates(arg: GraphicsResource, shadowMap: GraphicsResource, shadowMapState: ResourceStates,
                                satRow: GraphicsResource, satColumn: GraphicsResource, satState: ResourceStates)
    requires DistinctResources([arg, shadowMap, satRow, satColumn])
    ensures ApplyBarriers(UploadBarriers(arg), arg, IndirectArgument) == CopyDest
    ensures ApplyBarriers(RowBarriers(arg, shadowMap, shadowMapState, satRow), arg, CopyDest) == IndirectArgument
    ensures ApplyBarriers(RowBarriers(arg, shadowMap, shadowMapState, satRow), shadowMap, shadowMapState) == NonPixelShaderResource
    ensures ApplyBarriers(RowBarriers(arg, shadowMap, shadowMapState, satRow), satRow, NonPixelShaderResource) == UnorderedAccess
    ensures ApplyBarriers(ColumnBarriers(satColumn, satState, satRow), satColumn, satState) == UnorderedAccess
    ensures ApplyBarriers(RowBarriers(arg, shadowMap, shadowMapState, satRow) + ColumnBarriers(satColumn, satState, satRow),
                          satRow, NonPixelShaderResource) == NonPixelShaderResource
  {
    assert [arg, shadowMap, satRow, satColumn][0] != [arg, shadowMap, satRow, satColumn][1];
    assert [arg, shadowMap, satRow, satColumn][0] != [arg, shadowMap, satRow, satColumn][2];
    assert [arg, shadowMap, satRow, satColumn][1] != [arg, shadowMap, satRow, satColumn][2];
    assert [arg, shadowMap, satRow, satColumn][2] != [arg, shadowMap, satRow, satColumn][3];
    var first := [Barrier(arg, CopyDest, IndirectArgument)];
    var middle := BarrierIfRequired(Transition(shadowMap, shadowMapState, NonPixelShaderResource));
    var last := [Barrier(satRow, NonPixelShaderResource, UnorderedAccess)];
    var row := RowBarriers(arg, shadowMap, shadowMapState, satRow);
    var column := ColumnBarriers(satColumn, satState, satRow);
    var columnFirst := BarrierIfRequired(Transition(satColumn, satState, UnorderedAccess));
    var columnLast := [Barrier(satRow, UnorderedAccess, NonPixelShaderResource)];
    ApplySingle(Barrier(arg, IndirectArgument, CopyDest), arg, IndirectArgument);
    forall r, s | r in {arg, shadowMap, satRow}
      ensures ApplyBarriers(row, r, s)
           == ApplyBarriers(last, r, ApplyBarriers(middle, r, ApplyBarriers(first, r, s)))
    {
      ApplyBarriersConcat(first + middle, last, r, s);
      ApplyBarriersConcat(first, middle, r, s);
    }
    ApplySingle(first[0], arg, CopyDest);
    ApplyIfRequired(Transition(shadowMap, shadowMapState, NonPixelShaderResource), arg, IndirectArgument);
    ApplySingle(last[0], arg, IndirectArgument);
    ApplySingle(first[0], shadowMap, shadowMapState);
    ApplyIfRequired(Transition(shadowMap, shadowMapState, NonPixelShaderResource), shadowMap, shadowMapState);
    ApplySingle(last[0], shadowMap, NonPixelShaderResource);
    ApplySingle(first[0], satRow, NonPixelShaderResource);
    ApplyIfRequired(Transition(shadowMap, shadowMapState, NonPixelShaderResource), satRow, NonPixelShaderResource);
    ApplySingle(last[0], satRow, NonPixelShaderResource);
    forall r, s | r in {satColumn, satRow}
      ensures ApplyBarriers(column, r, s) == ApplyBarriers(columnLast, r, ApplyBarriers(columnFirst, r, s))
    {
      ApplyBarriersConcat(columnFirst, columnLast, r, s);
    }
    ApplyIfRequired(Transition(satColumn, satState, UnorderedAccess), satColumn, satState);
    ApplySingle(columnLast[0], satColumn, UnorderedAccess);
    ApplyBarriersConcat(row, column, satRow, NonPixelShaderResource);
    ApplyIfRequired(Transition(satColumn, satState, UnorderedAccess), satRow, UnorderedAccess);
    ApplySingle(columnLast[0], satRow, UnorderedAccess);
  }

  // ---------------------------------------------------------------------
  // Descriptor tables and root signature
  // ---------------------------------------------------------------------

  /** The table of the row pass: the shadow map's SRV, then the row texture's UAV. */
  function RowTableViews(shadowMap: GraphicsResource, satRow: GraphicsResource): seq<View>
  {
    [SRVOf(shadowMap), UAVOf(satRow)]
  }

  /** The table of the column pass: the row texture's SRV, then the column texture's UAV. */
  function ColumnTableViews(satRow: GraphicsResource, satColumn: GraphicsResource): seq<View>
  {
    [SRVOf(satRow), UAVOf(satColumn)]
  }

  /** The root signature's table: one SRV at t0 and one UAV at u0. */
  const TableRanges: seq<DescriptorRange> := [DescriptorRange(SRVRange, 1, 0), DescriptorRange(UAVRange, 1, 0)]

  /** Number of 32-bit root constants (the tile's top-left pixel). */
  const NumRootConstants: nat := 2

  /** Both tables have, slot by slot, the kinds the root signature declares. */
  lemma TablesMatchRootSignature(shadowMap: GraphicsResource, satRow: GraphicsResource, satColumn: GraphicsResource)
    ensures Kinds(RowTableViews(shadowMap, satRow)) == SlotKinds(TableRanges)
    ensures Kinds(ColumnTableViews(satRow, satColumn)) == SlotKinds(TableRanges)
  {
    SlotKindsPair(TableRanges[0], TableRanges[1]);
    assert Repeat(SRVRange, 1) + Repeat(UAVRange, 1) == [SRVRange, UAVRange];
  }

  // ---------------------------------------------------------------------
  // Pipeline permutations
  // ---------------------------------------------------------------------

  predicate IsPowerOf2(n: nat)
    decreases n
  {
    n == 1 || (n > 1 && n % 2 == 0 && IsPowerOf2(n / 2))
  }

  lemma {:induction false} PowerOf2Cases(n: nat)
    requires IsPowerOf2(n) && n <= 1024
    ensures n == 1 || n == 2 || n == 4 || n == 8 || n == 16 || n == 32 || n == 64 || n == 128 || n == 256 || n == 512 || n == 1024
    decreases n
  {
    if n > 1 {
      PowerOf2Cases(n / 2);
    }
  }

  /** One compiled variant of the SAT shader: the tile size it handles, the
      thread-group shape it is compiled with, and the dispatch size. */
  datatype PipelineStatePermutation = PipelineStatePermutation(
    tileSize: u32,
    shaderDefines: seq<ShaderMacro>,
    numThreadGroupsX: u32,
    numThreadGroupsY: u32)

  /** A tile size the pass supports: a power of two from 64 to 1024. */
  predicate SupportedTileSize(tileSize: u32)
  {
    IsPowerOf2(tileSize as nat) && 64 <= tileSize <= 1024
  }

  lemma SupportedTileSizeCases(tileSize: u32)
    requires SupportedTileSize(tileSize)
    ensures tileSize == 64 || tileSize == 128 || tileSize == 256 || tileSize == 512 || tileSize == 1024
  {
    PowerOf2Cases(tileSize as nat);
  }

  /** Half a tile row per thread in x. */
  function NumThreadsX(tileSize: u32): nat
  {
    tileSize as nat / 2
  }

  /** The rest of a 1024-thread group in y. */
  function NumThreadsY(tileSize: u32): nat
    requires SupportedTileSize(tileSize)
  {
    SupportedTileSizeCases(tileSize);
    MaxNumThreadsPerGroup / NumThreadsX(tileSize)
  }

  /** Enough groups in y to cover the tile's height. */
  function NumThreadGroupsY(tileSize: u32): u32
    requires SupportedTileSize(tileSize)
  {
    SupportedTileSizeCases(tileSize);
    tileSize / NumThreadsY(tileSize) as u32
  }

  function ThreadDefines(tileSize: u32): seq<ShaderMacro>
    requires SupportedTileSize(tileSize)
  {
    [NumberMacro("NUM_THREADS_X", NumThreadsX(tileSize)), NumberMacro("NUM_THREADS_Y", NumThreadsY(tileSize))]
  }

  /** The permutation created for one tile size. */
  function PermutationFor(tileSize: u32): PipelineStatePermutation
    requires SupportedTileSize(tileSize)
  {
    PipelineStatePermutation(tileSize, ThreadDefines(tileSize), 1, NumThreadGroupsY(tileSize))
  }

  /** For every supported tile size a group has exactly 1024 threads, a
      single group spans the tile's width and the groups in y cover its
      height exactly. */
  lemma PermutationShape(tileSize: u32)
    requires SupportedTileSize(tileSize)
    ensures NumThreadsX(tileSize) * NumThreadsY(tileSize) == MaxNumThreadsPerGroup
    ensures NumThreadsX(tileSize) * 2 == tileSize as nat
    ensures NumThreadGroupsY(tileSize) as nat * NumThreadsY(tileSize) == tileSize as nat
  {
    SupportedTileSizeCases(tileSize);
    if tileSize == 64 {
      assert NumThreadsX(64) == 32 && NumThreadsY(64) == 32 && NumThreadGroupsY(64) == 2;
    } else if tileSize == 128 {
      assert NumThreadsX(128) == 64 && NumThreadsY(128) == 16 && NumThreadGroupsY(128) == 8;
    } else if tileSize == 256 {
      assert NumThreadsX(256) == 128 && NumThreadsY(256) == 8 && NumThreadGroupsY(256) == 32;
    } else if tileSize == 512 {
      assert NumThreadsX(512) == 256 && NumThreadsY(512) == 4 && NumThreadGroupsY(512) == 128;
    } else {
      assert NumThreadsX(1024) == 512 && NumThreadsY(1024) == 2 && NumThreadGroupsY(1024) == 512;
    }
  }

  /** The shader sees the thread-group shape as decimal macros. */
  lemma PermutationDefines(tileSize: u32)
    requires SupportedTileSize(tileSize)
    ensures var ms := PermutationFor(tileSize).shaderDefines;
      |ms| == 2 &&
      ms[0].name == "NUM_THREADS_X" && DefinesValue(ms[0], NumThreadsX(tileSize)) &&
      ms[1].name == "NUM_THREADS_Y" && DefinesValue(ms[1], NumThreadsY(tileSize))
  {
  }

  /** The permutations for tile sizes from `tileSize` halving down while
      still at least `minTileSize`. */
  function Permutations(tileSize: u32, minTileSize: u32): (ps: seq<PipelineStatePermutation>)
    requires 64 <= minTileSize && IsPowerOf2(tileSize as nat) && tileSize <= 1024
    decreases tileSize
  {
    if tileSize < minTileSize then [] else [PermutationFor(tileSize)] + Permutations(tileSize / 2, minTileSize)
  }

  function TileSizes(ps: seq<PipelineStatePermutation>): (ts: seq<u32>)
    ensures |ts| == |ps|
    ensures forall i :: 0 <= i < |ps| ==> ts[i] == ps[i].tileSize
  {
    seq(|ps|, i requires 0 <= i < |ps| => ps[i].tileSize)
  }

  /** The tile sizes from `tileSize` halving down while still at least
      `minTileSize`: the reference the permutation list is checked against. */
  function TileSizeRange(tileSize: u32, minTileSize: u32): (ts: seq<u32>)
    requires 64 <= minTileSize && IsPowerOf2(tileSize as nat) && tileSize <= 1024
    decreases tileSize
  {
    if tileSize < minTileSize then [] else [tileSize] + TileSizeRange(tileSize / 2, minTileSize)
  }

  /** One permutation per tile size of the range, in the order of the range. */
  lemma {:induction false} PermutationsFollowRange(tileSize: u32, minTileSize: u32)
    requires 64 <= minTileSize && IsPowerOf2(tileSize as nat) && tileSize <= 1024
    ensures TileSizes(Permutations(tileSize, minTileSize)) == TileSizeRange(tileSize, minTileSize)
    decreases tileSize
  {
    if tileSize >= minTileSize {
      var p := PermutationFor(tileSize);
      var rest := Permutations(tileSize / 2, minTileSize);
      PermutationsFollowRange(tileSize / 2, minTileSize);
      assert TileSizes([p] + rest) == [p.tileSize] + TileSizes(rest);
    }
  }

  /** The tile sizes start at the maximum, halve from one to the next, are
      all supported and never fall below the minimum; when the minimum is a
      power of two no larger than the maximum, the last size is the minimum,
      so every power of two from the maximum down to the minimum is visited. */
  lemma {:induction false} TileSizeRangeDescends(tileSize: u32, minTileSize: u32)
    requires 64 <= minTileSize && IsPowerOf2(tileSize as nat) && tileSize <= 1024
    ensures var ts := TileSizeRange(tileSize, minTileSize);
      (tileSize >= minTileSize ==> |ts| > 0 && ts[0] == tileSize) &&
      (forall i :: 0 <= i < |ts| ==> minTileSize <= ts[i] <= tileSize && SupportedTileSize(ts[i])) &&
      (forall i :: 0 < i < |ts| ==> ts[i] == ts[i - 1] / 2) &&
      (IsPowerOf2(minTileSize as nat) && minTileSize <= tileSize ==> ts[|ts| - 1] == minTileSize)
    decreases tileSize
  {
    if tileSize >= minTileSize {
      TileSizeRangeDescends(tileSize / 2, minTileSize);
      if IsPowerOf2(minTileSize as nat) && tileSize / 2 < minTileSize {
        PowerOf2Cases(tileSize as nat);
        PowerOf2Cases(minTileSize as nat);
      }
    }
  }

  /** The full range of tile sizes holds five sizes, so, by
      PermutationsFollowRange, there are five permutations. */
  lemma FullTileSizeRange()
    ensures TileSizeRange(1024, 64) == [1024, 512, 256, 128, 64]
  {
    assert TileSizeRange(32, 64) == [];
    assert TileSizeRange(64, 64) == [64];
    assert TileSizeRange(128, 64) == [128, 64];
    assert TileSizeRange(256, 64) == [256, 128, 64];
    assert TileSizeRange(512, 64) == [512, 256, 128, 64];
  }

  // ---------------------------------------------------------------------
  // Indirect command signature
  // ---------------------------------------------------------------------

  datatype IndirectArgumentDesc =
    | Constant32BitArgument(rootParameterIndex: nat, destOffsetIn32BitValues: nat, num32BitValuesToSet: nat)
    | DispatchArgument

  function ArgumentByteSize(a: IndirectArgumentDesc): nat
  {
    match a
    case Constant32BitArgument(_, _, n) => 4 * n
    case DispatchArgument => 12
  }

  function ArgumentsByteSize(args: seq<IndirectArgumentDesc>): nat
  {
    if args == [] then 0 else ArgumentByteSize(args[0]) + ArgumentsByteSize(args[1..])
  }

  datatype CommandSignatureDesc = CommandSignatureDesc(byteStride: nat, arguments: seq<IndirectArgumentDesc>)

  /** A field of the indirect-command record `CreateSATCommand`. */
  datatype CommandField =
    | TileTopLeft                 // the tile's top-left pixel: two u32 values
    | DispatchArguments           // the three u32 thread-group counts
    | IndirectArgumentDescField   // an argument descriptor: a type tag and a three-u32 union

  function FieldByteSize(f: CommandField): nat
  {
    match f
    case TileTopLeft => 8
    case DispatchArguments => 12
    case IndirectArgumentDescField => 16
  }

  function RecordByteSize(fields: seq<CommandField>): nat
  {
    if fields == [] then 0 else FieldByteSize(fields[0]) + RecordByteSize(fields[1..])
  }

  /** The record as declared: its second field has the type that the
      signature's argument list uses for the dispatch *descriptor*. */
  const AsWrittenCreateSATCommand: seq<CommandField> := [TileTopLeft, IndirectArgumentDescField]

  /** The record the signature describes: the tile origin, then the
      dispatch arguments themselves. */
  const CreateSATCommand: seq<CommandField> := [TileTopLeft, DispatchArguments]

  /** Size in bytes of one indirect command. */
  const CreateSATCommandByteSize: nat := RecordByteSize(CreateSATCommand)

  /** Two root constants (the tile origin) followed by a dispatch. */
  const CommandArguments: seq<IndirectArgumentDesc> := [Constant32BitArgument(0, 0, NumRootConstants), DispatchArgument]

  /** One command per record, the stride taken from the record's size. */
  const CommandSignature: CommandSignatureDesc := CommandSignatureDesc(CreateSATCommandByteSize, CommandArguments)

  /** The signature with the stride of the record as declared. */
  const AsWrittenCommandSignature: CommandSignatureDesc :=
    CommandSignatureDesc(RecordByteSize(AsWrittenCreateSATCommand), CommandArguments)

  /** The record and the arguments line up field by field: the constants
      are the tile origin and go to root parameter 0, the dispatch arguments
      follow, and the stride is exactly the size of the arguments, so the GPU
      reads each record's fields where they are written. */
  lemma CommandSignatureLayout()
    ensures |CreateSATCommand| == |CommandSignature.arguments|
    ensures forall i :: 0 <= i < |CreateSATCommand| ==>
      FieldByteSize(CreateSATCommand[i]) == ArgumentByteSize(CommandSignature.arguments[i])
    ensures CommandSignature.byteStride == ArgumentsByteSize(CommandSignature.arguments) == 20
    ensures CommandSignature.arguments[0].Constant32BitArgument? && CommandSignature.arguments[0].rootParameterIndex == 0
    ensures CommandSignature.arguments[0].num32BitValuesToSet == NumRootConstants
    ensures CreateSATCommand[1] == DispatchArguments
  {
    ArgumentsLayout();
    assert CreateSATCommand[1..][1..] == [];
  }

  /** The arguments take 20 bytes: two constants, then a 12-byte dispatch. */
  lemma ArgumentsLayout()
    ensures ArgumentsByteSize(CommandArguments) == 20
  {
    assert CommandArguments[1..] == [DispatchArgument];
    assert CommandArguments[1..][1..] == [];
    assert ArgumentsByteSize(CommandArguments[1..]) == 12;
    assert ArgumentByteSize(CommandArguments[0]) == 4 * NumRootConstants;
  }

  /** With the record as declared the stride is 24 bytes while the
      arguments take 20, and the field the dispatch arguments are read from
      is a 16-byte descriptor rather than the three 4-byte counts. */
  lemma AsWrittenCommandLayout()
    ensures AsWrittenCommandSignature.byteStride == 24
    ensures ArgumentsByteSize(AsWrittenCommandSignature.arguments) == 20
    ensures FieldByteSize(AsWrittenCreateSATCommand[1]) != ArgumentByteSize(AsWrittenCommandSignature.arguments[1])
  {
    ArgumentsLayout();
    assert AsWrittenCreateSATCommand[1..][1..] == [];
  }

  // ---------------------------------------------------------------------
  // The pass
  // ---------------------------------------------------------------------

  class CreateTiledShadowMapSATPass {
    const name: string
    const rootSignature: ApiObject
    const commandSignature: CommandSignatureDesc
    var outputResourceStates: SATStates
    var argumentBuffer: Option<GraphicsResource>
    var uploadArgumentBuffer: Option<GraphicsResource>
    var tiledShadowMapSATRow: Option<GraphicsResource>
    var tiledShadowMapSATColumn: Option<GraphicsResource>
    var uploadArgumentsResourceBarriers: seq<Barrier>
    var resourceBarriersRow: seq<Barrier>
    var resourceBarriersColumn: seq<Barrier>
    var srvHeapStartRow: Option<DescriptorHandle>
    var srvHeapStartColumn: Option<DescriptorHandle>
    var pipelineStatePermutations: seq<PipelineStatePermutation>

    /** The four owned resources exist, with the sizes, formats and initial
      states InitResources gives them. */
    ghost predicate ResourcesCreated(p: InitParams)
      reads this`outputResourceStates, this`argumentBuffer, this`uploadArgumentBuffer
      reads this`tiledShadowMapSATRow, this`tiledShadowMapSATColumn
    {
      outputResourceStates == OutputStates &&
      argumentBuffer.Some? && uploadArgumentBuffer.Some? && tiledShadowMapSATRow.Some? && tiledShadowMapSATColumn.Some? &&
      p.tiledShadowMap.desc.Texture2DDesc? &&
      var arg, row, column := argumentBuffer.value, tiledShadowMapSATRow.value, tiledShadowMapSATColumn.value;
      var size := MaxNumTiles(p.lightType, p.maxNumLights);
      arg.desc == StructuredBufferDesc(size, CreateSATCommandByteSize) && arg.initialState == IndirectArgument &&
      uploadArgumentBuffer.value.desc == StructuredBufferDesc(size, CreateSATCommandByteSize) &&
      uploadArgumentBuffer.value.initialState == GenericRead &&
      row.desc == Texture2DDesc(p.tiledShadowMap.desc.width, p.tiledShadowMap.desc.height, R32G32Float) &&
      row.initialState == NonPixelShaderResource &&
      column.desc == row.desc && column.initialState == p.inputStates.tiledVarianceShadowMapSAT
    }

    /** The three barrier lists are the ones the specification functions give. */
    ghost predicate BarrierListsCreated(p: InitParams)
      reads this`argumentBuffer, this`tiledShadowMapSATRow, this`tiledShadowMapSATColumn
      reads this`uploadArgumentsResourceBarriers, this`resourceBarriersRow, this`resourceBarriersColumn
    {
      argumentBuffer.Some? && tiledShadowMapSATRow.Some? && tiledShadowMapSATColumn.Some? &&
      var arg, row, column := argumentBuffer.value, tiledShadowMapSATRow.value, tiledShadowMapSATColumn.value;
      uploadArgumentsResourceBarriers == UploadBarriers(arg) &&
      resourceBarriersRow == RowBarriers(arg, p.tiledShadowMap, p.inputStates.tiledVarianceShadowMap, row) &&
      resourceBarriersColumn == ColumnBarriers(column, p.inputStates.tiledVarianceShadowMapSAT, row)
    }

    /** The row table starts at the first new slot and the column table two
      slots later; the heap gained exactly their four views. */
    ghost predicate TablesAllocated(p: InitParams, slots0: seq<Slot>)
      reads this`tiledShadowMapSATRow, this`tiledShadowMapSATColumn
      reads this`srvHeapStartRow, this`srvHeapStartColumn, p.srvHeap
    {
      tiledShadowMapSATRow.Some? && tiledShadowMapSATColumn.Some? &&
      var row, column := tiledShadowMapSATRow.value, tiledShadowMapSATColumn.value;
      srvHeapStartRow == Some(DescriptorHandle(|slots0|)) &&
      srvHeapStartColumn == Some(DescriptorHandle(|slots0| + 2)) &&
      p.srvHeap.slots == slots0 + AsSlots(RowTableViews(p.tiledShadowMap, row)) + AsSlots(ColumnTableViews(row, column))
    }

    /** Everything InitResources sets up. */
    ghost predicate ResourcesInitialised(p: InitParams, slots0: seq<Slot>)
      reads this, p.srvHeap
    {
      ResourcesCreated(p) && BarrierListsCreated(p) && TablesAllocated(p, slots0)
    }

    constructor (name: string, p: InitParams)
      requires ValidResourceParams(p)
      requires p.srvHeap.Valid() && |p.srvHeap.slots| + 4 <= p.srvHeap.capacity
      requires IsPowerOf2(p.minTileSize as nat) && IsPowerOf2(p.maxTileSize as nat)
      requires p.minTileSize <= p.maxTileSize && 64 <= p.minTileSize && p.maxTileSize <= 1024
      modifies p.srvHeap
      ensures p.srvHeap.Valid()
      ensures this.name == name
      ensures ResourcesInitialised(p, old(p.srvHeap.slots))
      ensures fresh(argumentBuffer.value) && fresh(uploadArgumentBuffer.value)
      ensures fresh(tiledShadowMapSATRow.value) && fresh(tiledShadowMapSATColumn.value)
      ensures pipelineStatePermutations == Permutations(p.maxTileSize, p.minTileSize)
      ensures commandSignature == CommandSignature
    {
      this.name := name;
      rootSignature := new ApiObject();
      commandSignature := CommandSignature;
      outputResourceStates := OutputStates;
      argumentBuffer := None;
      uploadArgumentBuffer := None;
      tiledShadowMapSATRow := None;
      tiledShadowMapSATColumn := None;
      uploadArgumentsResourceBarriers := [];
      resourceBarriersRow := [];
      resourceBarriersColumn := [];
      srvHeapStartRow := None;
      srvHeapStartColumn := None;
      pipelineStatePermutations := [];
      new;
      InitResources(p);
      InitPipelineStates(p);
    }

    method InitResources(p: InitParams)
      requires ValidResourceParams(p)
      requires p.srvHeap.Valid() && |p.srvHeap.slots| + 4 <= p.srvHeap.capacity
      requires argumentBuffer.None? && uploadArgumentBuffer.None?
      requires tiledShadowMapSATRow.None? && tiledShadowMapSATColumn.None?
      requires uploadArgumentsResourceBarriers == [] && resourceBarriersRow == [] && resourceBarriersColumn == []
      requires srvHeapStartRow.None? && srvHeapStartColumn.None?
      modifies this`outputResourceStates, this`argumentBuffer, this`uploadArgumentBuffer
      modifies this`tiledShadowMapSATRow, this`tiledShadowMapSATColumn
      modifies this`uploadArgumentsResourceBarriers, this`resourceBarriersRow, this`resourceBarriersColumn
      modifies this`srvHeapStartRow, this`srvHeapStartColumn, p.srvHeap
      ensures p.srvHeap.Valid()
      ensures ResourcesInitialised(p, old(p.srvHeap.slots))
      ensures fresh(argumentBuffer.value) && fresh(uploadArgumentBuffer.value)
      ensures fresh(tiledShadowMapSATRow.value) && fresh(tiledShadowMapSATColumn.value)
    {
      var arg, row, column := CreateResources(p);
      CreateBarrierLists(p, arg, row, column);
      AllocateTables(p.srvHeap, p.tiledShadowMap, row, column);
    }

    /** The resource part of InitResources: the argument buffer and its
      upload twin, sized for the largest tile count, and the row and column
      summed-area textures, sized like the tiled shadow map. */
    method CreateResources(p: InitParams) returns (arg: GraphicsResource, row: GraphicsResource, column: GraphicsResource)
      requires ValidResourceParams(p)
      modifies this`outputResourceStates, this`argumentBuffer, this`uploadArgumentBuffer
      modifies this`tiledShadowMapSATRow, this`tiledShadowMapSATColumn
      ensures ResourcesCreated(p)
      ensures argumentBuffer == Some(arg) && tiledShadowMapSATRow == Some(row) && tiledShadowMapSATColumn == Some(column)
      ensures fresh(arg) && fresh(uploadArgumentBuffer.value) && fresh(row) && fresh(column)
    {
      outputResourceStates := OutputStates;
      var maxNumTiles := MaxNumTiles(p.lightType, p.maxNumLights);
      arg := new GraphicsResource("argument", StructuredBufferDesc(maxNumTiles, CreateSATCommandByteSize), IndirectArgument);
      var upload := new GraphicsResource("upload", StructuredBufferDesc(maxNumTiles, CreateSATCommandByteSize), GenericRead);
      var satDesc := Texture2DDesc(p.tiledShadowMap.desc.width, p.tiledShadowMap.desc.height, R32G32Float);
      row := new GraphicsResource("row", satDesc, NonPixelShaderResource);
      column := new GraphicsResource("column", satDesc, p.inputStates.tiledVarianceShadowMapSAT);
      argumentBuffer := Some(arg);
      uploadArgumentBuffer := Some(upload);
      tiledShadowMapSATRow := Some(row);
      tiledShadowMapSATColumn := Some(column);
    }

    /** The barrier part of InitResources. */
    method CreateBarrierLists(p: InitParams, arg: GraphicsResource, row: GraphicsResource, column: GraphicsResource)
      requires outputResourceStates == OutputStates
      requires uploadArgumentsResourceBarriers == [] && resourceBarriersRow == [] && resourceBarriersColumn == []
      modifies this`uploadArgumentsResourceBarriers, this`resourceBarriersRow, this`resourceBarriersColumn
      ensures uploadArgumentsResourceBarriers == UploadBarriers(arg)
      ensures resourceBarriersRow == RowBarriers(arg, p.tiledShadowMap, p.inputStates.tiledVarianceShadowMap, row)
      ensures resourceBarriersColumn == ColumnBarriers(column, p.inputStates.tiledVarianceShadowMapSAT, row)
    {
      uploadArgumentsResourceBarriers := uploadArgumentsResourceBarriers + [Barrier(arg, IndirectArgument, CopyDest)];

      resourceBarriersRow := resourceBarriersRow + [Barrier(arg, CopyDest, IndirectArgument)];
      if p.inputStates.tiledVarianceShadowMap != outputResourceStates.tiledVarianceShadowMap {
        resourceBarriersRow := resourceBarriersRow
          + [Barrier(p.tiledShadowMap, p.inputStates.tiledVarianceShadowMap, outputResourceStates.tiledVarianceShadowMap)];
      }
      resourceBarriersRow := resourceBarriersRow + [Barrier(row, NonPixelShaderResource, UnorderedAccess)];

      if p.inputStates.tiledVarianceShadowMapSAT != outputResourceStates.tiledVarianceShadowMapSAT {
        resourceBarriersColumn := resourceBarriersColumn
          + [Barrier(column, p.inputStates.tiledVarianceShadowMapSAT, outputResourceStates.tiledVarianceShadowMapSAT)];
      }
      resourceBarriersColumn := resourceBarriersColumn + [Barrier(row, UnorderedAccess, NonPixelShaderResource)];
    }

    /** The row table (shadow-map SRV, row UAV) and then the column table
      (row SRV, column UAV), each in two consecutive slots. */
    method AllocateTables(heap: DescriptorHeap, shadowMap: GraphicsResource, row: GraphicsResource, column: GraphicsResource)
      requires heap.Valid() && |heap.slots| + 4 <= heap.capacity
      requires srvHeapStartRow.None? && srvHeapStartColumn.None?
      modifies heap, this`srvHeapStartRow, this`srvHeapStartColumn
      ensures heap.Valid()
      ensures srvHeapStartRow == Some(DescriptorHandle(|old(heap.slots)|))
      ensures srvHeapStartColumn == Some(DescriptorHandle(|old(heap.slots)| + 2))
      ensures heap.slots == old(heap.slots) + AsSlots(RowTableViews(shadowMap, row)) + AsSlots(ColumnTableViews(row, column))
    {
      ghost var slots0 := heap.slots;
      var start := heap.Allocate();
      srvHeapStartRow := Some(start);
      heap.CopyDescriptor(start, SRVOf(shadowMap));
      var h := heap.Allocate();
      heap.CopyDescriptor(h, UAVOf(row));
      start := heap.Allocate();
      srvHeapStartColumn := Some(start);
      heap.CopyDescriptor(start, SRVOf(row));
      h := heap.Allocate();
      heap.CopyDescriptor(h, UAVOf(column));
      assert AsSlots(RowTableViews(shadowMap, row)) == [Holds(SRVOf(shadowMap)), Holds(UAVOf(row))];
      assert AsSlots(ColumnTableViews(row, column)) == [Holds(SRVOf(row)), Holds(UAVOf(column))];
    }

    /** One permutation per tile size from the maximum down to the minimum,
      halving each time. */
    method InitPipelineStates(p: InitParams)
      requires IsPowerOf2(p.minTileSize as nat) && IsPowerOf2(p.maxTileSize as nat)
      requires p.minTileSize <= p.maxTileSize && 64 <= p.minTileSize && p.maxTileSize <= 1024
      requires pipelineStatePermutations == []
      modifies this`pipelineStatePermutations
      ensures pipelineStatePermutations == Permutations(p.maxTileSize, p.minTileSize)
    {
      var tileSize := p.maxTileSize;
      while p.minTileSize <= tileSize
        invariant IsPowerOf2(tileSize as nat) && tileSize <= 1024
        invariant pipelineStatePermutations + Permutations(tileSize, p.minTileSize) == Permutations(p.maxTileSize, p.minTileSize)
        decreases tileSize
      {
        ConcatAssoc(pipelineStatePermutations, [PermutationFor(tileSize)], Permutations(tileSize / 2, p.minTileSize));
        pipelineStatePermutations := pipelineStatePermutations + [PermutationFor(tileSize)];
        tileSize := tileSize / 2;
      }
      assert pipelineStatePermutations + [] == pipelineStatePermutations;
    }

    /** The recording routine is unfinished: it stops at a failing assertion
      before any command is recorded. */
    method Record(commandList: CommandList) returns (outcome: Outcome)
      ensures outcome.NotImplemented?
    {
      outcome := NotImplemented("CreateTiledShadowMapSATPass::Record");
    }
  }
}
