// Shadow maps of spot lights. At construction the static shadow casters of
// every spot light are gathered, light after light, into one shared list
// of visible instance indices and one list of indirect draws; each light
// keeps the range of draws that belongs to it. Every frame, the active
// lights whose shadow map is out of date are picked out.
//
// The frustum/box test of a light is floating point: it is the caller's
// predicate `visibleTo(light, instance)`.
module SpotLightShadows {
  import opened Gpu
  import opened ShadowRenderer

  /** Whether a light's shadow map must be rendered again. Only `Outdated`
      is named by the renderer; the declaration of the type is not part of
      this model. */
  datatype ShadowMapState = Outdated | UpToDate

  /** The draws of one light: `numCommands` draws from `firstCommand` on. */
  datatype CommandRange = CommandRange(firstCommand: nat, numCommands: nat)

  /** Bytes per draw: a 32-bit instance offset and five 32-bit draw arguments. */
  const ShadowMapCommandByteSize: nat := 24

  /** A container size stored in a 32-bit field, as the buffer descriptions
      do: the value is truncated to its low 32 bits. */
  function SizeAsU32(n: nat): (r: u32)
    ensures n < U32Modulus ==> r == n
  {
    n % U32Modulus
  }

  /** `resize` of a vector: the first entries are kept, new ones get `fill`. */
  function Resized<T>(s: seq<T>, n: nat, fill: T): (r: seq<T>)
    ensures |r| == n
    ensures forall k :: 0 <= k < n ==> r[k] == if k < |s| then s[k] else fill
  {
    if n <= |s| then s[..n] else s + seq(n - |s|, _ => fill)
  }

  // ---------------------------------------------------------------------
  // Picking the outdated shadow maps of the active lights
  // ---------------------------------------------------------------------

  /** The active lights whose shadow map is outdated, in the order given. */
  function OutdatedActive(states: seq<ShadowMapState>, active: seq<u32>): (r: seq<u32>)
    requires forall k :: 0 <= k < |active| ==> active[k] as nat < |states|
    ensures |r| <= |active|
    decreases |active|
  {
    if active == [] then []
    else
      var last := active[|active| - 1];
      OutdatedActive(states, active[..|active| - 1]) + (if states[last] == Outdated then [last] else [])
  }

  /** An active light is picked exactly when its shadow map is outdated,
      and nothing else is picked. */
  lemma {:induction false} OutdatedActiveExact(states: seq<ShadowMapState>, active: seq<u32>)
    requires forall k :: 0 <= k < |active| ==> active[k] as nat < |states|
    ensures var r := OutdatedActive(states, active);
      (forall k :: 0 <= k < |r| ==> r[k] in active && states[r[k]] == Outdated) &&
      (forall k :: 0 <= k < |active| ==> (active[k] in r <==> states[active[k]] == Outdated))
    decreases |active|
  {
    if active != [] {
      var init := active[..|active| - 1];
      var last := active[|active| - 1];
      OutdatedActiveExact(states, init);
      var r0 := OutdatedActive(states, init);
      var r := OutdatedActive(states, active);
      assert forall x :: x in init ==> x in active;
      assert forall k :: 0 <= k < |r0| ==> r[k] == r0[k];
      forall k | 0 <= k < |active|
        ensures active[k] in r <==> states[active[k]] == Outdated
      {
        if k < |init| {
          assert active[k] == init[k];
        }
      }
    }
  }

  /** Looking at one more active light picks it exactly when its shadow
      map is outdated. */
  lemma OutdatedActiveStep(states: seq<ShadowMapState>, active: seq<u32>, i: nat)
    requires forall k :: 0 <= k < |active| ==> active[k] as nat < |states|
    requires i < |active|
    ensures OutdatedActive(states, active[..i + 1])
         == OutdatedActive(states, active[..i]) + (if states[active[i]] == Outdated then [active[i]] else [])
  {
    assert active[..i + 1][..i] == active[..i];
  }

  /** Writing just past a prefix replaces the first element of what follows. */
  lemma WriteAfterPrefix<T>(prefix: seq<T>, rest: seq<T>, x: T)
    requires |rest| > 0
    ensures (prefix + rest)[|prefix| := x] == (prefix + [x]) + rest[1..]
  {
    assert forall k :: 0 <= k < |prefix| + |rest| ==>
      (prefix + rest)[|prefix| := x][k] == ((prefix + [x]) + rest[1..])[k];
  }

  /** When every active light is outdated, all of them are picked, in order. */
  lemma {:induction false} AllOutdatedPicked(states: seq<ShadowMapState>, active: seq<u32>)
    requires forall k :: 0 <= k < |active| ==> active[k] as nat < |states| && states[active[k]] == Outdated
    ensures OutdatedActive(states, active) == active
    decreases |active|
  {
    if active != [] {
      var init := active[..|active| - 1];
      assert forall k :: 0 <= k < |init| ==> init[k] == active[k];
      AllOutdatedPicked(states, init);
      assert active == init + [active[|active| - 1]];
    }
  }

  /** When no active light is outdated, none is picked. */
  lemma {:induction false} NoneOutdatedPicked(states: seq<ShadowMapState>, active: seq<u32>)
    requires forall k :: 0 <= k < |active| ==> active[k] as nat < |states| && states[active[k]] != Outdated
    ensures OutdatedActive(states, active) == []
    decreases |active|
  {
    if active != [] {
      var init := active[..|active| - 1];
      assert forall k :: 0 <= k < |init| ==> init[k] == active[k];
      NoneOutdatedPicked(states, init);
    }
  }

  // ---------------------------------------------------------------------
  // The static shadow-caster draws of all spot lights
  // ---------------------------------------------------------------------

  /** The frustum test of one light. */
  function LightVisible(visibleTo: (nat, u32) -> bool, lightIndex: nat): u32 -> bool
  {
    (i: u32) => visibleTo(lightIndex, i)
  }

  /** The shared instance-index list after the first `n` lights. */
  function AllIndices(visibleTo: (nat, u32) -> bool, meshes: seq<MeshInfo>, n: nat): seq<u32>
    decreases n
  {
    if n == 0 then []
    else AllIndices(visibleTo, meshes, n - 1) + VisibleIndices(meshes, LightVisible(visibleTo, n - 1))
  }

  /** The draws of light `l`, whose indices follow those of the lights before. */
  function LightCommands(visibleTo: (nat, u32) -> bool, meshes: seq<MeshInfo>, l: nat): seq<ShadowMapCommand>
  {
    CommandsFor(meshes, LightVisible(visibleTo, l), |AllIndices(visibleTo, meshes, l)|)
  }

  /** The shared draw list after the first `n` lights. */
  function AllCommands(visibleTo: (nat, u32) -> bool, meshes: seq<MeshInfo>, n: nat): seq<ShadowMapCommand>
    decreases n
  {
    if n == 0 then [] else AllCommands(visibleTo, meshes, n - 1) + LightCommands(visibleTo, meshes, n - 1)
  }

  /** The per-light ranges after the first `n` lights. */
  function LightRanges(visibleTo: (nat, u32) -> bool, meshes: seq<MeshInfo>, n: nat): (rs: seq<CommandRange>)
    ensures |rs| == n
    decreases n
  {
    if n == 0 then []
    else
      LightRanges(visibleTo, meshes, n - 1)
      + [CommandRange(|AllCommands(visibleTo, meshes, n - 1)|, |LightCommands(visibleTo, meshes, n - 1)|)]
  }

  /** The draw list of fewer lights is a prefix of that of more. */
  lemma {:induction false} AllCommandsPrefix(visibleTo: (nat, u32) -> bool, meshes: seq<MeshInfo>, m: nat, n: nat)
    requires m <= n
    ensures var pre := AllCommands(visibleTo, meshes, m);
      var all := AllCommands(visibleTo, meshes, n);
      |pre| <= |all| && all[..|pre|] == pre
    decreases n - m
  {
    if m < n {
      AllCommandsPrefix(visibleTo, meshes, m, n - 1);
      var all := AllCommands(visibleTo, meshes, n);
      var all0 := AllCommands(visibleTo, meshes, n - 1);
      assert all[..|all0|] == all0;
    }
  }

  /** There is one range per light, the first starts at the first draw,
      each next one starts where the one before ends, and the last ends at
      the end of the list: the ranges partition the draw list. */
  lemma {:induction false} RangesPartition(visibleTo: (nat, u32) -> bool, meshes: seq<MeshInfo>, n: nat)
    ensures var rs := LightRanges(visibleTo, meshes, n);
      var cmds := AllCommands(visibleTo, meshes, n);
      (n == 0 ==> cmds == []) &&
      (n > 0 ==> rs[0].firstCommand == 0 && rs[n - 1].firstCommand + rs[n - 1].numCommands == |cmds|) &&
      (forall j :: 0 <= j < n - 1 ==> rs[j].firstCommand + rs[j].numCommands == rs[j + 1].firstCommand)
    decreases n
  {
    if n > 0 {
      RangesPartition(visibleTo, meshes, n - 1);
      var rs0 := LightRanges(visibleTo, meshes, n - 1);
      var rs := LightRanges(visibleTo, meshes, n);
      assert forall j :: 0 <= j < n - 1 ==> rs[j] == rs0[j];
    }
  }

  /** Light j's range holds exactly light j's draws. */
  lemma RangeHoldsLightCommands(visibleTo: (nat, u32) -> bool, meshes: seq<MeshInfo>, n: nat, j: nat)
    requires j < n
    ensures var r := LightRanges(visibleTo, meshes, n)[j];
      var cmds := AllCommands(visibleTo, meshes, n);
      r.firstCommand + r.numCommands <= |cmds| &&
      cmds[r.firstCommand..r.firstCommand + r.numCommands] == LightCommands(visibleTo, meshes, j)
  {
    RangeOfLight(visibleTo, meshes, n, j);
    AllCommandsPrefix(visibleTo, meshes, j + 1, n);
    var pre := AllCommands(visibleTo, meshes, j + 1);
    assert pre[|AllCommands(visibleTo, meshes, j)|..] == LightCommands(visibleTo, meshes, j);
  }

  /** A light's range is fixed when it is pushed: later lights do not move it. */
  lemma {:induction false} RangeOfLight(visibleTo: (nat, u32) -> bool, meshes: seq<MeshInfo>, n: nat, j: nat)
    requires j < n
    ensures LightRanges(visibleTo, meshes, n)[j]
         == CommandRange(|AllCommands(visibleTo, meshes, j)|, |LightCommands(visibleTo, meshes, j)|)
    decreases n
  {
    if j < n - 1 {
      RangeOfLight(visibleTo, meshes, n - 1, j);
    }
  }

  /** Two tilings that meet make one. */
  lemma {:induction false} TilesConcat(a: seq<ShadowMapCommand>, b: seq<ShadowMapCommand>, base: nat, mid: nat, end: nat)
    ensures Tiles(a, base, mid) && Tiles(b, mid, end) ==> Tiles(a + b, base, end)
    decreases |b|
  {
    if !(Tiles(a, base, mid) && Tiles(b, mid, end)) {
    } else if b == [] {
      assert a + b == a;
    } else {
      var last := b[|b| - 1];
      var b' := b[..|b| - 1];
      TilesConcat(a, b', base, mid, last.instanceOffset);
      assert (a + b)[..|a + b| - 1] == a + b';
      assert (a + b)[|a + b| - 1] == last;
    }
  }

  /** Every draw of a tiling reads inside the tiled stretch. */
  lemma {:induction false} TilesWithin(cmds: seq<ShadowMapCommand>, base: nat, end: nat)
    requires Tiles(cmds, base, end)
    ensures forall j :: 0 <= j < |cmds| ==>
      base <= cmds[j].instanceOffset && cmds[j].instanceOffset + cmds[j].args.instanceCount <= end
    decreases |cmds|
  {
    if cmds != [] {
      var init := cmds[..|cmds| - 1];
      TilesWithin(init, base, cmds[|cmds| - 1].instanceOffset);
      assert forall j :: 0 <= j < |init| ==> init[j] == cmds[j];
    }
  }

  /** Although the index list is never reset between lights, the draws of
      all lights together tile it from its start to its end: each draw's
      instance offset indexes the shared list, runs follow one another, and
      the draws' instance counts add up to the list's length. */
  lemma {:induction false} AllCommandsTile(visibleTo: (nat, u32) -> bool, meshes: seq<MeshInfo>, n: nat)
    ensures Tiles(AllCommands(visibleTo, meshes, n), 0, |AllIndices(visibleTo, meshes, n)|)
    decreases n
  {
    if n > 0 {
      AllCommandsTile(visibleTo, meshes, n - 1);
      LightCommandsTile(visibleTo, meshes, n - 1);
      TilesConcat(AllCommands(visibleTo, meshes, n - 1), LightCommands(visibleTo, meshes, n - 1),
                  0, |AllIndices(visibleTo, meshes, n - 1)|, |AllIndices(visibleTo, meshes, n)|);
    }
  }

  /** The draws of one light tile the indices appended for it. */
  lemma LightCommandsTile(visibleTo: (nat, u32) -> bool, meshes: seq<MeshInfo>, l: nat)
    ensures Tiles(LightCommands(visibleTo, meshes, l), |AllIndices(visibleTo, meshes, l)|, |AllIndices(visibleTo, meshes, l + 1)|)
  {
    CommandsTile(meshes, LightVisible(visibleTo, l), |AllIndices(visibleTo, meshes, l)|);
  }

  /** Hence every draw reads inside the index list, and the draws together
      read every index once. */
  lemma AllCommandsTileIndices(visibleTo: (nat, u32) -> bool, meshes: seq<MeshInfo>, n: nat)
    ensures InstanceSum(AllCommands(visibleTo, meshes, n)) == |AllIndices(visibleTo, meshes, n)|
    ensures forall j :: 0 <= j < |AllCommands(visibleTo, meshes, n)| ==>
      AllCommands(visibleTo, meshes, n)[j].instanceOffset + AllCommands(visibleTo, meshes, n)[j].args.instanceCount
        <= |AllIndices(visibleTo, meshes, n)|
  {
    var cmds := AllCommands(visibleTo, meshes, n);
    var end := |AllIndices(visibleTo, meshes, n)|;
    AllCommandsTile(visibleTo, meshes, n);
    TilesSum(cmds, 0, end);
    TilesWithin(cmds, 0, end);
  }


  class SpotLightShadowRenderer {
    var spotLightShadowMapStates: seq<ShadowMapState>
    var outdatedSpotLightShadowMapIndices: seq<u32>
    var staticMeshCommandRanges: seq<CommandRange>
    var staticMeshCommandBuffer: GraphicsResource?
    var staticMeshInstanceIndexBuffer: GraphicsResource?
    /** What was uploaded into the two buffers, and the state each upload
        left its buffer in. */
    var staticMeshCommandBufferData: seq<ShadowMapCommand>
    var staticMeshInstanceIndexBufferData: seq<u32>
    var staticMeshCommandBufferState: ResourceStates
    var staticMeshInstanceIndexBufferState: ResourceStates

    /** The members before the constructor body runs: no buffers, empty lists. */
    constructor ()
      ensures spotLightShadowMapStates == [] && outdatedSpotLightShadowMapIndices == [] && staticMeshCommandRanges == []
      ensures staticMeshCommandBuffer == null && staticMeshInstanceIndexBuffer == null
    {
      spotLightShadowMapStates := [];
      outdatedSpotLightShadowMapIndices := [];
      staticMeshCommandRanges := [];
      staticMeshCommandBuffer := null;
      staticMeshInstanceIndexBuffer := null;
      staticMeshCommandBufferData := [];
      staticMeshInstanceIndexBufferData := [];
      staticMeshCommandBufferState := Common;
      staticMeshInstanceIndexBufferState := Common;
    }

    /** The constructor's body runs InitResources and then
        InitStaticMeshCommands. It stops in InitResources, whose texture
        formats are unfinished, so it never completes, changes nothing and
        never reaches the static draws. */
    method Init() returns (outcome: Outcome)
      ensures outcome.NotImplemented?
    {
      outcome := InitResources();
    }

    /** Creating the shadow-map textures stops at a failing assertion that
        flags the depth format as unfinished, before anything is created. */
    method InitResources() returns (outcome: Outcome)
      ensures outcome.NotImplemented?
    {
      outcome := NotImplemented("SpotLightShadowRenderer::InitResources");
    }

    /** The end of InitResources: one shadow-map state per spot light, all
        outdated, and room for the indices of the active lights. */
    method InitShadowMapStates(numSpotLights: u32, maxNumActiveSpotLights: u32)
      modifies this`spotLightShadowMapStates, this`outdatedSpotLightShadowMapIndices
      ensures |spotLightShadowMapStates| == numSpotLights as nat
      ensures forall k :: 0 <= k < |spotLightShadowMapStates| ==> spotLightShadowMapStates[k] == Outdated
      ensures outdatedSpotLightShadowMapIndices == Resized<u32>(old(outdatedSpotLightShadowMapIndices), maxNumActiveSpotLights as nat, 0)
    {
      // The value `resize` fills in is overwritten by the loop.
      spotLightShadowMapStates := Resized(spotLightShadowMapStates, numSpotLights as nat, UpToDate);
      var lightIndex: u32 := 0;
      while lightIndex < numSpotLights
        invariant lightIndex <= numSpotLights && |spotLightShadowMapStates| == numSpotLights as nat
        invariant forall k :: 0 <= k < lightIndex ==> spotLightShadowMapStates[k] == Outdated
        invariant outdatedSpotLightShadowMapIndices == old(outdatedSpotLightShadowMapIndices)
      {
        spotLightShadowMapStates := spotLightShadowMapStates[lightIndex := Outdated];
        lightIndex := lightIndex + 1;
      }
      outdatedSpotLightShadowMapIndices := Resized<u32>(outdatedSpotLightShadowMapIndices, maxNumActiveSpotLights as nat, 0);
    }

    /** Writes, in order, the active lights whose shadow map is outdated to
        the front of the outdated-index list. `activeSpotLightIndices` is the
        array the caller points at, `numActiveSpotLights` long. */
    method RenderSpotLightShadowMaps(activeSpotLightIndices: seq<u32>)
      requires |activeSpotLightIndices| <= |spotLightShadowMapStates|
      requires forall k :: 0 <= k < |activeSpotLightIndices| ==> activeSpotLightIndices[k] as nat < |spotLightShadowMapStates|
      requires |activeSpotLightIndices| <= |outdatedSpotLightShadowMapIndices|
      modifies this`outdatedSpotLightShadowMapIndices
      ensures var picked := OutdatedActive(spotLightShadowMapStates, activeSpotLightIndices);
        outdatedSpotLightShadowMapIndices == picked + old(outdatedSpotLightShadowMapIndices)[|picked|..]
    {
      ghost var outdated0 := outdatedSpotLightShadowMapIndices;
      var numOutdatedShadowMaps: nat := 0;
      var it := 0;
      while it < |activeSpotLightIndices|
        invariant it <= |activeSpotLightIndices|
        invariant numOutdatedShadowMaps == |OutdatedActive(spotLightShadowMapStates, activeSpotLightIndices[..it])|
        invariant outdatedSpotLightShadowMapIndices
          == OutdatedActive(spotLightShadowMapStates, activeSpotLightIndices[..it]) + outdated0[numOutdatedShadowMaps..]
      {
        var activeLightIndex := activeSpotLightIndices[it];
        ghost var picked := OutdatedActive(spotLightShadowMapStates, activeSpotLightIndices[..it]);
        OutdatedActiveStep(spotLightShadowMapStates, activeSpotLightIndices, it);
        if spotLightShadowMapStates[activeLightIndex] == Outdated {
          WriteAfterPrefix(picked, outdated0[numOutdatedShadowMaps..], activeLightIndex);
          assert outdated0[numOutdatedShadowMaps..][1..] == outdated0[numOutdatedShadowMaps + 1..];
          outdatedSpotLightShadowMapIndices := outdatedSpotLightShadowMapIndices[numOutdatedShadowMaps := activeLightIndex];
          numOutdatedShadowMaps := numOutdatedShadowMaps + 1;
        }
        it := it + 1;
      }
      assert activeSpotLightIndices[..it] == activeSpotLightIndices;
    }

    /** Builds, light by light, the shared instance-index list and draw
        list, pushing one range of draws per light. */
    method BuildStaticMeshCommands(numSpotLights: u32, visibleTo: (nat, u32) -> bool, meshInfos: seq<MeshInfo>)
      returns (meshInstanceIndices: seq<u32>, staticMeshCommands: seq<ShadowMapCommand>)
      requires staticMeshCommandRanges == []
      modifies this`staticMeshCommandRanges
      ensures meshInstanceIndices == AllIndices(visibleTo, meshInfos, numSpotLights as nat)
      ensures staticMeshCommands == AllCommands(visibleTo, meshInfos, numSpotLights as nat)
      ensures staticMeshCommandRanges == LightRanges(visibleTo, meshInfos, numSpotLights as nat)
    {
      meshInstanceIndices := [];
      staticMeshCommands := [];
      var lightIndex: u32 := 0;
      while lightIndex < numSpotLights
        invariant lightIndex <= numSpotLights
        invariant meshInstanceIndices == AllIndices(visibleTo, meshInfos, lightIndex as nat)
        invariant staticMeshCommands == AllCommands(visibleTo, meshInfos, lightIndex as nat)
        invariant staticMeshCommandRanges == LightRanges(visibleTo, meshInfos, lightIndex as nat)
      {
        var firstCommand := |staticMeshCommands|;
        meshInstanceIndices, staticMeshCommands :=
          CreateRenderCommands(meshInstanceIndices, staticMeshCommands, LightVisible(visibleTo, lightIndex as nat), meshInfos);
        var commandRange := CommandRange(firstCommand, |staticMeshCommands| - firstCommand);
        staticMeshCommandRanges := staticMeshCommandRanges + [commandRange];
        lightIndex := lightIndex + 1;
      }
    }

    /** The static draws of all spot lights, with one range of draws per
        light; then the two buffers, sized to the lists, with the lists
        uploaded into them. */
    method InitStaticMeshCommands(numSpotLights: u32, visibleTo: (nat, u32) -> bool, meshInfos: seq<MeshInfo>)
      requires staticMeshCommandRanges == []
      requires staticMeshCommandBuffer == null && staticMeshInstanceIndexBuffer == null
      modifies this`staticMeshCommandRanges, this`staticMeshCommandBuffer, this`staticMeshInstanceIndexBuffer
      modifies this`staticMeshCommandBufferData, this`staticMeshInstanceIndexBufferData
      modifies this`staticMeshCommandBufferState, this`staticMeshInstanceIndexBufferState
      ensures staticMeshCommandRanges == LightRanges(visibleTo, meshInfos, numSpotLights as nat)
      ensures staticMeshCommandBufferData == AllCommands(visibleTo, meshInfos, numSpotLights as nat)
      ensures staticMeshInstanceIndexBufferData == AllIndices(visibleTo, meshInfos, numSpotLights as nat)
      ensures staticMeshCommandBuffer != null && fresh(staticMeshCommandBuffer)
      ensures staticMeshCommandBuffer.desc
        == StructuredBufferDesc(SizeAsU32(|staticMeshCommandBufferData|), ShadowMapCommandByteSize)
      ensures staticMeshCommandBuffer.initialState == CopyDest && staticMeshCommandBufferState == IndirectArgument
      ensures staticMeshInstanceIndexBuffer != null && fresh(staticMeshInstanceIndexBuffer)
      ensures staticMeshInstanceIndexBuffer.desc
        == FormattedBufferDesc(SizeAsU32(|staticMeshInstanceIndexBufferData|), R32Uint)
      ensures staticMeshInstanceIndexBuffer.initialState == CopyDest
      ensures staticMeshInstanceIndexBufferState == NonPixelShaderResource
    {
      var meshInstanceIndices, staticMeshCommands := BuildStaticMeshCommands(numSpotLights, visibleTo, meshInfos);

      var commandBuffer := new GraphicsResource("",
        StructuredBufferDesc(SizeAsU32(|staticMeshCommands|), ShadowMapCommandByteSize), CopyDest);
      staticMeshCommandBuffer := commandBuffer;
      staticMeshCommandBufferData := staticMeshCommands;
      staticMeshCommandBufferState := IndirectArgument;

      var instanceIndexBuffer := new GraphicsResource("",
        FormattedBufferDesc(SizeAsU32(|meshInstanceIndices|), R32Uint), CopyDest);
      staticMeshInstanceIndexBuffer := instanceIndexBuffer;
      staticMeshInstanceIndexBufferData := meshInstanceIndices;
      staticMeshInstanceIndexBufferState := NonPixelShaderResource;
    }
  }
}
