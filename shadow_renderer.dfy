// Shadow-caster command building. For one light frustum, every mesh of the
// batch is tested instance by instance; the visible instance indices are
// appended to one list and each mesh with at least one visible instance
// gets one indirect indexed draw that reads its run of that list. The
// frustum/box test is floating point: it is the caller's predicate
// `visible` on instance indices.
module ShadowRenderer {
  import opened Gpu

  /** Where a mesh's indices and instances live in the batch. */
  datatype MeshInfo = MeshInfo(
    indexCountPerInstance: u32,
    startIndexLocation: u32,
    baseVertexLocation: int,
    instanceOffset: u32,
    instanceCount: u32)

  /** The arguments of one indirect indexed draw. */
  datatype DrawIndexedArguments = DrawIndexedArguments(
    indexCountPerInstance: u32,
    instanceCount: u32,
    startIndexLocation: u32,
    baseVertexLocation: int,
    startInstanceLocation: u32)

  /** A draw plus where its instance indices start in the index list. */
  datatype ShadowMapCommand = ShadowMapCommand(instanceOffset: nat, args: DrawIndexedArguments)

  /** One past the mesh's last instance, computed in 32 bits as the source
      does; when the sum wraps the mesh is treated as having no instances. */
  function InstanceEnd(m: MeshInfo): u32
  {
    AddU32(m.instanceOffset, m.instanceCount)
  }

  /** The instances in [lo, hi) that pass the test, in ascending order. */
  function VisibleInRange(visible: u32 -> bool, lo: u32, hi: u32): (vs: seq<u32>)
    ensures |vs| <= if lo < hi then hi - lo else 0
    decreases hi
  {
    if hi <= lo then [] else VisibleInRange(visible, lo, hi - 1) + (if visible(hi - 1) then [hi - 1] else [])
  }

  /** `vs` lists exactly the instances of [lo, hi) that pass the test, each
      once and in ascending order. */
  ghost predicate ExactlyVisible(vs: seq<u32>, visible: u32 -> bool, lo: u32, hi: u32)
  {
    (forall k :: 0 <= k < |vs| ==> lo <= vs[k] < hi && visible(vs[k])) &&
    (forall j, k :: 0 <= j < k < |vs| ==> vs[j] < vs[k]) &&
    (forall i: u32 :: lo <= i < hi && visible(i) ==> i in vs)
  }

  lemma {:induction false} VisibleInRangeExact(visible: u32 -> bool, lo: u32, hi: u32)
    ensures ExactlyVisible(VisibleInRange(visible, lo, hi), visible, lo, hi)
    decreases hi
  {
    if lo < hi {
      VisibleInRangeExact(visible, lo, hi - 1);
      var vs0 := VisibleInRange(visible, lo, hi - 1);
      var vs := VisibleInRange(visible, lo, hi);
      assert forall k :: 0 <= k < |vs0| ==> vs[k] == vs0[k];
    }
  }

  /** The visible instances of one mesh. */
  function MeshVisible(m: MeshInfo, visible: u32 -> bool): seq<u32>
  {
    VisibleInRange(visible, m.instanceOffset, InstanceEnd(m))
  }

  /** The indices the builder appends for `meshes`: each mesh's visible
      instances, mesh after mesh. */
  function VisibleIndices(meshes: seq<MeshInfo>, visible: u32 -> bool): seq<u32>
    decreases |meshes|
  {
    if meshes == [] then []
    else VisibleIndices(meshes[..|meshes| - 1], visible) + MeshVisible(meshes[|meshes| - 1], visible)
  }

  /** The draw for mesh `m`: its index range and vertex base, `count`
      instances read from `offset` on, instance ids counted from zero. */
  function MeshCommand(m: MeshInfo, offset: nat, count: u32): (c: ShadowMapCommand)
  {
    ShadowMapCommand(offset, DrawIndexedArguments(m.indexCountPerInstance, count, m.startIndexLocation, m.baseVertexLocation, 0))
  }

  /** The draws the builder appends for `meshes` when the index list held
      `base` entries before: one per mesh with a visible instance. */
  function CommandsFor(meshes: seq<MeshInfo>, visible: u32 -> bool, base: nat): seq<ShadowMapCommand>
    decreases |meshes|
  {
    if meshes == [] then []
    else
      var init := meshes[..|meshes| - 1];
      var v := MeshVisible(meshes[|meshes| - 1], visible);
      CommandsFor(init, visible, base)
      + (if |v| > 0 then [MeshCommand(meshes[|meshes| - 1], base + |VisibleIndices(init, visible)|, |v|)] else [])
  }

  /** The positions of the meshes that get a draw, in order. */
  function CommandMeshes(meshes: seq<MeshInfo>, visible: u32 -> bool): seq<nat>
    decreases |meshes|
  {
    if meshes == [] then []
    else
      CommandMeshes(meshes[..|meshes| - 1], visible)
      + (if |MeshVisible(meshes[|meshes| - 1], visible)| > 0 then [|meshes| - 1] else [])
  }

  /** A mesh gets a draw exactly when it has a visible instance; the meshes
      are taken in order. Hence there are never more draws than meshes. */
  lemma {:induction false} CommandMeshesExact(meshes: seq<MeshInfo>, visible: u32 -> bool)
    ensures var cm := CommandMeshes(meshes, visible);
      |cm| <= |meshes| &&
      (forall j :: 0 <= j < |cm| ==> cm[j] < |meshes|) &&
      (forall i, j :: 0 <= i < j < |cm| ==> cm[i] < cm[j]) &&
      (forall k :: 0 <= k < |meshes| ==> (k in cm <==> |MeshVisible(meshes[k], visible)| > 0))
    decreases |meshes|
  {
    if meshes != [] {
      var init := meshes[..|meshes| - 1];
      CommandMeshesExact(init, visible);
      assert forall k :: 0 <= k < |init| ==> init[k] == meshes[k];
    }
  }

  /** Appending one more mesh extends the index list of the meshes before. */
  lemma {:induction false} VisibleIndicesPrefix(meshes: seq<MeshInfo>, visible: u32 -> bool, k: nat)
    requires k <= |meshes|
    ensures var all := VisibleIndices(meshes, visible);
      var pre := VisibleIndices(meshes[..k], visible);
      |pre| <= |all| && all[..|pre|] == pre
    decreases |meshes| - k
  {
    if k < |meshes| {
      VisibleIndicesPrefix(meshes, visible, k + 1);
      assert meshes[..k + 1][..k] == meshes[..k];
    } else {
      assert meshes[..k] == meshes;
    }
  }

  /** There is one draw per mesh that gets one. */
  lemma {:induction false} CommandsCount(meshes: seq<MeshInfo>, visible: u32 -> bool, base: nat)
    ensures |CommandsFor(meshes, visible, base)| == |CommandMeshes(meshes, visible)|
    decreases |meshes|
  {
    if meshes != [] {
      CommandsCount(meshes[..|meshes| - 1], visible, base);
    }
  }

  /** Draw j belongs to mesh CommandMeshes[j]: it copies that mesh's index
      range and vertex base, starts instance ids at zero, draws exactly the
      mesh's visible instances, and finds them in the index list at the
      offset where that mesh's run begins (see CommandReadsMeshRun). */
  lemma {:induction false} CommandFollowsMesh(meshes: seq<MeshInfo>, visible: u32 -> bool, base: nat, j: nat)
    requires j < |CommandsFor(meshes, visible, base)|
    ensures var cm := CommandMeshes(meshes, visible);
      j < |cm| && cm[j] < |meshes| &&
      CommandsFor(meshes, visible, base)[j]
        == MeshCommand(meshes[cm[j]], base + |VisibleIndices(meshes[..cm[j]], visible)|, |MeshVisible(meshes[cm[j]], visible)|)
    decreases |meshes|
  {
    var init := meshes[..|meshes| - 1];
    var cmds0 := CommandsFor(init, visible, base);
    CommandsCount(init, visible, base);
    CommandsCount(meshes, visible, base);
    if j < |cmds0| {
      CommandFollowsMesh(init, visible, base, j);
      var k := CommandMeshes(init, visible)[j];
      assert meshes[k] == init[k];
      assert meshes[..k] == init[..k];
    } else {
      assert meshes[..|meshes| - 1] == init;
    }
  }

  /** The draws of one mesh read the run of the index list that holds that
      mesh's visible instances. */
  lemma CommandReadsMeshRun(meshes: seq<MeshInfo>, visible: u32 -> bool, k: nat)
    requires k < |meshes|
    ensures var all := VisibleIndices(meshes, visible);
      var offset := |VisibleIndices(meshes[..k], visible)|;
      var run := MeshVisible(meshes[k], visible);
      offset + |run| <= |all| && all[offset..offset + |run|] == run
  {
    VisibleIndicesPrefix(meshes, visible, k + 1);
    assert meshes[..k + 1][..k] == meshes[..k];
  }

  /** The draws tile the index list from `base` to `end`: the last one ends
      at `end` and the ones before it tile the list up to where it starts. */
  ghost predicate Tiles(cmds: seq<ShadowMapCommand>, base: nat, end: nat)
    decreases |cmds|
  {
    if cmds == [] then end == base
    else
      var last := cmds[|cmds| - 1];
      last.instanceOffset + last.args.instanceCount == end && Tiles(cmds[..|cmds| - 1], base, last.instanceOffset)
  }

  /** Tiling draws are contiguous: the first starts at `base` and each next
      one starts where the previous one ends. */
  lemma {:induction false} TilesContiguous(cmds: seq<ShadowMapCommand>, base: nat, end: nat)
    requires Tiles(cmds, base, end)
    ensures cmds == [] ==> end == base
    ensures cmds != [] ==> cmds[0].instanceOffset == base
    ensures forall j :: 0 <= j < |cmds| - 1 ==> cmds[j].instanceOffset + cmds[j].args.instanceCount == cmds[j + 1].instanceOffset
    decreases |cmds|
  {
    if cmds != [] {
      var init := cmds[..|cmds| - 1];
      TilesContiguous(init, base, cmds[|cmds| - 1].instanceOffset);
      assert forall j :: 0 <= j < |init| ==> init[j] == cmds[j];
    }
  }

  /** The instances the draws draw, summed. */
  function InstanceSum(cmds: seq<ShadowMapCommand>): nat
    decreases |cmds|
  {
    if cmds == [] then 0 else InstanceSum(cmds[..|cmds| - 1]) + cmds[|cmds| - 1].args.instanceCount
  }

  /** Tiling draws account for every index between `base` and `end` once. */
  lemma {:induction false} TilesSum(cmds: seq<ShadowMapCommand>, base: nat, end: nat)
    requires Tiles(cmds, base, end)
    ensures base + InstanceSum(cmds) == end
    decreases |cmds|
  {
    if cmds != [] {
      TilesSum(cmds[..|cmds| - 1], base, cmds[|cmds| - 1].instanceOffset);
    }
  }

  /** The draws of `meshes` tile exactly the indices appended for them. */
  lemma {:induction false} CommandsTile(meshes: seq<MeshInfo>, visible: u32 -> bool, base: nat)
    ensures Tiles(CommandsFor(meshes, visible, base), base, base + |VisibleIndices(meshes, visible)|)
    decreases |meshes|
  {
    if meshes != [] {
      var init := meshes[..|meshes| - 1];
      CommandsTile(init, visible, base);
      var cmds0 := CommandsFor(init, visible, base);
      var v := MeshVisible(meshes[|meshes| - 1], visible);
      var vi := VisibleIndices(meshes, visible);
      assert vi == VisibleIndices(init, visible) + v;
      var cmds := CommandsFor(meshes, visible, base);
      if |v| > 0 {
        var c := MeshCommand(meshes[|meshes| - 1], base + |VisibleIndices(init, visible)|, |v|);
        assert cmds == cmds0 + [c];
        assert cmds[..|cmds| - 1] == cmds0;
        assert c.instanceOffset + c.args.instanceCount == base + |vi|;
      } else {
        assert cmds == cmds0;
      }
    }
  }

  /** Taking one more mesh appends its visible instances. */
  lemma IndicesStep(meshes: seq<MeshInfo>, visible: u32 -> bool, k: nat)
    requires k < |meshes|
    ensures VisibleIndices(meshes[..k + 1], visible) == VisibleIndices(meshes[..k], visible) + MeshVisible(meshes[k], visible)
  {
    assert meshes[..k + 1][..k] == meshes[..k];
  }

  /** Taking one more mesh appends its draw when it has a visible instance,
      and nothing otherwise. */
  lemma CommandsStep(meshes: seq<MeshInfo>, visible: u32 -> bool, base: nat, k: nat)
    requires k < |meshes|
    ensures |MeshVisible(meshes[k], visible)| == 0 ==>
      CommandsFor(meshes[..k + 1], visible, base) == CommandsFor(meshes[..k], visible, base)
    ensures |MeshVisible(meshes[k], visible)| > 0 ==>
      CommandsFor(meshes[..k + 1], visible, base)
        == CommandsFor(meshes[..k], visible, base)
           + [MeshCommand(meshes[k], base + |VisibleIndices(meshes[..k], visible)|, |MeshVisible(meshes[k], visible)|)]
  {
    assert meshes[..k + 1][..k] == meshes[..k];
  }

  /** One pass of the builder's mesh loop keeps the draw list equal to the
      specification over the meshes seen so far: `offset` is where the
      mesh's visible instances start in the index list. */
  lemma CommandsAppend(renderCommands: seq<ShadowMapCommand>, visible: u32 -> bool, meshInfos: seq<MeshInfo>,
                       k: nat, base: nat, commands0: seq<ShadowMapCommand>, commands: seq<ShadowMapCommand>,
                       numVisible: u32, offset: nat)
    requires k < |meshInfos|
    requires commands0 == renderCommands + CommandsFor(meshInfos[..k], visible, base)
    requires numVisible as nat == |MeshVisible(meshInfos[k], visible)|
    requires offset == base + |VisibleIndices(meshInfos[..k], visible)|
    requires numVisible == 0 ==> commands == commands0
    requires numVisible > 0 ==> commands == commands0 + [ShadowMapCommand(offset,
      DrawIndexedArguments(meshInfos[k].indexCountPerInstance, numVisible,
                           meshInfos[k].startIndexLocation, meshInfos[k].baseVertexLocation, 0))]
    ensures commands == renderCommands + CommandsFor(meshInfos[..k + 1], visible, base)
  {
    CommandsStep(meshInfos, visible, base, k);
    if numVisible > 0 {
      var cs := CommandsFor(meshInfos[..k], visible, base);
      var c := MeshCommand(meshInfos[k], offset, numVisible);
      assert commands == (renderCommands + cs) + [c];
      assert commands == renderCommands + (cs + [c]);
    }
  }

  /** The inner loop of the builder: tests the mesh's instances in order and
      appends the visible ones, counting them. */
  method AppendVisibleInstances(meshInstanceIndices: seq<u32>, visible: u32 -> bool, meshInfo: MeshInfo)
    returns (indices: seq<u32>, numVisibleMeshInstances: u32)
    ensures indices == meshInstanceIndices + MeshVisible(meshInfo, visible)
    ensures numVisibleMeshInstances as nat == |MeshVisible(meshInfo, visible)|
  {
    indices := meshInstanceIndices;
    numVisibleMeshInstances := 0;
    var meshLastInstanceIndex := AddU32(meshInfo.instanceOffset, meshInfo.instanceCount);
    var meshInstanceIndex := meshInfo.instanceOffset;
    while meshInstanceIndex < meshLastInstanceIndex
      invariant meshInfo.instanceOffset <= meshInstanceIndex
      invariant meshInstanceIndex <= meshLastInstanceIndex || meshInstanceIndex == meshInfo.instanceOffset
      invariant indices == meshInstanceIndices + VisibleInRange(visible, meshInfo.instanceOffset, meshInstanceIndex)
      invariant numVisibleMeshInstances as nat == |VisibleInRange(visible, meshInfo.instanceOffset, meshInstanceIndex)|
    {
      if visible(meshInstanceIndex) {
        numVisibleMeshInstances := numVisibleMeshInstances + 1;
        indices := indices + [meshInstanceIndex];
      }
      meshInstanceIndex := meshInstanceIndex + 1;
    }
  }

  /** Collects, mesh by mesh, the visible instances of each mesh and one
      draw per mesh that has any, appending to the two lists it is given. */
  method CreateRenderCommands(meshInstanceIndices: seq<u32>, renderCommands: seq<ShadowMapCommand>,
                              visible: u32 -> bool, meshInfos: seq<MeshInfo>)
    returns (indices: seq<u32>, commands: seq<ShadowMapCommand>)
    ensures indices == meshInstanceIndices + VisibleIndices(meshInfos, visible)
    ensures commands == renderCommands + CommandsFor(meshInfos, visible, |meshInstanceIndices|)
  {
    indices := meshInstanceIndices;
    commands := renderCommands;
    var meshIndex := 0;
    while meshIndex < |meshInfos|
      invariant meshIndex <= |meshInfos|
      invariant indices == meshInstanceIndices + VisibleIndices(meshInfos[..meshIndex], visible)
      invariant commands == renderCommands + CommandsFor(meshInfos[..meshIndex], visible, |meshInstanceIndices|)
    {
      var meshInfo := meshInfos[meshIndex];
      ghost var indices0, commands0 := indices, commands;
      var numVisibleMeshInstances;
      indices, numVisibleMeshInstances := AppendVisibleInstances(indices, visible, meshInfo);
      assert |indices| - numVisibleMeshInstances as nat == |indices0|;
      assert indices == meshInstanceIndices + VisibleIndices(meshInfos[..meshIndex + 1], visible) by {
        IndicesStep(meshInfos, visible, meshIndex);
      }
      if numVisibleMeshInstances > 0 {
        var shadowMapCommand := ShadowMapCommand(
          |indices| - numVisibleMeshInstances as nat,
          DrawIndexedArguments(meshInfo.indexCountPerInstance, numVisibleMeshInstances,
                               meshInfo.startIndexLocation, meshInfo.baseVertexLocation, 0));
        commands := commands + [shadowMapCommand];
      }
      CommandsAppend(renderCommands, visible, meshInfos, meshIndex, |meshInstanceIndices|,
                     commands0, commands, numVisibleMeshInstances, |indices0|);
      meshIndex := meshIndex + 1;
    }
    assert meshInfos[..|meshInfos|] == meshInfos;
  }

  /** Building the static shadow-caster resources is unfinished: it stops at
      a failing assertion before creating the first shadow-map array. */
  method InitResources() returns (outcome: Outcome)
    ensures outcome.NotImplemented?
  {
    outcome := NotImplemented("ShadowRenderer::InitResources");
  }

  /** One command list per spot light, built into lists that are then
      dropped: filling the command buffer is unfinished. `visibleTo(l, i)`
      is the test of instance i against light l's frustum. */
  method CreateSpotLightRenderStaticGeometryCommands(numSpotLights: nat, visibleTo: (nat, u32) -> bool,
                                                     meshInfos: seq<MeshInfo>)
    returns (outcome: Outcome)
    ensures outcome.NotImplemented?
  {
    var lightIndex := 0;
    while lightIndex < numSpotLights
    {
      var meshInstanceIndices, renderCommands := CreateRenderCommands([], [], (i: u32) => visibleTo(lightIndex, i), meshInfos);
      lightIndex := lightIndex + 1;
    }
    outcome := NotImplemented("ShadowRenderer::CreateSpotLightRenderStaticGeometryCommands");
  }

  /** The same for point lights, once per cube-map face; `visibleTo(l, f, i)`
      tests instance i against face f of light l. */
  method CreatePointLightRenderStaticGeometryCommands(numPointLights: nat, visibleTo: (nat, nat, u32) -> bool,
                                                      meshInfos: seq<MeshInfo>)
    returns (outcome: Outcome)
    ensures outcome.NotImplemented?
  {
    var lightIndex := 0;
    while lightIndex < numPointLights
    {
      var faceIndex := 0;
      while faceIndex < NumCubeMapFaces
      {
        var meshInstanceIndices, renderCommands :=
          CreateRenderCommands([], [], (i: u32) => visibleTo(lightIndex, faceIndex, i), meshInfos);
        faceIndex := faceIndex + 1;
      }
      lightIndex := lightIndex + 1;
    }
    outcome := NotImplemented("ShadowRenderer::CreatePointLightRenderStaticGeometryCommands");
  }

  /** Construction: the resources, then the spot-light and the point-light
      commands. It stops in InitResources, so it never completes. */
  method Create(numSpotLights: nat, spotVisibleTo: (nat, u32) -> bool, numPointLights: nat,
                pointVisibleTo: (nat, nat, u32) -> bool, meshInfos: seq<MeshInfo>)
    returns (outcome: Outcome)
    ensures outcome.NotImplemented?
  {
    outcome := InitResources();
    if outcome == Done {
      outcome := CreateSpotLightRenderStaticGeometryCommands(numSpotLights, spotVisibleTo, meshInfos);
    }
    if outcome == Done {
      outcome := CreatePointLightRenderStaticGeometryCommands(numPointLights, pointVisibleTo, meshInfos);
    }
  }
}
