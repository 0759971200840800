# RenderSDK core, modelled in Dafny

RenderSDK is a Direct3D 12 rendering library with sample applications. This
project models the part of it that runs on the CPU:

- the render passes that build GPU work:
  - tiled light culling;
  - the summed-area table of a tiled shadow map;
  - the depth fill with mesh types;
  - texture visualisation;
  - voxel-grid visualisation;
  - shadow-caster command building for spot and point lights;
- the GPU profiler;
- the camera;
- the integer helpers of the math header;
- the frame loops of two sample applications, "Hello Rectangle" and "Scene
  Voxelization".

The GPU itself is not modelled. A command list is the log of the commands
recorded into it. A resource's state is what the transition barriers in such
a log make of it (`Gpu.ApplyCommands`). A descriptor heap is a bump allocator
over a sequence of slots. A fence is the ordered history of the values the
queue signals and the CPU waits for.

Modules, one per source file:

| module | file | flavour |
|---|---|---|
| `Gpu` | the shared wrapper vocabulary (resource states with their Direct3D 12 bit values, barriers, descriptor heaps, command lists, u32 arithmetic, decimal shader macros) | mixed |
| `MathUtil` | `Include/Math/Math.h` | pure |
| `Cameras` | `Source/Scene/Camera.cpp` | class |
| `Fences` | the fence used by both samples | class |
| `Profiling` | `Source/D3DWrapper/Profiler.cpp` | class |
| `TiledLightCulling` | `Source/RenderPasses/TiledLightCullingPass.cpp` | class |
| `CreateTiledShadowMapSAT` | `Source/RenderPasses/CreateTiledShadowMapSATPass.cpp` | class |
| `FillDepthBufferWithMeshType` | `Source/RenderPasses/FillDepthBufferWithMeshTypePass.cpp` | class |
| `VisualizeTexture` | `Source/RenderPasses/VisualizeTexturePass.cpp` | class |
| `VisualizeVoxelGrid` | `Source/CommandRecorders/VisualizeVoxelGridRecorder.cpp` | class |
| `ShadowRenderer` | `Source/RenderPasses/ShadowRenderer.cpp` | imperative loops |
| `SpotLightShadows` | `Source/RenderPasses/SpotLightShadowRenderer.cpp` | class with loops |
| `HelloRectangle` | `Samples/HelloRectangle/Source/DXApplication.cpp` | class |
| `SceneVoxelization` | `Samples/SceneVoxelization/Source/DXApplication.cpp` | class |

Several routines in the source end in `assert(false)`: they are stubs. The
model reproduces them as methods that return `NotImplemented`. A method that
reaches such a stub after doing real work models that work first.

## Model

| member | source | states |
|---|---|---|
| MathUtil.Max | Include/Math/Math.h:22-26 | the result is one of the arguments and no smaller than either |
| MathUtil.Min | Include/Math/Math.h:28-32 | the result is one of the arguments and no larger than either |
| MathUtil.Abs | Include/Math/Math.h:46-50 | the result is non-negative and is the value or its negation |
| MathUtil.Sqr | Include/Math/Math.h:40-44 | the square is non-negative and equals the square of the absolute value |
| MathUtil.Clamp | Include/Math/Math.h:52-56 | with ordered bounds the result is in range; an in-range value is unchanged; values below clamp to the lower bound and values above to the upper; with crossed bounds the lower bound wins, as `Max(Min(..), lower)` does |
| MathUtil.ClampIdempotent | Include/Math/Math.h:52-56 | clamping twice equals clamping once |
| MathUtil.ClampMonotone | Include/Math/Math.h:52-56 | clamping preserves order |
| MathUtil.InRangeIffClampFixed | Include/Math/Math.h:16-20 | with ordered bounds, a value is in the closed range exactly when clamping leaves it unchanged |
| MathUtil.IsEqualSymmetric | Include/Math/Math.h:58-62 | approximate equality is symmetric and implies a positive epsilon |
| MathUtil.IsEqualReflexive | Include/Math/Math.h:58-62 | a value is approximately equal to itself exactly when epsilon is positive |
| MathUtil.IsEqualWithin | Include/Math/Math.h:58-62 | two values are approximately equal exactly when one lies strictly within epsilon of the other |
| Cameras.ProjectionDeterminesParameters | Source/Scene/Camera.cpp:129-136 | two projections are equal exactly when their type, clip planes and the parameters that type uses agree |
| Cameras.Camera.constructor | Source/Scene/Camera.cpp:5-18 | the camera starts with the given parameters, a field of view of pi/4, a height of 10, a blue background and a stale projection |
| Cameras.Camera.SetAspectRatio | Source/Scene/Camera.cpp:25-29 | only the aspect ratio changes, and the projection becomes stale |
| Cameras.Camera.GetFovY | Source/Scene/Camera.cpp:31-35 | a perspective camera returns its field of view |
| Cameras.Camera.SetFovY | Source/Scene/Camera.cpp:37-42 | a perspective camera changes only its field of view and marks the projection stale |
| Cameras.Camera.GetSizeY | Source/Scene/Camera.cpp:44-48 | an orthographic camera returns its height |
| Cameras.Camera.SetSizeY | Source/Scene/Camera.cpp:50-55 | an orthographic camera changes only its height and marks the projection stale |
| Cameras.Camera.SetMaxMoveSpeed | Source/Scene/Camera.cpp:62-65 | sets the speed and leaves the projection state alone |
| Cameras.Camera.SetMaxRotationSpeed | Source/Scene/Camera.cpp:72-75 | sets the speed and leaves the projection state alone |
| Cameras.Camera.SetProjType | Source/Scene/Camera.cpp:82-86 | only the projection type changes, and the projection becomes stale |
| Cameras.Camera.SetBackgroundColor | Source/Scene/Camera.cpp:93-96 | sets the colour and leaves the projection state alone |
| Cameras.Camera.SetNearClipPlane | Source/Scene/Camera.cpp:103-107 | only the near plane changes, and the projection becomes stale |
| Cameras.Camera.SetFarClipPlane | Source/Scene/Camera.cpp:114-118 | only the far plane changes, and the projection becomes stale |
| Cameras.Camera.GetProjMatrix | Source/Scene/Camera.cpp:125-144 | the returned matrix is the projection of the current parameters and is cached; the flag is cleared and other flags are kept; a fresh cache is returned unchanged |
| Fences.LastSignalledCountsSignals | Samples/HelloRectangle/Source/DXApplication.cpp:222-245 | in a well-ordered history the last signalled value is the initial value plus the number of signals |
| Fences.WellOrderedPrefix | Samples/HelloRectangle/Source/DXApplication.cpp:222-245 | every prefix of a well-ordered history is well ordered |
| Fences.LastSignalledMonotone | Samples/HelloRectangle/Source/DXApplication.cpp:222-245 | the fence value never decreases along the history |
| Fences.SignalsIncrease | Samples/HelloRectangle/Source/DXApplication.cpp:222-245 | signalled values strictly increase |
| Fences.WaitsReached | Samples/HelloRectangle/Source/DXApplication.cpp:226-227 | every CPU wait is for a value already signalled, so no wait blocks forever |
| Fences.Fence.constructor | Samples/HelloRectangle/Source/DXApplication.cpp:154 | a new fence holds its initial value and has no history |
| Fences.Fence.Signal | Samples/HelloRectangle/Source/DXApplication.cpp:224 | appends a signal, and the fence's value becomes the signalled value |
| Fences.Fence.Wait | Samples/HelloRectangle/Source/DXApplication.cpp:226-227 | appends a wait and leaves the fence's value unchanged |
| Gpu.MulU32 | Source/RenderPasses/TiledLightCullingPass.cpp:83 | 32-bit multiplication wraps modulo 2^32 and is exact when the product fits |
| Gpu.AddU32 | Source/D3DWrapper/Profiler.cpp:96 | 32-bit addition wraps modulo 2^32 and is exact when the sum fits |
| Gpu.BarrierIfRequired | Source/RenderPasses/TiledLightCullingPass.cpp:288-292 | a barrier is recorded exactly when the current state differs from the required one |
| Gpu.Barriers | Source/RenderPasses/TiledLightCullingPass.cpp:133-182 | one barrier per transition whose state changes |
| Gpu.BarriersExact | Source/RenderPasses/TiledLightCullingPass.cpp:288-292 | the barrier list holds no no-op barrier, every barrier comes from a requested transition, and every transition that changes state has its barrier |
| Gpu.BarriersEmptyIff | Source/RenderPasses/TiledLightCullingPass.cpp:61-62 | the barrier list is empty exactly when every resource is already in its required state |
| Gpu.BarriersConcat | Source/RenderPasses/TiledLightCullingPass.cpp:133-182 | barrier lists built in pieces concatenate |
| Gpu.BarriersLeaveOthers | Source/RenderPasses/TiledLightCullingPass.cpp:288-292 | the barriers do not change the state of any resource they do not name |
| Gpu.BarriersReachRequired | Source/RenderPasses/TiledLightCullingPass.cpp:288-292 | over distinct resources, the barriers move each resource from its current state to its required state |
| Gpu.ApplyBarriersConcat | Include/D3DWrapper/CommandList.h:67 | applying two barrier lists in a row equals applying their concatenation |
| Gpu.ApplyCommandsConcat | Include/D3DWrapper/CommandList.h:20-67 | the state after two logs in a row is the state after their concatenation |
| Gpu.ApplyCommandsNoBarriers | Include/D3DWrapper/CommandList.h:20-67 | a log without barriers changes no resource's state |
| Gpu.ApplyCommandsAroundBatch | Source/RenderPasses/TiledLightCullingPass.cpp:58-77 | a log whose only barrier command is one batch changes states exactly as the batch does |
| Gpu.BatchIsOnlyBarrier | Source/RenderPasses/TiledLightCullingPass.cpp:61-62 | the batch is the log's only barrier command, and it is absent when the list is empty |
| Gpu.BatchReachesRequired | Source/RenderPasses/TiledLightCullingPass.cpp:58-77 | a log holding the batch of a transition list moves every resource to its required state |
| Gpu.Kinds | Source/RenderPasses/TiledLightCullingPass.cpp:240-253 | the range kind of each view, position by position |
| Gpu.SlotKindsConcat | Source/RenderPasses/TiledLightCullingPass.cpp:240-253 | the slots of a range list concatenate |
| Gpu.AsSlots | Source/RenderPasses/TiledLightCullingPass.cpp:184-186 | copying views fills one slot per view, in order |
| Gpu.DescriptorHeap.constructor | Samples/SceneVoxelization/Source/DXApplication.cpp:235-236 | a new heap has the given capacity and no slots in use |
| Gpu.DescriptorHeap.Allocate | Source/RenderPasses/TiledLightCullingPass.cpp:184 | hands out the next free slot and keeps the heap within capacity |
| Gpu.DescriptorHeap.AllocateRange | Samples/SceneVoxelization/Source/DXApplication.cpp:259 | hands out the next `n` slots as one range, empty |
| Gpu.DescriptorHeap.CopyDescriptor | Source/RenderPasses/TiledLightCullingPass.cpp:185-186 | writes the view into the given slot and changes no other slot |
| Gpu.CopyToNewSlot | Source/RenderPasses/TiledLightCullingPass.cpp:190-191 | allocates a slot and writes the view into it |
| Gpu.CommandList.Emit | Include/D3DWrapper/CommandList.h:28-67 | recording a command appends it to the log |
| Gpu.CommandList.constructor | Source/RenderPasses/TiledLightCullingPass.cpp:53-58 | a new command list has an empty log |
| Gpu.IssueBarrierBatch | Source/RenderPasses/TiledLightCullingPass.cpp:61-62 | records one barrier command when the list is non-empty and nothing otherwise |
| Gpu.NatToDecimal | Source/RenderPasses/TiledLightCullingPass.cpp:266-269 | the decimal text has only digits and no leading zero |
| Gpu.DecimalRoundTrip | Source/RenderPasses/TiledLightCullingPass.cpp:266-276 | reading back the decimal text of a number gives the number |
| Gpu.NumberMacro | Source/RenderPasses/TiledLightCullingPass.cpp:271-278 | a macro names its define and defines exactly the given number |
| Profiling.EmptyProfile | Include/Profiler/GPUProfiler.h:26-34 | a new profile has 64 zero samples and starts at sample 0 |
| Profiling.AddSample | Source/D3DWrapper/Profiler.cpp:53-54 | the sample is stored at the current index, every other sample is kept, and the index wraps after 64 |
| Profiling.IndexOf | Source/D3DWrapper/Profiler.cpp:66-71 | the search returns the first slot holding the name, or the count of used slots when the name is absent |
| Profiling.IndexOfDistinct | Source/D3DWrapper/Profiler.cpp:66-71 | with distinct names, the search finds the slot of each name |
| Profiling.Names | Source/D3DWrapper/Profiler.cpp:66-71 | the names of the first `n` profiles, in order |
| Profiling.ResolveWithinBuffer | Source/D3DWrapper/Profiler.cpp:92-97 | a profile's two timestamps resolve into its frame's block of the read-back buffer, inside the buffer |
| Profiling.AsWrittenReadsFrameZero | Source/D3DWrapper/Profiler.cpp:38-50 | the code as written reads frame 0's block, which is not where a later frame resolved its timestamps |
| Profiling.ReadIndexMatchesResolve | Source/D3DWrapper/Profiler.cpp:38-50 | the corrected read index addresses the bytes EndProfile resolved into, within the buffer |
| Profiling.SampledProfile | Source/D3DWrapper/Profiler.cpp:49-54 | adding a sample keeps the profile well formed and keeps its name |
| Profiling.SampledProfiles | Source/D3DWrapper/Profiler.cpp:42-55 | the end-of-frame update keeps the table's size |
| Profiling.EndFrameStoresResolvedTimestamps | Source/D3DWrapper/Profiler.cpp:42-55 | each used profile gets the start and end timestamps of its own frame's block as its new sample; unused profiles are untouched |
| Profiling.Profiler.constructor | Source/D3DWrapper/Profiler.cpp:9-21 | two queries per profile, a read-back buffer of queries times latency timestamps in COPY_DEST, and a table of empty profiles |
| Profiling.Profiler.StartFrame | Source/D3DWrapper/Profiler.cpp:29-32 | records the frame index |
| Profiling.Profiler.StartProfile | Source/D3DWrapper/Profiler.cpp:61-85 | a known name reuses its slot; a new name claims the next free slot; the start timestamp query is recorded; the table invariant is kept |
| Profiling.Profiler.EndProfile | Source/D3DWrapper/Profiler.cpp:87-98 | records the end query and the resolve of both timestamps into the frame's block |
| Profiling.Profiler.EndFrame | Source/D3DWrapper/Profiler.cpp:34-59 | every used profile gets one new sample read from the current frame's block (corrected read) |
| TiledLightCulling.InitTransitions | Source/RenderPasses/TiledLightCullingPass.cpp:133-182 | one transition for the depth texture plus five per configured light kind, the depth texture first |
| TiledLightCulling.InitBarriersBound | Source/RenderPasses/TiledLightCullingPass.cpp:133-182 | at most that many barriers, none of them a no-op; none at all exactly when every input is already in its output state |
| TiledLightCulling.TableViews | Source/RenderPasses/TiledLightCullingPass.cpp:184-230 | the table holds 1 + 6 views per configured light kind, the depth SRV first |
| TiledLightCulling.TableMatchesRootSignature | Source/RenderPasses/TiledLightCullingPass.cpp:240-253 | the kinds of the copied views match the root signature's descriptor ranges slot by slot |
| TiledLightCulling.LightKindsMatch | Source/RenderPasses/TiledLightCullingPass.cpp:240-253 | a light kind contributes three SRVs then three UAVs exactly when it is configured, as its ranges expect |
| TiledLightCulling.TableSlots | Source/RenderPasses/TiledLightCullingPass.cpp:184-230 | copying the depth SRV and then each light kind's views fills the slots of the table views, in order |
| TiledLightCulling.PipelineDefinesValues | Source/RenderPasses/TiledLightCullingPass.cpp:266-278 | the four shader macros carry the tile size, tile count and light maxima as decimal text |
| TiledLightCulling.CreateOptLightBuffers | Source/RenderPasses/TiledLightCullingPass.cpp:97-131 | the three buffers of a light kind exist exactly when its maximum is positive, with the sizes the code gives them |
| TiledLightCulling.CreateLightBuffers | Source/RenderPasses/TiledLightCullingPass.cpp:97-113 | three new buffers: the one-element offset buffer in UNORDERED_ACCESS, the per-tile index buffer sized tiles times maximum lights (32-bit product), and the per-tile range buffer |
| TiledLightCulling.CopyOptLightViews | Source/RenderPasses/TiledLightCullingPass.cpp:188-230 | copies the six views of a configured light kind and returns where its offset UAV lives |
| TiledLightCulling.CopyLightViews | Source/RenderPasses/TiledLightCullingPass.cpp:188-209 | the heap grows by the six views of the light kind, and the offset UAV is the fourth of them |
| TiledLightCulling.TiledLightCullingPass.constructor | Source/RenderPasses/TiledLightCullingPass.cpp:24-39 | thread groups equal the tile counts; resources, barriers, table, ranges and macros are initialised |
| TiledLightCulling.TiledLightCullingPass.InitResources | Source/RenderPasses/TiledLightCullingPass.cpp:80-231 | output states, owned buffers, the barrier list and the descriptor table are set as the code sets them |
| TiledLightCulling.TiledLightCullingPass.CreateInitialBarriers | Source/RenderPasses/TiledLightCullingPass.cpp:133-182 | the barrier list is the barriers of the initial transitions |
| TiledLightCulling.TiledLightCullingPass.CreateOptLightBarriers | Source/RenderPasses/TiledLightCullingPass.cpp:138-182 | adds the barriers of a light kind's transitions when it is configured, and none otherwise |
| TiledLightCulling.TiledLightCullingPass.CreateLightBarriers | Source/RenderPasses/TiledLightCullingPass.cpp:138-160 | adds the barriers of the five transitions of a light kind |
| TiledLightCulling.TiledLightCullingPass.CreateResourceBarrierIfRequired | Source/RenderPasses/TiledLightCullingPass.cpp:288-292 | appends a barrier only when the states differ |
| TiledLightCulling.TiledLightCullingPass.AllocateDescriptorTable | Source/RenderPasses/TiledLightCullingPass.cpp:184-230 | the heap grows by exactly the table views, and the two offset UAV handles point at their slots |
| TiledLightCulling.TiledLightCullingPass.RecordedCommands | Source/RenderPasses/TiledLightCullingPass.cpp:53-78 | the frame's log has 7 commands, plus the barrier batch and one clear per light kind; it begins with Begin and the root signature and ends with Dispatch and End |
| TiledLightCulling.TiledLightCullingPass.Record | Source/RenderPasses/TiledLightCullingPass.cpp:53-78 | appends exactly that frame's commands to the list |
| TiledLightCulling.OffsetClear | Source/RenderPasses/TiledLightCullingPass.cpp:70-74 | one clear when the light kind is configured, none otherwise |
| TiledLightCulling.ClearOffsetBufferIfCreated | Source/RenderPasses/TiledLightCullingPass.cpp:70-74 | records the clear of the offset buffer exactly when it exists |
| TiledLightCulling.RecordSplit | Source/RenderPasses/TiledLightCullingPass.cpp:58-77 | the log is the header, the barrier batch and a barrier-free tail |
| TiledLightCulling.RecordBarrierBatch | Source/RenderPasses/TiledLightCullingPass.cpp:61-62 | the only barrier command is the batch at position 2, present exactly when the list is non-empty |
| TiledLightCulling.RecordLeavesOutputStates | Source/RenderPasses/TiledLightCullingPass.cpp:85-95 | replaying the frame moves every consumed resource to the state the pass declares as its output |
| CreateTiledShadowMapSAT.MaxNumTiles | Source/RenderPasses/CreateTiledShadowMapSATPass.cpp:104 | six tiles per point light (32-bit product), one per spot light |
| CreateTiledShadowMapSAT.BarrierListsShape | Source/RenderPasses/CreateTiledShadowMapSATPass.cpp:132-162 | the upload list has one barrier; the row list has 2 or 3 and the column list 1 or 2, depending on the input states; none is a no-op; first and last barriers are as written |
| CreateTiledShadowMapSAT.ApplyIfRequired | Source/RenderPasses/CreateTiledShadowMapSATPass.cpp:134-162 | a conditional barrier moves its resource to the required state when the states differ, and changes nothing else |
| CreateTiledShadowMapSAT.BarrierListsReachStates | Source/RenderPasses/CreateTiledShadowMapSATPass.cpp:132-162 | each list moves its resources to the states the next step needs; the row then column lists return the row SAT to NON_PIXEL_SHADER_RESOURCE |
| CreateTiledShadowMapSAT.TablesMatchRootSignature | Source/RenderPasses/CreateTiledShadowMapSATPass.cpp:164-195 | both tables hold an SRV then a UAV, as the root signature's ranges expect |
| CreateTiledShadowMapSAT.PowerOf2Cases | Source/RenderPasses/CreateTiledShadowMapSATPass.cpp:206-210 | a power of two up to 1024 is one of the eleven powers |
| CreateTiledShadowMapSAT.SupportedTileSizeCases | Source/RenderPasses/CreateTiledShadowMapSATPass.cpp:206-210 | the accepted tile sizes are exactly 64, 128, 256, 512 and 1024 |
| CreateTiledShadowMapSAT.PermutationShape | Source/RenderPasses/CreateTiledShadowMapSATPass.cpp:214-220 | each permutation uses all 1024 threads per group, half a tile across, and its groups cover the tile |
| CreateTiledShadowMapSAT.PermutationDefines | Source/RenderPasses/CreateTiledShadowMapSATPass.cpp:222-230 | the two macros carry the thread counts as decimal text |
| CreateTiledShadowMapSAT.TileSizes | Source/RenderPasses/CreateTiledShadowMapSATPass.cpp:238 | the tile size of each permutation, in order |
| CreateTiledShadowMapSAT.PermutationsFollowRange | Source/RenderPasses/CreateTiledShadowMapSATPass.cpp:214-239 | the permutations follow the tile-size range of the loop |
| CreateTiledShadowMapSAT.TileSizeRangeDescends | Source/RenderPasses/CreateTiledShadowMapSATPass.cpp:205-214 | the loop starts at the maximum, halves each step, stays within the supported sizes and at or above the minimum, and, when the minimum is a power of two no larger than the maximum, ends exactly at the minimum |
| CreateTiledShadowMapSAT.FullTileSizeRange | Source/RenderPasses/CreateTiledShadowMapSATPass.cpp:214 | from 1024 down to 64 the loop visits 1024, 512, 256, 128, 64 |
| CreateTiledShadowMapSAT.CommandSignatureLayout | Source/RenderPasses/CreateTiledShadowMapSATPass.cpp:14-17 | with the record holding the tile origin and then the dispatch arguments, each field has the size of its argument (two root constants for root parameter 0, then a 12-byte dispatch) and the 20-byte stride is exactly the arguments' size |
| CreateTiledShadowMapSAT.AsWrittenCommandLayout | Source/RenderPasses/CreateTiledShadowMapSATPass.cpp:14-17 | with the record as declared, whose second field is a 16-byte argument descriptor, the stride is 24 bytes while the arguments take 20, and that field is not the size of the dispatch arguments |
| CreateTiledShadowMapSAT.ArgumentsLayout | Source/RenderPasses/CreateTiledShadowMapSATPass.cpp:249-253 | two root constants and a dispatch take 20 bytes |
| CreateTiledShadowMapSAT.CreateTiledShadowMapSATPass.constructor | Source/RenderPasses/CreateTiledShadowMapSATPass.cpp:27-34 | resources, barriers and tables are initialised; the permutations and the command signature are as above |
| CreateTiledShadowMapSAT.CreateTiledShadowMapSATPass.InitResources | Source/RenderPasses/CreateTiledShadowMapSATPass.cpp:92-181 | the four owned resources, three barrier lists and two tables are set as the code sets them |
| CreateTiledShadowMapSAT.CreateTiledShadowMapSATPass.CreateResources | Source/RenderPasses/CreateTiledShadowMapSATPass.cpp:96-130 | output states and the four resources, with their sizes and initial states |
| CreateTiledShadowMapSAT.CreateTiledShadowMapSATPass.CreateBarrierLists | Source/RenderPasses/CreateTiledShadowMapSATPass.cpp:132-162 | the three barrier lists are the upload, row and column lists |
| CreateTiledShadowMapSAT.CreateTiledShadowMapSATPass.AllocateTables | Source/RenderPasses/CreateTiledShadowMapSATPass.cpp:164-180 | four slots: the row table at the first, the column table two later |
| CreateTiledShadowMapSAT.CreateTiledShadowMapSATPass.InitPipelineStates | Source/RenderPasses/CreateTiledShadowMapSATPass.cpp:201-240 | one permutation per tile size in the range |
| CreateTiledShadowMapSAT.CreateTiledShadowMapSATPass.Record | Source/RenderPasses/CreateTiledShadowMapSATPass.cpp:53-56 | recording stops at the stub |
| FillDepthBufferWithMeshType.InitTransitions | Source/RenderPasses/FillDepthBufferWithMeshTypePass.cpp:81-92 | three transitions, for the material IDs, the mesh-type buffer and the depth texture |
| FillDepthBufferWithMeshType.InitBarriersBound | Source/RenderPasses/FillDepthBufferWithMeshTypePass.cpp:81-92 | at most three barriers, none a no-op; none exactly when the inputs are already PIXEL_SHADER_RESOURCE, PIXEL_SHADER_RESOURCE and DEPTH_WRITE |
| FillDepthBufferWithMeshType.TableViews | Source/RenderPasses/FillDepthBufferWithMeshTypePass.cpp:94-99 | the table holds two views |
| FillDepthBufferWithMeshType.TableMatchesRootSignature | Source/RenderPasses/FillDepthBufferWithMeshTypePass.cpp:111 | the two views match the root signature's two-SRV range |
| FillDepthBufferWithMeshType.FillDepthBufferWithMeshTypePass.constructor | Source/RenderPasses/FillDepthBufferWithMeshTypePass.cpp:19-27 | the resources are initialised and the depth-stencil handle is the new depth texture's |
| FillDepthBufferWithMeshType.FillDepthBufferWithMeshTypePass.InitResources | Source/RenderPasses/FillDepthBufferWithMeshTypePass.cpp:66-102 | output states, the depth texture, barriers, table and depth-stencil handle are set as the code sets them |
| FillDepthBufferWithMeshType.FillDepthBufferWithMeshTypePass.AllocateDescriptorTable | Source/RenderPasses/FillDepthBufferWithMeshTypePass.cpp:94-99 | two slots holding the table views, starting at the returned handle |
| FillDepthBufferWithMeshType.FillDepthBufferWithMeshTypePass.CreateInitialBarriers | Source/RenderPasses/FillDepthBufferWithMeshTypePass.cpp:81-92 | the barrier list is the barriers of the three transitions |
| FillDepthBufferWithMeshType.FillDepthBufferWithMeshTypePass.CreateResourceBarrierIfRequired | Source/RenderPasses/FillDepthBufferWithMeshTypePass.cpp:139-143 | appends a barrier only when the states differ |
| FillDepthBufferWithMeshType.FillDepthBufferWithMeshTypePass.Record | Source/RenderPasses/FillDepthBufferWithMeshTypePass.cpp:36-64 | appends exactly the frame's commands |
| FillDepthBufferWithMeshType.AfterBarriers | Source/RenderPasses/FillDepthBufferWithMeshTypePass.cpp:47-63 | the commands after the batch hold no barrier |
| FillDepthBufferWithMeshType.RecordSplit | Source/RenderPasses/FillDepthBufferWithMeshTypePass.cpp:41-63 | the log is the header, the barrier batch and a barrier-free tail |
| FillDepthBufferWithMeshType.RecordBarrierBatch | Source/RenderPasses/FillDepthBufferWithMeshTypePass.cpp:44-45 | the only barrier command is the batch at position 2, present exactly when the list is non-empty |
| FillDepthBufferWithMeshType.RecordDrawsFullScreenTriangle | Source/RenderPasses/FillDepthBufferWithMeshTypePass.cpp:41-63 | 13 commands plus the batch: the mesh-type count as a root constant, the depth target only, the scissor from the viewport, one three-vertex draw, then End |
| FillDepthBufferWithMeshType.RecordLeavesOutputStates | Source/RenderPasses/FillDepthBufferWithMeshTypePass.cpp:70-72 | replaying the frame moves each of the three resources to its output state |
| VisualizeTexture.TextureTypeValue | Include/RenderPasses/VisualizeTexturePass.h:14-20 | each texture type has a numeric value between 1 and 4 |
| VisualizeTexture.TextureTypeOf | Include/RenderPasses/VisualizeTexturePass.h:14-20 | decoding a value succeeds exactly for 1 to 4 |
| VisualizeTexture.TextureTypeMacro | Source/RenderPasses/VisualizeTexturePass.cpp:117-122 | the macro is TEXTURE_TYPE defined as the type's value |
| VisualizeTexture.TextureTypeMacroRoundTrip | Source/RenderPasses/VisualizeTexturePass.cpp:117-122 | the shader reading the macro back recovers the texture type |
| VisualizeTexture.TextureTypeMacroInjective | Source/RenderPasses/VisualizeTexturePass.cpp:117-122 | distinct texture types give distinct macros |
| VisualizeTexture.InitTransitions | Source/RenderPasses/VisualizeTexturePass.cpp:80-87 | two transitions, for the input texture and the back buffer |
| VisualizeTexture.InitBarriersBound | Source/RenderPasses/VisualizeTexturePass.cpp:80-87 | at most two barriers, none a no-op; none exactly when the inputs are already PIXEL_SHADER_RESOURCE and RENDER_TARGET |
| VisualizeTexture.TableMatchesRootSignature | Source/RenderPasses/VisualizeTexturePass.cpp:89-91 | the one copied SRV matches the root signature's range |
| VisualizeTexture.VisualizeTexturePass.constructor | Source/RenderPasses/VisualizeTexturePass.cpp:20-26 | resources initialised; the macro is the texture type's |
| VisualizeTexture.VisualizeTexturePass.InitResources | Source/RenderPasses/VisualizeTexturePass.cpp:73-94 | output states, barriers, the SRV slot and the render-target handle are set as the code sets them |
| VisualizeTexture.VisualizeTexturePass.RecordDraw | Source/RenderPasses/VisualizeTexturePass.cpp:50-65 | appends the ten draw commands |
| VisualizeTexture.VisualizeTexturePass.AddResourceBarrierIfRequired | Source/RenderPasses/VisualizeTexturePass.cpp:137-141 | appends a barrier only when the states differ |
| VisualizeTexture.VisualizeTexturePass.Record | Source/RenderPasses/VisualizeTexturePass.cpp:34-71 | appends the frame's commands, bracketed by the profiler's start and end queries when profiling is on, with the profiler unchanged when it is off |
| VisualizeTexture.DrawCommands | Source/RenderPasses/VisualizeTexturePass.cpp:50-65 | ten commands, none a barrier |
| VisualizeTexture.DrawOntoAppends | Source/RenderPasses/VisualizeTexturePass.cpp:50-65 | recording the draw appends the draw commands |
| VisualizeTexture.RecordSplit | Source/RenderPasses/VisualizeTexturePass.cpp:40-70 | the log is Begin, the profile start, the root signature, the barrier batch and a tail |
| VisualizeTexture.ProfileCommandsNoBarriers | Source/D3DWrapper/Profiler.cpp:81-97 | the profiler's commands hold no barrier |
| VisualizeTexture.RecordLayout | Source/RenderPasses/VisualizeTexturePass.cpp:40-70 | where the profile start, the draw, the profile end and End sit in the log |
| VisualizeTexture.RecordIssuesDraw | Source/RenderPasses/VisualizeTexturePass.cpp:50-65 | the heap, the constant buffer, the back buffer as sole target, the scissor from the viewport and one three-vertex draw, in order |
| VisualizeTexture.RecordBracketsProfile | Source/RenderPasses/VisualizeTexturePass.cpp:40-70 | with profiling on, the start query comes right after Begin and the end query just before the resolve and End |
| VisualizeTexture.RecordLeavesOutputStates | Source/RenderPasses/VisualizeTexturePass.cpp:77-78 | replaying the frame moves the texture and the back buffer to their output states, with or without profiling |
| VisualizeVoxelGrid.TableLayout | Source/CommandRecorders/VisualizeVoxelGridRecorder.cpp:25-27 | the table is two CBVs then two SRVs |
| VisualizeVoxelGrid.VisualizeVoxelGridRecorder.constructor | Source/CommandRecorders/VisualizeVoxelGridRecorder.cpp:16-40 | the table ranges and the render-target format are those given |
| VisualizeVoxelGrid.VisualizeVoxelGridRecorder.Record | Source/CommandRecorders/VisualizeVoxelGridRecorder.cpp:48-75 | appends exactly the frame's commands |
| VisualizeVoxelGrid.FrameCommands | Source/CommandRecorders/VisualizeVoxelGridRecorder.cpp:54-74 | thirteen commands, none a barrier |
| VisualizeVoxelGrid.RecordAppendsFrame | Source/CommandRecorders/VisualizeVoxelGridRecorder.cpp:54-74 | recording onto any log appends the same thirteen commands |
| VisualizeVoxelGrid.RecordIssuesDraw | Source/CommandRecorders/VisualizeVoxelGridRecorder.cpp:54-74 | Reset with the pipeline first and Close last, then the required states, the table, the sole render target, no vertex or index buffer, the viewport, the scissor and one three-vertex draw |
| VisualizeVoxelGrid.RecordDrawsOnce | Source/CommandRecorders/VisualizeVoxelGridRecorder.cpp:54-74 | exactly one draw, and no Reset or Close in between |
| VisualizeVoxelGrid.RecordKeepsStates | Source/CommandRecorders/VisualizeVoxelGridRecorder.cpp:57 | the recorder issues no barrier of its own: every state is left as it is |
| ShadowRenderer.VisibleInRange | Source/RenderPasses/ShadowRenderer.cpp:33-41 | no more indices than the range holds |
| ShadowRenderer.VisibleInRangeExact | Source/RenderPasses/ShadowRenderer.cpp:33-41 | the visible indices of a mesh are exactly those in its instance range that pass the test, ascending |
| ShadowRenderer.CommandMeshesExact | Source/RenderPasses/ShadowRenderer.cpp:43-54 | a mesh gets a draw exactly when it has a visible instance, in mesh order |
| ShadowRenderer.VisibleIndicesPrefix | Source/RenderPasses/ShadowRenderer.cpp:26-41 | the indices of the first meshes are a prefix of all indices |
| ShadowRenderer.CommandsCount | Source/RenderPasses/ShadowRenderer.cpp:43-54 | one draw per mesh with a visible instance |
| ShadowRenderer.CommandFollowsMesh | Source/RenderPasses/ShadowRenderer.cpp:45-51 | each draw copies its mesh's index count, start index and base vertex, draws its visible instances, starts at instance 0 and reads from where its run begins |
| ShadowRenderer.CommandReadsMeshRun | Source/RenderPasses/ShadowRenderer.cpp:46 | a mesh's draw reads exactly that mesh's visible indices |
| ShadowRenderer.TilesContiguous | Source/RenderPasses/ShadowRenderer.cpp:46-48 | the draws' runs follow one another without gap or overlap |
| ShadowRenderer.TilesSum | Source/RenderPasses/ShadowRenderer.cpp:46-48 | the runs add up to the whole list |
| ShadowRenderer.CommandsTile | Source/RenderPasses/ShadowRenderer.cpp:17-55 | the draws tile the list of visible indices |
| ShadowRenderer.AppendVisibleInstances | Source/RenderPasses/ShadowRenderer.cpp:28-41 | appends a mesh's visible instances and counts them |
| ShadowRenderer.CreateRenderCommands | Source/RenderPasses/ShadowRenderer.cpp:17-55 | the index list grows by the visible indices and the draw list by one draw per mesh with any, offset by the list's previous length |
| ShadowRenderer.InitResources | Source/RenderPasses/ShadowRenderer.cpp:75-81 | stops at the stub |
| ShadowRenderer.CreateSpotLightRenderStaticGeometryCommands | Source/RenderPasses/ShadowRenderer.cpp:104-131 | builds the commands of each light, then stops at the stub |
| ShadowRenderer.CreatePointLightRenderStaticGeometryCommands | Source/RenderPasses/ShadowRenderer.cpp:133-173 | builds the commands of each face of each light, then stops at the stub |
| ShadowRenderer.Create | Source/RenderPasses/ShadowRenderer.cpp:59-65 | construction stops at the first stub |
| SpotLightShadows.SizeAsU32 | Source/RenderPasses/SpotLightShadowRenderer.cpp:146 | a size that fits in 32 bits is kept unchanged |
| SpotLightShadows.Resized | Source/RenderPasses/SpotLightShadowRenderer.cpp:74 | resizing keeps the surviving elements and zero-fills the new ones |
| SpotLightShadows.OutdatedActive | Source/RenderPasses/SpotLightShadowRenderer.cpp:42-48 | no more picks than active lights |
| SpotLightShadows.OutdatedActiveExact | Source/RenderPasses/SpotLightShadowRenderer.cpp:42-48 | an active light is picked exactly when its shadow map is out of date |
| SpotLightShadows.AllOutdatedPicked | Source/RenderPasses/SpotLightShadowRenderer.cpp:42-48 | when every active light is out of date, all are picked in order |
| SpotLightShadows.NoneOutdatedPicked | Source/RenderPasses/SpotLightShadowRenderer.cpp:42-48 | when none is out of date, none is picked |
| SpotLightShadows.LightRanges | Source/RenderPasses/SpotLightShadowRenderer.cpp:107-142 | one range per light |
| SpotLightShadows.AllCommandsPrefix | Source/RenderPasses/SpotLightShadowRenderer.cpp:89-143 | the draws of the first lights are a prefix of all draws |
| SpotLightShadows.RangesPartition | Source/RenderPasses/SpotLightShadowRenderer.cpp:107-142 | the ranges start at 0, follow one another and end at the last draw |
| SpotLightShadows.RangeHoldsLightCommands | Source/RenderPasses/SpotLightShadowRenderer.cpp:107-142 | each light's range holds exactly that light's draws |
| SpotLightShadows.RangeOfLight | Source/RenderPasses/SpotLightShadowRenderer.cpp:107-142 | a light's range starts after the draws of the lights before it and counts its own |
| SpotLightShadows.TilesConcat | Source/RenderPasses/SpotLightShadowRenderer.cpp:111-139 | draws that tile two adjacent spans, taken together, tile their union |
| SpotLightShadows.TilesWithin | Source/RenderPasses/SpotLightShadowRenderer.cpp:130 | every draw's run lies within the span it tiles |
| SpotLightShadows.AllCommandsTile | Source/RenderPasses/SpotLightShadowRenderer.cpp:89-143 | across all lights, the draws tile the shared index list |
| SpotLightShadows.LightCommandsTile | Source/RenderPasses/SpotLightShadowRenderer.cpp:111-139 | a light's draws tile its own part of the shared list |
| SpotLightShadows.AllCommandsTileIndices | Source/RenderPasses/SpotLightShadowRenderer.cpp:130-132 | the runs add up to the shared list and none reads past its end |
| SpotLightShadows.SpotLightShadowRenderer.constructor | Source/RenderPasses/SpotLightShadowRenderer.cpp:24-28 | the renderer starts with no buffers and empty lists |
| SpotLightShadows.SpotLightShadowRenderer.Init | Source/RenderPasses/SpotLightShadowRenderer.cpp:24-28 | construction stops at the first stub |
| SpotLightShadows.SpotLightShadowRenderer.InitResources | Source/RenderPasses/SpotLightShadowRenderer.cpp:51-56 | stops at the stub |
| SpotLightShadows.SpotLightShadowRenderer.InitShadowMapStates | Source/RenderPasses/SpotLightShadowRenderer.cpp:70-74 | one state per spot light, all out of date, and the outdated-index list resized to the active maximum |
| SpotLightShadows.SpotLightShadowRenderer.RenderSpotLightShadowMaps | Source/RenderPasses/SpotLightShadowRenderer.cpp:38-49 | the picked lights are written at the front of the outdated-index list; the rest of the list is kept |
| SpotLightShadows.SpotLightShadowRenderer.BuildStaticMeshCommands | Source/RenderPasses/SpotLightShadowRenderer.cpp:89-143 | the shared index list, the draws and one range per light |
| SpotLightShadows.SpotLightShadowRenderer.InitStaticMeshCommands | Source/RenderPasses/SpotLightShadowRenderer.cpp:77-160 | both buffers are created in COPY_DEST and sized by the lists; after upload they hold the lists, in INDIRECT_ARGUMENT and NON_PIXEL_SHADER_RESOURCE |
| HelloRectangle.UploadStates | Samples/HelloRectangle/Source/DXApplication.cpp:159-163 | after the upload the vertex buffer is a VERTEX_AND_CONSTANT_BUFFER and the index buffer an INDEX_BUFFER |
| HelloRectangle.FrameStates | Samples/HelloRectangle/Source/DXApplication.cpp:185-199 | the back buffer is a render target from the clear to the draw, and back in PRESENT when the list closes |
| HelloRectangle.NoBarrierKeepsState | Samples/HelloRectangle/Source/DXApplication.cpp:186-197 | commands without barriers leave every state unchanged |
| HelloRectangle.RecordUpload | Samples/HelloRectangle/Source/DXApplication.cpp:157-165 | a new list holding the upload commands |
| HelloRectangle.RecordSetup | Samples/HelloRectangle/Source/DXApplication.cpp:181-191 | appends the frame setup |
| HelloRectangle.RecordQuad | Samples/HelloRectangle/Source/DXApplication.cpp:192-197 | appends the quad draw |
| HelloRectangle.RecordFrame | Samples/HelloRectangle/Source/DXApplication.cpp:181-200 | appends the whole frame |
| HelloRectangle.DXApplication.constructor | Samples/HelloRectangle/Source/DXApplication.cpp:17-41 | every allocator slot starts empty and every fence value at 0 |
| HelloRectangle.DXApplication.OnInit | Samples/HelloRectangle/Source/DXApplication.cpp:65-170 | the fence starts at 0; the upload is signalled and waited for at 1; the current fence value ends at 2 and the others stay 0; the list holds the upload |
| HelloRectangle.DXApplication.CreateCommandAllocators | Samples/HelloRectangle/Source/DXApplication.cpp:97-98 | every back buffer gets an allocator |
| HelloRectangle.DXApplication.WaitForGPU | Samples/HelloRectangle/Source/DXApplication.cpp:222-230 | signals and waits for the current value, then increments it; the frame-pacing invariant is kept |
| HelloRectangle.DXApplication.MoveToNextFrame | Samples/HelloRectangle/Source/DXApplication.cpp:232-245 | signals the current value; waits only if the next buffer's value is not yet complete; the next buffer's value becomes current + 1; the invariant is kept |
| HelloRectangle.DXApplication.OnRender | Samples/HelloRectangle/Source/DXApplication.cpp:176-207 | records the frame with the current buffer's allocator and moves to the next frame with the invariant kept |
| HelloRectangle.DXApplication.OnDestroy | Samples/HelloRectangle/Source/DXApplication.cpp:209-212 | waits for the GPU |
| SceneVoxelization.DescriptorBudget | Samples/SceneVoxelization/Source/DXApplication.cpp:235-259 | the recorders need 21 slots, and with the 10 null slots they fit the 32-slot heap |
| SceneVoxelization.RepeatedLength | Samples/SceneVoxelization/Source/DXApplication.cpp:652-691 | one table per back buffer takes count times the table size |
| SceneVoxelization.VisualizeGridTableMatches | Samples/SceneVoxelization/Source/DXApplication.cpp:652-667 | each back buffer's grid-visualisation table holds the views the recorder's root signature expects, in order |
| SceneVoxelization.CopyTable | Samples/SceneVoxelization/Source/DXApplication.cpp:620-622 | copies a table into fresh consecutive slots, starting at the returned handle |
| SceneVoxelization.AllocateRecorderDescriptors | Samples/SceneVoxelization/Source/DXApplication.cpp:618-691 | the heap grows by exactly the recorders' views, and each table starts where the layout puts it |
| SceneVoxelization.TransitionIfNeededReaches | Samples/SceneVoxelization/Source/DXApplication.cpp:772-773 | the barrier is issued exactly when the state differs; it reaches the required state and touches no other resource |
| SceneVoxelization.ClearCommandsStates | Samples/SceneVoxelization/Source/DXApplication.cpp:767-788 | a colour clear leaves the back buffer in RENDER_TARGET and a depth clear leaves the depth texture in DEPTH_WRITE; otherwise they are unchanged |
| SceneVoxelization.PresentCommandsReach | Samples/SceneVoxelization/Source/DXApplication.cpp:857-864 | the back buffer ends in PRESENT, with nothing recorded when it already is |
| SceneVoxelization.CreateShaderVisibleHeap | Samples/SceneVoxelization/Source/DXApplication.cpp:235-259 | a 32-slot heap with the 10-slot null range at its start and room for the recorders' tables |
| SceneVoxelization.CreateCommandAllocators | Samples/SceneVoxelization/Source/DXApplication.cpp:244-245 | one new allocator per back buffer |
| SceneVoxelization.DXApplication.constructor | Samples/SceneVoxelization/Source/DXApplication.cpp:155-160 | every fence value starts at 0 and no object exists yet |
| SceneVoxelization.DXApplication.OnInit | Samples/SceneVoxelization/Source/DXApplication.cpp:212-335 | the heap, allocators, back buffers in PRESENT, the depth texture in DEPTH_WRITE, and a fence at 0 with the current value 1; then the stub is reached |
| SceneVoxelization.DXApplication.CreateObjects | Samples/SceneVoxelization/Source/DXApplication.cpp:235-287 | the heap, allocators, list and tracked states as the code creates them |
| SceneVoxelization.DXApplication.InitFence | Samples/SceneVoxelization/Source/DXApplication.cpp:311-312 | a fence at the current value, which is then incremented |
| SceneVoxelization.DXApplication.WaitForGPU | Samples/SceneVoxelization/Source/DXApplication.cpp:883-889 | signals and waits for the current value, then increments only that value |
| SceneVoxelization.DXApplication.MoveToNextFrame | Samples/SceneVoxelization/Source/DXApplication.cpp:891-900 | signals the current value, always waits for the next buffer's value, and sets that value to current + 1 |
| SceneVoxelization.DXApplication.ClearTargets | Samples/SceneVoxelization/Source/DXApplication.cpp:765-789 | with any clear flag: records the requested clears with their transitions, then waits for the GPU; with none, does nothing |
| SceneVoxelization.DXApplication.ClearColor | Samples/SceneVoxelization/Source/DXApplication.cpp:770-777 | moves the back buffer to RENDER_TARGET if needed, then clears it |
| SceneVoxelization.DXApplication.ClearDepth | Samples/SceneVoxelization/Source/DXApplication.cpp:778-784 | moves the depth texture to DEPTH_WRITE if needed, then clears it |
| SceneVoxelization.DXApplication.ReturnToPresent | Samples/SceneVoxelization/Source/DXApplication.cpp:857-864 | moves the back buffer to PRESENT, recording a barrier only if needed |
| SceneVoxelization.DXApplication.RunPasses | Samples/SceneVoxelization/Source/DXApplication.cpp:813-855 | three waits for the GPU; the back buffer and the depth texture are left in the states the recorders end in |
| SceneVoxelization.DXApplication.OnRender | Samples/SceneVoxelization/Source/DXApplication.cpp:755-868 | the frame's clears and return to PRESENT are recorded; the back buffer is handed back in PRESENT; the depth texture is tracked in the state the recorders leave it in, which the next frame's depth clear starts from; the other buffers are untouched; the next frame becomes current |
| SceneVoxelization.DXApplication.OnDestroy | Samples/SceneVoxelization/Source/DXApplication.cpp:870-873 | waits for the GPU |

## Left out

- Everything the GPU does is left out: shader execution, clears and draws. Command lists are logs, and only the state changes of barriers are given a meaning.
- Floating point is read as exact reals in the camera, or is left out: matrices, frustum and box tests, clear colours, timestamp frequency.
- Cameras.Camera.GetProjMatrix: the matrices are symbolic constructors of their parameters, not computed 4x4 values.
- Creation through the device, swap chain, shaders, root signatures and pipeline states is left out. The objects produced are opaque identities.
- The descriptor heap is a bump allocator over a sequence. The heap's implementation file is not part of this model.
- MathUtil: `Sqrt`, `Rcp` and the trigonometric, rounding and power functions are floating point and are left out. The helpers are modelled over integers.
- MathUtil.Sqr, MathUtil.Abs: the model's integers are unbounded. Fixed-width overflow of the integer instantiations is not modelled: a large square, or the absolute value of the most negative value.
- Cameras.Camera.constructor: `PI_DIV_4` is taken as the header's `PI_DIV_FOUR` (0.785398163), and the header's blue colour is an assumed opaque blue. Color.h is not part of this model.
- SceneVoxelization: the clear-flag values 1 (colour) and 2 (depth) are assumed. The resources' write states are assumed to be RENDER_TARGET for a back buffer and DEPTH_WRITE for the depth texture. Camera.h and the resource classes are not part of this model.
- SceneVoxelization: swap-chain back buffers are taken to start in PRESENT.
- SceneVoxelization.DXApplication.OnRender: the mesh and voxel recorders are not modelled. Their effect on the back buffer and on the depth texture is given by the `passEndState` and `depthEndState` parameters. Their commands, and their state changes on other resources, are not part of the log.
- SceneVoxelization.DXApplication.OnInit: stops at the first mesh stub. The scene meshes, constant-buffer updates and the recorders' objects after it are not modelled. The descriptor layout those recorders get is modelled as AllocateRecorderDescriptors and its lemmas.
- HelloRectangle.DXApplication.constructor: the back-buffer count is a parameter. The header that fixes it is not part of this model.
- HelloRectangle and SceneVoxelization do not model the command-allocator `Reset`, `ExecuteCommandLists` or `Present`. They are GPU submission; the fence history records the synchronisation.
- Fences: the completed value the GPU reports is an input (`completedValue`) of HelloRectangle.DXApplication.MoveToNextFrame.
- Profiling.Profiler.EndFrame: it stores the raw start and end timestamps as the sample. The millisecond conversion uses the queue's frequency and floating point. The read also follows the corrected index (see Findings).
- Profiling: `OutputToConsole` is console output and is left out.
- ShadowRenderer and SpotLightShadows: the frustum/box test is the caller's predicate. The light's view and projection matrices are left out.
- ShadowRenderer.CommandFollowsMesh: the instance offset is an unbounded number. The source's conversion of `size_t` to `UINT` only matters beyond 2^32 indices.
- SpotLightShadows.SpotLightShadowRenderer.RenderSpotLightShadowMaps: it requires the active count to fit the outdated-index list. The source asserts only the bound against the state list, and leaves the other bound to its callers.
- SpotLightShadows.SpotLightShadowRenderer.InitStaticMeshCommands: the upload is modelled as the data each buffer holds and the state it is left in. The upload helper is not part of this model.
- Destructors only release objects and are left out.
- CreateTiledShadowMapSAT.CommandSignatureLayout: the field sizes (8 bytes for the tile origin, 12 for the dispatch arguments, 16 for an argument descriptor) are those of the Direct3D 12 structures. The wrapper header that defines `DispatchArgument` is not part of this model. The pass's argument buffers use the corrected 20-byte record (see Findings).

## Findings

| source | as written | input that shows it | evidently intended | confidence | as-written member | corrected member |
|---|---|---|---|---|---|---|
| Source/D3DWrapper/Profiler.cpp:38-50 | `EndFrame` maps the read-back buffer and indexes the returned pointer at `2i` and `2i + 1`. `Map` returns the start of the buffer; the read range is only a hint. So every frame reads frame 0's block. | render latency 2, current frame 1, profile 0: EndProfile resolved into timestamps 2·maxNumProfiles and 2·maxNumProfiles + 1, but EndFrame reads timestamps 0 and 1 | read at `frame · maxNumQueries + 2i` and the next one, where EndProfile resolved them | not executed | Profiling.AsWrittenReadsFrameZero | Profiling.ReadIndexMatchesResolve |
| Source/RenderPasses/CreateTiledShadowMapSATPass.cpp:14-17 | The record `CreateSATCommand` declares its second field with the type `DispatchArgument`. At line 252 that same type is an element of the `D3D12_INDIRECT_ARGUMENT_DESC` array: a 16-byte argument descriptor, not the three thread-group counts. The record is then 24 bytes, and that size is both the argument-buffer element (line 107) and the signature's stride (line 254). | the signature's arguments take 20 bytes (two constants, then a 12-byte dispatch); the stride is 24, and the dispatch arguments are read from a descriptor's type tag and union | the field holds the dispatch arguments (the `DispatchArguments` record, three u32 counts), so the record and the stride are 20 bytes | not executed; the wrapper header defining `DispatchArgument` is not part of this model | CreateTiledShadowMapSAT.AsWrittenCommandLayout | CreateTiledShadowMapSAT.CommandSignatureLayout |
