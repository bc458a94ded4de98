# Baking Lab: host-side bake scheduling

This project models the integer scheduling logic that the Baking Lab
application (`BakingLab/BakingLab.cpp`) runs on the CPU around its GPU light
baker, and proves properties of that model:

- **Voxel lightmap bake** (`BakeWithVoxels`). Two cursors, the current pass
  and the bake-point offset within that pass, move by one chunk of at most
  `MaxBakePointsPerPass * 1024` points per frame. The sample budget
  `NumBakeSamples²` is split into `ceil(NumBakeSamples² / NumSamplesPerPass²)`
  passes. The lightmap is cleared at the start of a session, and a progress
  value is reported every frame. The cursors and the lightmap size are the
  fields of class `VoxelBaker`. The function `BakeStep` describes one frame as
  a value, and the frame's GPU work is a list of `BakeCommand`s.
- **Voxelization** (`VoxelizeScene`). This covers:
  - the decision to rebuild the voxel volume;
  - the allocation of the mip textures;
  - the chain of mip-generation dispatches;
  - the step sizes of the jump flood;
  - the restart of the bake cursors that a rebuild causes.

  The volume's fields are those of class `VoxelVolume`.
- **Probe bake** (`RenderProbes`). A cursor moves through the
  `ProbeResX × ProbeResY × ProbeResZ` grid one probe per call. The model
  covers the flattened-index ↔ grid-position decomposition, the six cube-map
  slices per probe, and the progress value.
- **Scene bounds** (`Initialize`). A componentwise min/max fold over every
  vertex of every mesh of every scene. It starts from `FLT_MAX` and
  `-FLT_MAX` and updates the arrays `sceneMins` and `sceneMaxes` in place.
- **Light-settings files** (`SaveLightSettings`, `LoadLightSettings`). A
  header of `{Name, DataSize}` records is followed by the values. A load
  skips every record that no longer matches a setting by reading exactly
  `DataSize` bytes into a 1024-byte buffer.
- **A frame** (`Render`, lines 1099-1101). `VoxelizeScene` runs, and then
  `BakeWithVoxels`.

Modules: `Common` (uint32 wrap-around, min/max, division facts),
`BakeSchedule`, `VoxelBake`, `Voxelize`, `Probes`, `SceneBounds`,
`LightSettings` and `BakingLab`.

Points where the code's behaviour is easy to misread, and which the model
follows:

- The jump flood starts at the width of the mip textures, `max(R / 2, 1)`
  (`voxelRadianceMips[0].Width`), not at the voxel resolution `R`. It then
  runs one pass per mip level.
- A change of the scene-bounds offsets does not trigger a re-voxelization.
  Only `SceneBoundsScale` does, out of the scene-bounds settings.
- For resolution 4 the volume is 4 wide and its mip textures hold widths 2
  and 1. The mip loop dispatches 4→2 and 2→1.
- `MaxBakePointsPerPass` counts units of 1024 bake points. A limit of 50 over
  100 bake points with 4 passes finishes on frame 4. Over 102400 bake points
  it finishes on frame 8 (`ExampleSessions`).
- With zero bake points, each of the first `numPasses` frames still
  dispatches an empty chunk, advances one pass and computes a progress of 0/0.
  Only the frame after the last pass reports 1.0, through the early return of
  lines 1007-1010 (`EmptyBakeSession`, and see Findings).
- Progress values are `Option<real>`. `None` stands for a float division by
  zero: the NaN of 0/0 at line 1061, the +infinity of 1/0 at line 767.
  `BakeWithVoxels` and `RenderProbes` report the values the source computes.
  The intended values are `BakeSchedule.Progress` and `Probes.ProbeProgress`,
  and the progress lemmas are proved about them. Wherever the source's bake
  progress is defined, it equals `Progress` (`ProgressIsVisitFraction`).
- The call of `RenderProbes` in `Render` is commented out (line 1103). The
  operation is still modelled on its own.

## Model

| member | source | states |
|---|---|---|
| BakeSchedule.NumPasses | BakingLab/BakingLab.cpp:1005 | the pass count is the sample budget over the per-pass budget, rounded up (its properties are `PassesCoverBudget`) |
| BakeSchedule.PassesCoverBudget | BakingLab/BakingLab.cpp:1003-1005 | the pass count is the least number of passes whose per-pass budgets cover the sample budget |
| BakeSchedule.SampleStartInBudget | BakingLab/BakingLab.cpp:1030 | every pass the scheduler runs starts below the sample budget, so `numSamples - BakeSampleStart` never wraps |
| BakeSchedule.SamplesToBake | BakingLab/BakingLab.cpp:1030-1031 | a pass bakes between 1 and `numSamplesPerPass` samples, ends inside the budget, and only the last pass may be short |
| BakeSchedule.WindowsPartitionSamples | BakingLab/BakingLab.cpp:1003-1031 | the sample windows of the passes cover every sample of the budget exactly once |
| BakeSchedule.PointsToBake | BakingLab/BakingLab.cpp:1006 | a chunk never exceeds the per-call limit, never runs past the point count, and is the whole limit unless it ends the pass |
| BakeSchedule.ProgressAsWritten | BakingLab/BakingLab.cpp:1060-1061 | the source's progress expression is undefined exactly when the point count times the pass count is zero |
| BakeSchedule.Progress | BakingLab/BakingLab.cpp:1060-1061 | the intended progress: the source's expression where it is defined, and 1.0 when there are no bake points |
| BakeSchedule.ProgressIsVisitFraction | BakingLab/BakingLab.cpp:1060-1061 | where the source's expression is defined it equals the intended progress, which is the fraction of all pass × point visits done |
| BakeSchedule.ProgressInUnitRange | BakingLab/BakingLab.cpp:1060-1061 | with the cursors in range, the intended progress lies in [0, 1] and is 1 exactly when the last pass is finished or there are no bake points |
| BakeSchedule.ProgressMonotone | BakingLab/BakingLab.cpp:1060-1061 | the intended progress does not decrease when the cursors move forward |
| VoxelBake.ResetState | BakingLab/BakingLab.cpp:982-999 | the cursors after the resets at the top of a frame (partner: `ResetsExactlyOnTriggers`) |
| VoxelBake.Advance | BakingLab/BakingLab.cpp:1053-1058 | the cursor move of a baking frame, with the uint32 wrap (partner: `AdvanceInRange`, `ChunkAdvance`) |
| VoxelBake.BakeStep | BakingLab/BakingLab.cpp:978-1062 | one frame as a value: the new cursors and lightmap size, the progress of lines 1009 and 1060-1061, and the work issued |
| VoxelBake.VoxelBaker.BakeWithVoxels | BakingLab/BakingLab.cpp:978-1062 | the in-place update of the cursors, the lightmap size and the progress follows `BakeStep`, and the work it issues is `BakeStep`'s |
| VoxelBake.VoxelBaker.BakeChunk | BakingLab/BakingLab.cpp:1017-1061 | the baking part of a frame: clear at session start, the chunk's dispatch, the gutter fill, the cursor move and the progress as line 1061 computes it |
| VoxelBake.VoxelBaker.AdvanceCursors | BakingLab/BakingLab.cpp:1053-1058 | the offset moves past the chunk, and on reaching the point count the next pass starts at offset 0 |
| VoxelBake.ResetsExactlyOnTriggers | BakingLab/BakingLab.cpp:982-999 | the cursors restart exactly on a changed samples-per-pass setting, an invalidated bake or a lightmap of the wrong size, and after the resets the lightmap has the right size |
| VoxelBake.DisabledBakeDoesNothing | BakingLab/BakingLab.cpp:980-989 | with baking off a frame reports 0, issues no work and keeps the lightmap |
| VoxelBake.CompletedBakeIsStable | BakingLab/BakingLab.cpp:1007-1011 | once every pass is done a frame reports 1, keeps the cursors and dispatches nothing |
| VoxelBake.ClearsExactlyAtSessionStart | BakingLab/BakingLab.cpp:1017-1022 | the lightmap is cleared exactly in a baking frame whose cursors are both zero |
| VoxelBake.FrameWorkOrder | BakingLab/BakingLab.cpp:993-1048 | in a baking frame the lightmap's creation and clear come before the chunk's single dispatch, and the gutter fill follows it as the last command exactly when there are gutter texels |
| VoxelBake.ChunkAdvance | BakingLab/BakingLab.cpp:1006-1058 | a baking frame dispatches the current pass's sample window for the current chunk, then either stays in the pass with the offset advanced by the chunk or moves to the next pass at offset 0 |
| VoxelBake.EmptyBakeAdvancesOnePassPerCall | BakingLab/BakingLab.cpp:1053-1058 | with no bake points each baking frame moves on one pass |
| VoxelBake.SteadyFrame | BakingLab/BakingLab.cpp:978-1062 | under settings that do not change, a frame does no reset and moves the cursors by one chunk, or not at all once complete |
| VoxelBake.RunIsSteadyRun | BakingLab/BakingLab.cpp:978-1062 | any number of frames under unchanging settings follow the reset-free cursor move and keep the lightmap size |
| VoxelBake.AdvanceInRange | BakingLab/BakingLab.cpp:1053-1058 | a baking frame keeps the offset at most the point count and the pass at most the pass count, and moves the cursors forward |
| VoxelBake.ProgressNeverDecreases | BakingLab/BakingLab.cpp:1053-1061 | with at least one bake point and unchanging settings, every frame's progress is defined, lies in [0, 1] and does not drop from one frame to the next |
| VoxelBake.PassCompletes | BakingLab/BakingLab.cpp:1006-1058 | from offset `o` a pass ends after exactly `ceil((N - o) / C)` frames, staying in the pass until then |
| VoxelBake.PassesComplete | BakingLab/BakingLab.cpp:1006-1058 | `m` passes from the start of a pass take exactly `m * ceil(N / C)` frames |
| VoxelBake.SessionClearsOnce | BakingLab/BakingLab.cpp:1017-1058 | over a steady session from cursors at zero the lightmap is cleared on the first frame and on no later frame before completion, since every frame raises the cursors' rank |
| VoxelBake.SessionTakesExactFrames | BakingLab/BakingLab.cpp:1003-1061 | a session from cursors at zero takes exactly `numPasses * ceil(N / C)` frames, the last reporting progress 1 and every earlier one less |
| VoxelBake.EmptyBakeSession | BakingLab/BakingLab.cpp:1003-1061 | with no bake points, each of the first `numPasses` frames dispatches a chunk and reports 0/0, and the frame after them reports 1.0 |
| VoxelBake.ExampleSessions | BakingLab/BakingLab.cpp:1003-1061 | a 4×4 sample budget, 2×2 per pass and a limit of 50 finishes in 4 frames over 100 points and in 8 over 102400 |
| Voxelize.NeedsRevoxelize | BakingLab/BakingLab.cpp:778-790 | the rebuild decision: an invalidated bake, always-revoxelize, a changed bounds scale, a missing texture or a changed resolution |
| Voxelize.VoxelizeStep | BakingLab/BakingLab.cpp:773-976 | one call as a value: the resources afterwards, whether it rebuilt, and the mip and jump-flood passes it ran (partner: `RebuildExactlyOnTriggers`, `RebuildRunsFullChains`) |
| Voxelize.HalvedChainDecreases | BakingLab/BakingLab.cpp:920 | halving with a floor of 1 keeps sizes at least 1 and never increases them |
| Voxelize.HalvedChainIsMipSize | BakingLab/BakingLab.cpp:920-929 | `k` halvings with a floor of 1 give `max(top / 2^k, 1)` |
| Voxelize.FullChainEndsAtOne | BakingLab/BakingLab.cpp:685 | the full mip chain reaches width 1 at its last level and not before |
| Voxelize.MipTextureHoldsFullChain | BakingLab/BakingLab.cpp:789-792 | the mip textures hold as many levels as a full chain from their top width |
| Voxelize.GenerateVoxelMips | BakingLab/BakingLab.cpp:894-929 | one dispatch per mip level, the first reading the volume, each writing half its source (at least 1) and the next reading what it wrote |
| Voxelize.JumpFloodSteps | BakingLab/BakingLab.cpp:957-967 | one step per pass, the first the mip width, each next one half the previous (at least 1) |
| Voxelize.RebuildExactlyOnTriggers | BakingLab/BakingLab.cpp:778-803 | the volume is rebuilt exactly on an invalidated bake, always-revoxelize, a changed bounds scale, a missing texture or a changed resolution; otherwise nothing changes or runs |
| Voxelize.RebuildRunsFullChains | BakingLab/BakingLab.cpp:783-967 | a rebuild runs the whole mip chain down to width 1 and as many jump-flood passes, with steps the mip widths |
| Voxelize.ResolutionFourSchedule | BakingLab/BakingLab.cpp:783-967 | at resolution 4 the mips are 2 and 1 wide, the dispatches go 4→2 and 2→1 and the steps are 2, 1 |
| Voxelize.VoxelVolume.VoxelizeScene | BakingLab/BakingLab.cpp:773-976 | the in-place reallocation follows `VoxelizeStep`, and a rebuild resets the bake cursors and nothing else of the baker |
| Probes.ProbeCoordOf | BakingLab/BakingLab.cpp:727-729 | the cursor's decomposition into a grid position, x fastest (partner: `ProbeIndexOf` by `ProbeCoordInGrid` and `ProbeIndexInGrid`) |
| Probes.ProbeStep | BakingLab/BakingLab.cpp:699-771 | one call as a value: the cursor and array size afterwards, the progress of lines 723 and 767, and the probe rendered |
| Probes.ProbeCoordInGrid | BakingLab/BakingLab.cpp:727-729 | every cursor below the probe count decomposes into a grid position whose flattened index it is |
| Probes.ProbeIndexInGrid | BakingLab/BakingLab.cpp:727-729 | every grid position's flattened index lies below the probe count and decomposes back into it |
| Probes.ProbeProgressAsWritten | BakingLab/BakingLab.cpp:767 | the source's probe progress is undefined exactly for a single probe |
| Probes.ProbeProgressOvershoots | BakingLab/BakingLab.cpp:765-767 | the source's probe progress is 1 with a probe still to render and above 1 after the last |
| Probes.ProbeProgressInUnitRange | BakingLab/BakingLab.cpp:765-767 | the intended progress, the fraction of probes rendered, lies in (0, 1] once one is rendered, is 1 exactly after the last, and grows with the cursor |
| Probes.RestartRendersFirstProbe | BakingLab/BakingLab.cpp:702-725 | after a restart the call renders the probe at (0, 0, 0) into slices 0-5 and leaves the cursor at 1 (at 0 for a single always-regenerated probe), and a reallocation sizes the cube-map array for six faces per probe |
| Probes.ProbeArrayFitsGrid | BakingLab/BakingLab.cpp:702-714 | a call that reallocates the cube-map array, or finds it sized for the grid, leaves six slices per probe, and every slice it renders lies inside the array |
| Probes.FinishedSweepIsStable | BakingLab/BakingLab.cpp:721-725 | past the last probe a call renders nothing, changes nothing and reports 1 |
| Probes.ProbeAdvance | BakingLab/BakingLab.cpp:727-770 | a rendering call renders the probe at the cursor into six slices below 6 · numProbes, inside the array whenever it is sized for the grid, moves the cursor on by one (to 0 at the end when always regenerating), and reports line 767's progress: undefined for one probe, else positive, 1 after the last probe but one and above 1 after the last |
| Probes.SweepVisitsEveryProbe | BakingLab/BakingLab.cpp:699-771 | a steady sweep from cursor `c` renders probe `c + k` on call `k` and ends at the end of the grid, or back at the first probe when always regenerating |
| Probes.RestartSweepVisitsEveryProbe | BakingLab/BakingLab.cpp:699-771 | after a restart, with nothing changed, the `k`-th later call renders probe `k` into its six slices, so the first sweep renders every probe |
| Probes.SweepProbesDistinct | BakingLab/BakingLab.cpp:727-729 | different calls of a sweep render different grid positions |
| Probes.ProbeBaker.RenderProbes | BakingLab/BakingLab.cpp:692-771 | the in-place cursor update, the progress as line 767 computes it and the probe rendered follow `ProbeStep` |
| SceneBounds.SceneAabb | BakingLab/BakingLab.cpp:428-449 | a scene's box: the componentwise min/max fold of all its vertices from the sentinels (partner: `SceneAabbIsTight`) |
| SceneBounds.VerticesAreMeshVertices | BakingLab/BakingLab.cpp:432-441 | the vertices folded are exactly those of the scene's meshes |
| SceneBounds.FoldContains | BakingLab/BakingLab.cpp:442-447 | the folded box contains every vertex folded and the box it started from |
| SceneBounds.FoldAttained | BakingLab/BakingLab.cpp:442-447 | every bound of the folded box is the starting bound or a coordinate of a folded vertex |
| SceneBounds.SceneAabbIsTight | BakingLab/BakingLab.cpp:428-449 | the scene box contains every vertex, each bound is a vertex coordinate whenever a vertex is in float range, and an empty scene gives the sentinel box |
| SceneBounds.ComputeSceneBounds | BakingLab/BakingLab.cpp:420-449 | after the in-place loops each scene's entries are the bounding box of its vertices |
| LightSettings.SaveLightSettings | BakingLab/BakingLab.cpp:200-214 | the file holds one record per light setting, in order, with its name and positive size, and then the values in the same order |
| LightSettings.LoadRecords | BakingLab/BakingLab.cpp:145-158 | the load as a value: the settings afterwards, the bytes read and the error that stopped it (partners: `LoadSucceedsIff`, `LoadAfterSave`) |
| LightSettings.LoadPreservesShape | BakingLab/BakingLab.cpp:145-158 | a load adds no setting, removes none and changes no value's size |
| LightSettings.OnlyMatchingRecordsApply | BakingLab/BakingLab.cpp:145-158 | a setting only changes when a record names it with its value size |
| LightSettings.LoadSucceedsIff | BakingLab/BakingLab.cpp:144-158 | a load completes exactly when the data holds every record and every skipped record fits the 1024-byte buffer, and then it reads exactly the records' sizes |
| LightSettings.LoadAfterSave | BakingLab/BakingLab.cpp:98-224 | loading a saved file restores every saved setting that still exists with the same size and leaves the rest, reading the whole file |
| LightSettings.SettingsRegistry.LoadLightSettings | BakingLab/BakingLab.cpp:138-165 | the in-place record loop leaves the settings, the bytes read and the error of `LoadRecords` |
| BakingLab.RenderFrame | BakingLab/BakingLab.cpp:1099-1101 | a frame is the voxel step, whose rebuild restarts the cursors, followed by the bake step; both steps read the one `BakingInvalidated` flag |
| BakingLab.RebuildRestartsBake | BakingLab/BakingLab.cpp:802-806 | a rebuild makes the same frame clear the lightmap and bake the first chunk of pass 0 |
| BakingLab.QuietVoxelStepKeepsBakeGoing | BakingLab/BakingLab.cpp:802-806 | without a rebuild the voxel step leaves the bake moving one chunk per frame |

## Left out

- The GPU work: rasterization, the compute kernels, the shadow maps, the
  probe face renders and camera setup. A frame's work is described only by
  the integer parameters it is given (`BakeCommand`, `MipDispatch`, the
  jump-flood steps, the cube-map slices).
- Floating point: progress values, positions and the bounds fold are over
  exact reals. The model states no float rounding, no NaN propagation and no
  `(probeX + 0.5f) / ProbeResX` probe placement.
- Dispatch group counts (`DispatchSize`) are not modelled. They depend only
  on the sizes the model already carries.
- `NumMipLevels` is framework code and not part of this model. It is taken to
  be the level count of a full chain down to width 1 (`MipLevelCount`).
- `AppSettings::NumProbes()` is not part of this model. It is taken to be
  `ProbeResX * ProbeResY * ProbeResZ`, without the `uint32` cast. The clamp in
  `Update` (lines 669-683) keeps the count far below 2^32, and the clamp
  itself is not modelled.
- Settings' `Changed()` flags, the mesh baker's status, and the existence of
  a texture are inputs to each call. The UI and the settings framework that
  produce them are not modelled.
- Integer width: `NumBakeSamples²`, `NumSamplesPerPass²`,
  `voxelBakePass * numSamplesPerPass` and `numProbes * 6` are unbounded
  integers without `uint32` wrap-around. The subtractions and the offset
  addition of lines 1006 and 1053, and the `* 1024` limit, are wrapped
  explicitly. The bake-point count is `uint32(status.NumBakePoints)`
  throughout. The source casts it only at lines 1006 and 1033, and compares
  and divides with the uncast value at lines 1054 and 1061. The two differ
  only above 2^32 bake points.
- VoxelBake.VoxelBaker.BakeWithVoxels: when baking is on it requires
  `NumSamplesPerPass >= 1` (`WellFormed`). With a setting of 0, line 1005
  divides by zero, and that crash is not modelled.
- LightSettings.SaveLightSettings: `Assert_(DataSize > 0)` is modelled as the
  precondition `Saveable`. The header and the values are a decoded record
  list and one byte stream, so the serializer's encoding, the file dialogs
  and file I/O are left out.
- LightSettings.SettingsRegistry.LoadLightSettings: `Assert_(DataSize <=
  1024)` is modelled as the error `OversizedSkip`. The exception from a short
  file is the error `UnexpectedEndOfFile`. The message box is left out.
  Records read before the error keep their effect, as in the source.
- Probes.ProbeBaker.RenderProbes: the cube-map reallocation is modelled only
  by its array size. Its capture resolution and formats are left out.
- Voxelize.VoxelVolume.VoxelizeScene: textures other than the voxel radiance
  volume and its mips are not modelled. These are the jump-flood and
  distance-field textures, which are reallocated with it.
- The cursor restart on a rebuild is stated as a change of `VoxelBaker`'s
  fields. The model does not state that `VoxelVolume` and `VoxelBaker` are
  one object, as they are in the source.

## Findings

| source | as written | input that shows it | evidently intended | confidence | as-written member | corrected member |
|---|---|---|---|---|---|---|
| BakingLab/BakingLab.cpp:1060-1061 | `voxelBakeProgress += voxelBakePointOffset / float(status.NumBakePoints * numPasses)` divides by the point count | `NumBakePoints == 0` with 4 passes: frames 1 to 4 each dispatch an empty chunk and report 0/0 (NaN); only frame 5 reports 1.0, through lines 1007-1010 | with no bake points there is nothing to bake, so the progress is 1.0 from the first frame and never a division by zero | not executed | VoxelBake.EmptyBakeSession | BakeSchedule.ProgressInUnitRange |
| BakingLab/BakingLab.cpp:767 | `status.ProbeBakeProgress = currProbeIdx / (numProbes - 1.0f)` after the increment | 2 probes: progress 1.0 after the first probe and 2.0 after the second; 1 probe: division by zero | the fraction `currProbeIdx / numProbes` of probes rendered, in (0, 1] and 1 exactly after the last probe | not executed | Probes.ProbeProgressOvershoots | Probes.ProbeProgressInUnitRange |
