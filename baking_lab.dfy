/** One frame of the bake as `Render` drives it (BakingLab.cpp, lines
    1099-1101): `VoxelizeScene` first, whose rebuild restarts the bake
    cursors, then `BakeWithVoxels`. */
module BakingLab {
  import opened Common
  import opened BakeSchedule
  import opened VoxelBake
  import opened Voxelize

  /** The bake cursors as the voxel step leaves them. */
  function AfterVoxelize(b: BakeState, v: VolumeState, vin: VoxelInputs): BakeState
  {
    if VoxelizeStep(v, vin).rebuilt then b.(pass := 0, pointOffset := 0) else b
  }

  /** The voxel step followed by the bake step. */
  method RenderFrame(volume: VoxelVolume, baker: VoxelBaker, vin: VoxelInputs, bin: BakeInputs)
    returns (rebuilt: bool, mips: seq<MipDispatch>, steps: seq<int>, commands: seq<BakeCommand>)
    requires WellFormed(bin)
    requires vin.bakingInvalidated == bin.bakingInvalidated   // both read status.BakingInvalidated
    modifies volume, baker
    ensures volume.State() == VoxelizeStep(old(volume.State()), vin).state
    ensures rebuilt == VoxelizeStep(old(volume.State()), vin).rebuilt
    ensures mips == VoxelizeStep(old(volume.State()), vin).mips && steps == VoxelizeStep(old(volume.State()), vin).steps
    ensures baker.State() == BakeStep(AfterVoxelize(old(baker.State()), old(volume.State()), vin), bin).state
    ensures baker.voxelBakeProgress == BakeStep(AfterVoxelize(old(baker.State()), old(volume.State()), vin), bin).progress
    ensures commands == BakeStep(AfterVoxelize(old(baker.State()), old(volume.State()), vin), bin).commands
  {
    rebuilt, mips, steps := volume.VoxelizeScene(vin, baker);
    commands := baker.BakeWithVoxels(bin);
  }

  /** A voxel rebuild restarts the bake: when baking is on and the budget has
      at least one pass, the same frame clears the lightmap and bakes the first
      chunk of pass 0, whatever the cursors were. */
  lemma {:induction false} RebuildRestartsBake(b: BakeState, v: VolumeState, vin: VoxelInputs, bin: BakeInputs)
    requires WellFormed(bin) && bin.bakeWithVoxels && TotalPasses(bin) >= 1
    requires VoxelizeStep(v, vin).rebuilt
    ensures var r := BakeStep(AfterVoxelize(b, v, vin), bin);
      && ClearsLightMap(r.commands)
      && BakePoints(0, SamplesToBake(0, TotalSamples(bin), SamplesPerPass(bin)), 0, Min(ChunkLimit(bin), bin.numBakePoints))
           in r.commands
  {
    var b2 := AfterVoxelize(b, v, vin);
    var e := ResetState(b2, bin);
    assert e.pass == 0 && e.pointOffset == 0;
    ClearsExactlyAtSessionStart(b2, bin);
    ChunkAdvance(b2, bin);
  }

  /** Without a rebuild and without a bake trigger the voxel step leaves the
      bake alone: the frame moves the cursors exactly as a frame of a steady
      bake does. */
  lemma QuietVoxelStepKeepsBakeGoing(b: BakeState, v: VolumeState, vin: VoxelInputs, bin: BakeInputs)
    requires Steady(bin) && TextureMatches(b, bin) && !NeedsRevoxelize(v, vin)
    ensures BakeStep(AfterVoxelize(b, v, vin), bin).state == SteadyNext(b, bin)
  {
    SteadyFrame(b, bin);
  }
}
