/** The integer side of `VoxelizeScene` (BakingLab.cpp, lines 773-975): the
    decision to rebuild the voxel volume, the allocation of the mip texture,
    the schedule of mip-generation dispatches and the step sizes of the jump
    flood. The rasterisation, mip filtering and jump-flood kernels themselves
    run on the GPU and appear only as the integer parameters they are given. */
module Voxelize {
  import opened Common
  import VoxelBake

  /** What one call of VoxelizeScene reads. */
  datatype VoxelInputs = VoxelInputs(
    bakingInvalidated: bool,        // status.BakingInvalidated
    alwaysRevoxelize: bool,         // AppSettings::AlwaysRevoxelize
    sceneBoundsScaleChanged: bool,  // AppSettings::SceneBoundsScale.Changed()
    voxelResolutionChanged: bool,   // AppSettings::VoxelResolution.Changed()
    voxelResolution: nat)           // AppSettings::VoxelResolution

  /** The voxel resources that persist across frames: whether the radiance
      volume exists, the resolution it was made with, and the top width and
      level count of the mip textures. */
  datatype VolumeState = VolumeState(hasTexture: bool, resolution: nat, mipWidth: nat, mipLevels: nat)

  /** One mip-generation dispatch: the level it reads and the sizes read and written. */
  datatype MipDispatch = MipDispatch(srcLevel: nat, srcSize: int, dstSize: int)

  /** What a call leaves behind: the resources, whether the volume was
      rebuilt, and the mip and jump-flood passes it ran. */
  datatype VoxelFrame = VoxelFrame(state: VolumeState, rebuilt: bool, mips: seq<MipDispatch>, steps: seq<int>)

  /** `NumMipLevels(n, n, n)`: the number of levels of a full mip chain of a
      cube of width `n`, down to width 1. */
  function MipLevelCount(n: nat): (r: nat)
    ensures r >= 1
  {
    if n <= 1 then 1 else 1 + MipLevelCount(n / 2)
  }

  /** `Max(x / 2, 1)`: the next size down, never below 1. */
  function Halve(x: int): int
  {
    Max(x / 2, 1)
  }

  /** The value after `k` halvings of `start`. */
  function HalvedChain(start: int, k: nat): int
    decreases k
  {
    if k == 0 then start else HalvedChain(Halve(start), k - 1)
  }

  /** The width of level `k` of a mip chain whose top level has width `top`. */
  function MipSize(top: nat, k: nat): nat
  {
    Max(top / Pow2(k), 1)
  }

  /** The volume as allocated for resolution `r`: a volume of width `r` and mip
      textures of width `max(r / 2, 1)` with `max(NumMipLevels - 1, 1)` levels. */
  function VolumeFor(r: nat): VolumeState
  {
    VolumeState(true, r, Max(r / 2, 1), Max(MipLevelCount(r) - 1, 1))
  }

  /** The rebuild decision of lines 778-790. */
  predicate NeedsRevoxelize(v: VolumeState, inputs: VoxelInputs)
  {
    inputs.bakingInvalidated || inputs.alwaysRevoxelize || inputs.sceneBoundsScaleChanged
    || !v.hasTexture || inputs.voxelResolutionChanged
  }

  /** The mip dispatches of lines 894-929: dispatch `i` reads level `i` of the
      chain that starts with the volume itself. */
  function MipSchedule(resolution: nat, numMips: nat): seq<MipDispatch>
  {
    seq(numMips, i requires 0 <= i < numMips => MipDispatch(i, HalvedChain(resolution, i), HalvedChain(resolution, i + 1)))
  }

  /** The jump-flood step sizes of lines 957-967. */
  function StepSchedule(width: nat, numPasses: nat): seq<int>
  {
    seq(numPasses, i requires 0 <= i < numPasses => HalvedChain(width, i))
  }

  /** One call of VoxelizeScene. */
  function VoxelizeStep(v: VolumeState, inputs: VoxelInputs): VoxelFrame
  {
    var v2 := if !v.hasTexture || inputs.voxelResolutionChanged then VolumeFor(inputs.voxelResolution) else v;
    if !NeedsRevoxelize(v, inputs) then VoxelFrame(v2, false, [], [])
    else VoxelFrame(v2, true, MipSchedule(inputs.voxelResolution, v2.mipLevels), StepSchedule(v2.mipWidth, v2.mipLevels))
  }

  lemma {:induction false} HalvedChainStep(start: int, k: nat)
    ensures HalvedChain(start, k + 1) == Halve(HalvedChain(start, k))
    decreases k
  {
    if k > 0 {
      HalvedChainStep(Halve(start), k - 1);
    }
  }

  /** Halving from a positive start gives positive values that never increase. */
  lemma {:induction false} HalvedChainDecreases(start: int, k: nat)
    requires start >= 1
    ensures 1 <= HalvedChain(start, k + 1) <= HalvedChain(start, k)
    decreases k
  {
    if k > 0 {
      HalvedChainDecreases(Halve(start), k - 1);
    }
  }

  /** Repeated halving with a floor of 1 is one division by a power of two:
      `k` halvings of `top` give the width of mip level `k`. */
  lemma {:induction false} HalvedChainIsMipSize(top: nat, k: nat)
    requires top >= 1
    ensures HalvedChain(top, k) == MipSize(top, k)
    decreases k
  {
    if k > 0 {
      HalvedChainStep(top, k - 1);
      HalvedChainIsMipSize(top, k - 1);
      var q := top / Pow2(k - 1);
      DivDiv(top, Pow2(k - 1), 2);
      assert Pow2(k - 1) * 2 == Pow2(k);
      if q == 0 {
        assert top / Pow2(k) == 0;
      }
    }
  }

  /** The full chain from `top` has `MipLevelCount(top)` levels: the last has
      width 1 and every earlier one at least 2. */
  lemma {:induction false} FullChainEndsAtOne(top: nat)
    requires top >= 1
    ensures HalvedChain(top, MipLevelCount(top) - 1) == 1
    ensures forall k :: 0 <= k < MipLevelCount(top) - 1 ==> HalvedChain(top, k) >= 2
    decreases top
  {
    if top >= 2 {
      FullChainEndsAtOne(top / 2);
      assert Halve(top) == top / 2;
      forall k | 0 < k < MipLevelCount(top) - 1
        ensures HalvedChain(top, k) >= 2
      {
        assert HalvedChain(top, k) == HalvedChain(top / 2, k - 1);
      }
    }
  }

  /** The mip textures of a volume of resolution `r` hold exactly the full
      chain below the volume: `max(NumMipLevels(r) - 1, 1)` levels, as many as
      a full chain from their top width `max(r / 2, 1)`. */
  lemma {:induction false} MipTextureHoldsFullChain(r: nat)
    ensures VolumeFor(r).mipLevels == MipLevelCount(VolumeFor(r).mipWidth)
    ensures VolumeFor(r).mipWidth >= 1
  {
    if r >= 2 {
      assert MipLevelCount(r) == 1 + MipLevelCount(r / 2);
    }
  }

  /** Builds the mip-generation dispatches (lines 894-929), updating the
      source size as it goes. */
  method GenerateVoxelMips(resolution: nat, numMips: nat) returns (dispatches: seq<MipDispatch>)
    ensures dispatches == MipSchedule(resolution, numMips)
    ensures |dispatches| == numMips
    ensures numMips > 0 ==> dispatches[0].srcSize == resolution
    ensures forall i :: 0 <= i < numMips ==>
      dispatches[i].srcLevel == i && dispatches[i].dstSize == Max(dispatches[i].srcSize / 2, 1)
    ensures forall i :: 0 < i < numMips ==> dispatches[i].srcSize == dispatches[i - 1].dstSize
  {
    dispatches := [];
    var srcMipSize: int := resolution;
    var srcMipLevel := 0;
    while srcMipLevel < numMips
      invariant 0 <= srcMipLevel <= numMips
      invariant srcMipSize == HalvedChain(resolution, srcMipLevel)
      invariant dispatches == MipSchedule(resolution, srcMipLevel)
    {
      var dstMipSize := Max(srcMipSize / 2, 1);
      HalvedChainStep(resolution, srcMipLevel);
      dispatches := dispatches + [MipDispatch(srcMipLevel, srcMipSize, dstMipSize)];
      srcMipSize := dstMipSize;
      srcMipLevel := srcMipLevel + 1;
    }
    forall i | 0 <= i < numMips
      ensures dispatches[i].dstSize == Max(dispatches[i].srcSize / 2, 1)
    {
      HalvedChainStep(resolution, i);
    }
  }

  /** The jump-flood step sizes (lines 957-967): the step starts at `width` and
      is halved after each pass, with a floor of 1. */
  method JumpFloodSteps(width: nat, numPasses: nat) returns (steps: seq<int>)
    ensures steps == StepSchedule(width, numPasses)
    ensures |steps| == numPasses
    ensures numPasses > 0 ==> steps[0] == width
    ensures forall i :: 0 < i < numPasses ==> steps[i] == Max(steps[i - 1] / 2, 1)
  {
    steps := [];
    var stepSize: int := width;
    var i := 0;
    while i < numPasses
      invariant 0 <= i <= numPasses
      invariant stepSize == HalvedChain(width, i)
      invariant steps == StepSchedule(width, i)
    {
      steps := steps + [stepSize];
      HalvedChainStep(width, i);
      stepSize := Max(stepSize / 2, 1);
      i := i + 1;
    }
    forall i | 0 < i < numPasses
      ensures steps[i] == Max(steps[i - 1] / 2, 1)
    {
      HalvedChainStep(width, i - 1);
    }
  }

  /** A texture kept from an earlier frame was made for the current resolution. */
  predicate Coherent(v: VolumeState, inputs: VoxelInputs)
  {
    v.hasTexture && !inputs.voxelResolutionChanged ==> v == VolumeFor(inputs.voxelResolution)
  }

  /** Nothing is rebuilt, and nothing reallocated, unless one of the triggers
      holds; when one does, the resources afterwards are those for the current
      resolution. */
  lemma RebuildExactlyOnTriggers(v: VolumeState, inputs: VoxelInputs)
    requires Coherent(v, inputs)
    ensures VoxelizeStep(v, inputs).rebuilt
            <==> (inputs.bakingInvalidated || inputs.alwaysRevoxelize || inputs.sceneBoundsScaleChanged
                  || !v.hasTexture || inputs.voxelResolutionChanged)
    ensures !VoxelizeStep(v, inputs).rebuilt
            ==> VoxelizeStep(v, inputs).state == v && VoxelizeStep(v, inputs).mips == [] && VoxelizeStep(v, inputs).steps == []
    ensures VoxelizeStep(v, inputs).rebuilt ==> VoxelizeStep(v, inputs).state == VolumeFor(inputs.voxelResolution)
    ensures Coherent(VoxelizeStep(v, inputs).state, inputs)
  {
  }

  /** A rebuild runs the whole mip chain and a matching jump flood: one mip
      dispatch per level of the mip textures, dispatch `i` reading the level
      of width `MipSize(R, i)` and writing level `i` at its width, the last
      level 1 wide; and one jump-flood pass per mip level, with step sizes the
      powers of two from the mip textures' width down to 1. */
  lemma {:induction false} RebuildRunsFullChains(v: VolumeState, inputs: VoxelInputs)
    requires Coherent(v, inputs) && NeedsRevoxelize(v, inputs) && inputs.voxelResolution >= 1
    ensures var r, f := inputs.voxelResolution, VoxelizeStep(v, inputs);
      var top := Max(r / 2, 1);
      && |f.mips| == |f.steps| == MipLevelCount(top)
      && (forall i :: 0 <= i < |f.mips| ==>
            f.mips[i].srcLevel == i && f.mips[i].srcSize == MipSize(r, i) && f.mips[i].dstSize == MipSize(top, i))
      && f.mips[|f.mips| - 1].dstSize == 1
      && f.steps[0] == top
      && (forall i :: 0 <= i < |f.steps| ==> f.steps[i] == MipSize(top, i))
      && f.steps[|f.steps| - 1] == 1
  {
    var r, f := inputs.voxelResolution, VoxelizeStep(v, inputs);
    var top := Max(r / 2, 1);
    MipTextureHoldsFullChain(r);
    FullChainEndsAtOne(top);
    forall i | 0 <= i < MipLevelCount(top)
      ensures f.mips[i].srcSize == MipSize(r, i) && f.mips[i].dstSize == MipSize(top, i)
      ensures f.steps[i] == MipSize(top, i)
    {
      HalvedChainIsMipSize(r, i);
      assert HalvedChain(r, i + 1) == HalvedChain(top, i);
      HalvedChainIsMipSize(top, i);
    }
    assert HalvedChain(r, MipLevelCount(top)) == HalvedChain(top, MipLevelCount(top) - 1);
  }

  /** Voxel resolution 4: the volume is 4 wide, its mip textures hold the
      levels of width 2 and 1, the mip dispatches go 4 to 2 and 2 to 1, and
      the jump flood runs steps 2 and 1. */
  lemma ResolutionFourSchedule()
    ensures var f := VoxelizeStep(VolumeState(false, 0, 0, 0), VoxelInputs(false, false, false, false, 4));
      && f.state == VolumeState(true, 4, 2, 2)
      && f.mips == [MipDispatch(0, 4, 2), MipDispatch(1, 2, 1)]
      && f.steps == [2, 1]
  {
    var f := VoxelizeStep(VolumeState(false, 0, 0, 0), VoxelInputs(false, false, false, false, 4));
    assert MipLevelCount(4) == 3;
    assert HalvedChain(4, 2) == 1;
    assert f.mips == [MipDispatch(0, 4, 2), MipDispatch(1, 2, 1)];
    assert f.steps == [2, 1];
  }

  /** The voxel resources of the application object. */
  class VoxelVolume {
    var hasTexture: bool   // voxelRadiance.Texture != nullptr
    var resolution: nat    // voxelRadiance width
    var mipWidth: nat      // voxelRadianceMips[0].Width
    var mipLevels: nat     // voxelRadianceMips[0].NumMipLevels

    function State(): VolumeState
      reads this
    {
      VolumeState(hasTexture, resolution, mipWidth, mipLevels)
    }

    /** Before the first frame no voxel texture exists. */
    constructor ()
      ensures State() == VolumeState(false, 0, 0, 0)
    {
      hasTexture, resolution, mipWidth, mipLevels := false, 0, 0, 0;
    }

    /** One call of VoxelizeScene: reallocates the textures when needed and,
        on a rebuild, restarts the bake cursors of `baker` (lines 805-806) and
        returns the mip and jump-flood passes it ran. */
    method VoxelizeScene(inputs: VoxelInputs, baker: VoxelBake.VoxelBaker)
      returns (rebuilt: bool, mips: seq<MipDispatch>, steps: seq<int>)
      modifies this, baker
      ensures State() == VoxelizeStep(old(State()), inputs).state
      ensures rebuilt == VoxelizeStep(old(State()), inputs).rebuilt
      ensures mips == VoxelizeStep(old(State()), inputs).mips
      ensures steps == VoxelizeStep(old(State()), inputs).steps
      ensures baker.State() == if rebuilt then old(baker.State()).(pass := 0, pointOffset := 0) else old(baker.State())
      ensures baker.voxelBakeProgress == old(baker.voxelBakeProgress)
    {
      var reVoxelize := false;
      if inputs.bakingInvalidated || inputs.alwaysRevoxelize || inputs.sceneBoundsScaleChanged {
        reVoxelize := true;
      }

      if !hasTexture || inputs.voxelResolutionChanged {
        reVoxelize := true;
        var r := inputs.voxelResolution;
        hasTexture, resolution := true, r;
        mipWidth := Max(r / 2, 1);
        mipLevels := Max(MipLevelCount(r) - 1, 1);
      }

      mips, steps := [], [];
      if !reVoxelize {
        return false, mips, steps;
      }

      baker.voxelBakePass := 0;
      baker.voxelBakePointOffset := 0;

      mips := GenerateVoxelMips(inputs.voxelResolution, mipLevels);
      steps := JumpFloodSteps(mipWidth, mipLevels);
      rebuilt := true;
    }
  }
}
