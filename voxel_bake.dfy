/** The time-sliced voxel bake of BakingLab.cpp (`BakeWithVoxels`, lines
    978-1062): two cursors, the current pass and the bake-point offset within
    it, advance by one chunk per frame; the GPU work of a frame is described by
    the commands it issues. `BakeStep` states one frame as a function of the
    cursors and the frame's inputs; `VoxelBaker.BakeWithVoxels` is the in-place
    update of the member fields, proved to follow it. */
module VoxelBake {
  import opened Common
  import opened BakeSchedule

  /** What one frame of the bake reads: application settings, their
      changed-since-last-frame flags, and what the mesh baker reports. */
  datatype BakeInputs = BakeInputs(
    bakeWithVoxels: bool,          // AppSettings::BakeWithVoxels
    samplesPerPassChanged: bool,   // AppSettings::NumSamplesPerPass.Changed()
    bakingInvalidated: bool,       // status.BakingInvalidated
    lightMapResolution: nat,       // AppSettings::LightMapResolution
    basisCount: nat,               // AppSettings::BasisCount()
    numBakeSamples: nat,           // samples per axis of the whole bake
    numSamplesPerPass: nat,        // samples per axis of one pass
    maxBakePointsPerPass: nat,     // in units of 1024 bake points
    numBakePoints: uint32,         // uint32(status.NumBakePoints)
    numGutterTexels: nat)          // status.NumGutterTexels

  /** The GPU work a frame of the bake issues, in order. */
  datatype BakeCommand =
    | CreateLightMap(resolution: nat, arraySize: nat)
    | ClearLightMap(layers: nat)
    | BakePoints(sampleStart: nat, numSamples: nat, pointOffset: nat, numPoints: nat)
    | FillGutters(numTexels: nat)

  /** The cross-frame state: the two cursors and the size the lightmap texture
      was created with. */
  datatype BakeState = BakeState(pass: nat, pointOffset: uint32, textureWidth: nat, textureArraySize: nat)

  /** What a frame leaves behind: the new state, the progress value (`None`
      for the NaN of a division by zero), the work. */
  datatype BakeFrame = BakeFrame(state: BakeState, progress: Option<real>, commands: seq<BakeCommand>)

  predicate WellFormed(inputs: BakeInputs)
  {
    inputs.bakeWithVoxels ==> inputs.numSamplesPerPass >= 1
  }

  function TotalSamples(inputs: BakeInputs): nat { inputs.numBakeSamples * inputs.numBakeSamples }

  function SamplesPerPass(inputs: BakeInputs): nat { inputs.numSamplesPerPass * inputs.numSamplesPerPass }

  function TotalPasses(inputs: BakeInputs): nat
    requires inputs.numSamplesPerPass >= 1
  {
    NumPasses(TotalSamples(inputs), SamplesPerPass(inputs))
  }

  /** The per-call bake point limit `MaxBakePointsPerPass * 1024`, stored as uint32. */
  function ChunkLimit(inputs: BakeInputs): uint32
  {
    Wrap32(inputs.maxBakePointsPerPass * 1024)
  }

  /** `max(BasisCount, 2)`: the lightmap's array size. */
  function ArraySize(inputs: BakeInputs): nat { Max(inputs.basisCount, 2) }

  predicate TextureMatches(s: BakeState, inputs: BakeInputs)
  {
    s.textureWidth == inputs.lightMapResolution && s.textureArraySize == ArraySize(inputs)
  }

  /** The state after the resets at the top of the frame: a changed sample
      count per pass or an invalidated bake restarts the cursors, and so does
      (when baking) a lightmap of the wrong size, which is recreated. */
  function ResetState(s: BakeState, inputs: BakeInputs): BakeState
  {
    var s1 := if inputs.samplesPerPassChanged || inputs.bakingInvalidated then s.(pass := 0, pointOffset := 0) else s;
    if inputs.bakeWithVoxels && !TextureMatches(s1, inputs) then
      BakeState(0, 0, inputs.lightMapResolution, ArraySize(inputs))
    else s1
  }

  /** The cursor move of a frame that bakes: the offset advances by the
      chunk just dispatched and, once it reaches the point count, the pass
      advances and the offset restarts. */
  function Advance(s: BakeState, inputs: BakeInputs): BakeState
  {
    var chunk := PointsToBake(ChunkLimit(inputs), inputs.numBakePoints, s.pointOffset);
    var offset := Wrap32(s.pointOffset + chunk);
    if offset >= inputs.numBakePoints then s.(pass := s.pass + 1, pointOffset := 0) else s.(pointOffset := offset)
  }

  /** The work and the result of a frame that bakes a chunk, from the state
      after the resets and the commands issued so far. */
  function DispatchFrame(s2: BakeState, inputs: BakeInputs, created: seq<BakeCommand>): BakeFrame
    requires inputs.numSamplesPerPass >= 1 && s2.pass < TotalPasses(inputs)
  {
    var numSamples, spp := TotalSamples(inputs), SamplesPerPass(inputs);
    var chunk := PointsToBake(ChunkLimit(inputs), inputs.numBakePoints, s2.pointOffset);
    var clear := if s2.pass == 0 && s2.pointOffset == 0 then [ClearLightMap(ArraySize(inputs))] else [];
    var bake := [BakePoints(SampleStart(s2.pass, spp), SamplesToBake(s2.pass, numSamples, spp), s2.pointOffset, chunk)];
    var gutters := if inputs.numGutterTexels > 0 then [FillGutters(inputs.numGutterTexels)] else [];
    var s3 := Advance(s2, inputs);
    BakeFrame(s3, ProgressAsWritten(s3.pass, s3.pointOffset, inputs.numBakePoints, TotalPasses(inputs)), created + clear + bake + gutters)
  }

  /** One call of BakeWithVoxels. */
  function BakeStep(s: BakeState, inputs: BakeInputs): BakeFrame
    requires WellFormed(inputs)
  {
    var s2 := ResetState(s, inputs);
    if !inputs.bakeWithVoxels then BakeFrame(s2, Some(0.0), [])
    else
      var created := if TextureMatches(s, inputs) then [] else [CreateLightMap(inputs.lightMapResolution, ArraySize(inputs))];
      if s2.pass >= TotalPasses(inputs) then BakeFrame(s2, Some(1.0), created)
      else DispatchFrame(s2, inputs, created)
  }

  /** The bake member fields of the application object. */
  class VoxelBaker {
    var voxelBakePass: nat
    var voxelBakePointOffset: uint32
    var voxelBakeProgress: Option<real>   // None stands for NaN
    var textureWidth: nat        // voxelBakeTexture.Width
    var textureArraySize: nat    // voxelBakeTexture.ArraySize

    function State(): BakeState
      reads this
    {
      BakeState(voxelBakePass, voxelBakePointOffset, textureWidth, textureArraySize)
    }

    /** Before the first frame nothing is baked and no lightmap exists. */
    constructor ()
      ensures State() == BakeState(0, 0, 0, 0) && voxelBakeProgress == Some(0.0)
    {
      voxelBakePass, voxelBakePointOffset, voxelBakeProgress := 0, 0, Some(0.0);
      textureWidth, textureArraySize := 0, 0;
    }

    /** The end of a frame that bakes: the offset moves past the chunk just
        dispatched, and on reaching the point count the next pass starts. */
    method AdvanceCursors(inputs: BakeInputs, numPointsToBake: uint32)
      requires numPointsToBake == PointsToBake(ChunkLimit(inputs), inputs.numBakePoints, voxelBakePointOffset)
      modifies this
      ensures State() == Advance(old(State()), inputs)
      ensures voxelBakeProgress == old(voxelBakeProgress)
    {
      voxelBakePointOffset := Wrap32(voxelBakePointOffset + numPointsToBake);
      if voxelBakePointOffset >= inputs.numBakePoints {
        voxelBakePass := voxelBakePass + 1;
        voxelBakePointOffset := 0;
      }
    }

    /** One frame of the bake: updates the cursors and the progress in place
        and returns the GPU work it issued. */
    method BakeWithVoxels(inputs: BakeInputs) returns (commands: seq<BakeCommand>)
      requires WellFormed(inputs)
      modifies this
      ensures State() == BakeStep(old(State()), inputs).state
      ensures voxelBakeProgress == BakeStep(old(State()), inputs).progress
      ensures commands == BakeStep(old(State()), inputs).commands
    {
      ghost var s := State();
      commands := [];
      voxelBakeProgress := Some(0.0);

      if inputs.samplesPerPassChanged || inputs.bakingInvalidated {
        voxelBakePass := 0;
        voxelBakePointOffset := 0;
      }

      if !inputs.bakeWithVoxels {
        return;
      }

      var resolution := inputs.lightMapResolution;
      var arraySize := Max(inputs.basisCount, 2);
      if textureWidth != resolution || textureArraySize != arraySize {
        commands := commands + [CreateLightMap(resolution, arraySize)];
        textureWidth, textureArraySize := resolution, arraySize;
        voxelBakePass := 0;
        voxelBakePointOffset := 0;
      }

      ghost var s2 := ResetState(s, inputs);
      assert State() == s2;
      ghost var created := commands;

      var numPasses := NumPasses(TotalSamples(inputs), SamplesPerPass(inputs));
      if voxelBakePass >= numPasses {
        voxelBakeProgress := Some(1.0);
        assert BakeStep(s, inputs) == BakeFrame(s2, Some(1.0), created);
        return;
      }
      commands := BakeChunk(inputs, commands);
    }

    /** The part of a frame that bakes: clears the lightmap at the start of
        the session, dispatches the chunk at the cursors, fills the gutters,
        moves the cursors on and sets the progress. */
    method BakeChunk(inputs: BakeInputs, created: seq<BakeCommand>) returns (commands: seq<BakeCommand>)
      requires inputs.numSamplesPerPass >= 1 && voxelBakePass < TotalPasses(inputs) && TextureMatches(State(), inputs)
      modifies this
      ensures BakeFrame(State(), voxelBakeProgress, commands) == DispatchFrame(old(State()), inputs, created)
    {
      ghost var s2 := State();
      commands := created;
      var numSamples := TotalSamples(inputs);
      var numSamplesPerPass := SamplesPerPass(inputs);
      var numPasses := NumPasses(numSamples, numSamplesPerPass);
      var numPointsToBake := PointsToBake(ChunkLimit(inputs), inputs.numBakePoints, voxelBakePointOffset);

      if voxelBakePass == 0 && voxelBakePointOffset == 0 {
        commands := commands + [ClearLightMap(textureArraySize)];
      }

      var bakeSampleStart := SampleStart(voxelBakePass, numSamplesPerPass);
      var numSamplesToBake := SamplesToBake(voxelBakePass, numSamples, numSamplesPerPass);
      commands := commands + [BakePoints(bakeSampleStart, numSamplesToBake, voxelBakePointOffset, numPointsToBake)];

      if inputs.numGutterTexels > 0 {
        commands := commands + [FillGutters(inputs.numGutterTexels)];
      }

      AdvanceCursors(inputs, numPointsToBake);
      voxelBakeProgress := ProgressAsWritten(voxelBakePass, voxelBakePointOffset, inputs.numBakePoints, numPasses);
      assert DispatchFrame(s2, inputs, created) == BakeFrame(State(), voxelBakeProgress, commands);
    }
  }

  /** The frame issues a clear of the lightmap. */
  predicate ClearsLightMap(commands: seq<BakeCommand>)
  {
    exists k :: 0 <= k < |commands| && commands[k].ClearLightMap?
  }

  /** The frame dispatches a chunk of bake points. */
  predicate DispatchesBake(commands: seq<BakeCommand>)
  {
    exists k :: 0 <= k < |commands| && commands[k].BakePoints?
  }

  /** The cursors restart from zero on any of the triggers at the top of the
      frame (a changed samples-per-pass setting, an invalidated bake, a lightmap
      of the wrong size), and are left as they were otherwise; in particular a
      change of the total sample count alone does not restart the bake. */
  lemma ResetsExactlyOnTriggers(s: BakeState, inputs: BakeInputs)
    ensures inputs.samplesPerPassChanged || inputs.bakingInvalidated || (inputs.bakeWithVoxels && !TextureMatches(s, inputs))
            ==> ResetState(s, inputs).pass == 0 && ResetState(s, inputs).pointOffset == 0
    ensures !(inputs.samplesPerPassChanged || inputs.bakingInvalidated || (inputs.bakeWithVoxels && !TextureMatches(s, inputs)))
            ==> ResetState(s, inputs) == s
    ensures inputs.bakeWithVoxels ==> TextureMatches(ResetState(s, inputs), inputs)
  {
  }

  /** With baking switched off the frame reports progress 0 and issues no work;
      only the flag-driven reset of the cursors takes effect. */
  lemma DisabledBakeDoesNothing(s: BakeState, inputs: BakeInputs)
    requires WellFormed(inputs) && !inputs.bakeWithVoxels
    ensures BakeStep(s, inputs).progress == Some(0.0) && BakeStep(s, inputs).commands == []
    ensures BakeStep(s, inputs).state.textureWidth == s.textureWidth
    ensures BakeStep(s, inputs).state.textureArraySize == s.textureArraySize
  {
  }

  /** Once every pass is done the frame reports progress 1, leaves the cursors
      where the resets put them, and dispatches no bake work. */
  lemma CompletedBakeIsStable(s: BakeState, inputs: BakeInputs)
    requires WellFormed(inputs) && inputs.bakeWithVoxels
    requires ResetState(s, inputs).pass >= TotalPasses(inputs)
    ensures BakeStep(s, inputs).state == ResetState(s, inputs)
    ensures BakeStep(s, inputs).progress == Some(1.0)
    ensures !DispatchesBake(BakeStep(s, inputs).commands) && !ClearsLightMap(BakeStep(s, inputs).commands)
  {
  }

  /** The lightmap layers are cleared in a frame exactly when that frame
      dispatches bake work with both cursors at zero; `SessionClearsOnce`
      shows that within a session this is its first frame only. */
  lemma {:induction false} ClearsExactlyAtSessionStart(s: BakeState, inputs: BakeInputs)
    requires WellFormed(inputs) && inputs.bakeWithVoxels
    ensures ClearsLightMap(BakeStep(s, inputs).commands)
            <==> (ResetState(s, inputs).pass < TotalPasses(inputs)
                  && ResetState(s, inputs).pass == 0 && ResetState(s, inputs).pointOffset == 0)
  {
    var e := ResetState(s, inputs);
    var cmds := BakeStep(s, inputs).commands;
    var created := if TextureMatches(s, inputs) then [] else [CreateLightMap(inputs.lightMapResolution, ArraySize(inputs))];
    if e.pass < TotalPasses(inputs) && e.pass == 0 && e.pointOffset == 0 {
      assert cmds[|created|].ClearLightMap?;
    }
  }

  /** A frame that bakes dispatches the window of samples of the current pass
      for the current chunk of bake points, and then either stays in the pass
      with the offset advanced by the chunk, or, having reached the last bake
      point, moves to the next pass and restarts the offset. The offset never
      passes the point count, so the unsigned subtractions never wrap. */
  lemma {:induction false} ChunkAdvance(s: BakeState, inputs: BakeInputs)
    requires WellFormed(inputs) && inputs.bakeWithVoxels
    requires ResetState(s, inputs).pass < TotalPasses(inputs)
    requires ResetState(s, inputs).pointOffset <= inputs.numBakePoints
    ensures var e, r := ResetState(s, inputs), BakeStep(s, inputs);
      var chunk := Min(ChunkLimit(inputs), inputs.numBakePoints - e.pointOffset);
      && BakePoints(SampleStart(e.pass, SamplesPerPass(inputs)), SamplesToBake(e.pass, TotalSamples(inputs), SamplesPerPass(inputs)),
                    e.pointOffset, chunk) in r.commands
      && r.state.pointOffset <= inputs.numBakePoints
      && r.state.textureWidth == e.textureWidth && r.state.textureArraySize == e.textureArraySize
      && ((e.pointOffset + chunk < inputs.numBakePoints
           && r.state.pass == e.pass && r.state.pointOffset == e.pointOffset + chunk)
          || (e.pointOffset + chunk == inputs.numBakePoints
              && r.state.pass == e.pass + 1 && r.state.pointOffset == 0))
  {
    var e := ResetState(s, inputs);
    var cmds := BakeStep(s, inputs).commands;
    var chunk := PointsToBake(ChunkLimit(inputs), inputs.numBakePoints, e.pointOffset);
    assert chunk == Min(ChunkLimit(inputs), inputs.numBakePoints - e.pointOffset);
    var created := if TextureMatches(s, inputs) then [] else [CreateLightMap(inputs.lightMapResolution, ArraySize(inputs))];
    var clear := if e.pass == 0 && e.pointOffset == 0 then [ClearLightMap(ArraySize(inputs))] else [];
    assert cmds[|created| + |clear|].BakePoints?;
  }

  /** The work of a frame that bakes comes in the source's order: the
      lightmap's creation and its clear, if any, come before the dispatch of
      the chunk, which is the frame's only dispatch, and the dispatch is
      followed by the gutter fill when there are gutter texels and by nothing
      otherwise. */
  lemma {:induction false} FrameWorkOrder(s: BakeState, inputs: BakeInputs) returns (k: nat)
    requires WellFormed(inputs) && inputs.bakeWithVoxels && ResetState(s, inputs).pass < TotalPasses(inputs)
    ensures var cmds := BakeStep(s, inputs).commands;
      && k < |cmds| && cmds[k].BakePoints?
      && (forall j :: 0 <= j < |cmds| && (cmds[j].ClearLightMap? || cmds[j].CreateLightMap?) ==> j < k)
      && (forall j :: 0 <= j < |cmds| && cmds[j].BakePoints? ==> j == k)
      && |cmds| == k + (if inputs.numGutterTexels > 0 then 2 else 1)
      && (inputs.numGutterTexels > 0 ==> cmds[k + 1] == FillGutters(inputs.numGutterTexels))
  {
    var e := ResetState(s, inputs);
    var created := if TextureMatches(s, inputs) then [] else [CreateLightMap(inputs.lightMapResolution, ArraySize(inputs))];
    var clear := if e.pass == 0 && e.pointOffset == 0 then [ClearLightMap(ArraySize(inputs))] else [];
    k := |created| + |clear|;
  }

  /** A frame with no bake points dispatches an empty chunk and moves straight
      to the next pass, whatever the offset was. */
  lemma EmptyBakeAdvancesOnePassPerCall(s: BakeState, inputs: BakeInputs)
    requires WellFormed(inputs) && inputs.bakeWithVoxels && inputs.numBakePoints == 0
    requires ResetState(s, inputs).pass < TotalPasses(inputs)
    ensures BakeStep(s, inputs).state == ResetState(s, inputs).(pass := ResetState(s, inputs).pass + 1, pointOffset := 0)
  {
  }

  /** Settings that do not restart the bake from frame to frame. */
  predicate Steady(inputs: BakeInputs)
  {
    inputs.bakeWithVoxels && inputs.numSamplesPerPass >= 1
    && !inputs.samplesPerPassChanged && !inputs.bakingInvalidated
  }

  /** The state after `k` frames with the same inputs. */
  function Run(s: BakeState, inputs: BakeInputs, k: nat): BakeState
    requires WellFormed(inputs)
    decreases k
  {
    if k == 0 then s else Run(BakeStep(s, inputs).state, inputs, k - 1)
  }

  /** The cursor move of one frame under steady settings: none once complete. */
  function SteadyNext(s: BakeState, inputs: BakeInputs): BakeState
    requires Steady(inputs)
  {
    if s.pass >= TotalPasses(inputs) then s else Advance(s, inputs)
  }

  function SteadyRun(s: BakeState, inputs: BakeInputs, k: nat): BakeState
    requires Steady(inputs)
    decreases k
  {
    if k == 0 then s else SteadyRun(SteadyNext(s, inputs), inputs, k - 1)
  }

  /** Under steady settings, with the lightmap already of the right size, a
      frame performs no reset: it moves the cursors by `SteadyNext` and reports
      the progress of where they end up. */
  lemma SteadyFrame(s: BakeState, inputs: BakeInputs)
    requires Steady(inputs) && TextureMatches(s, inputs)
    ensures BakeStep(s, inputs).state == SteadyNext(s, inputs)
    ensures BakeStep(s, inputs).progress
            == if s.pass >= TotalPasses(inputs) then Some(1.0)
               else ProgressAsWritten(Advance(s, inputs).pass, Advance(s, inputs).pointOffset, inputs.numBakePoints, TotalPasses(inputs))
  {
    assert ResetState(s, inputs) == s;
  }

  lemma {:induction false} RunIsSteadyRun(s: BakeState, inputs: BakeInputs, k: nat)
    requires Steady(inputs) && TextureMatches(s, inputs)
    ensures Run(s, inputs, k) == SteadyRun(s, inputs, k)
    ensures TextureMatches(SteadyRun(s, inputs, k), inputs)
    decreases k
  {
    if k > 0 {
      SteadyFrame(s, inputs);
      RunIsSteadyRun(SteadyNext(s, inputs), inputs, k - 1);
    }
  }

  lemma {:induction false} SteadyRunSplit(s: BakeState, inputs: BakeInputs, a: nat, b: nat)
    requires Steady(inputs)
    ensures SteadyRun(s, inputs, a + b) == SteadyRun(SteadyRun(s, inputs, a), inputs, b)
    decreases a
  {
    if a > 0 {
      SteadyRunSplit(SteadyNext(s, inputs), inputs, a - 1, b);
    }
  }

  /** A baking frame moves the cursors forward in rank and keeps them in
      range: the offset stays at most the point count and the pass at most the
      pass count. */
  lemma {:induction false} AdvanceInRange(t: BakeState, inputs: BakeInputs)
    requires Steady(inputs)
    requires t.pass < TotalPasses(inputs) && t.pointOffset <= inputs.numBakePoints
    ensures var u, n := Advance(t, inputs), inputs.numBakePoints;
      && u.pointOffset <= n && u.textureWidth == t.textureWidth && u.textureArraySize == t.textureArraySize
      && (u.pass < TotalPasses(inputs) || (u.pass == TotalPasses(inputs) && u.pointOffset == 0))
      && (n == 0 ==> u.pass == t.pass + 1)
      && Rank(t.pass, t.pointOffset, n) <= Rank(u.pass, u.pointOffset, n)
  {
    var n := inputs.numBakePoints;
    assert Rank(t.pass + 1, 0, n) == Rank(t.pass, 0, n) + n;
  }

  /** Over a bake with at least one bake point and steady settings, every
      frame reports a defined progress in [0, 1] that never decreases from one
      frame to the next. */
  lemma {:induction false} ProgressNeverDecreases(s: BakeState, inputs: BakeInputs)
    requires Steady(inputs) && TextureMatches(s, inputs) && inputs.numBakePoints >= 1
    requires s.pointOffset <= inputs.numBakePoints
    ensures var r := BakeStep(s, inputs);
      && r.progress.Some? && BakeStep(r.state, inputs).progress.Some?
      && 0.0 <= r.progress.value <= 1.0
      && r.progress.value <= BakeStep(r.state, inputs).progress.value
  {
    var np := TotalPasses(inputs);
    var n := inputs.numBakePoints;
    SteadyFrame(s, inputs);
    if s.pass < np {
      AdvanceInRange(s, inputs);
      var t := Advance(s, inputs);
      ProgressIsVisitFraction(t.pass, t.pointOffset, n, np);
      ProgressInUnitRange(t.pass, t.pointOffset, n, np);
      SteadyFrame(t, inputs);
      if t.pass < np {
        AdvanceInRange(t, inputs);
        var u := Advance(t, inputs);
        ProgressIsVisitFraction(u.pass, u.pointOffset, n, np);
        ProgressMonotone(t.pass, t.pointOffset, u.pass, u.pointOffset, n, np);
      }
    }
  }

  /** One pass with steady settings: from offset `o < N` the pass ends after
      `ceil((N - o) / C)` frames, each baking in the same pass, with the offset
      below N in between. */
  lemma {:induction false} PassCompletes(s: BakeState, inputs: BakeInputs)
    requires Steady(inputs) && ChunkLimit(inputs) >= 1
    requires s.pass < TotalPasses(inputs) && s.pointOffset < inputs.numBakePoints
    ensures var c := Ceil(inputs.numBakePoints - s.pointOffset, ChunkLimit(inputs));
      && SteadyRun(s, inputs, c) == s.(pass := s.pass + 1, pointOffset := 0)
      && forall k :: 0 <= k < c ==>
           (SteadyRun(s, inputs, k).pass == s.pass && SteadyRun(s, inputs, k).pointOffset < inputs.numBakePoints)
    decreases inputs.numBakePoints - s.pointOffset
  {
    var n, lim := inputs.numBakePoints - s.pointOffset, ChunkLimit(inputs);
    var c := Ceil(n, lim);
    CeilStep(n, lim);
    var t := Advance(s, inputs);
    if n <= lim {
      assert SteadyRun(s, inputs, 1) == SteadyRun(t, inputs, 0) == t;
    } else {
      assert t == s.(pointOffset := s.pointOffset + lim);
      PassCompletes(t, inputs);
      forall k | 0 <= k < c
        ensures SteadyRun(s, inputs, k).pass == s.pass && SteadyRun(s, inputs, k).pointOffset < inputs.numBakePoints
      {
        if k > 0 {
          assert SteadyRun(s, inputs, k) == SteadyRun(t, inputs, k - 1);
        }
      }
    }
  }

  /** The cursors lie strictly inside the bake (pass below the pass count,
      offset below the point count) for the first `k` frames from `s`. */
  predicate InsideFor(s: BakeState, inputs: BakeInputs, k: nat)
    requires Steady(inputs)
  {
    forall j :: 0 <= j < k ==>
      (SteadyRun(s, inputs, j).pass < TotalPasses(inputs) && SteadyRun(s, inputs, j).pointOffset < inputs.numBakePoints)
  }

  lemma {:induction false} InsideForConcat(s: BakeState, inputs: BakeInputs, a: nat, b: nat)
    requires Steady(inputs)
    requires InsideFor(s, inputs, a) && InsideFor(SteadyRun(s, inputs, a), inputs, b)
    ensures InsideFor(s, inputs, a + b)
  {
    forall j | a <= j < a + b
      ensures SteadyRun(s, inputs, j).pass < TotalPasses(inputs) && SteadyRun(s, inputs, j).pointOffset < inputs.numBakePoints
    {
      SteadyRunSplit(s, inputs, a, j - a);
    }
  }

  /** A whole pass from its start, in the terms `PassesComplete`
      chains together. */
  lemma {:induction false} WholePass(s: BakeState, inputs: BakeInputs)
    requires Steady(inputs) && ChunkLimit(inputs) >= 1 && inputs.numBakePoints >= 1
    requires s.pass < TotalPasses(inputs) && s.pointOffset == 0
    ensures var c := Ceil(inputs.numBakePoints, ChunkLimit(inputs));
      SteadyRun(s, inputs, c) == s.(pass := s.pass + 1) && InsideFor(s, inputs, c)
  {
    PassCompletes(s, inputs);
  }

  /** `m` further passes with steady settings: from the start of a pass,
      `m * ceil(N / C)` frames later the bake is `m` passes further on, at
      the start of that pass, and the cursors stay inside the bake before that. */
  lemma {:induction false} PassesComplete(s: BakeState, inputs: BakeInputs, m: nat)
    requires Steady(inputs) && ChunkLimit(inputs) >= 1 && inputs.numBakePoints >= 1
    requires s.pass + m <= TotalPasses(inputs) && s.pointOffset == 0
    ensures var frames := m * Ceil(inputs.numBakePoints, ChunkLimit(inputs));
      && SteadyRun(s, inputs, frames) == s.(pass := s.pass + m)
      && InsideFor(s, inputs, frames)
    decreases m
  {
    if m > 0 {
      var c := Ceil(inputs.numBakePoints, ChunkLimit(inputs));
      WholePass(s, inputs);
      var t := s.(pass := s.pass + 1);
      PassesComplete(t, inputs, m - 1);
      MulSucc(m - 1, c);
      SteadyRunSplit(s, inputs, c, (m - 1) * c);
      InsideForConcat(s, inputs, c, (m - 1) * c);
    }
  }

  /** A whole bake session with steady settings: started with both cursors at
      zero (and the lightmap of the right size), it takes exactly
      `numPasses * ceil(N / C)` frames that bake, the last of which reports
      progress 1 while every earlier one reports less. */
  lemma {:induction false} SessionTakesExactFrames(s: BakeState, inputs: BakeInputs)
    requires Steady(inputs) && TextureMatches(s, inputs) && ChunkLimit(inputs) >= 1 && inputs.numBakePoints >= 1
    requires s.pass == 0 && s.pointOffset == 0
    ensures var frames := TotalPasses(inputs) * Ceil(inputs.numBakePoints, ChunkLimit(inputs));
      && Run(s, inputs, frames).pass == TotalPasses(inputs)
      && (forall k :: 0 <= k < frames ==> Run(s, inputs, k).pass < TotalPasses(inputs))
      && (frames > 0 ==> BakeStep(Run(s, inputs, frames - 1), inputs).progress == Some(1.0))
      && (forall k :: 0 <= k < frames - 1 ==>
            BakeStep(Run(s, inputs, k), inputs).progress.Some? && BakeStep(Run(s, inputs, k), inputs).progress.value < 1.0)
  {
    var np, n := TotalPasses(inputs), inputs.numBakePoints;
    var frames := np * Ceil(n, ChunkLimit(inputs));
    PassesComplete(s, inputs, np);
    RunIsSteadyRun(s, inputs, frames);
    assert InsideFor(s, inputs, frames);
    forall k | 0 <= k < frames
      ensures Run(s, inputs, k).pass < np
      ensures BakeStep(Run(s, inputs, k), inputs).progress
              == Some(Progress(SteadyRun(s, inputs, k + 1).pass, SteadyRun(s, inputs, k + 1).pointOffset, n, np))
    {
      RunIsSteadyRun(s, inputs, k);
      var t := SteadyRun(s, inputs, k);
      SteadyFrame(t, inputs);
      SteadyRunSplit(s, inputs, k, 1);
      assert SteadyRun(t, inputs, 1) == Advance(t, inputs);
      ProgressIsVisitFraction(Advance(t, inputs).pass, Advance(t, inputs).pointOffset, n, np);
    }
    if frames > 0 {
      ProgressInUnitRange(np, 0, n, np);
    }
    forall k | 0 <= k < frames - 1
      ensures BakeStep(Run(s, inputs, k), inputs).progress.Some? && BakeStep(Run(s, inputs, k), inputs).progress.value < 1.0
    {
      var t := SteadyRun(s, inputs, k + 1);
      ProgressInUnitRange(t.pass, t.pointOffset, n, np);
    }
  }

  /** A frame that bakes a chunk of at least one point strictly raises the
      rank of the cursors. */
  lemma {:induction false} AdvanceRaisesRank(t: BakeState, inputs: BakeInputs)
    requires Steady(inputs) && ChunkLimit(inputs) >= 1
    requires t.pass < TotalPasses(inputs) && t.pointOffset < inputs.numBakePoints
    ensures Rank(t.pass, t.pointOffset, inputs.numBakePoints)
            < Rank(Advance(t, inputs).pass, Advance(t, inputs).pointOffset, inputs.numBakePoints)
  {
    var n := inputs.numBakePoints;
    assert Rank(t.pass + 1, 0, n) == Rank(t.pass, 0, n) + n;
  }

  /** While the cursors stay inside the bake, each steady frame raises their
      rank by at least one. */
  lemma {:induction false} RankGrows(s: BakeState, inputs: BakeInputs, k: nat)
    requires Steady(inputs) && ChunkLimit(inputs) >= 1 && InsideFor(s, inputs, k)
    ensures Rank(s.pass, s.pointOffset, inputs.numBakePoints) + k
            <= Rank(SteadyRun(s, inputs, k).pass, SteadyRun(s, inputs, k).pointOffset, inputs.numBakePoints)
    decreases k
  {
    if k > 0 {
      assert SteadyRun(s, inputs, 0) == s;
      var t := SteadyNext(s, inputs);
      AdvanceRaisesRank(s, inputs);
      assert InsideFor(t, inputs, k - 1) by {
        forall j | 0 <= j < k - 1
          ensures SteadyRun(t, inputs, j).pass < TotalPasses(inputs) && SteadyRun(t, inputs, j).pointOffset < inputs.numBakePoints
        {
          assert SteadyRun(s, inputs, j + 1) == SteadyRun(t, inputs, j);
        }
      }
      RankGrows(t, inputs, k - 1);
    }
  }

  /** Over a whole steady session from both cursors at zero, the lightmap is
      cleared on the first frame and on no other frame before completion. */
  lemma {:induction false} SessionClearsOnce(s: BakeState, inputs: BakeInputs, k: nat)
    requires Steady(inputs) && TextureMatches(s, inputs) && ChunkLimit(inputs) >= 1 && inputs.numBakePoints >= 1
    requires s.pass == 0 && s.pointOffset == 0
    requires k < TotalPasses(inputs) * Ceil(inputs.numBakePoints, ChunkLimit(inputs))
    ensures ClearsLightMap(BakeStep(Run(s, inputs, k), inputs).commands) <==> k == 0
  {
    var frames := TotalPasses(inputs) * Ceil(inputs.numBakePoints, ChunkLimit(inputs));
    PassesComplete(s, inputs, TotalPasses(inputs));
    RunIsSteadyRun(s, inputs, k);
    var t := SteadyRun(s, inputs, k);
    assert InsideFor(s, inputs, k) by {
      forall j | 0 <= j < k
        ensures SteadyRun(s, inputs, j).pass < TotalPasses(inputs) && SteadyRun(s, inputs, j).pointOffset < inputs.numBakePoints
      {
        assert j < frames;
      }
    }
    RankGrows(s, inputs, k);
    assert t.pass < TotalPasses(inputs) by {
      assert k < frames;
    }
    ResetsExactlyOnTriggers(t, inputs);
    ClearsExactlyAtSessionStart(t, inputs);
  }

  /** A bake of 4 x 4 samples, 2 x 2 per pass, over 100 bake points with a
      limit of 50 * 1024 points per call: four passes of one chunk each, so
      the session completes on its fourth frame. With 102400 bake points the
      passes take two chunks each and the session completes on its eighth. */
  lemma {:induction false} ExampleSessions(s: BakeState)
    requires s == BakeState(0, 0, 256, 2)
    ensures var inputs := BakeInputs(true, false, false, 256, 1, 4, 2, 50, 100, 0);
      && TotalPasses(inputs) == 4
      && Run(s, inputs, 4).pass == 4
      && BakeStep(Run(s, inputs, 3), inputs).progress == Some(1.0)
      && forall k :: 0 <= k < 3 ==>
           BakeStep(Run(s, inputs, k), inputs).progress.Some? && BakeStep(Run(s, inputs, k), inputs).progress.value < 1.0
    ensures var inputs := BakeInputs(true, false, false, 256, 1, 4, 2, 50, 102400, 0);
      && Run(s, inputs, 8).pass == 4
      && BakeStep(Run(s, inputs, 7), inputs).progress == Some(1.0)
      && forall k :: 0 <= k < 7 ==>
           BakeStep(Run(s, inputs, k), inputs).progress.Some? && BakeStep(Run(s, inputs, k), inputs).progress.value < 1.0
  {
    var small := BakeInputs(true, false, false, 256, 1, 4, 2, 50, 100, 0);
    var large := BakeInputs(true, false, false, 256, 1, 4, 2, 50, 102400, 0);
    assert TotalPasses(small) == 4 && TotalPasses(large) == 4;
    assert ChunkLimit(small) == 51200;
    assert Ceil(100, 51200) == 1;
    assert Ceil(102400, 51200) == 2;
    SessionTakesExactFrames(s, small);
    SessionTakesExactFrames(s, large);
  }

  /** With no bake points and steady settings, each frame from a pass start
      moves on exactly one pass. */
  lemma {:induction false} EmptyPasses(s: BakeState, inputs: BakeInputs, k: nat)
    requires Steady(inputs) && inputs.numBakePoints == 0
    requires s.pointOffset == 0 && s.pass + k <= TotalPasses(inputs)
    ensures SteadyRun(s, inputs, k) == s.(pass := s.pass + k)
    decreases k
  {
    if k > 0 {
      assert Advance(s, inputs) == s.(pass := s.pass + 1);
      EmptyPasses(s.(pass := s.pass + 1), inputs, k - 1);
    }
  }

  /** A session over no bake points, with steady settings: each of the first
      `numPasses` frames dispatches an empty chunk and reports the 0/0 of the
      source's progress expression; only the frame after the last pass reports
      1.0. */
  lemma {:induction false} EmptyBakeSession(s: BakeState, inputs: BakeInputs)
    requires Steady(inputs) && TextureMatches(s, inputs) && inputs.numBakePoints == 0
    requires s.pass == 0 && s.pointOffset == 0
    ensures forall k :: 0 <= k < TotalPasses(inputs) ==>
      BakeStep(Run(s, inputs, k), inputs).progress == None && DispatchesBake(BakeStep(Run(s, inputs, k), inputs).commands)
    ensures Run(s, inputs, TotalPasses(inputs)).pass == TotalPasses(inputs)
    ensures BakeStep(Run(s, inputs, TotalPasses(inputs)), inputs).progress == Some(1.0)
  {
    var np := TotalPasses(inputs);
    forall k | 0 <= k < np
      ensures BakeStep(Run(s, inputs, k), inputs).progress == None
      ensures DispatchesBake(BakeStep(Run(s, inputs, k), inputs).commands)
    {
      RunIsSteadyRun(s, inputs, k);
      EmptyPasses(s, inputs, k);
      var t := s.(pass := k);
      SteadyFrame(t, inputs);
      ChunkAdvance(t, inputs);
    }
    RunIsSteadyRun(s, inputs, np);
    EmptyPasses(s, inputs, np);
    SteadyFrame(s.(pass := np), inputs);
  }
}
