/** The probe bake cursor of `RenderProbes` (BakingLab.cpp, lines 692-771): one
    probe of the `ProbeResX x ProbeResY x ProbeResZ` grid is rendered per call,
    the cursor `currProbeIdx` moving through the grid in flattened order. The
    six cube-map face renders are described by the array slices they write. */
module Probes {
  import opened Common

  /** A probe's position in the grid. */
  datatype ProbeCoord = ProbeCoord(x: nat, y: nat, z: nat)

  /** What one call reads: the grid resolution, the regenerate flag, and
      which of the watched settings changed since the last frame. */
  datatype ProbeInputs = ProbeInputs(
    probeResChanged: bool,          // ProbeResX/Y/Z.Changed()
    captureResChanged: bool,        // ProbeCubemapCaptureRes.Changed()
    bakingInvalidated: bool,        // status.BakingInvalidated
    sceneBoundsChanged: bool,       // SceneBoundsScale/SceneBoundsOffsetX/Y/Z.Changed()
    alwaysRegenerateChanged: bool,  // AlwaysRegenerateProbes.Changed()
    alwaysRegenerate: bool,         // AppSettings::AlwaysRegenerateProbes
    resX: nat, resY: nat, resZ: nat)

  /** The cross-frame state: the cursor and the probe cube-map array size. */
  datatype ProbeState = ProbeState(currProbeIdx: nat, cubeMapArraySize: nat)

  /** The rendering of one probe: its grid position and the six cube-map array
      slices its faces are rendered into. */
  datatype ProbeRender = ProbeRender(coord: ProbeCoord, slices: seq<nat>)

  /** What a call leaves behind: the new state, the progress value (`None`
      for the division by zero of line 767 with one probe, which yields
      +infinity) and the probe rendered, if any. */
  datatype ProbeFrame = ProbeFrame(state: ProbeState, progress: Option<real>, render: Option<ProbeRender>)

  function NumProbes(inputs: ProbeInputs): nat
  {
    inputs.resX * inputs.resY * inputs.resZ
  }

  predicate InGrid(c: ProbeCoord, resX: nat, resY: nat, resZ: nat)
  {
    c.x < resX && c.y < resY && c.z < resZ
  }

  /** The decomposition of lines 727-729. */
  function ProbeCoordOf(i: nat, resX: nat, resY: nat): ProbeCoord
    requires resX >= 1 && resY >= 1
  {
    ProbeCoord(i % resX, (i / resX) % resY, i / (resX * resY))
  }

  /** The flattened index of a grid position, x fastest. */
  function ProbeIndexOf(c: ProbeCoord, resX: nat, resY: nat): nat
  {
    c.x + resX * (c.y + resY * c.z)
  }

  lemma ZeroFactor(a: nat, b: nat, c: nat)
    ensures a == 0 || b == 0 || c == 0 ==> a * b * c == 0
  {
  }

  lemma PositiveFactors(a: nat, b: nat, c: nat)
    requires a * b * c >= 1
    ensures a >= 1 && b >= 1 && c >= 1
  {
    ZeroFactor(a, b, c);
  }

  /** A digit below the radix followed by higher digits below their bound
      stays below the product of the bounds. */
  lemma FlatBound(x: nat, q: nat, radix: nat, bound: nat)
    requires x < radix && q < bound
    ensures x + radix * q < radix * bound
  {
    MulMono(q, bound - 1, radix);
  }

  /** Every cursor value inside the grid decomposes into a grid position whose
      flattened index it is. */
  lemma {:induction false} ProbeCoordInGrid(i: nat, resX: nat, resY: nat, resZ: nat)
    requires i < resX * resY * resZ
    ensures resX >= 1 && resY >= 1 && resZ >= 1
    ensures InGrid(ProbeCoordOf(i, resX, resY), resX, resY, resZ)
    ensures ProbeIndexOf(ProbeCoordOf(i, resX, resY), resX, resY) == i
  {
    PositiveFactors(resX, resY, resZ);
    var q := i / resX;
    assert i == resX * q + i % resX;
    assert q == resY * (q / resY) + q % resY;
    DivDiv(i, resX, resY);
    DivBelow(i, resX * resY, resZ);
  }

  /** Every grid position has a flattened index inside the grid, which
      decomposes back into it: with `ProbeCoordInGrid`, the cursor values
      below `NumProbes` and the grid positions are in bijection. */
  lemma {:induction false} ProbeIndexInGrid(c: ProbeCoord, resX: nat, resY: nat, resZ: nat)
    requires InGrid(c, resX, resY, resZ)
    ensures ProbeIndexOf(c, resX, resY) < resX * resY * resZ
    ensures ProbeCoordOf(ProbeIndexOf(c, resX, resY), resX, resY) == c
  {
    var i := ProbeIndexOf(c, resX, resY);
    var q := c.y + resY * c.z;
    DivUnique(i, resX, q, c.x);
    DivUnique(q, resY, c.z, c.y);
    DivDiv(i, resX, resY);
    FlatBound(c.y, c.z, resY, resZ);
    FlatBound(c.x, q, resX, resY * resZ);
    assert resX * (resY * resZ) == resX * resY * resZ;
  }

  /** `currProbeIdx / (numProbes - 1.0f)` as written, after the increment; a
      division by zero (one probe) is `None`. */
  function ProbeProgressAsWritten(idx: nat, numProbes: nat): (r: Option<real>)
    ensures r.None? <==> numProbes == 1
  {
    if numProbes == 1 then None else Some(idx as real / (numProbes as real - 1.0))
  }

  /** As written, the progress reaches 1 with one probe still to render, and
      exceeds 1 on the call that renders the last one. */
  lemma {:induction false} ProbeProgressOvershoots(numProbes: nat)
    requires numProbes >= 2
    ensures ProbeProgressAsWritten(numProbes - 1, numProbes) == Some(1.0)
    ensures ProbeProgressAsWritten(numProbes, numProbes).value > 1.0
  {
    var d := numProbes as real - 1.0;
    var f := numProbes as real / d;
    assert f * d == numProbes as real;
    var g := (numProbes - 1) as real / d;
    assert g * d == d;
  }

  /** The progress line 767 evidently intends: the fraction of probes rendered. */
  function ProbeProgress(idx: nat, numProbes: nat): real
    requires numProbes >= 1
  {
    idx as real / numProbes as real
  }

  /** The fraction of probes rendered lies in [0, 1], is 1 exactly once every
      probe is rendered, and grows with the cursor. */
  lemma {:induction false} ProbeProgressInUnitRange(idx: nat, idx': nat, numProbes: nat)
    requires 1 <= numProbes && idx <= idx' <= numProbes
    ensures 0.0 <= ProbeProgress(idx, numProbes) <= 1.0
    ensures ProbeProgress(idx, numProbes) == 1.0 <==> idx == numProbes
    ensures ProbeProgress(idx, numProbes) <= ProbeProgress(idx', numProbes)
    ensures idx >= 1 ==> ProbeProgress(idx, numProbes) > 0.0
  {
    var n := numProbes as real;
    RealDivMono(idx as real, idx' as real, n);
    RealDivMono(idx' as real, n, n);
    RealDivMono(0.0, idx as real, n);
    RealDivIsOne(idx as real, n);
    if idx >= 1 {
      RealDivPositive(idx as real, n);
    }
  }

  lemma RealDivMono(a: real, b: real, n: real)
    requires n > 0.0 && a <= b
    ensures a / n <= b / n
  {
    assert (a / n) * n == a && (b / n) * n == b;
  }

  lemma RealDivIsOne(a: real, n: real)
    requires n > 0.0
    ensures a / n == 1.0 <==> a == n
  {
    assert (a / n) * n == a;
  }

  lemma RealDivPositive(a: real, n: real)
    requires n > 0.0 && a > 0.0
    ensures a / n > 0.0
  {
    assert (a / n) * n == a;
  }

  /** Some input that restarts the sweep from the first probe. */
  predicate Restarts(s: ProbeState, inputs: ProbeInputs)
  {
    inputs.probeResChanged || s.cubeMapArraySize == 0 || inputs.captureResChanged
    || inputs.bakingInvalidated || inputs.sceneBoundsChanged || inputs.alwaysRegenerateChanged
  }

  /** The six slices of probe `idx`'s faces. */
  function FaceSlices(idx: nat): seq<nat>
  {
    seq(6, i requires 0 <= i < 6 => idx * 6 + i)
  }

  /** One call of RenderProbes. */
  function ProbeStep(s: ProbeState, inputs: ProbeInputs): ProbeFrame
  {
    var n := NumProbes(inputs);
    var s1 := if inputs.probeResChanged || s.cubeMapArraySize == 0 || inputs.captureResChanged
              then ProbeState(0, n * 6) else s;
    var s2 := if inputs.bakingInvalidated || inputs.sceneBoundsChanged || inputs.alwaysRegenerateChanged
              then s1.(currProbeIdx := 0) else s1;
    if s2.currProbeIdx >= n then ProbeFrame(s2, Some(1.0), None)
    else
      PositiveFactors(inputs.resX, inputs.resY, inputs.resZ);
      var next := s2.currProbeIdx + 1;
      var render := ProbeRender(ProbeCoordOf(s2.currProbeIdx, inputs.resX, inputs.resY), FaceSlices(s2.currProbeIdx));
      var idx := if next == n && inputs.alwaysRegenerate then 0 else next;
      ProbeFrame(s2.(currProbeIdx := idx), ProbeProgressAsWritten(next, n), Some(render))
  }

  /** After any restart the call renders the first probe, at grid position
      (0, 0, 0) into slices 0 to 5, and leaves the cursor on the second (back
      on the first when a single probe is always regenerated), or renders
      nothing when the grid is empty; a reallocation sizes the cube-map array
      for six faces per probe, and the array is never left unallocated. */
  lemma RestartRendersFirstProbe(s: ProbeState, inputs: ProbeInputs)
    requires Restarts(s, inputs)
    ensures var r, n := ProbeStep(s, inputs), NumProbes(inputs);
      && (n == 0 ==> r.render == None && r.progress == Some(1.0))
      && (n >= 1 ==> r.render == Some(ProbeRender(ProbeCoord(0, 0, 0), [0, 1, 2, 3, 4, 5])))
      && (n >= 1 ==> r.state.currProbeIdx == (if inputs.alwaysRegenerate && n == 1 then 0 else 1))
      && (n >= 1 ==> r.state.cubeMapArraySize >= 1)
    ensures inputs.probeResChanged || s.cubeMapArraySize == 0 || inputs.captureResChanged
            ==> ProbeStep(s, inputs).state.cubeMapArraySize == 6 * NumProbes(inputs)
  {
    if NumProbes(inputs) >= 1 {
      PositiveFactors(inputs.resX, inputs.resY, inputs.resZ);
      FirstProbeAtOrigin(inputs.resX, inputs.resY);
      assert FaceSlices(0) == [0, 1, 2, 3, 4, 5];
    }
  }

  lemma FirstProbeAtOrigin(resX: nat, resY: nat)
    requires resX >= 1 && resY >= 1
    ensures ProbeCoordOf(0, resX, resY) == ProbeCoord(0, 0, 0)
  {
    var p := resX * resY;
    assert p >= 1 by { MulMono(1, resY, resX); }
    assert 0 / p == 0;
  }

  /** Once the cursor has passed the last probe, and nothing restarts the
      sweep, a call renders nothing, changes nothing and reports progress 1. */
  lemma FinishedSweepIsStable(s: ProbeState, inputs: ProbeInputs)
    requires !Restarts(s, inputs) && s.currProbeIdx >= NumProbes(inputs)
    ensures ProbeStep(s, inputs) == ProbeFrame(s, Some(1.0), None)
  {
  }

  /** The cube-map array holds six slices for every probe of the grid, as the
      reallocation of lines 702-714 sizes it. */
  predicate ArraySized(s: ProbeState, inputs: ProbeInputs)
  {
    s.cubeMapArraySize == 6 * NumProbes(inputs)
  }

  /** A call that reallocates the array, or finds it sized for the grid
      already, leaves it sized for the grid, and every slice the call renders
      lies inside it. */
  lemma ProbeArrayFitsGrid(s: ProbeState, inputs: ProbeInputs)
    requires ArraySized(s, inputs) || inputs.probeResChanged || s.cubeMapArraySize == 0 || inputs.captureResChanged
    ensures ArraySized(ProbeStep(s, inputs).state, inputs)
    ensures var r := ProbeStep(s, inputs);
      r.render.Some? ==> forall k :: 0 <= k < |r.render.value.slices| ==> r.render.value.slices[k] < r.state.cubeMapArraySize
  {
  }

  /** A call that renders a probe renders the one at the cursor, in the grid,
      into six slices below `6 * NumProbes`, which lie inside the cube-map
      array whenever it is sized for the grid, moves the cursor on by one
      (to 0 instead when it reaches the end and probes are always
      regenerated), and reports the progress of line 767: undefined for a
      single probe, otherwise positive, 1 exactly after the last probe but one,
      and above 1 after the last. */
  lemma {:induction false} ProbeAdvance(s: ProbeState, inputs: ProbeInputs)
    requires !Restarts(s, inputs) && s.currProbeIdx < NumProbes(inputs)
    ensures var r, n, i := ProbeStep(s, inputs), NumProbes(inputs), s.currProbeIdx;
      && r.render.Some?
      && InGrid(r.render.value.coord, inputs.resX, inputs.resY, inputs.resZ)
      && ProbeIndexOf(r.render.value.coord, inputs.resX, inputs.resY) == i
      && |r.render.value.slices| == 6
      && (forall k :: 0 <= k < 6 ==> r.render.value.slices[k] == 6 * i + k && r.render.value.slices[k] < 6 * n)
      && (ArraySized(s, inputs) ==> forall k :: 0 <= k < 6 ==> r.render.value.slices[k] < r.state.cubeMapArraySize)
      && r.state.cubeMapArraySize == s.cubeMapArraySize
      && r.state.currProbeIdx == (if i + 1 == n && inputs.alwaysRegenerate then 0 else i + 1)
      && r.progress == ProbeProgressAsWritten(i + 1, n)
      && (n == 1 ==> r.progress == None)
      && (n >= 2 ==> r.progress.Some? && r.progress.value > 0.0
                     && (r.progress.value == 1.0 <==> i + 2 == n)
                     && (i + 1 == n ==> r.progress.value > 1.0))
  {
    var n, i := NumProbes(inputs), s.currProbeIdx;
    ProbeCoordInGrid(i, inputs.resX, inputs.resY, inputs.resZ);
    if n >= 2 {
      var d := n as real - 1.0;
      RealDivPositive((i + 1) as real, d);
      RealDivIsOne((i + 1) as real, d);
      if i + 1 == n {
        RealDivAboveOne((i + 1) as real, d);
      }
    }
  }

  lemma RealDivAboveOne(a: real, n: real)
    requires n > 0.0 && a > n
    ensures a / n > 1.0
  {
    assert (a / n) * n == a;
  }

  /** The state after `k` calls with the same inputs. */
  function ProbeRun(s: ProbeState, inputs: ProbeInputs, k: nat): ProbeState
    decreases k
  {
    if k == 0 then s else ProbeRun(ProbeStep(s, inputs).state, inputs, k - 1)
  }

  /** A sweep with steady settings from cursor `c` renders probe `c + k` on
      call `k`, so every probe from `c` on exactly once, after which the
      cursor sits at the end, or back at the first probe when probes are
      always regenerated. */
  lemma {:induction false} SweepVisitsEveryProbe(s: ProbeState, inputs: ProbeInputs, k: nat)
    requires !Restarts(s, inputs) && s.currProbeIdx + k <= NumProbes(inputs)
    ensures s.currProbeIdx + k < NumProbes(inputs) ==> ProbeRun(s, inputs, k) == s.(currProbeIdx := s.currProbeIdx + k)
    ensures s.currProbeIdx + k < NumProbes(inputs) ==>
      ProbeStep(ProbeRun(s, inputs, k), inputs).render.value.coord == ProbeCoordOf(s.currProbeIdx + k, inputs.resX, inputs.resY)
    ensures s.currProbeIdx + k == NumProbes(inputs) ==>
      ProbeRun(s, inputs, k) == s.(currProbeIdx := if inputs.alwaysRegenerate && k >= 1 then 0 else NumProbes(inputs))
    decreases k
  {
    var c := s.currProbeIdx;
    if k > 0 {
      SweepVisitsEveryProbe(s, inputs, k - 1);
      ProbeRunLast(s, inputs, k - 1);
      ProbeAdvance(s.(currProbeIdx := c + k - 1), inputs);
    }
    if c + k < NumProbes(inputs) {
      ProbeAdvance(s.(currProbeIdx := c + k), inputs);
    }
  }

  /** The settings of the calls after a restart: the same grid, nothing
      changed. */
  function Quiet(inputs: ProbeInputs): ProbeInputs
  {
    inputs.(probeResChanged := false, captureResChanged := false, bakingInvalidated := false,
            sceneBoundsChanged := false, alwaysRegenerateChanged := false)
  }

  /** The sweep a restart starts: the restarting call renders probe 0 and,
      with nothing changed afterwards, the `k`-th call after it renders probe
      `k` into its six slices, so the first sweep renders every probe once. */
  lemma {:induction false} RestartSweepVisitsEveryProbe(s: ProbeState, inputs: ProbeInputs, k: nat)
    requires Restarts(s, inputs) && 1 <= k < NumProbes(inputs)
    ensures inputs.resX >= 1 && inputs.resY >= 1
    ensures ProbeStep(ProbeRun(ProbeStep(s, inputs).state, Quiet(inputs), k - 1), Quiet(inputs)).render
            == Some(ProbeRender(ProbeCoordOf(k, inputs.resX, inputs.resY), FaceSlices(k)))
  {
    PositiveFactors(inputs.resX, inputs.resY, inputs.resZ);
    RestartRendersFirstProbe(s, inputs);
    var s1 := ProbeStep(s, inputs).state;
    assert s1.currProbeIdx == 1 && !Restarts(s1, Quiet(inputs));
    SweepVisitsEveryProbe(s1, Quiet(inputs), k - 1);
  }

  lemma {:induction false} ProbeRunLast(s: ProbeState, inputs: ProbeInputs, k: nat)
    ensures ProbeRun(s, inputs, k + 1) == ProbeStep(ProbeRun(s, inputs, k), inputs).state
    decreases k
  {
    if k > 0 {
      ProbeRunLast(ProbeStep(s, inputs).state, inputs, k - 1);
    }
  }

  /** Different calls of a sweep render different probes. */
  lemma {:induction false} SweepProbesDistinct(j: nat, k: nat, inputs: ProbeInputs)
    requires j < k < NumProbes(inputs)
    ensures ProbeCoordOf(j, inputs.resX, inputs.resY) != ProbeCoordOf(k, inputs.resX, inputs.resY)
  {
    ProbeCoordInGrid(j, inputs.resX, inputs.resY, inputs.resZ);
    ProbeCoordInGrid(k, inputs.resX, inputs.resY, inputs.resZ);
  }

  /** The probe members of the application object. */
  class ProbeBaker {
    var currProbeIdx: nat
    var cubeMapArraySize: nat   // probeRadianceCubeMap.ArraySize

    function State(): ProbeState
      reads this
    {
      ProbeState(currProbeIdx, cubeMapArraySize)
    }

    /** Before the first frame no cube-map array exists. */
    constructor ()
      ensures State() == ProbeState(0, 0)
    {
      currProbeIdx, cubeMapArraySize := 0, 0;
    }

    /** The array slices the six face renders of probe `idx` write, one per
        iteration of the face loop of lines 739-760. */
    static method CubeMapSlices(idx: nat) returns (slices: seq<nat>)
      ensures slices == FaceSlices(idx)
    {
      slices := [];
      for i := 0 to 6
        invariant slices == FaceSlices(idx)[..i]
      {
        slices := slices + [idx * 6 + i];
      }
    }

    /** One call of RenderProbes: returns the progress and the probe rendered. */
    method RenderProbes(inputs: ProbeInputs) returns (progress: Option<real>, render: Option<ProbeRender>)
      modifies this
      ensures State() == ProbeStep(old(State()), inputs).state
      ensures progress == ProbeStep(old(State()), inputs).progress
      ensures render == ProbeStep(old(State()), inputs).render
    {
      var numProbes := inputs.resX * inputs.resY * inputs.resZ;

      if inputs.probeResChanged || cubeMapArraySize == 0 || inputs.captureResChanged {
        currProbeIdx := 0;
        cubeMapArraySize := numProbes * 6;
      }

      if inputs.bakingInvalidated || inputs.sceneBoundsChanged || inputs.alwaysRegenerateChanged {
        currProbeIdx := 0;
      }

      if currProbeIdx >= numProbes {
        return Some(1.0), None;
      }

      PositiveFactors(inputs.resX, inputs.resY, inputs.resZ);
      var slices := CubeMapSlices(currProbeIdx);
      render := Some(ProbeRender(ProbeCoordOf(currProbeIdx, inputs.resX, inputs.resY), slices));

      currProbeIdx := currProbeIdx + 1;
      if numProbes == 1 {
        progress := None;
      } else {
        progress := Some(currProbeIdx as real / (numProbes as real - 1.0));
      }

      if currProbeIdx == numProbes && inputs.alwaysRegenerate {
        currProbeIdx := 0;
      }
    }
  }
}
