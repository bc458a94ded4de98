/** The integer arithmetic of the time-sliced voxel bake (BakingLab.cpp,
    `BakeWithVoxels`): how many passes the sample budget needs, which window of
    samples each pass bakes, how many bake points one call dispatches, and the
    progress value derived from the two cursors. */
module BakeSchedule {
  import opened Common

  /** `numPasses`: the sample budget divided by the per-pass budget, rounded up. */
  function NumPasses(numSamples: nat, samplesPerPass: nat): nat
    requires samplesPerPass >= 1
  {
    (numSamples + (samplesPerPass - 1)) / samplesPerPass
  }

  /** The passes cover the sample budget, and one pass fewer would not. */
  lemma {:induction false} PassesCoverBudget(numSamples: nat, samplesPerPass: nat)
    requires samplesPerPass >= 1
    ensures NumPasses(numSamples, samplesPerPass) * samplesPerPass >= numSamples
    ensures var r := NumPasses(numSamples, samplesPerPass);
      r == 0 || (r - 1) * samplesPerPass < numSamples
  {
    var q := (numSamples + (samplesPerPass - 1)) / samplesPerPass;
    var m := (numSamples + (samplesPerPass - 1)) % samplesPerPass;
    assert numSamples + (samplesPerPass - 1) == samplesPerPass * q + m;
  }

  /** `BakeSampleStart`: the first sample of a pass. */
  function SampleStart(pass: nat, samplesPerPass: nat): nat
  {
    pass * samplesPerPass
  }

  /** Every pass the scheduler runs starts inside the sample budget, so the
      unsigned `numSamples - BakeSampleStart` never wraps. */
  lemma {:induction false} SampleStartInBudget(pass: nat, numSamples: nat, samplesPerPass: nat)
    requires samplesPerPass >= 1 && pass < NumPasses(numSamples, samplesPerPass)
    ensures SampleStart(pass, samplesPerPass) < numSamples
  {
    var n := NumPasses(numSamples, samplesPerPass);
    PassesCoverBudget(numSamples, samplesPerPass);
    MulMono(pass, n - 1, samplesPerPass);
  }

  /** `NumSamplesToBake`: the size of the pass's sample window; only the last
      pass may be short. */
  function SamplesToBake(pass: nat, numSamples: nat, samplesPerPass: nat): (r: nat)
    requires samplesPerPass >= 1 && pass < NumPasses(numSamples, samplesPerPass)
    ensures 1 <= r <= samplesPerPass
    ensures SampleStart(pass, samplesPerPass) + r <= numSamples
    ensures pass + 1 < NumPasses(numSamples, samplesPerPass) ==> r == samplesPerPass
  {
    SampleStartInBudget(pass, numSamples, samplesPerPass);
    SampleStartInBudget(if pass + 1 < NumPasses(numSamples, samplesPerPass) then pass + 1 else pass, numSamples, samplesPerPass);
    assert SampleStart(pass + 1, samplesPerPass) == SampleStart(pass, samplesPerPass) + samplesPerPass;
    Min(samplesPerPass, numSamples - SampleStart(pass, samplesPerPass))
  }

  /** Sample `s` lies in the window baked by pass `pass`. */
  predicate InWindow(s: nat, pass: nat, numSamples: nat, samplesPerPass: nat)
    requires samplesPerPass >= 1 && pass < NumPasses(numSamples, samplesPerPass)
  {
    SampleStart(pass, samplesPerPass) <= s < SampleStart(pass, samplesPerPass) + SamplesToBake(pass, numSamples, samplesPerPass)
  }

  /** The windows of all passes cover the sample budget exactly once: every
      sample below `numSamples` lies in the window of pass `s / samplesPerPass`
      and in no other pass's window (and, by `SamplesToBake`, no window reaches
      past the budget). */
  lemma {:induction false} WindowsPartitionSamples(s: nat, numSamples: nat, samplesPerPass: nat)
    requires samplesPerPass >= 1 && s < numSamples
    ensures s / samplesPerPass < NumPasses(numSamples, samplesPerPass)
    ensures InWindow(s, s / samplesPerPass, numSamples, samplesPerPass)
    ensures forall pass: nat :: pass < NumPasses(numSamples, samplesPerPass) && InWindow(s, pass, numSamples, samplesPerPass)
              ==> pass == s / samplesPerPass
  {
    var p, n := s / samplesPerPass, NumPasses(numSamples, samplesPerPass);
    var q := s % samplesPerPass;
    assert s == samplesPerPass * p + q;
    DivBelow(s, samplesPerPass, n);
    forall pass: nat | pass < n && InWindow(s, pass, numSamples, samplesPerPass)
      ensures pass == p
    {
      var w := SamplesToBake(pass, numSamples, samplesPerPass);
      DivUnique(s, samplesPerPass, pass, s - pass * samplesPerPass);
    }
  }

  /** The number of bake points one call dispatches: the per-call limit or,
      if fewer, the points left in the pass. The subtraction is the source's
      unsigned one, which would wrap if the offset ever passed the point count. */
  function PointsToBake(maxPoints: uint32, numPoints: uint32, offset: uint32): (r: uint32)
    ensures r <= maxPoints
    ensures offset <= numPoints ==> offset + r <= numPoints
    ensures offset <= numPoints ==> (r == maxPoints || offset + r == numPoints)
  {
    Min(maxPoints, Wrap32(numPoints - offset))
  }

  /** The progress value as the source computes it at the end of a call:
      `pass / numPasses + offset / (numPoints * numPasses)`. A division by zero
      (in the source's floating point, the NaN of 0/0 that a bake with no
      points computes) is `None`. */
  function ProgressAsWritten(pass: nat, offset: nat, numPoints: nat, numPasses: nat): (r: Option<real>)
    ensures r.None? <==> numPoints * numPasses == 0
  {
    if numPoints * numPasses == 0 then None
    else Some(pass as real / numPasses as real + offset as real / (numPoints * numPasses) as real)
  }

  /** The progress value as intended: the source's expression wherever it is
      defined, and 1.0 when there are no bake points, since an empty bake has
      nothing left to do. */
  function Progress(pass: nat, offset: nat, numPoints: nat, numPasses: nat): real
    requires numPasses >= 1
  {
    if numPoints == 0 then 1.0
    else pass as real / numPasses as real + offset as real / (numPoints * numPasses) as real
  }

  /** Position of the cursors on the scale of all `numPasses * numPoints` bake
      point visits. */
  function Rank(pass: nat, offset: nat, numPoints: nat): nat
  {
    pass * numPoints + offset
  }

  /** Wherever the guarded and the source's formulas are both defined they agree,
      and then progress is the fraction of bake-point visits done. */
  lemma {:induction false} ProgressIsVisitFraction(pass: nat, offset: nat, numPoints: nat, numPasses: nat)
    requires numPasses >= 1 && numPoints >= 1
    ensures ProgressAsWritten(pass, offset, numPoints, numPasses) == Some(Progress(pass, offset, numPoints, numPasses))
    ensures Progress(pass, offset, numPoints, numPasses)
            == Rank(pass, offset, numPoints) as real / (numPasses * numPoints) as real
  {
    var np, n := numPasses as real, numPoints as real;
    assert (numPoints * numPasses) as real == n * np;
    assert (numPasses * numPoints) as real == n * np;
    assert Rank(pass, offset, numPoints) as real == pass as real * n + offset as real;
    assert pass as real / np == (pass as real * n) / (n * np);
  }

  lemma UnitFraction(a: nat, b: nat)
    requires 1 <= b && a <= b
    ensures 0.0 <= a as real / b as real <= 1.0
    ensures a as real / b as real == 1.0 <==> a == b
  {
    var f := a as real / b as real;
    assert f * b as real == a as real;
  }

  lemma FractionMonotone(a: nat, a': nat, b: nat)
    requires 1 <= b && a <= a'
    ensures a as real / b as real <= a' as real / b as real
  {
    var f, f' := a as real / b as real, a' as real / b as real;
    assert f * b as real == a as real;
    assert f' * b as real == a' as real;
  }

  /** Progress stays in [0, 1] while the cursors are in range, and is exactly 1
      when the last pass has finished or there is nothing to bake. */
  lemma {:induction false} ProgressInUnitRange(pass: nat, offset: nat, numPoints: nat, numPasses: nat)
    requires numPasses >= 1
    requires (pass < numPasses && offset <= numPoints) || (pass == numPasses && offset == 0)
    ensures 0.0 <= Progress(pass, offset, numPoints, numPasses) <= 1.0
    ensures Progress(pass, offset, numPoints, numPasses) == 1.0
            <==> (numPoints == 0 || pass == numPasses || (pass + 1 == numPasses && offset == numPoints))
  {
    if numPoints > 0 {
      ProgressIsVisitFraction(pass, offset, numPoints, numPasses);
      var total := numPasses * numPoints;
      var rank := Rank(pass, offset, numPoints);
      if pass + 1 < numPasses {
        MulMono(pass + 1, numPasses - 1, numPoints);
        assert rank < total;
      } else if pass + 1 == numPasses {
        assert total == pass * numPoints + numPoints;
      }
      UnitFraction(rank, total);
    }
  }

  /** Progress never decreases when the cursors move forward in rank. */
  lemma {:induction false} ProgressMonotone(pass: nat, offset: nat, pass': nat, offset': nat, numPoints: nat, numPasses: nat)
    requires numPasses >= 1
    requires Rank(pass, offset, numPoints) <= Rank(pass', offset', numPoints)
    ensures Progress(pass, offset, numPoints, numPasses) <= Progress(pass', offset', numPoints, numPasses)
  {
    if numPoints > 0 {
      ProgressIsVisitFraction(pass, offset, numPoints, numPasses);
      ProgressIsVisitFraction(pass', offset', numPoints, numPasses);
      FractionMonotone(Rank(pass, offset, numPoints), Rank(pass', offset', numPoints), numPasses * numPoints);
    }
  }

  /** The number of chunks of size `chunk` that cover `n` points. */
  function Ceil(n: nat, chunk: nat): nat
    requires chunk >= 1
  {
    (n + chunk - 1) / chunk
  }

  /** One more chunk: covering `n > chunk` points takes one chunk more than
      covering the `n - chunk` that remain after it; at most `chunk` points take
      exactly one. */
  lemma {:induction false} CeilStep(n: nat, chunk: nat)
    requires chunk >= 1 && n >= 1
    ensures n <= chunk ==> Ceil(n, chunk) == 1
    ensures n > chunk ==> Ceil(n, chunk) == Ceil(n - chunk, chunk) + 1
  {
    if n <= chunk {
      DivUnique(n + chunk - 1, chunk, 1, n - 1);
    } else {
      var q, m := (n - 1) / chunk, (n - 1) % chunk;
      assert n + chunk - 1 == chunk * (q + 1) + m;
      DivUnique(n + chunk - 1, chunk, q + 1, m);
      assert n - chunk + chunk - 1 == chunk * q + m;
      DivUnique(n - 1, chunk, q, m);
    }
  }
}
