/**
 * Trial scoring at teardown: the planar distance walked by the tracked
 * segment (or -1 for an aborted trial), the energy the motors spent reeling
 * cable in, and the records appended to the parameter file.
 */
module Scoring {
  import opened Common

  /** The tension and rest-length samples a cable actuator records, one per step. */
  datatype CableHistory = CableHistory(tensions: seq<real>, restLengths: seq<real>)
  {
    /** A rest length was recorded for every tension sample. */
    predicate Recorded() { |tensions| <= |restLengths| }
  }

  /**
   * Work attributed to one step: the previous tension times the change of
   * rest length, where lengthening the cable counts as no motion at all.
   */
  function StepWork(prevTension: real, prevLength: real, curLength: real): (w: real)
  {
    var motorSpeed := curLength - prevLength;
    prevTension * (if motorSpeed > 0.0 then 0.0 else motorSpeed)
  }

  /** Work of steps 1 .. n-1 of one history. */
  function HistoryEnergy(h: CableHistory, n: nat): real
    requires h.Recorded() && n <= |h.tensions|
  {
    if n <= 1 then 0.0
    else HistoryEnergy(h, n - 1) + StepWork(h.tensions[n - 2], h.restLengths[n - 2], h.restLengths[n - 1])
  }

  /** Total energy of a set of cables: the sum over cables of the work of all their steps. */
  function Energy(hs: seq<CableHistory>): real
    requires forall h <- hs :: h.Recorded()
  {
    if hs == [] then 0.0
    else Energy(hs[..|hs| - 1]) + HistoryEnergy(hs[|hs| - 1], |hs[|hs| - 1].tensions|)
  }

  /**
   * The energy loop of every onTeardown: for each cable, for each sample
   * after the first, add the work of that step.
   */
  method TotalEnergy(hs: seq<CableHistory>) returns (energy: real)
    requires forall h <- hs :: h.Recorded()
    ensures energy == Energy(hs)
  {
    energy := 0.0;
    var i := 0;
    while i < |hs|
      invariant 0 <= i <= |hs|
      invariant energy == Energy(hs[..i])
    {
      var h := hs[i];
      assert h in hs;
      ghost var before := energy;
      var j := 1;
      while j < |h.tensions|
        invariant 1 <= j <= |h.tensions| || (j == 1 && |h.tensions| <= 1)
        invariant energy == before + HistoryEnergy(h, if |h.tensions| == 0 then 0 else j)
      {
        var previousTension := h.tensions[j - 1];
        var previousLength := h.restLengths[j - 1];
        var currentLength := h.restLengths[j];
        var motorSpeed := currentLength - previousLength;
        if motorSpeed > 0.0 {
          motorSpeed := 0.0;
        }
        energy := energy + previousTension * motorSpeed;
        j := j + 1;
      }
      assert hs[..i + 1][..i] == hs[..i];
      assert energy == before + HistoryEnergy(h, |h.tensions|);
      i := i + 1;
    }
    assert hs[..|hs|] == hs;
  }

  /** With non-negative tensions the recorded energy is never positive: only reeling in is charged. */
  lemma {:induction false} HistoryEnergyNonPositive(h: CableHistory, n: nat)
    requires h.Recorded() && n <= |h.tensions|
    requires forall t <- h.tensions :: t >= 0.0
    ensures HistoryEnergy(h, n) <= 0.0
  {
    if n > 1 {
      HistoryEnergyNonPositive(h, n - 1);
      assert h.tensions[n - 2] in h.tensions;
      StepWorkNonPositive(h.tensions[n - 2], h.restLengths[n - 2], h.restLengths[n - 1]);
    }
  }

  lemma StepWorkNonPositive(prevTension: real, prevLength: real, curLength: real)
    requires prevTension >= 0.0
    ensures StepWork(prevTension, prevLength, curLength) <= 0.0
  {
    var s := curLength - prevLength;
    if s <= 0.0 {
      assert prevTension * (-s) >= 0.0;
    }
  }

  lemma {:induction false} EnergyNonPositive(hs: seq<CableHistory>)
    requires forall h <- hs :: h.Recorded()
    requires forall h <- hs :: forall t <- h.tensions :: t >= 0.0
    ensures Energy(hs) <= 0.0
  {
    if hs != [] {
      var last := hs[|hs| - 1];
      EnergyNonPositive(hs[..|hs| - 1]);
      HistoryEnergyNonPositive(last, |last.tensions|);
    }
  }

  /** A cable whose rest length never shrinks costs nothing, whatever its tension. */
  lemma {:induction false} LengtheningIsFree(h: CableHistory, n: nat)
    requires h.Recorded() && n <= |h.tensions|
    requires forall j | 1 <= j < n :: h.restLengths[j - 1] <= h.restLengths[j]
    ensures HistoryEnergy(h, n) == 0.0
  {
    if n > 1 {
      LengtheningIsFree(h, n - 1);
    }
  }

  /** Distance score: -1 marks a trial that was aborted. */
  function DistanceScore(bogus: bool, distance: real): real
  {
    if bogus then -1.0 else distance
  }

  /** `d` is the horizontal (x-z plane) distance between two points; the height y is ignored. */
  predicate PlanarDistance(d: real, from: Vec3, to: Vec3)
  {
    d >= 0.0 && d * d == (to.x - from.x) * (to.x - from.x) + (to.z - from.z) * (to.z - from.z)
  }

  /** The planar distance is determined by the two points: it is the square root. */
  lemma PlanarDistanceUnique(d1: real, d2: real, from: Vec3, to: Vec3)
    requires PlanarDistance(d1, from, to) && PlanarDistance(d2, from, to)
    ensures d1 == d2
  {
    if d1 < d2 {
      SquareIncreasing(d1, d2);
    } else if d2 < d1 {
      SquareIncreasing(d2, d1);
    }
  }

  lemma SquareIncreasing(a: real, b: real)
    requires 0.0 <= a < b
    ensures a * a < b * b
  {
    var p, q := b - a, b + a;
    assert b * b - a * a == p * q;
    ProductPositive(p, q);
  }

  lemma ProductPositive(p: real, q: real)
    requires p > 0.0 && q > 0.0
    ensures p * q > 0.0
  {
  }

  /** An aborted trial scores below every distance a completed trial can score. */
  lemma AbortedScoresLowest(distance: real, from: Vec3, to: Vec3)
    requires PlanarDistance(distance, from, to)
    ensures DistanceScore(true, distance) < DistanceScore(false, distance)
  {
  }

  /** One entry of the parameter file's "scores" array. */
  datatype ScoreRecord = ScoreRecord(distance: real, energy: real)

  /** One entry of the parameter file's "metrics" array: the structure's centre of mass at setup or at teardown. */
  datatype MetricRecord = InitialCOM(com: Vec3) | FinalCOM(com: Vec3)

  /** The "scores" and "metrics" arrays of the parameter file. */
  datatype TrialLog = TrialLog(scores: seq<ScoreRecord>, metrics: seq<MetricRecord>)
}
