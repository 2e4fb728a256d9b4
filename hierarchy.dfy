/**
 * The two-level (hierarchical) feedback controller of the mountain-goat
 * model: parameter scaling, the timer-gated CPG update with its height
 * safety bound, and trial scoring.
 */
module HierarchyControl {
  import opened Common
  import opened Scaling
  import opened EdgeTables
  import opened Feedback
  import opened Scoring
  import opened Oscillator
  import opened TrialControl

  class HierarchyController {
    const config: Config
    /** Number of higher-level CPG controllers (m_highControllers.size()). */
    const highControllers: nat
    const network: CPGNetwork

    var updateTime: real
    var totalTime: real
    var bogus: bool
    var scores: seq<real>
    var metrics: seq<real>
    var initConditions: Vec3
    /** The time spans passed to notifyStep, in order. */
    var notified: seq<real>
    /** The "scores" and "metrics" arrays of the parameter file. */
    var trialLog: TrialLog

    constructor (config: Config, highControllers: nat, network: CPGNetwork)
      ensures this.config == config && this.highControllers == highControllers && this.network == network
      ensures updateTime == 0.0 && totalTime == 0.0 && !bogus
      ensures scores == [] && metrics == [] && notified == []
      ensures trialLog == TrialLog([], [])
    {
      this.config := config;
      this.highControllers := highControllers;
      this.network := network;
      updateTime := 0.0;
      totalTime := 0.0;
      bogus := false;
      scores := [];
      metrics := [];
      initConditions := Origin;
      notified := [];
      trialLog := TrialLog([], []);
    }

    /** scaleNodeActions: five affine columns whose frequency bounds are chosen per table. */
    method ScaleNodeActions(actions: seq<seq<real>>, highFreq: real, freqFeedbackMax: real)
      returns (r: Result<array2<real>>)
      ensures r.Ok? <==> |actions| > 0 && |actions[0]| == NodeActions
      ensures r.Ok? ==> r.value.Length0 == |actions| && r.value.Length1 == NodeActions
      ensures r.Ok? ==> forall i, j | 0 <= i < |actions| && 0 <= j < NodeActions ::
        r.value[i, j] == NodeCell(actions, FiveLimits(config.limits, highFreq, freqFeedbackMax), i, j)
    {
      r := ScaleFiveColumnNodes(actions, config.limits, highFreq, freqFeedbackMax);
    }

    /** scaleEdgeActions: the triangular fill, phases mapped onto the configured phase interval. */
    method ScaleEdgeActions(entries: seq<seq<real>>, span: nat, their: nat, our: nat)
      returns (r: Result<array3<EdgeParam>>)
      ensures r.Ok? <==> 0 < |entries| <= SlicesBefore(span, their, our) && Shaped(entries, 0, |entries|)
      ensures r.Ok? ==> r.value.Length0 == span && r.value.Length1 == their && r.value.Length2 == our
      ensures r.Ok? ==> forall i, j, k | InTable(r.value, i, j, k) ::
        r.value[i, j, k] == TriangularCell(entries, config.lowPhase, config.highPhase, i, j, k, their, our)
    {
      r := ScaleTriangularEdges(entries, span, their, our, config.lowPhase, config.highPhase);
    }

    /** getFeedback: one block per "all "-tagged cable, then one per higher-level controller. */
    method GetFeedback(cables: seq<CableSensor>, nn: seq<real> -> seq<real>, buffer: seq<real>)
      returns (feedback: seq<real>)
      requires forall c <- cables :: Readable(c)
      requires ProducesActions(nn, config.numActions)
      requires |buffer| == config.numStates && (cables != [] ==> config.numStates >= 2)
      ensures feedback == CablesFeedback(cables, buffer, config.numActions, nn)
                          + HighsFeedback(highControllers, config.numStates, config.numActions, nn)
      ensures |feedback| == config.numActions * (|cables| + highControllers)
    {
      feedback := CollectFeedback(cables, highControllers, config.numStates, config.numActions, nn, buffer);
    }

    /**
     * The trial-state part of onSetup: timers and the abort flag reset, the
     * initial position and the structure's centre of mass recorded.
     */
    method ResetTrial(initCOM: Vec3, structureCOM: Vec3)
      modifies this
      ensures updateTime == 0.0 && totalTime == 0.0 && !bogus
      ensures initConditions == initCOM
      ensures metrics == structureCOM.Components()
      ensures trialLog == TrialLog(old(trialLog.scores), old(trialLog.metrics) + [InitialCOM(structureCOM)])
      ensures scores == old(scores) && notified == old(notified)
    {
      initConditions := initCOM;
      updateTime := 0.0;
      totalTime := 0.0;
      bogus := false;
      metrics := structureCOM.Components();
      trialLog := TrialLog(trialLog.scores, trialLog.metrics + [InitialCOM(structureCOM)]);
    }

    /**
     * onStep.  The elapsed time is added to both clocks; once the update clock
     * reaches controlTime the CPG network is integrated over it under the
     * current feedback and the clock restarts.  A diverging integration marks
     * the trial bogus and stops the step at once; a tracked segment outside
     * the height band marks it bogus and stops the trial.
     */
    method OnStep(dt: real, cables: seq<CableSensor>, nn: seq<real> -> seq<real>, buffer: seq<real>,
                  diverges: bool, height: real)
      returns (outcome: StepOutcome)
      requires forall c <- cables :: Readable(c)
      requires ProducesActions(nn, config.numActions)
      requires |buffer| == config.numStates && (cables != [] ==> config.numStates >= 2)
      modifies this`updateTime, this`totalTime, this`bogus, this`notified, network`steps
      ensures totalTime == old(totalTime) + dt
      ensures old(updateTime) + dt < config.controlTime ==>
        updateTime == old(updateTime) + dt && network.steps == old(network.steps) && notified == old(notified)
      ensures old(updateTime) + dt >= config.controlTime && diverges ==>
        outcome == Abort(IntegrationFailed) && updateTime == old(updateTime) + dt
        && network.steps == old(network.steps) && notified == old(notified)
      ensures old(updateTime) + dt >= config.controlTime && !diverges ==>
        updateTime == 0.0 && notified == old(notified) + [old(updateTime) + dt]
        && network.steps == old(network.steps) + [Integration(
             CablesFeedback(cables, buffer, config.numActions, nn)
               + HighsFeedback(highControllers, config.numStates, config.numActions, nn),
             old(updateTime) + dt)]
      ensures outcome != Abort(IntegrationFailed) ==>
        (outcome == Continue <==> HeightInBand(height, config.minHeight, config.maxHeight))
      ensures outcome.Abort? ==> outcome.error in {IntegrationFailed, HeightOutOfRange}
      ensures bogus == (old(bogus) || outcome.Abort?)
      ensures outcome == Continue ==> updateTime < config.controlTime || updateTime == 0.0
    {
      updateTime := updateTime + dt;
      totalTime := totalTime + dt;
      if updateTime >= config.controlTime {
        var desComs := GetFeedback(cables, nn, buffer);
        var ok := network.Update(desComs, updateTime, diverges);
        if !ok {
          bogus := true;
          return Abort(IntegrationFailed);
        }
        notified := notified + [updateTime];
        updateTime := 0.0;
      }
      if height > config.maxHeight || height < config.minHeight {
        bogus := true;
        return Abort(HeightOutOfRange);
      }
      return Continue;
    }

    /**
     * onTeardown: scores are the planar distance walked by the tracked
     * segment (-1 for a bogus trial) and the energy spent by the "all "-tagged
     * cables; metrics are the structure's final centre of mass.  Both are
     * appended to the parameter file.
     */
    method OnTeardown(finalCOM: Vec3, distance: real, histories: seq<CableHistory>, structureCOM: Vec3)
      requires PlanarDistance(distance, initConditions, finalCOM)
      requires forall h <- histories :: h.Recorded()
      modifies this`scores, this`metrics, this`trialLog
      ensures scores == [DistanceScore(bogus, distance), Energy(histories)]
      ensures metrics == structureCOM.Components()
      ensures trialLog == TrialLog(old(trialLog.scores) + [ScoreRecord(scores[0], scores[1])],
                                   old(trialLog.metrics) + [FinalCOM(structureCOM)])
    {
      scores := [];
      metrics := [];
      if bogus {
        scores := scores + [-1.0];
      } else {
        scores := scores + [distance];
      }
      var totalEnergySpent := TotalEnergy(histories);
      scores := scores + [totalEnergySpent];
      metrics := structureCOM.Components();
      trialLog := TrialLog(trialLog.scores + [ScoreRecord(scores[0], scores[1])],
                           trialLog.metrics + [FinalCOM(structureCOM)]);
    }
  }
}
