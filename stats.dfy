/**
 * The statistics-gathering spine controller: the hierarchy controller's
 * timer and height bound over the "spine "-tagged cables, plus a step
 * counter that clears the metrics every hundred-odd steps.
 */
module StatsControl {
  import opened Common
  import opened Scaling
  import opened Feedback
  import opened Scoring
  import opened Oscillator
  import opened TrialControl

  /** The counter is cleared once it has passed this value. */
  const CounterLimit: int := 100

  class StatsController {
    const config: Config
    const network: CPGNetwork

    var updateTime: real
    var totalTime: real
    var bogus: bool
    var scores: seq<real>
    var metrics: seq<real>
    var initConditions: Vec3
    var notified: seq<real>
    var trialLog: TrialLog
    /** The function-local static step counter of onStep; it lives as long as the program. */
    var stepCount: int

    constructor (config: Config, network: CPGNetwork)
      ensures this.config == config && this.network == network
      ensures updateTime == 0.0 && totalTime == 0.0 && !bogus && stepCount == 0
      ensures scores == [] && metrics == [] && notified == [] && trialLog == TrialLog([], [])
    {
      this.config := config;
      this.network := network;
      updateTime := 0.0;
      totalTime := 0.0;
      bogus := false;
      scores := [];
      metrics := [];
      initConditions := Origin;
      notified := [];
      trialLog := TrialLog([], []);
      stepCount := 0;
    }

    /** scaleNodeActions: five affine columns bounded by the configured frequency limits. */
    method ScaleNodeActions(actions: seq<seq<real>>) returns (r: Result<array2<real>>)
      ensures r.Ok? <==> |actions| > 0 && |actions[0]| == NodeActions
      ensures r.Ok? ==> r.value.Length0 == |actions| && r.value.Length1 == NodeActions
      ensures r.Ok? ==> forall i, j | 0 <= i < |actions| && 0 <= j < NodeActions ::
        r.value[i, j] == NodeCell(actions, FiveLimits(config.limits, config.highFreq, config.freqFeedbackMax), i, j)
    {
      r := ScaleFiveColumnNodes(actions, config.limits, config.highFreq, config.freqFeedbackMax);
    }

    /** getFeedback: one block per "spine "-tagged cable. */
    method GetFeedback(cables: seq<CableSensor>, nn: seq<real> -> seq<real>, buffer: seq<real>)
      returns (feedback: seq<real>)
      requires forall c <- cables :: Readable(c)
      requires ProducesActions(nn, config.numActions)
      requires |buffer| == config.numStates && (cables != [] ==> config.numStates >= 2)
      ensures feedback == CablesFeedback(cables, buffer, config.numActions, nn)
      ensures |feedback| == config.numActions * |cables|
    {
      feedback := CollectFeedback(cables, 0, config.numStates, config.numActions, nn, buffer);
    }

    /**
     * The trial-state part of onSetup: timers and the abort flag reset, the
     * initial position and the structure's centre of mass recorded. The step counter is not
     * reset: it carries over from one trial to the next.
     */
    method ResetTrial(initCOM: Vec3, structureCOM: Vec3)
      modifies this`initConditions, this`updateTime, this`totalTime, this`bogus, this`metrics, this`trialLog
      ensures updateTime == 0.0 && totalTime == 0.0 && !bogus
      ensures initConditions == initCOM
      ensures metrics == structureCOM.Components()
      ensures trialLog == TrialLog(old(trialLog.scores), old(trialLog.metrics) + [InitialCOM(structureCOM)])
    {
      initConditions := initCOM;
      updateTime := 0.0;
      totalTime := 0.0;
      bogus := false;
      metrics := structureCOM.Components();
      trialLog := TrialLog(trialLog.scores, trialLog.metrics + [InitialCOM(structureCOM)]);
    }

    /**
     * onStep: the timer-gated update and the height bound; a step that
     * survives both advances the counter, which is reset (and the metrics
     * cleared) once it has passed 100.
     */
    method OnStep(dt: real, cables: seq<CableSensor>, nn: seq<real> -> seq<real>, buffer: seq<real>,
                  diverges: bool, height: real)
      returns (outcome: StepOutcome)
      requires forall c <- cables :: Readable(c)
      requires ProducesActions(nn, config.numActions)
      requires |buffer| == config.numStates && (cables != [] ==> config.numStates >= 2)
      modifies this`updateTime, this`totalTime, this`bogus, this`notified, this`stepCount, this`metrics, network`steps
      ensures totalTime == old(totalTime) + dt
      ensures old(updateTime) + dt < config.controlTime ==>
        updateTime == old(updateTime) + dt && network.steps == old(network.steps) && notified == old(notified)
      ensures old(updateTime) + dt >= config.controlTime && diverges ==>
        outcome == Abort(IntegrationFailed) && updateTime == old(updateTime) + dt
        && network.steps == old(network.steps) && notified == old(notified)
      ensures old(updateTime) + dt >= config.controlTime && !diverges ==>
        updateTime == 0.0 && notified == old(notified) + [old(updateTime) + dt]
        && network.steps == old(network.steps)
             + [Integration(CablesFeedback(cables, buffer, config.numActions, nn), old(updateTime) + dt)]
      ensures outcome != Abort(IntegrationFailed) ==>
        (outcome == Continue <==> HeightInBand(height, config.minHeight, config.maxHeight))
      ensures outcome.Abort? ==> outcome.error in {IntegrationFailed, HeightOutOfRange}
      ensures bogus == (old(bogus) || outcome.Abort?)
      ensures outcome.Abort? ==> stepCount == old(stepCount) && metrics == old(metrics)
      ensures outcome == Continue && old(stepCount) > CounterLimit ==> stepCount == 0 && metrics == []
      ensures outcome == Continue && old(stepCount) <= CounterLimit ==>
        stepCount == old(stepCount) + 1 && metrics == old(metrics)
    {
      updateTime := updateTime + dt;
      totalTime := totalTime + dt;
      if updateTime >= config.controlTime {
        var desComs := GetFeedback(cables, nn, buffer);
        var ok := network.Update(desComs, updateTime, diverges);
        if !ok {
          bogus := true;
          return Abort(IntegrationFailed);
        }
        notified := notified + [updateTime];
        updateTime := 0.0;
      }
      if height > config.maxHeight || height < config.minHeight {
        bogus := true;
        return Abort(HeightOutOfRange);
      }
      if stepCount > CounterLimit {
        metrics := [];
        stepCount := 0;
      } else {
        stepCount := stepCount + 1;
      }
      return Continue;
    }

    /** onTeardown: distance (or -1), the energy of the "spine "-tagged cables, and the final centre of mass. */
    method OnTeardown(finalCOM: Vec3, distance: real, histories: seq<CableHistory>, structureCOM: Vec3)
      requires PlanarDistance(distance, initConditions, finalCOM)
      requires forall h <- histories :: h.Recorded()
      modifies this`scores, this`metrics, this`trialLog
      ensures scores == [DistanceScore(bogus, distance), Energy(histories)]
      ensures |metrics| == 3 && metrics == structureCOM.Components()
      ensures trialLog == TrialLog(old(trialLog.scores) + [ScoreRecord(scores[0], scores[1])],
                                   old(trialLog.metrics) + [FinalCOM(structureCOM)])
    {
      scores := [];
      metrics := [];
      if bogus {
        scores := scores + [-1.0];
      } else {
        scores := scores + [distance];
      }
      var totalEnergySpent := TotalEnergy(histories);
      scores := scores + [totalEnergySpent];
      metrics := structureCOM.Components();
      trialLog := TrialLog(trialLog.scores + [ScoreRecord(scores[0], scores[1])],
                           trialLog.metrics + [FinalCOM(structureCOM)]);
    }
  }

  /**
   * The counter as a function of the number of surviving steps: it runs
   * 0, 1, ..., 101, 0, 1, ... so it never exceeds 101, and the metrics are
   * cleared on every 102nd surviving step.
   */
  function CounterAfter(steps: nat): (c: int)
    ensures 0 <= c <= CounterLimit + 1
  {
    if steps == 0 then 0
    else
      var prev := CounterAfter(steps - 1);
      if prev > CounterLimit then 0 else prev + 1
  }

  lemma {:induction false} CounterPeriod(steps: nat)
    ensures CounterAfter(steps) == steps % (CounterLimit + 2)
  {
    if steps > 0 {
      CounterPeriod(steps - 1);
    }
  }
}
