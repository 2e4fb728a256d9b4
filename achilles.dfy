/**
 * The Achilles-only hierarchical controller: feedback from the "only "-tagged
 * cables, proportional and derivative gains read from the parameter file,
 * and a height check on two segments.
 */
module AchillesControl {
  import opened Common
  import opened Scaling
  import opened EdgeTables
  import opened Feedback
  import opened Scoring
  import opened Oscillator
  import opened TrialControl

  /** The JSON values the gain extraction can meet. */
  datatype Json =
    JNull | JBool(b: bool) | JNum(num: real) | JStr(str: string) | JArr(elems: seq<Json>)
  | JObj(members: seq<(string, Json)>)

  /** Index 0 of an array or null value; a missing element reads as null. */
  function ElementZero(v: Json): Json
    requires v.JNull? || v.JArr?
  {
    if v.JArr? && |v.elems| > 0 then v.elems[0] else JNull
  }

  /**
   * Numeric conversion of a JSON value: null reads as 0.0, a boolean as 1.0
   * or 0.0; strings, arrays and objects are refused.
   */
  function AsDouble(v: Json): Result<real>
  {
    match v
    case JNull => Ok(0.0)
    case JBool(b) => Ok(if b then 1.0 else 0.0)
    case JNum(x) => Ok(x)
    case JStr(_) => Err(RuntimeError("Value is not convertible to double"))
    case JArr(_) => Err(RuntimeError("Value is not convertible to double"))
    case JObj(_) => Err(RuntimeError("Value is not convertible to double"))
  }

  /**
   * Index 0 of the "params" value, after unwrapping one nested array if that
   * element is itself an array; only an array (or null) can be indexed.
   */
  function GainValue(params: Json): Result<Json>
  {
    if !(params.JNull? || params.JArr?) then
      Err(RuntimeError("Json value is not an array"))
    else
      var first := ElementZero(params);
      var pv := if first.JArr? then first else params;
      Ok(ElementZero(pv))
  }

  /** The P or D gain: the first number of the "params" list, or of its first nested list; missing reads as 0.0. */
  function ExtractGain(params: Json): (r: Result<real>)
    ensures !(params.JNull? || params.JArr?) ==> r.Err?
    ensures params.JNull? || params == JArr([]) ==> r == Ok(0.0)
    ensures params.JArr? && |params.elems| > 0 && params.elems[0].JNum? ==> r == Ok(params.elems[0].num)
    ensures params.JArr? && |params.elems| > 0 && params.elems[0].JBool? ==>
      r == Ok(if params.elems[0].b then 1.0 else 0.0)
    ensures params.JArr? && |params.elems| > 0 && (params.elems[0].JStr? || params.elems[0].JObj?) ==> r.Err?
    ensures params.JArr? && |params.elems| > 0 && params.elems[0].JArr? ==>
      r == (if |params.elems[0].elems| == 0 then Ok(0.0) else AsDouble(params.elems[0].elems[0]))
  {
    match GainValue(params)
    case Err(e) => Err(e)
    case Ok(v) => AsDouble(v)
  }

  /** One level of nesting makes no difference: [x, ...] and [[x, ...], ...] give the same gain. */
  lemma ExtractGainUnwrapsOnce(x: real, rest: seq<Json>, others: seq<Json>)
    ensures ExtractGain(JArr([JNum(x)] + rest)) == Ok(x)
    ensures ExtractGain(JArr([JArr([JNum(x)] + rest)] + others)) == Ok(x)
  {
    assert ([JNum(x)] + rest)[0] == JNum(x);
    assert ([JArr([JNum(x)] + rest)] + others)[0] == JArr([JNum(x)] + rest);
  }

  class AchillesController {
    const config: Config
    const network: CPGNetwork
    /** Index of the tracked segment and of the rear segment (segment 6). */
    const segmentNumber: nat
    const rearSegment: nat

    var updateTime: real
    var totalTime: real
    var bogus: bool
    var scores: seq<real>
    var metrics: seq<real>
    var initConditions: Vec3
    var notified: seq<real>
    var trialLog: TrialLog
    /** Gains of the Achilles cables' PID controllers. */
    var P: real
    var D: real

    constructor (config: Config, segmentNumber: nat, network: CPGNetwork)
      ensures this.config == config && this.network == network
      ensures this.segmentNumber == segmentNumber && rearSegment == 6
      ensures updateTime == 0.0 && totalTime == 0.0 && !bogus
      ensures scores == [] && metrics == [] && notified == [] && trialLog == TrialLog([], [])
    {
      this.config := config;
      this.network := network;
      this.segmentNumber := segmentNumber;
      rearSegment := 6;
      updateTime := 0.0;
      totalTime := 0.0;
      bogus := false;
      scores := [];
      metrics := [];
      initConditions := Origin;
      notified := [];
      trialLog := TrialLog([], []);
      P := 0.0;
      D := 0.0;
    }

    /** scaleNodeActions: the same five affine columns as the hierarchy controller. */
    method ScaleNodeActions(actions: seq<seq<real>>, highFreq: real, freqFeedbackMax: real)
      returns (r: Result<array2<real>>)
      ensures r.Ok? <==> |actions| > 0 && |actions[0]| == NodeActions
      ensures r.Ok? ==> r.value.Length0 == |actions| && r.value.Length1 == NodeActions
      ensures r.Ok? ==> forall i, j | 0 <= i < |actions| && 0 <= j < NodeActions ::
        r.value[i, j] == NodeCell(actions, FiveLimits(config.limits, highFreq, freqFeedbackMax), i, j)
    {
      r := ScaleFiveColumnNodes(actions, config.limits, highFreq, freqFeedbackMax);
    }

    /** scaleEdgeActions: the same triangular fill as the hierarchy controller. */
    method ScaleEdgeActions(entries: seq<seq<real>>, span: nat, their: nat, our: nat)
      returns (r: Result<array3<EdgeParam>>)
      ensures r.Ok? <==> 0 < |entries| <= SlicesBefore(span, their, our) && Shaped(entries, 0, |entries|)
      ensures r.Ok? ==> r.value.Length0 == span && r.value.Length1 == their && r.value.Length2 == our
      ensures r.Ok? ==> forall i, j, k | InTable(r.value, i, j, k) ::
        r.value[i, j, k] == TriangularCell(entries, config.lowPhase, config.highPhase, i, j, k, their, our)
    {
      r := ScaleTriangularEdges(entries, span, their, our, config.lowPhase, config.highPhase);
    }

    /**
     * The gains read at the end of onSetup.  Both values are located first;
     * then P is converted and stored, then D, so a D that cannot be read as a
     * number leaves the new P in place.
     */
    method ReadGains(propParams: Json, derParams: Json) returns (r: Result<()>)
      modifies this`P, this`D
      ensures r.Ok? <==> ExtractGain(propParams).Ok? && ExtractGain(derParams).Ok?
      ensures r.Ok? ==> P == ExtractGain(propParams).value && D == ExtractGain(derParams).value
      ensures P == (if GainValue(derParams).Ok? && ExtractGain(propParams).Ok?
                    then ExtractGain(propParams).value else old(P))
      ensures r.Err? ==> D == old(D)
    {
      var pv := GainValue(propParams);
      var dv := GainValue(derParams);
      if pv.Err? {
        return Err(pv.error);
      }
      if dv.Err? {
        return Err(dv.error);
      }
      var p := AsDouble(pv.value);
      if p.Err? {
        return Err(p.error);
      }
      P := p.value;
      var d := AsDouble(dv.value);
      if d.Err? {
        return Err(d.error);
      }
      D := d.value;
      return Ok(());
    }

    /** getFeedback: one block per "only "-tagged cable and nothing else. */
    method GetFeedback(cables: seq<CableSensor>, nn: seq<real> -> seq<real>, buffer: seq<real>)
      returns (feedback: seq<real>)
      requires forall c <- cables :: Readable(c)
      requires ProducesActions(nn, config.numActions)
      requires |buffer| == config.numStates && (cables != [] ==> config.numStates >= 2)
      ensures feedback == CablesFeedback(cables, buffer, config.numActions, nn)
      ensures |feedback| == config.numActions * |cables|
    {
      feedback := CollectFeedback(cables, 0, config.numStates, config.numActions, nn, buffer);
    }

    /**
     * The trial-state part of onSetup: timers and the abort flag reset, the
     * initial position and the structure's centre of mass recorded.
     */
    method ResetTrial(initCOM: Vec3, structureCOM: Vec3)
      modifies this`initConditions, this`updateTime, this`totalTime, this`bogus, this`metrics, this`trialLog
      ensures updateTime == 0.0 && totalTime == 0.0 && !bogus
      ensures initConditions == initCOM
      ensures metrics == structureCOM.Components()
      ensures trialLog == TrialLog(old(trialLog.scores), old(trialLog.metrics) + [InitialCOM(structureCOM)])
    {
      initConditions := initCOM;
      updateTime := 0.0;
      totalTime := 0.0;
      bogus := false;
      metrics := structureCOM.Components();
      trialLog := TrialLog(trialLog.scores, trialLog.metrics + [InitialCOM(structureCOM)]);
    }

    /**
     * onStep: the hierarchy controller's timer-gated update, with the height
     * band applied to the tracked segment and to the rear segment.
     */
    method OnStep(dt: real, cables: seq<CableSensor>, nn: seq<real> -> seq<real>, buffer: seq<real>,
                  diverges: bool, height: real, rearHeight: real)
      returns (outcome: StepOutcome)
      requires forall c <- cables :: Readable(c)
      requires ProducesActions(nn, config.numActions)
      requires |buffer| == config.numStates && (cables != [] ==> config.numStates >= 2)
      modifies this`updateTime, this`totalTime, this`bogus, this`notified, network`steps
      ensures totalTime == old(totalTime) + dt
      ensures old(updateTime) + dt < config.controlTime ==>
        updateTime == old(updateTime) + dt && network.steps == old(network.steps) && notified == old(notified)
      ensures old(updateTime) + dt >= config.controlTime && diverges ==>
        outcome == Abort(IntegrationFailed) && updateTime == old(updateTime) + dt
        && network.steps == old(network.steps) && notified == old(notified)
      ensures old(updateTime) + dt >= config.controlTime && !diverges ==>
        updateTime == 0.0 && notified == old(notified) + [old(updateTime) + dt]
        && network.steps == old(network.steps)
             + [Integration(CablesFeedback(cables, buffer, config.numActions, nn), old(updateTime) + dt)]
      ensures outcome != Abort(IntegrationFailed) ==>
        (outcome == Continue <==> HeightInBand(height, config.minHeight, config.maxHeight)
                                  && HeightInBand(rearHeight, config.minHeight, config.maxHeight))
      ensures outcome.Abort? ==> outcome.error in {IntegrationFailed, HeightOutOfRange}
      ensures bogus == (old(bogus) || outcome.Abort?)
    {
      updateTime := updateTime + dt;
      totalTime := totalTime + dt;
      if updateTime >= config.controlTime {
        var desComs := GetFeedback(cables, nn, buffer);
        var ok := network.Update(desComs, updateTime, diverges);
        if !ok {
          bogus := true;
          return Abort(IntegrationFailed);
        }
        notified := notified + [updateTime];
        updateTime := 0.0;
      }
      if height > config.maxHeight || height < config.minHeight
         || rearHeight > config.maxHeight || rearHeight < config.minHeight {
        bogus := true;
        return Abort(HeightOutOfRange);
      }
      return Continue;
    }

    /** onTeardown: distance (or -1), the energy of the "only "-tagged cables, and the final centre of mass. */
    method OnTeardown(finalCOM: Vec3, distance: real, histories: seq<CableHistory>, structureCOM: Vec3)
      requires PlanarDistance(distance, initConditions, finalCOM)
      requires forall h <- histories :: h.Recorded()
      modifies this`scores, this`metrics, this`trialLog
      ensures scores == [DistanceScore(bogus, distance), Energy(histories)]
      ensures metrics == structureCOM.Components()
      ensures trialLog == TrialLog(old(trialLog.scores) + [ScoreRecord(scores[0], scores[1])],
                                   old(trialLog.metrics) + [FinalCOM(structureCOM)])
    {
      scores := [];
      metrics := [];
      if bogus {
        scores := scores + [-1.0];
      } else {
        scores := scores + [distance];
      }
      var totalEnergySpent := TotalEnergy(histories);
      scores := scores + [totalEnergySpent];
      metrics := structureCOM.Components();
      trialLog := TrialLog(trialLog.scores + [ScoreRecord(scores[0], scores[1])],
                           trialLog.metrics + [FinalCOM(structureCOM)]);
    }
  }
}
