/**
 * The general mountain-goat CPG controller: one CPG node per cable, coupled
 * to every cable that shares a rigid body with it, driven by a constant
 * descending command.  Parameters come from the learning library's
 * parameter file; trials are scored by the distance walked and the energy
 * spent.
 */
module MGControl {
  import opened Common
  import opened Scaling
  import opened EdgeTables
  import opened Scoring
  import opened Oscillator
  import opened TrialControl
  import opened ActuatorControl

  /** The controller's configuration, as given to its constructor. */
  datatype MGConfig = MGConfig(
    segmentSpan: int, theirMuscles: int, ourMuscles: int, params: int, segmentNumber: int,
    controlTime: real,
    lowAmp: real, highAmp: real,
    lowPhase: real, highPhase: real,
    tension: real, kPosition: real, kVelocity: real,
    useDefault: bool,
    controlLength: real,
    lowFreq: real, highFreq: real)

  /** A configuration the constructor accepts: positive table sizes, everything else non-negative. */
  predicate ConfigValid(c: MGConfig)
  {
    c.segmentSpan > 0 && c.theirMuscles > 0 && c.ourMuscles > 0 && c.params > 0 && c.segmentNumber >= 0
    && c.controlTime >= 0.0 && c.tension >= 0.0 && c.kPosition >= 0.0 && c.kVelocity >= 0.0
    && c.controlLength >= 0.0
  }

  /** Only accepted configurations exist. */
  type ValidConfig = c: MGConfig | ConfigValid(c)
    witness MGConfig(1, 1, 1, 1, 0, 0.0, 0.0, 0.0, 0.0, 0.0, 0.0, 0.0, 0.0, true, 0.0, 0.0, 0.0)

  /**
   * The Config constructor's checks, in the order it makes them; the first
   * failing check decides the message.
   */
  function CheckConfig(c: MGConfig): (r: Result<ValidConfig>)
    ensures r.Ok? <==> ConfigValid(c)
    ensures r.Ok? ==> r.value == c
    ensures r.Err? ==> r.error.InvalidArgument?
    // each message is given exactly when its check fails and every earlier one passed
    ensures c.segmentSpan <= 0 ==> r == Err(InvalidArgument("segmentSpan parameter is negative."))
    ensures c.segmentSpan > 0 && c.theirMuscles <= 0 ==> r == Err(InvalidArgument("theirMuscles parameter is negative."))
    ensures c.segmentSpan > 0 && c.theirMuscles > 0 && c.ourMuscles <= 0
            ==> r == Err(InvalidArgument("Our Muscles parameter is negative."))
    ensures c.segmentSpan > 0 && c.theirMuscles > 0 && c.ourMuscles > 0 && c.params <= 0
            ==> r == Err(InvalidArgument("Edge parameters is negative."))
    ensures c.segmentSpan > 0 && c.theirMuscles > 0 && c.ourMuscles > 0 && c.params > 0 && c.segmentNumber < 0
            ==> r == Err(InvalidArgument("Segment number is negative."))
    ensures (c.segmentSpan > 0 && c.theirMuscles > 0 && c.ourMuscles > 0 && c.params > 0 && c.segmentNumber >= 0
             && c.controlTime < 0.0) ==> r == Err(InvalidArgument("control time is negative."))
    ensures (c.segmentSpan > 0 && c.theirMuscles > 0 && c.ourMuscles > 0 && c.params > 0 && c.segmentNumber >= 0
             && c.controlTime >= 0.0 && c.tension < 0.0) ==> r == Err(InvalidArgument("impedance control tension is negative."))
    ensures (c.segmentSpan > 0 && c.theirMuscles > 0 && c.ourMuscles > 0 && c.params > 0 && c.segmentNumber >= 0
             && c.controlTime >= 0.0 && c.tension >= 0.0 && c.kPosition < 0.0)
            ==> r == Err(InvalidArgument("impedance control position is negative."))
    ensures (c.segmentSpan > 0 && c.theirMuscles > 0 && c.ourMuscles > 0 && c.params > 0 && c.segmentNumber >= 0
             && c.controlTime >= 0.0 && c.tension >= 0.0 && c.kPosition >= 0.0 && c.kVelocity < 0.0)
            ==> r == Err(InvalidArgument("impedance control velocity is negative."))
    ensures (c.segmentSpan > 0 && c.theirMuscles > 0 && c.ourMuscles > 0 && c.params > 0 && c.segmentNumber >= 0
             && c.controlTime >= 0.0 && c.tension >= 0.0 && c.kPosition >= 0.0 && c.kVelocity >= 0.0
             && c.controlLength < 0.0) ==> r == Err(InvalidArgument("Control Length is negative."))
  {
    if c.segmentSpan <= 0 then Err(InvalidArgument("segmentSpan parameter is negative."))
    else if c.theirMuscles <= 0 then Err(InvalidArgument("theirMuscles parameter is negative."))
    else if c.ourMuscles <= 0 then Err(InvalidArgument("Our Muscles parameter is negative."))
    else if c.params <= 0 then Err(InvalidArgument("Edge parameters is negative."))
    else if c.segmentNumber < 0 then Err(InvalidArgument("Segment number is negative."))
    else if c.controlTime < 0.0 then Err(InvalidArgument("control time is negative."))
    else if c.tension < 0.0 then Err(InvalidArgument("impedance control tension is negative."))
    else if c.kPosition < 0.0 then Err(InvalidArgument("impedance control position is negative."))
    else if c.kVelocity < 0.0 then Err(InvalidArgument("impedance control velocity is negative."))
    else if c.controlLength < 0.0 then Err(InvalidArgument("Control Length is negative."))
    else
      var v: ValidConfig := c;
      Ok(v)
  }

  /**
   * The parameter file's name: the resolved resource directory (`resolved`,
   * what the file helpers make of `resourcePath`) followed by `args`; no
   * directory at all when no resource path is given.
   */
  function ControlFilename(args: string, resourcePath: string, resolved: string): (name: string)
    ensures |args| <= |name| && name[|name| - |args|..] == args
    ensures resourcePath == "" ==> name == args
    ensures resourcePath != "" ==> |name| == |resolved| + |args| && name[..|resolved|] == resolved
  {
    (if resourcePath != "" then resolved else "") + args
  }

  /** Height band of the tracked segment; leaving it marks the trial bogus. */
  const MinHeight := 1.0
  const MaxHeight := 25.0
  /** The descending command sent to every node. */
  const DescendingCommand := 2.0

  /** The node table's two columns: frequency and amplitude. */
  function FreqAmpLimits(c: MGConfig): (l: Limits)
    ensures l.HasWidth(2)
    ensures l.low[0] == c.lowFreq && l.high[0] == c.highFreq
    ensures l.low[1] == c.lowAmp && l.high[1] == c.highAmp
  {
    Limits([c.lowFreq, c.lowAmp], [c.highFreq, c.highAmp])
  }

  // ---------------------------------------------------------------------
  // The coupling table [theirMuscles][ourMuscles]: row j is walked from
  // column j up to ourMuscles, the diagonal is skipped, and each visited
  // cell takes the next entry from the end of the list.

  /** Position of visited cell (j, k) in the walk of the whole table. */
  function PairRank(j: nat, k: nat, our: nat): int
  {
    SliceRank(0, j, k, our, true)
  }

  /** Value of cell (j, k) after the fill: the entry `rank` places from the end, or Unset. */
  function PairCell(entries: seq<seq<real>>, lowPhase: real, highPhase: real,
                    j: nat, k: nat, their: nat, our: nat): EdgeParam
  {
    if j < their && Visited(j, k, our, true) && PairRank(j, k, our) < |entries|
    then EdgeOf(entries[|entries| - 1 - PairRank(j, k, our)], lowPhase, highPhase)
    else Unset
  }

  /** Only the strict upper triangle is ever filled. */
  lemma PairCellUpperOnly(entries: seq<seq<real>>, lowPhase: real, highPhase: real,
                          j: nat, k: nat, their: nat, our: nat)
    requires k <= j
    ensures PairCell(entries, lowPhase, highPhase, j, k, their, our) == Unset
  {
  }

  /** A visited cell's rank lies within its row's share of the walk. */
  lemma {:induction false} PairRankInRow(j: nat, k: nat, our: nat)
    requires j < k < our
    ensures RowsCount(0, j, our, true) <= PairRank(j, k, our) < RowsCount(0, j + 1, our, true)
  {
  }

  /** Distinct visited cells take distinct entries: no entry is used twice. */
  lemma PairRankInjective(j1: nat, k1: nat, j2: nat, k2: nat, our: nat)
    requires j1 < k1 < our && j2 < k2 < our
    requires PairRank(j1, k1, our) == PairRank(j2, k2, our)
    ensures j1 == j2 && k1 == k2
  {
    PairRankInRow(j1, k1, our);
    PairRankInRow(j2, k2, our);
    if j1 < j2 {
      RowsCountMonotone(0, j1 + 1, j2, our, true);
    } else if j2 < j1 {
      RowsCountMonotone(0, j2 + 1, j1, our, true);
    }
  }

  /** The number of cells the walk visits: the pairs j < k of the table. */
  lemma {:induction false} PairCount(their: nat, our: nat)
    requires their <= our
    ensures 2 * RowsCount(0, their, our, true) == their * (2 * our - their - 1)
  {
    if their > 0 {
      PairCount(their - 1, our);
    }
  }

  /** Row j's part of the walk ends where row j + 1's begins. */
  lemma PairRankStep(j: nat, k: nat, our: nat)
    requires j < k < our
    ensures RowsCount(0, j, our, true) + RowCount(j, k, true) == PairRank(j, k, our)
    ensures RowsCount(0, j + 1, our, true) >= PairRank(j, k, our) + 1
  {
  }

  class MGController {
    const config: ValidConfig
    const network: CPGNetwork
    const controlFilename: string

    var updateTime: real
    var bogus: bool
    var scores: seq<real>
    var initConditions: Vec3
    /** The time spans passed to notifyStep, in order. */
    var notified: seq<real>
    /** The cable controllers created by setupCPGs, released at teardown. */
    var controllers: seq<CPGActuator>
    /** The "scores" array of the parameter file. */
    var trialLog: TrialLog

    /** The controller's constructor; `resolved` is the resource directory found for `resourcePath`. */
    constructor (config: ValidConfig, args: string, resourcePath: string, resolved: string, network: CPGNetwork)
      ensures this.config == config && this.network == network
      ensures controlFilename == ControlFilename(args, resourcePath, resolved)
      ensures updateTime == 0.0 && !bogus && scores == [] && notified == [] && controllers == []
      ensures trialLog == TrialLog([], [])
    {
      this.config := config;
      this.network := network;
      controlFilename := ControlFilename(args, resourcePath, resolved);
      updateTime := 0.0;
      bogus := false;
      scores := [];
      initConditions := Origin;
      notified := [];
      controllers := [];
      trialLog := TrialLog([], []);
    }

    /**
     * scaleEdgeActions: fills the strict upper triangle of the
     * [theirMuscles][ourMuscles][params] coupling table, each cell a
     * weight/phase pair.  Accepted exactly when there is at least one entry,
     * every entry is a pair, no entry is left over, and the last dimension
     * has room for the phase (params >= 2; the config check admits 1, and
     * then the first phase written trips boost's range assertion).
     */
    method ScaleEdgeActions(entries: seq<seq<real>>) returns (r: Result<array2<EdgeParam>>)
      ensures r.Ok? <==> 0 < |entries| <= RowsCount(0, config.theirMuscles, config.ourMuscles, true)
                         && Shaped(entries, 0, |entries|) && config.params >= 2
      ensures r.Ok? ==> r.value.Length0 == config.theirMuscles && r.value.Length1 == config.ourMuscles
      ensures r.Ok? ==> forall j, k | 0 <= j < r.value.Length0 && 0 <= k < r.value.Length1 ::
        r.value[j, k] == PairCell(entries, config.lowPhase, config.highPhase, j, k,
                                  config.theirMuscles, config.ourMuscles)
    {
      var n := |entries|;
      if n == 0 || |entries[0]| != 2 {
        return Err(AssertionFailure("edgeParam size"));
      }
      var their: nat, our: nat := config.theirMuscles, config.ourMuscles;
      var t := new EdgeParam[their, our]((_, _) => Unset);
      var it := n;
      var j := 0;
      while j < their
        invariant 0 <= j <= their
        invariant it == n - Min(n, RowsCount(0, j, our, true))
        invariant Shaped(entries, it, n)
        invariant config.params < 2 ==> it == n
        invariant forall b, c | 0 <= b < their && 0 <= c < our ::
          t[b, c] == if b < j then PairCell(entries, config.lowPhase, config.highPhase, b, c, their, our) else Unset
      {
        var k := j;
        while k < our
          invariant j <= k && (k <= our || k == j)
          invariant it == n - Min(n, RowsCount(0, j, our, true) + RowCount(j, k, true))
          invariant Shaped(entries, it, n)
          invariant config.params < 2 ==> it == n
          invariant forall b, c | 0 <= b < their && 0 <= c < our ::
            t[b, c] == if b < j || (b == j && c < k)
                       then PairCell(entries, config.lowPhase, config.highPhase, b, c, their, our)
                       else Unset
        {
          if it == 0 {
            // the entries ran out before the table was populated
            break;
          }
          if j != k {
            PairRankStep(j, k, our);
            if |entries[it - 1]| != 2 {
              return Err(AssertionFailure("edgeParam size"));
            }
            if config.params < 2 {
              // the phase goes to index 1 of the last dimension
              return Err(AssertionFailure("actionList index out of range"));
            }
            it := it - 1;
            t[j, k] := EdgeOf(entries[it], config.lowPhase, config.highPhase);
          }
          k := k + 1;
        }
        j := j + 1;
      }
      if it != 0 {
        return Err(AssertionFailure("edgeParam not exhausted"));
      }
      return Ok(t);
    }

    /** scaleNodeActions: two columns, frequency and amplitude, each mapped onto its configured interval. */
    method ScaleNodeActions(actions: seq<seq<real>>) returns (r: Result<array2<real>>)
      ensures r.Ok? <==> |actions| > 0 && |actions[0]| == 2
      ensures r.Ok? ==> r.value.Length0 == |actions| && r.value.Length1 == 2
      ensures r.Ok? ==> forall i, j | 0 <= i < |actions| && 0 <= j < 2 ::
        r.value[i, j] == NodeCell(actions, FreqAmpLimits(config), i, j)
    {
      r := ScaleNodeTable(actions, FreqAmpLimits(config), 2);
    }
  
    /**
     * setupCPGs, once the cable controllers have been created and attached:
     * every controller first gets its node (all nodes built from row 0 of the
     * node table, numbered consecutively), then, controller by controller,
     * its couplings are declared and its motor control is set up with the
     * configured control length (or the cable's own, by default).  A table
     * lookup must stay inside the coupling table for every pair of cables
     * that share a body.
     */
    method SetupCPGs(all: seq<CPGActuator>, nodeActions: array2<real>, edges: array2<EdgeParam>)
      requires controllers == []
      requires forall x, y | 0 <= x < y < |all| :: all[x] != all[y]
      requires forall a <- all :: a.nodeNumber == -1
      requires nodeActions.Length0 >= 1 && nodeActions.Length1 >= 2
      requires NodesFit(all, |network.nodes|, edges.Length0, edges.Length1)
      modifies this`controllers, all`nodeNumber, all`system, all`controlLength, network`nodes, network`connections
      ensures controllers == all
      ensures network.nodes == old(network.nodes) + Copies(NodeParams(nodeActions[0, 0], nodeActions[0, 1]), |all|)
      ensures forall x | 0 <= x < |all| :: all[x].nodeNumber == |old(network.nodes)| + x && all[x].system == network
      ensures forall x | 0 <= x < |all| ::
        all[x].controlLength == if config.useDefault then old(all[x].controlLength) else config.controlLength
      ensures network.connections == Connected(old(network.connections), |old(network.nodes)|, AllCouplings(all, edges, |all|), |all|)
    {
      // First assign node numbers, then determine connectivity and set up each cable.
      ghost var base := |network.nodes|;
      AssignNodes(all, nodeActions, edges);
      ghost var nodes := network.nodes;
      ConnectCables(all, edges, base);
      assert network.nodes == nodes;
      controllers := all;
    }

    /** The first loop of setupCPGs: consecutive node numbers, all nodes built from row 0. */
    method AssignNodes(all: seq<CPGActuator>, nodeActions: array2<real>, edges: array2<EdgeParam>)
      requires forall x, y | 0 <= x < y < |all| :: all[x] != all[y]
      requires NodesFit(all, |network.nodes|, edges.Length0, edges.Length1)
      requires forall a <- all :: a.nodeNumber == -1
      requires nodeActions.Length0 >= 1 && nodeActions.Length1 >= 2
      modifies all`nodeNumber, all`system, network`nodes
      ensures network.nodes == old(network.nodes) + Copies(NodeParams(nodeActions[0, 0], nodeActions[0, 1]), |all|)
      ensures forall x | 0 <= x < |all| :: all[x].nodeNumber == |old(network.nodes)| + x && all[x].system == network
    {
      ghost var base := |network.nodes|;
      ghost var p := NodeParams(nodeActions[0, 0], nodeActions[0, 1]);
      var i := 0;
      while i < |all|
        invariant 0 <= i <= |all|
        invariant network.nodes == old(network.nodes) + Copies(p, i)
        invariant forall x | 0 <= x < i :: all[x].nodeNumber == base + x && all[x].system == network
        invariant forall x | i <= x < |all| :: all[x].nodeNumber == -1
      {
        all[i].AssignNodeNumber(network, nodeActions);
        assert Copies(p, i + 1) == Copies(p, i) + [p];
        i := i + 1;
      }
    }

    /**
     * The second loop of setupCPGs: each cable's couplings are declared, then
     * its control is set up, so the couplings depend only on the node numbers
     * and bodies, which this loop does not change.
     */
    method ConnectCables(all: seq<CPGActuator>, edges: array2<EdgeParam>, ghost base: nat)
      requires forall x, y | 0 <= x < y < |all| :: all[x] != all[y]
      requires forall x | 0 <= x < |all| :: all[x].nodeNumber == base + x && all[x].system == network
      requires NodesFit(all, base, edges.Length0, edges.Length1)
      modifies all`controlLength, network`connections
      ensures forall x | 0 <= x < |all| ::
        all[x].controlLength == if config.useDefault then old(all[x].controlLength) else config.controlLength
      ensures network.connections == Connected(old(network.connections), base, AllCouplings(all, edges, |all|), |all|)
      ensures forall x | 0 <= x < |all| :: all[x].nodeNumber == base + x && all[x].system == network
    {
      ghost var cs := AllCouplings(all, edges, |all|);
      var i := 0;
      while i < |all|
        invariant 0 <= i <= |all|
        invariant AllCouplings(all, edges, |all|) == cs
        invariant forall x | 0 <= x < i ::
          all[x].controlLength == if config.useDefault then old(all[x].controlLength) else config.controlLength
        invariant forall x | i <= x < |all| :: all[x].controlLength == old(all[x].controlLength)
        invariant network.connections == Connected(old(network.connections), base, cs, i)
      {
        ConnectCable(all[i], all, edges, base, cs, i, old(network.connections));
        i := i + 1;
      }
    }

    /** One round of the second loop of setupCPGs: cable i's couplings, then its control. */
    method ConnectCable(me: CPGActuator, all: seq<CPGActuator>, edges: array2<EdgeParam>,
                        ghost base: nat, ghost cs: seq<Connections>, ghost i: nat,
                        ghost before: map<int, Connections>)
      requires i < |all| && me == all[i]
      requires forall x, y | 0 <= x < y < |all| :: all[x] != all[y]
      requires forall x | 0 <= x < |all| :: all[x].nodeNumber == base + x && all[x].system == network
      requires NodesFit(all, base, edges.Length0, edges.Length1)
      requires AllCouplings(all, edges, |all|) == cs
      requires network.connections == Connected(before, base, cs, i)
      modifies me`controlLength, network`connections
      ensures AllCouplings(all, edges, |all|) == cs
      ensures network.connections == Connected(before, base, cs, i + 1)
      ensures me.controlLength == if config.useDefault then old(me.controlLength) else config.controlLength
    {
      AllCouplingsAt(all, edges, |all|, i);
      LookupsFit(all, base, edges, i);
      me.SetConnectivity(all, edges);
      if !config.useDefault {
        var ok := me.SetupControl(config.controlLength);
      }
    }

    /**
     * The trial-state part of onSetup: the tracked segment's starting
     * position is recorded, the update clock restarts and the abort flag is
     * cleared.
     */
    method ResetTrial(initCOM: Vec3)
      modifies this`initConditions, this`updateTime, this`bogus
      ensures initConditions == initCOM && updateTime == 0.0 && !bogus
    {
      initConditions := initCOM;
      updateTime := 0.0;
      bogus := false;
    }

    /**
     * onStep.  Once the update clock reaches controlTime the network is
     * integrated over it with the constant descending command for each of
     * the `numMuscles` cables, and the clock restarts; a diverging
     * integration raises out of the step before the clock restarts and
     * without touching the abort flag.  A tracked segment outside the
     * height band only marks the trial bogus: the trial goes on.
     */
    method OnStep(dt: real, numMuscles: nat, diverges: bool, height: real) returns (outcome: StepOutcome)
      modifies this`updateTime, this`bogus, this`notified, network`steps
      ensures outcome.Abort? <==> old(updateTime) + dt >= config.controlTime && diverges
      ensures outcome.Abort? ==>
        outcome.error == IntegrationFailed && updateTime == old(updateTime) + dt && bogus == old(bogus)
        && network.steps == old(network.steps) && notified == old(notified)
      ensures old(updateTime) + dt < config.controlTime ==>
        updateTime == old(updateTime) + dt && network.steps == old(network.steps) && notified == old(notified)
      ensures old(updateTime) + dt >= config.controlTime && !diverges ==>
        updateTime == 0.0 && notified == old(notified) + [old(updateTime) + dt]
        && network.steps == old(network.steps)
             + [Integration(Copies(DescendingCommand, numMuscles), old(updateTime) + dt)]
      ensures outcome == Continue ==> bogus == (old(bogus) || !HeightInBand(height, MinHeight, MaxHeight))
      ensures outcome == Continue ==> updateTime < config.controlTime || updateTime == 0.0
    {
      updateTime := updateTime + dt;
      if updateTime >= config.controlTime {
        var desComs := seq(numMuscles, _ => DescendingCommand);
        var ok := network.Update(desComs, updateTime, diverges);
        if !ok {
          return Abort(IntegrationFailed);
        }
        notified := notified + [updateTime];
        updateTime := 0.0;
      }
      if height > MaxHeight || height < MinHeight {
        bogus := true;
      }
      return Continue;
    }

    /**
     * onTeardown: the scores are the planar distance walked by the tracked
     * segment (-1 for a bogus trial) and the energy spent by all cables,
     * appended to the parameter file's scores; the cable controllers are
     * released.
     */
    method OnTeardown(finalCOM: Vec3, distance: real, histories: seq<CableHistory>)
      requires PlanarDistance(distance, initConditions, finalCOM)
      requires forall h <- histories :: h.Recorded()
      modifies this`scores, this`trialLog, this`controllers
      ensures scores == [DistanceScore(bogus, distance), Energy(histories)]
      ensures trialLog == TrialLog(old(trialLog.scores) + [ScoreRecord(scores[0], scores[1])], old(trialLog.metrics))
      ensures controllers == []
      ensures GetScore() == Ok(DistanceScore(bogus, distance))
    {
      scores := [];
      if bogus {
        scores := scores + [-1.0];
      } else {
        scores := scores + [distance];
      }
      var totalEnergySpent := TotalEnergy(histories);
      scores := scores + [totalEnergySpent];
      trialLog := TrialLog(trialLog.scores + [ScoreRecord(scores[0], totalEnergySpent)], trialLog.metrics);
      controllers := [];
    }

    /** getScore: the distance score, available only once both scores exist. */
    function GetScore(): (r: Result<real>)
      reads this`scores
      ensures r.Ok? <==> |scores| == 2
      ensures r.Ok? ==> r.value == scores[0]
      ensures r.Err? ==> r.error == RuntimeError("Called before scores were obtained!")
    {
      if |scores| == 2 then Ok(scores[0]) else Err(RuntimeError("Called before scores were obtained!"))
    }
  }

  /** n copies of x. */
  function Copies<T>(x: T, n: nat): (s: seq<T>)
    ensures |s| == n && forall i | 0 <= i < n :: s[i] == x
  {
    seq(n, _ => x)
  }

  /**
   * Every pair of cables that share a body, numbered consecutively from
   * `base`, indexes a table of n0 rows and n1 columns.
   */
  predicate NodesFit(all: seq<CPGActuator>, base: nat, n0: int, n1: int)
    reads all`fromBody, all`toBody
  {
    forall x, y | 0 <= x < |all| && 0 <= y < |all| && x != y && all[x].SharesBody(all[y]) ::
      base + x < n0 && base + x < n1 && base + y < n0 && base + y < n1
  }

  /** The couplings of cables 0 .. n-1, in order. */
  function AllCouplings(all: seq<CPGActuator>, edges: array2<EdgeParam>, n: nat): (cs: seq<Connections>)
    reads all`fromBody, all`toBody, all`nodeNumber, edges
    requires n <= |all|
    ensures |cs| == n
  {
    if n == 0 then [] else AllCouplings(all, edges, n - 1) + [all[n - 1].Couplings(all, edges)]
  }

  /** Entry x of the list is cable x's couplings. */
  lemma {:induction false} AllCouplingsAt(all: seq<CPGActuator>, edges: array2<EdgeParam>, n: nat, x: nat)
    requires x < n <= |all|
    ensures AllCouplings(all, edges, n)[x] == all[x].Couplings(all, edges)
  {
    if x < n - 1 {
      AllCouplingsAt(all, edges, n - 1, x);
    }
  }

  /** The coupling map once the nodes base .. base+i-1 have declared their couplings cs[0 .. i-1]. */
  function Connected(before: map<int, Connections>, base: nat, cs: seq<Connections>, i: nat): map<int, Connections>
    requires i <= |cs|
  {
    if i == 0 then before
    else WithCouplings(Connected(before, base, cs, i - 1), base + i - 1, cs[i - 1])
  }

  /** Node base + x carries its earlier couplings followed by exactly those declared for it. */
  lemma {:induction false} ConnectedAt(before: map<int, Connections>, base: nat, cs: seq<Connections>, i: nat, x: nat)
    requires i <= |cs| && x < i
    ensures base + x in Connected(before, base, cs, i)
    ensures Connected(before, base, cs, i)[base + x] == Declared(before, base + x).Plus(cs[x])
  {
    if x < i - 1 {
      ConnectedAt(before, base, cs, i - 1, x);
    } else {
      ConnectedElsewhere(before, base, cs, i - 1, base + x);
    }
  }

  /** Nodes outside the new range keep their couplings, and no other node gains any. */
  lemma {:induction false} ConnectedElsewhere(before: map<int, Connections>, base: nat, cs: seq<Connections>,
                                              i: nat, n: int)
    requires i <= |cs| && !(base <= n < base + i)
    ensures n in Connected(before, base, cs, i) <==> n in before
    ensures n in before ==> Connected(before, base, cs, i)[n] == before[n]
  {
    if i > 0 {
      ConnectedElsewhere(before, base, cs, i - 1, n);
    }
  }

  /** With consecutive node numbers, NodesFit gives every cable's lookups inside the table. */
  lemma LookupsFit(all: seq<CPGActuator>, base: nat, edges: array2<EdgeParam>, i: nat)
    requires i < |all|
    requires forall x, y | 0 <= x < y < |all| :: all[x] != all[y]
    requires forall x | 0 <= x < |all| :: all[x].nodeNumber == base + x
    requires NodesFit(all, base, edges.Length0, edges.Length1)
    ensures all[i].LookupsInTable(all, edges)
  {
    forall a | a in all && a != all[i] && all[i].SharesBody(a)
      ensures 0 <= all[i].nodeNumber < edges.Length0 && 0 <= all[i].nodeNumber < edges.Length1
      ensures 0 <= a.nodeNumber < edges.Length0 && 0 <= a.nodeNumber < edges.Length1
    {
      var y :| 0 <= y < |all| && all[y] == a;
      assert y != i;
    }
  }
}
