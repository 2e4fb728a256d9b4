/**
 * The per-cable CPG controller of the general mountain-goat model: it owns
 * one node of the CPG network, couples it to every other cable that shares
 * a rigid body with it, and drives its motor on a fixed control interval.
 */
module ActuatorControl {
  import opened Common
  import opened EdgeTables
  import opened Oscillator

  /** A rigid body, by identity. */
  datatype Body = Body(id: nat)

  /** What the actuator did with its motor in one simulation step. */
  datatype MotorEvent =
    | Command(controlTime: real, controlLength: real, cpgValue: real)
    | Move(dt: real)

  /** Fixed node parameters after frequency and radius: rConst, and the descending-command bounds. */
  const RConst := 20.0
  const DescendingMin := 0.0
  const DescendingMax := 5.0

  /** The seven node parameters built from a frequency and a radius. */
  function NodeParams(freq: real, radius: real): (p: seq<real>)
    ensures |p| == 7
    ensures p[0] == p[1] == freq && p[2] == p[3] == radius
    ensures p[4..] == [RConst, DescendingMin, DescendingMax]
  {
    [freq, freq, radius, radius, RConst, DescendingMin, DescendingMax]
  }

  /** Coupling (j, k) is stored once, in the upper triangle: the smaller node number indexes the row. */
  function PairEdge(edges: array2<EdgeParam>, j: int, k: int): EdgeParam
    reads edges
  {
    if 0 <= j < edges.Length0 && 0 <= k < edges.Length1 && 0 <= k < edges.Length0 && 0 <= j < edges.Length1
    then (if j > k then edges[k, j] else edges[j, k])
    else Unset
  }

  /** The lookup is the same from either end of a coupling. */
  lemma PairEdgeSymmetric(edges: array2<EdgeParam>, j: int, k: int)
    requires 0 <= j < edges.Length0 && 0 <= k < edges.Length1
    requires 0 <= k < edges.Length0 && 0 <= j < edges.Length1
    ensures PairEdge(edges, j, k) == PairEdge(edges, k, j)
  {
  }

  class CPGActuator {
    /** Time since the last command, and since the start. */
    var controlTime: real
    var totalTime: real
    const controlStep: real
    var commandedTension: real
    /** Bodies of the first and last anchors, once attached. */
    var fromBody: Option<Body>
    var toBody: Option<Body>
    /** This cable's node in the CPG network, -1 until assigned. */
    var nodeNumber: int
    var system: CPGNetwork?
    var controlLength: real
    var motorLog: seq<MotorEvent>

    constructor (controlStep: real)
      requires controlStep >= 0.0
      ensures this.controlStep == controlStep
      ensures controlTime == 0.0 && totalTime == 0.0 && commandedTension == 0.0
      ensures fromBody == None && toBody == None && nodeNumber == -1 && system == null && motorLog == []
    {
      this.controlStep := controlStep;
      controlTime := 0.0;
      totalTime := 0.0;
      commandedTension := 0.0;
      fromBody := None;
      toBody := None;
      nodeNumber := -1;
      system := null;
      controlLength := 0.0;
      motorLog := [];
    }

    /** The constructor's check: a negative control step is refused. */
    static method New(controlStep: real) returns (r: Result<CPGActuator>)
      ensures r.Ok? <==> controlStep >= 0.0
      ensures r.Err? ==> r.error == InvalidArgument("Negative control step")
      ensures r.Ok? ==> fresh(r.value) && r.value.controlStep == controlStep && r.value.nodeNumber == -1
      ensures r.Ok? ==> r.value.controlTime == 0.0 && r.value.totalTime == 0.0 && r.value.motorLog == []
      ensures r.Ok? ==> r.value.fromBody == None && r.value.toBody == None && r.value.system == null
    {
      if controlStep < 0.0 {
        return Err(InvalidArgument("Negative control step"));
      }
      var a := new CPGActuator(controlStep);
      return Ok(a);
    }

    /**
     * onAttach: the control length starts as the cable's start length; the
     * cable runs from its first anchor's body to its last anchor's body.
     */
    method OnAttach(startLength: real, anchorBodies: seq<Option<Body>>)
      requires |anchorBodies| >= 2
      modifies this`controlLength, this`fromBody, this`toBody
      ensures controlLength == startLength
      ensures fromBody == anchorBodies[0] && toBody == anchorBodies[|anchorBodies| - 1]
    {
      controlLength := startLength;
      var n := |anchorBodies|;
      fromBody := anchorBodies[0];
      toBody := anchorBodies[n - 1];
    }

    /** The control clock never passes the control step, except that a zero clock is always allowed. */
    predicate ClockValid()
      reads this
    {
      0.0 <= controlTime && (controlTime < controlStep || controlTime == 0.0)
    }

    /**
     * onStep.  Once the control clock reaches the control step the motor is
     * given a new command (the impedance controller's answer, `commanded`)
     * and the clock restarts; otherwise the motor just moves for dt.
     */
    method OnStep(dt: real, cpgValue: real, commanded: real)
      modifies this`controlTime, this`totalTime, this`commandedTension, this`motorLog
      ensures totalTime == old(totalTime) + dt
      ensures old(controlTime) + dt >= controlStep ==>
        controlTime == 0.0 && commandedTension == commanded
        && motorLog == old(motorLog) + [Command(old(controlTime) + dt, controlLength, cpgValue)]
      ensures old(controlTime) + dt < controlStep ==>
        controlTime == old(controlTime) + dt && commandedTension == old(commandedTension)
        && motorLog == old(motorLog) + [Move(dt)]
      ensures old(ClockValid()) && dt >= 0.0 ==> ClockValid()
    {
      controlTime := controlTime + dt;
      totalTime := totalTime + dt;
      if controlTime >= controlStep {
        motorLog := motorLog + [Command(controlTime, controlLength, cpgValue)];
        commandedTension := commanded;
        controlTime := 0.0;
      } else {
        motorLog := motorLog + [Move(dt)];
      }
    }

    /**
     * assignNodeNumber: adds this cable's node to the network, built from
     * the first row of the node table (frequency, radius), and keeps its
     * number.  A node is assigned only once.
     */
    method AssignNodeNumber(cpgSystem: CPGNetwork, nodeTable: array2<real>)
      requires nodeNumber == -1
      requires nodeTable.Length0 >= 1 && nodeTable.Length1 >= 2
      modifies this`nodeNumber, this`system, cpgSystem`nodes
      ensures system == cpgSystem
      ensures nodeNumber == |old(cpgSystem.nodes)|
      ensures cpgSystem.nodes == old(cpgSystem.nodes) + [NodeParams(nodeTable[0, 0], nodeTable[0, 1])]
    {
      system := cpgSystem;
      var params := [nodeTable[0, 0], nodeTable[0, 0], nodeTable[0, 1], nodeTable[0, 1],
                     RConst, DescendingMin, DescendingMax];
      nodeNumber := cpgSystem.AddNode(params);
    }

    /** The two cables share a rigid body at either end (by identity, so two unattached ends match too). */
    predicate SharesBody(other: CPGActuator)
      reads this`fromBody, this`toBody, other`fromBody, other`toBody
    {
      fromBody == other.fromBody || toBody == other.toBody
      || fromBody == other.toBody || toBody == other.fromBody
    }

    /** Every coupled cable's node indexes the coupling table together with this one's. */
    predicate LookupsInTable(all: seq<CPGActuator>, edges: array2<EdgeParam>)
      reads this`fromBody, this`toBody, this`nodeNumber
      reads all`fromBody, all`toBody, all`nodeNumber
    {
      forall a <- all :: a != this && SharesBody(a) ==>
        0 <= nodeNumber < edges.Length0 && 0 <= nodeNumber < edges.Length1
        && 0 <= a.nodeNumber < edges.Length0 && 0 <= a.nodeNumber < edges.Length1
    }

    /** The couplings of this cable's node: every other cable sharing a body, in order, with the table's entry. */
    function Couplings(all: seq<CPGActuator>, edges: array2<EdgeParam>): (c: Connections)
      reads this`fromBody, this`toBody, this`nodeNumber
      reads all`fromBody, all`toBody, all`nodeNumber, edges
      decreases |all|
      ensures c.Parallel()
    {
      if all == [] then Connections([], [], [])
      else
        var prev := Couplings(all[..|all| - 1], edges);
        var a := all[|all| - 1];
        if a != this && SharesBody(a) then
          var e := PairEdge(edges, nodeNumber, a.nodeNumber);
          Connections(prev.neighbours + [a.nodeNumber], prev.weights + [e.weight], prev.phases + [e.phase])
        else prev
    }

    /**
     * setConnectivity: declares this node's couplings to the network.  The
     * node must have been assigned and every cable must belong to the same
     * network.
     */
    method SetConnectivity(all: seq<CPGActuator>, edges: array2<EdgeParam>)
      requires nodeNumber >= 0 && system != null
      requires forall a <- all :: a != this ==> a.system == system
      requires LookupsInTable(all, edges)
      modifies system`connections
      ensures system.connections == WithCouplings(old(system.connections), nodeNumber, Couplings(all, edges))
    {
      var connectivityList: seq<int> := [];
      var weights: seq<real> := [];
      var phases: seq<real> := [];
      var i := 0;
      while i < |all|
        invariant 0 <= i <= |all|
        invariant Connections(connectivityList, weights, phases) == Couplings(all[..i], edges)
      {
        assert all[..i + 1][..i] == all[..i];
        var other := all[i];
        if this != other {
          if fromBody == other.fromBody || toBody == other.toBody
             || fromBody == other.toBody || toBody == other.fromBody {
            var theirMuscle := other.nodeNumber;
            var j, k := nodeNumber, theirMuscle;
            connectivityList := connectivityList + [theirMuscle];
            if j > k {
              weights := weights + [edges[k, j].weight];
              phases := phases + [edges[k, j].phase];
            } else {
              weights := weights + [edges[j, k].weight];
              phases := phases + [edges[j, k].phase];
            }
          }
        }
        i := i + 1;
      }
      assert all[..|all|] == all;
      system.DefineConnections(nodeNumber, Connections(connectivityList, weights, phases));
    }

    /** setupControl with an explicit control length: a negative length is refused and changes nothing. */
    method SetupControl(length: real) returns (r: Result<()>)
      modifies this`controlLength
      ensures r.Ok? <==> length >= 0.0
      ensures r.Err? ==> r.error == InvalidArgument("Negative control length") && controlLength == old(controlLength)
      ensures r.Ok? ==> controlLength == length
    {
      if length < 0.0 {
        return Err(InvalidArgument("Negative control length"));
      }
      controlLength := length;
      return Ok(());
    }
  }

  /** Sharing a body is symmetric, so coupling is two-way. */
  lemma SharesBodySymmetric(a: CPGActuator, b: CPGActuator)
    ensures a.SharesBody(b) <==> b.SharesBody(a)
  {
  }

  /** Exactly the other cables that share a body appear among a node's neighbours, with their table entry. */
  lemma {:induction false} CouplingsMembers(me: CPGActuator, all: seq<CPGActuator>, edges: array2<EdgeParam>, x: nat)
    requires x < |all| && all[x] != me && me.SharesBody(all[x])
    ensures exists y | 0 <= y < |me.Couplings(all, edges).neighbours| ::
      me.Couplings(all, edges).neighbours[y] == all[x].nodeNumber
      && me.Couplings(all, edges).weights[y] == PairEdge(edges, me.nodeNumber, all[x].nodeNumber).weight
      && me.Couplings(all, edges).phases[y] == PairEdge(edges, me.nodeNumber, all[x].nodeNumber).phase
  {
    var n := |all| - 1;
    var prev := me.Couplings(all[..n], edges);
    if x < n {
      assert all[..n][x] == all[x];
      CouplingsMembers(me, all[..n], edges, x);
      var y :| 0 <= y < |prev.neighbours| && prev.neighbours[y] == all[x].nodeNumber
        && prev.weights[y] == PairEdge(edges, me.nodeNumber, all[x].nodeNumber).weight
        && prev.phases[y] == PairEdge(edges, me.nodeNumber, all[x].nodeNumber).phase;
      assert me.Couplings(all, edges).neighbours[y] == prev.neighbours[y];
    } else {
      assert me.Couplings(all, edges).neighbours[|prev.neighbours|] == all[x].nodeNumber;
    }
  }

  /** Every neighbour is the node of another cable that shares a body; with distinct node numbers, never the node itself. */
  lemma {:induction false} CouplingsOnlyShared(me: CPGActuator, all: seq<CPGActuator>, edges: array2<EdgeParam>, y: nat)
    requires y < |me.Couplings(all, edges).neighbours|
    ensures exists x | 0 <= x < |all| ::
              all[x] != me && me.SharesBody(all[x]) && me.Couplings(all, edges).neighbours[y] == all[x].nodeNumber
  {
    var n := |all| - 1;
    var prev := me.Couplings(all[..n], edges);
    if y < |prev.neighbours| {
      CouplingsOnlyShared(me, all[..n], edges, y);
      var x :| 0 <= x < n && all[..n][x] != me && me.SharesBody(all[..n][x])
        && prev.neighbours[y] == all[..n][x].nodeNumber;
      assert me.Couplings(all, edges).neighbours[y] == prev.neighbours[y];
    } else {
      assert all[n] != me && me.SharesBody(all[n]);
    }
  }

  /** When node numbers are distinct, a node is never its own neighbour. */
  lemma NoSelfCoupling(me: CPGActuator, all: seq<CPGActuator>, edges: array2<EdgeParam>)
    requires forall a <- all :: a != me ==> a.nodeNumber != me.nodeNumber
    ensures me.nodeNumber !in me.Couplings(all, edges).neighbours
  {
    var c := me.Couplings(all, edges);
    if me.nodeNumber in c.neighbours {
      var y :| 0 <= y < |c.neighbours| && c.neighbours[y] == me.nodeNumber;
      CouplingsOnlyShared(me, all, edges, y);
    }
  }
}
