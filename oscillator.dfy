/**
 * The CPG network the controllers drive.  Its differential equations are not
 * part of this model: the network is represented by the nodes added to it,
 * the couplings declared for each node, and the integration requests it has
 * carried out.  Whether an integration diverges is decided outside the model
 * and passed in.
 */
module Oscillator {

  /** The coupling list of one node: neighbours with their weights and phase offsets, in parallel. */
  datatype Connections = Connections(neighbours: seq<int>, weights: seq<real>, phases: seq<real>)
  {
    predicate Parallel() { |neighbours| == |weights| == |phases| }

    /** These couplings followed by those of `more`, list by list. */
    function Plus(more: Connections): (r: Connections)
      ensures Parallel() && more.Parallel() ==> r.Parallel()
    {
      Connections(neighbours + more.neighbours, weights + more.weights, phases + more.phases)
    }
  }

  /** The couplings declared for a node so far: none for a node never declared. */
  function Declared(m: map<int, Connections>, node: int): Connections
  {
    if node in m then m[node] else Connections([], [], [])
  }

  /**
   * The coupling map once `node` has declared `c`: the new couplings follow
   * the ones the node already had, and every other node is left alone.
   */
  function WithCouplings(m: map<int, Connections>, node: int, c: Connections): (r: map<int, Connections>)
    ensures node in r && r[node] == Declared(m, node).Plus(c)
  {
    m[node := Declared(m, node).Plus(c)]
  }

  /** One completed integration: the descending commands and the time span integrated. */
  datatype Integration = Integration(commands: seq<real>, dt: real)

  class CPGNetwork {
    var nodes: seq<seq<real>>
    var connections: map<int, Connections>
    var steps: seq<Integration>

    constructor ()
      ensures nodes == [] && connections == map[] && steps == []
    {
      nodes := [];
      connections := map[];
      steps := [];
    }

    /** Adds a node with the given parameters; its number is its position. */
    method AddNode(params: seq<real>) returns (index: int)
      modifies this`nodes
      ensures index == |old(nodes)|
      ensures nodes == old(nodes) + [params]
    {
      index := |nodes|;
      nodes := nodes + [params];
    }

    /** Declares couplings of one node, after any it already has. */
    method DefineConnections(node: int, c: Connections)
      modifies this`connections
      ensures connections == WithCouplings(old(connections), node, c)
    {
      connections := WithCouplings(connections, node, c);
    }

    /**
     * Integrates the network over `dt` under the given commands; a diverging
     * integration raises (ok == false) and records nothing.
     */
    method Update(commands: seq<real>, dt: real, diverges: bool) returns (ok: bool)
      modifies this`steps
      ensures ok == !diverges
      ensures steps == if ok then old(steps) + [Integration(commands, dt)] else old(steps)
    {
      ok := !diverges;
      if ok {
        steps := steps + [Integration(commands, dt)];
      }
    }
  }
}
