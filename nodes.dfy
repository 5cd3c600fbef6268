/**
 * The dataflow nodes of the editor (`Node`): named ports, each with at most
 * one incoming connection and any number of outgoing ones, a dirty flag that
 * marks the cached `state` as stale, and `soil`, which marks a node and the
 * nodes downstream of its leading output ports.
 *
 * Connection ends are compared BY VALUE here (node and port name), which is
 * what `Address.Equals` describes; see module `AddressIdentity` for the reference
 * comparison the program's `HashSet<Address>` actually performs.
 *
 * A ghost `Graph` describes the nodes involved: each node's ports and
 * connections, and a rank such that every output connection leads to a node
 * of lower rank.  The rank bounds the recursion of `soil`.
 */
module Nodes {
  import opened Common
  import opened Blobs

  /** `Node.Address`: a node and the name of one of its ports. */
  datatype Address = Address(node: Node, port: string)

  /** The output sets after adding `a` at `port` (no change for an unknown port). */
  function Added(o: map<string, set<Address>>, port: string, a: Address): (r: map<string, set<Address>>)
    ensures r.Keys == o.Keys
    ensures port in o ==> r[port] == o[port] + {a}
    ensures forall p :: p in o && p != port ==> r[p] == o[p]
  {
    if port in o then o[port := o[port] + {a}] else o
  }

  /** The output sets after removing `a` at `port` (no change for an unknown port). */
  function Removed(o: map<string, set<Address>>, port: string, a: Address): (r: map<string, set<Address>>)
    ensures r.Keys == o.Keys
    ensures port in o ==> r[port] == o[port] - {a} && a !in r[port]
    ensures forall p :: p in o && p != port ==> r[p] == o[p]
  {
    if port in o then o[port := o[port] - {a}] else o
  }

  /** `a` is not yet among the connections of output port `port` (or there is no such port). */
  predicate Absent(o: map<string, set<Address>>, port: string, a: Address)
  {
    port in o ==> a !in o[port]
  }

  /** Removing what was just added restores the output table, when it was not there before. */
  lemma RemoveAdded(o: map<string, set<Address>>, port: string, a: Address)
    ensures Absent(o, port, a) <==> Removed(Added(o, port, a), port, a) == o
  {
    if port in o && a in o[port] {
      assert Removed(Added(o, port, a), port, a)[port] != o[port];
    }
  }

  /**
   * The number of leading ports, in enumeration order, that are output ports
   * (a port missing from `isOutput` counts as not an output).
   */
  function OutputPrefix(ports: seq<string>, isOutput: map<string, bool>): (k: nat)
    ensures k <= |ports|
    ensures forall j :: 0 <= j < k ==> ports[j] in isOutput && isOutput[ports[j]]
    ensures k < |ports| ==> !(ports[k] in isOutput && isOutput[ports[k]])
  {
    if ports == [] then 0
    else if !(ports[0] in isOutput && isOutput[ports[0]]) then 0
    else 1 + OutputPrefix(ports[1..], isOutput)
  }

  /** The walk of `soil` stops exactly at the first port that is not an output. */
  lemma {:induction false} OutputPrefixAt(ports: seq<string>, isOutput: map<string, bool>, k: nat)
    requires k <= |ports| && forall j :: 0 <= j < k ==> ports[j] in isOutput && isOutput[ports[j]]
    requires k < |ports| ==> !(ports[k] in isOutput && isOutput[ports[k]])
    ensures OutputPrefix(ports, isOutput) == k
  {
    if k > 0 {
      assert ports[0] in isOutput && isOutput[ports[0]];
      OutputPrefixAt(ports[1..], isOutput, k - 1);
    }
  }

  lemma PrefixGoesOn(ports: seq<string>, isOutput: map<string, bool>, k: nat)
    requires k <= OutputPrefix(ports, isOutput) && k < |ports| && ports[k] in isOutput && isOutput[ports[k]]
    ensures k < OutputPrefix(ports, isOutput)
  {
  }

  lemma PrefixEnds(ports: seq<string>, isOutput: map<string, bool>, k: nat)
    requires k <= OutputPrefix(ports, isOutput)
    requires k == |ports| || (ports[k] in isOutput && !isOutput[ports[k]])
    ensures k == OutputPrefix(ports, isOutput)
  {
  }

  class Node {
    var isDirty: bool
    var extra: string
    /** The keys of `properties`, in the order the dictionary enumerates them. */
    var ports: seq<string>
    /** `properties[p].isOutput`. */
    var isOutput: map<string, bool>
    /** `properties[p].input`: `None` is null. */
    var input: map<string, Option<Address>>
    /** `properties[p].output`. */
    var output: map<string, set<Address>>
    var state: DataBlob?

    ghost predicate Valid()
      reads this`ports, this`isOutput, this`input, this`output
    {
      WellFormed(ports, isOutput, input, output)
    }

    /**
     * `new Node()` followed by the subclass's `createProperties`: the "name"
     * property comes first and is neither an input nor an output
     * (`new Property(false, false)`), then the subclass's ports.
     */
    constructor (extraPorts: seq<string>, outputs: set<string>)
      requires forall i, j :: 0 <= i < j < |extraPorts| ==> extraPorts[i] != extraPorts[j]
      requires "name" !in extraPorts
      ensures Valid() && !isDirty && fresh(state)
      ensures ports == ["name"] + extraPorts
      ensures forall p :: p in ports ==> isOutput[p] == (p in outputs && p != "name")
      ensures forall p :: p in ports ==> input[p] == None && output[p] == {}
    {
      isDirty := false;
      extra := "";
      ports := ["name"] + extraPorts;
      isOutput := map p | p in ["name"] + extraPorts :: p in outputs && p != "name";
      input := map p | p in ["name"] + extraPorts :: None;
      output := map p | p in ["name"] + extraPorts :: {};
      state := new DataBlob();
      new;
      assert forall i :: 0 < i < |ports| ==> ports[i] == extraPorts[i - 1];
    }

    /** `setExtra`. */
    method SetExtra(s: string)
      modifies this`extra
      ensures extra == s
    {
      extra := s;
    }

    /** The base `clean`. */
    method Clean()
      modifies this`isDirty
      ensures !isDirty
    {
      isDirty := false;
    }

    /** `getData`: recompute the cached state if it is stale, then return it. */
    method GetData(port: string) returns (d: DataBlob?)
      modifies this`isDirty
      ensures d == state && !isDirty
    {
      if isDirty {
        Clean();
      }
      d := state;
    }

    /** `addOutput`: any number of connections may leave a port; fails only for an unknown port. */
    method AddOutput(port: string, to: Node, toPort: string, ghost g: Graph) returns (ok: bool)
      requires Current(g) && this in g
      modifies this`output
      ensures ok == (port in old(output))
      ensures output == Added(old(output), port, Address(to, toPort))
      ensures Current(WithOutput(g, this, output))
    {
      if port in output {
        output := output[port := output[port] + {Address(to, toPort)}];
        ok := true;
      } else {
        ok := false;
      }
    }

    /**
     * `removeOutput`, with connection ends compared by value; only this end
     * of the connection is broken, and an unknown port changes nothing.
     */
    method RemoveOutput(port: string, to: Node, toPort: string, ghost g: Graph)
      requires Current(g) && this in g
      modifies this`output
      ensures output == Removed(old(output), port, Address(to, toPort))
      ensures Current(WithOutput(g, this, output))
    {
      var gone := Address(to, toPort);
      if port in output {
        output := output[port := output[port] - {gone}];
      }
    }

    /**
     * `removeInput`: clear the input of a known port (leaving the upstream
     * end in place), then soil this node whether or not the port exists.
     */
    method RemoveInput(port: string, ghost g: Graph) returns (ghost g': Graph)
      requires GraphOk(g) && Current(g) && this in g
      modifies this`input, g.Keys`isDirty
      ensures g' == WithInput(g, this, Cleared(g[this].input, port))
      ensures GraphOk(g') && Current(g') && SameWiring(g', g)
      ensures input == Cleared(old(input), port)
      ensures DirtySet(g) == old(DirtySet(g)) + Soiled(g, this)
    {
      Listed(g, this);
      ClearOk(g, this, port);
      SetInput(Cleared(input, port), g);
      g' := WithInput(g, this, input);
      DirtySame(g, g');
      var _ := Soil(g');
      DirtySame(g, g');
      SoiledSameWiring(g', g, this);
    }

    /**
     * `addInput`: for a known port, detach the old source (removing this end
     * from its output set) unless it is `from`'s `fromPort` itself, connect
     * `from`'s `fromPort`, and soil this node.
     * An unknown port changes nothing and fails.  The program clears the
     * input before installing the new one; nothing observes the cleared
     * state, so the model assigns the new input directly.
     */
    method AddInput(port: string, from: Node, fromPort: string, ghost g: Graph)
      returns (ok: bool, ghost g': Graph)
      requires GraphOk(g) && Current(g) && this in g && from in g
      modifies this`input, g.Keys`output, g.Keys`isDirty
      ensures ok == (port in old(input))
      ensures g' == (if ok then Attached(g, this, port, Address(from, fromPort)) else g)
      ensures GraphOk(g') && Current(g')
      ensures ok ==> input == old(input)[port := Some(Address(from, fromPort))]
      ensures DirtySet(g) == old(DirtySet(g)) + (if ok then Soiled(g', this) else {})
    {
      Listed(g, this);
      if port !in input {
        ok := false;
        g' := g;
        return;
      }
      ghost var d0 := DirtySet(g);
      DetachOk(g, this, port, Address(from, fromPort));
      ghost var g1 := Detached(g, this, port, Address(from, fromPort));
      ghost var i1 := g1[this].input[port := Some(Address(from, fromPort))];
      assert i1 == input[port := Some(Address(from, fromPort))];
      if input[port].Some? && input[port] != Some(Address(from, fromPort)) {
        var src := input[port].value;
        src.node.RemoveOutput(src.port, this, port, g);
        assert g1 == WithOutput(g, src.node, src.node.output);
      }
      SetInput(input[port := Some(Address(from, fromPort))], g1);
      ok := true;
      g' := WithInput(g1, this, i1);
      assert g' == Attached(g, this, port, Address(from, fromPort));
      AttachOk(g1, this, port, Address(from, fromPort));
      assert DirtySet(g) == d0;
      DirtySame(g, g');
      var _ := Soil(g');
      DirtySame(g, g');
    }

    /**
     * `connect`: add the output end at `from`, then the input end at `to`;
     * if the input end cannot be made, remove the output end again.  The
     * ranks must allow the new connection.  They are a proof device: they
     * let `Soil` be proved to terminate for any port order.  The program
     * does not check for cycles and completes a `connect` that closes one,
     * since its `soil` stops at "name" (`SoilsOnlyItself`).
     */
    static method Connect(from: Node, fromPort: string, to: Node, toPort: string, ghost g: Graph)
      returns (ok: bool, ghost g': Graph)
      requires GraphOk(g) && Current(g) && from in g && to in g && g[to].rank < g[from].rank
      modifies g.Keys`input, g.Keys`output, g.Keys`isDirty
      ensures ok == (fromPort in old(from.output) && toPort in old(to.input))
      ensures GraphOk(g') && Current(g')
      ensures ok ==> g' == Attached(Linked(g, from, fromPort, Address(to, toPort)), to, toPort, Address(from, fromPort))
      ensures !ok ==> g' == Unlinked(Linked(g, from, fromPort, Address(to, toPort)), from, fromPort, Address(to, toPort))
      ensures ok ==>
                from in g' && to in g' && fromPort in g'[from].output && toPort in g'[to].input &&
                Address(to, toPort) in g'[from].output[fromPort] && g'[to].input[toPort] == Some(Address(from, fromPort))
      ensures !ok && Absent(g[from].output, fromPort, Address(to, toPort)) ==> g' == g
      ensures DirtySet(g) == old(DirtySet(g)) + (if ok then Soiled(g', to) else {})
    {
      ghost var g1 := Linked(g, from, fromPort, Address(to, toPort));
      LinkOk(g, from, fromPort, Address(to, toPort));
      var added := from.AddOutput(fromPort, to, toPort, g);
      if !added {
        g' := g1;
        UnlinkNothing(g1, from, fromPort, Address(to, toPort));
        assert g1 == g;
        ok := false;
        return;
      }
      DirtySame(g, g1);
      ok, g' := CompleteConnect(from, fromPort, to, toPort, g1);
      DirtySame(g, g1);
      if ok {
        ConnectMakesBothEnds(g, from, fromPort, to, toPort);
      } else if Absent(g[from].output, fromPort, Address(to, toPort)) {
        ConnectUndone(g, from, fromPort, Address(to, toPort));
      }
    }

    /**
     * The second half of `connect`, once the output end is in place: the
     * input end, or, when `to` has no such port, the removal of the output
     * end again.
     */
    static method CompleteConnect(from: Node, fromPort: string, to: Node, toPort: string, ghost g: Graph)
      returns (ok: bool, ghost g': Graph)
      requires GraphOk(g) && Current(g) && from in g && to in g
      modifies g.Keys`input, g.Keys`output, g.Keys`isDirty
      ensures ok == (toPort in old(to.input))
      ensures GraphOk(g') && Current(g')
      ensures ok ==> g' == Attached(g, to, toPort, Address(from, fromPort))
      ensures !ok ==> g' == Unlinked(g, from, fromPort, Address(to, toPort))
      ensures DirtySet(g) == old(DirtySet(g)) + (if ok then Soiled(g', to) else {})
    {
      var attached;
      attached, g' := to.AddInput(toPort, from, fromPort, g);
      if !attached {
        ghost var d := DirtySet(g);
        from.RemoveOutput(fromPort, to, toPort, g);
        assert DirtySet(g) == d;
        UnlinkOk(g, from, fromPort, Address(to, toPort));
        g' := Unlinked(g, from, fromPort, Address(to, toPort));
        ok := false;
        return;
      }
      ok := true;
    }

    /**
     * Connecting and then, on failure, removing the output end again can
     * only restore `from` if the connection was not there already.
     */
    static lemma ConnectUndone(g: Graph, from: Node, port: string, a: Address)
      requires from in g && Absent(g[from].output, port, a)
      ensures Unlinked(Linked(g, from, port, a), from, port, a) == g
    {
      RemoveAdded(g[from].output, port, a);
    }

    /** `disconnect`: remove the output end at `from`, then the input end at `to` (which soils `to`). */
    static method Disconnect(from: Node, fromPort: string, to: Node, toPort: string, ghost g: Graph)
      returns (ghost g': Graph)
      requires GraphOk(g) && Current(g) && from in g && to in g
      modifies g.Keys`input, g.Keys`output, g.Keys`isDirty
      ensures GraphOk(g') && Current(g')
      ensures g' == WithInput(Unlinked(g, from, fromPort, Address(to, toPort)), to, Cleared(g[to].input, toPort))
      ensures DirtySet(g) == old(DirtySet(g)) + Soiled(g', to)
    {
      ghost var g1 := Unlinked(g, from, fromPort, Address(to, toPort));
      UnlinkOk(g, from, fromPort, Address(to, toPort));
      UnlinkSame(g, from, fromPort, Address(to, toPort));
      ghost var o := g[from].output;
      assert o == from.output;
      from.RemoveOutput(fromPort, to, toPort, g);
      assert g1 == WithOutput(g, from, from.output);
      DirtySame(g, g1);
      g' := to.RemoveInput(toPort, g1);
      DirtySame(g, g1);
      SoiledSameWiring(g', g1, to);
    }

    /** An assignment to the input table, with its effect on the ghost graph. */
    method SetInput(i: map<string, Option<Address>>, ghost g: Graph)
      requires Current(g) && this in g
      modifies this`input
      ensures input == i
      ensures Current(WithInput(g, this, i))
    {
      input := i;
    }

    /** The first statement of `soil`: set this node's dirty flag. */
    method MarkDirty(ghost g: Graph)
      requires this in g
      modifies this`isDirty
      ensures isDirty
      ensures DirtySet(g) == old(DirtySet(g)) + {this}
    {
      isDirty := true;
    }

    /**
     * `soil`: mark this node dirty, then walk the ports in order; at the
     * first port that is not an output, stop; for an output port, soil every
     * node it is connected to.  `fired` says whether the walk got past every
     * port and raised the view event.
     */
    method Soil(ghost g: Graph) returns (fired: bool)
      requires GraphOk(g) && Current(g) && this in g
      modifies g.Keys`isDirty
      ensures Current(g)
      ensures DirtySet(g) == old(DirtySet(g)) + Soiled(g, this)
      ensures fired == (OutputPrefix(g[this].ports, g[this].isOutput) == |g[this].ports|)
      decreases g[this].rank, 3
    {
      Listed(g, this);
      var ps, outs, conns := ports, isOutput, output;
      assert ps == g[this].ports && outs == g[this].isOutput && conns == g[this].output;
      ghost var d0 := DirtySet(g);
      MarkDirty(g);
      var k := Walk(g, this, ps, outs, conns, d0 + {this});
      ghost var d := DirtySet(g);
      Closed(g, this, k, d0, d);
      fired := k == |ps|;
    }
  }

  /**
   * The outer loop of `soil`: walk the ports of `n` in order while they are
   * output ports, soiling what each is connected to; `k` is where it stops.
   */
  method Walk(ghost g: Graph, ghost n: Node, ps: seq<string>, outs: map<string, bool>,
              conns: map<string, set<Address>>, ghost base: set<Node>) returns (k: nat)
    requires GraphOk(g) && Current(g) && n in g
    requires ps == g[n].ports && outs == g[n].isOutput && conns == g[n].output
    requires DirtySet(g) == base
    modifies g.Keys`isDirty
    ensures Current(g)
    ensures k == OutputPrefix(ps, outs)
    ensures DirtySet(g) == base + Walked(g, ps, conns, k)
    decreases g[n].rank, 2
  {
    Listed(g, n);
    WalkedNone(g, ps, conns);
    assert base + {} == base;
    k := 0;
    while k < |ps| && outs[ps[k]]
      invariant Current(g)
      invariant k <= OutputPrefix(ps, outs)
      invariant DirtySet(g) == base + Walked(g, ps, conns, k)
    {
      PrefixGoesOn(ps, outs, k);
      SoilPort(g, n, ps, conns, k, conns[ps[k]], base);
      k := k + 1;
    }
    PrefixEnds(ps, outs, k);
  }

  /** One round of the outer loop of `soil`: soil what port `k` of `n` is connected to. */
  method SoilPort(ghost g: Graph, ghost n: Node, ghost ports: seq<string>, ghost output: map<string, set<Address>>,
                  ghost k: nat, conns: set<Address>, ghost was: set<Node>)
    requires GraphOk(g) && Current(g) && n in g && ports == g[n].ports && output == g[n].output
    requires k < |ports| && ports[k] in output
    requires conns == output[ports[k]]
    requires DirtySet(g) == was + Walked(g, ports, output, k)
    modifies g.Keys`isDirty
    ensures Current(g)
    ensures DirtySet(g) == was + Walked(g, ports, output, k + 1)
    decreases g[n].rank, 1
  {
    Listed(g, n);
    ghost var before := DirtySet(g);
    SoilAll(g, n, conns);
    WalkStep(g, ports, output, k);
    assert DirtySet(g) == was + (Walked(g, ports, output, k) + Reached(g, conns));
  }

  /** The inner loop of `soil`: soil every node at the end of a connection in `conns`. */
  method SoilAll(ghost g: Graph, ghost n: Node, conns: set<Address>)
    requires GraphOk(g) && Current(g) && n in g
    requires forall a :: a in conns ==> a.node in g && g[a.node].rank < g[n].rank
    modifies g.Keys`isDirty
    ensures Current(g)
    ensures DirtySet(g) == old(DirtySet(g)) + Reached(g, conns)
    decreases g[n].rank, 0
  {
    var todo := conns;
    ghost var seen: set<Address> := {};
    ReachedNone(g);
    assert DirtySet(g) + {} == DirtySet(g) && conns - conns == {};
    while todo != {}
      invariant Current(g)
      invariant todo <= conns && seen == conns - todo
      invariant DirtySet(g) == old(DirtySet(g)) + Reached(g, seen)
      decreases todo
    {
      var a :| a in todo;
      ghost var before := DirtySet(g);
      var _ := a.node.Soil(g);
      ReachedAdd(g, seen, a);
      Regroup(old(DirtySet(g)), Reached(g, seen), before, Soiled(g, a.node), DirtySet(g));
      Moved(conns, todo, seen, a);
      todo := todo - {a};
      seen := seen + {a};
    }
  }

  /** Two unions in a row, regrouped. */
  lemma Regroup(d0: set<Node>, r: set<Node>, d1: set<Node>, s: set<Node>, d2: set<Node>)
    requires d1 == d0 + r && d2 == d1 + s
    ensures d2 == d0 + (r + s)
  {
  }

  /** One address moved from the work list `todo` to the done list `seen`. */
  lemma Moved(conns: set<Address>, todo: set<Address>, seen: set<Address>, a: Address)
    requires todo <= conns && seen == conns - todo && a in todo
    ensures seen + {a} == conns - (todo - {a})
  {
  }

  /** The input table after clearing a known port. */
  function Cleared(input: map<string, Option<Address>>, port: string): (r: map<string, Option<Address>>)
    ensures r.Keys == input.Keys
    ensures port in input ==> r[port] == None
    ensures forall p :: p in input && p != port ==> r[p] == input[p]
  {
    if port in input then input[port := None] else input
  }

  /** `g` with the input table of `n` replaced. */
  ghost function WithInput(g: Graph, n: Node, input: map<string, Option<Address>>): Graph
    requires n in g
  {
    g[n := g[n].(input := input)]
  }

  /** `g` with the output table of `n` replaced. */
  ghost function WithOutput(g: Graph, n: Node, output: map<string, set<Address>>): Graph
    requires n in g
  {
    g[n := g[n].(output := output)]
  }

  /** `g` after `n.addOutput(port, a.node, a.port)`. */
  ghost function Linked(g: Graph, n: Node, port: string, a: Address): Graph
    requires n in g
  {
    WithOutput(g, n, Added(g[n].output, port, a))
  }

  /** `g` after `n.removeOutput(port, a.node, a.port)`. */
  ghost function Unlinked(g: Graph, n: Node, port: string, a: Address): Graph
    requires n in g
  {
    WithOutput(g, n, Removed(g[n].output, port, a))
  }

  /**
   * `g` after the first half of `n.addInput(port, a.node, a.port)`: the old
   * source of `port`, if any and if it is not `a` itself, forgets `n`.
   */
  ghost function Detached(g: Graph, n: Node, port: string, a: Address): Graph
    requires n in g
  {
    if port in g[n].input && g[n].input[port].Some? && g[n].input[port] != Some(a) && g[n].input[port].value.node in g then
      Unlinked(g, g[n].input[port].value.node, g[n].input[port].value.port, Address(n, port))
    else g
  }

  /** `g` after `n.addInput(port, a.node, a.port)` succeeds. */
  ghost function Attached(g: Graph, n: Node, port: string, a: Address): Graph
    requires n in g
  {
    ghost var g1 := Detached(g, n, port, a);
    assert n in g1;
    WithInput(g1, n, g1[n].input[port := Some(a)])
  }

  /**
   * After `connect` succeeds both ends are in place, also when the same
   * connection is made again: the detach of `addInput` spares the source
   * being connected.
   */
  lemma ConnectMakesBothEnds(g: Graph, from: Node, fromPort: string, to: Node, toPort: string)
    requires from in g && to in g && fromPort in g[from].output && toPort in g[to].input
    ensures var g' := Attached(Linked(g, from, fromPort, Address(to, toPort)), to, toPort, Address(from, fromPort));
      from in g' && to in g' && fromPort in g'[from].output && toPort in g'[to].input &&
      Address(to, toPort) in g'[from].output[fromPort] && g'[to].input[toPort] == Some(Address(from, fromPort))
  {
    var a := Address(from, fromPort);
    var g1 := Linked(g, from, fromPort, Address(to, toPort));
    var g2 := Detached(g1, to, toPort, a);
    if g1[to].input[toPort].Some? && g1[to].input[toPort] != Some(a) && g1[to].input[toPort].value.node in g1 {
      var src := g1[to].input[toPort].value;
      assert src.node != from || src.port != fromPort;
      assert g2 == Unlinked(g1, src.node, src.port, Address(to, toPort));
    }
    assert Address(to, toPort) in g2[from].output[fromPort];
  }

  /** Replacing a view by one with the same rank that fits keeps the graph well formed. */
  lemma Replace(g: Graph, n: Node, v: View)
    requires GraphOk(g) && n in g && v.rank == g[n].rank && Fits(g, v)
    ensures GraphOk(g[n := v])
  {
    var h := g[n := v];
    forall m | m in h
      ensures Fits(h, h[m])
    {
      if m == n {
        FitsSameRanks(g, h, v);
      } else {
        assert Fits(g, g[m]);
        FitsSameRanks(g, h, g[m]);
      }
    }
  }

  /** Whether a view fits depends only on the nodes and ranks of the graph. */
  lemma FitsSameRanks(g: Graph, h: Graph, v: View)
    requires g.Keys == h.Keys && forall m :: m in g ==> g[m].rank == h[m].rank
    requires Fits(g, v)
    ensures Fits(h, v)
  {
  }

  lemma ClearOk(g: Graph, n: Node, port: string)
    requires GraphOk(g) && n in g
    ensures GraphOk(WithInput(g, n, Cleared(g[n].input, port)))
    ensures SameWiring(WithInput(g, n, Cleared(g[n].input, port)), g)
  {
    assert Fits(g, g[n]);
    Replace(g, n, g[n].(input := Cleared(g[n].input, port)));
  }

  lemma AttachOk(g: Graph, n: Node, port: string, a: Address)
    requires GraphOk(g) && n in g && port in g[n].input && a.node in g
    ensures GraphOk(WithInput(g, n, g[n].input[port := Some(a)]))
  {
    assert Fits(g, g[n]);
    Replace(g, n, g[n].(input := g[n].input[port := Some(a)]));
  }

  /** `DirtySet` depends only on the nodes of the graph. */
  lemma DirtySame(g: Graph, h: Graph)
    requires g.Keys == h.Keys
    ensures DirtySet(g) == DirtySet(h)
  {
  }

  lemma LinkOk(g: Graph, n: Node, port: string, a: Address)
    requires GraphOk(g) && n in g && a.node in g && g[a.node].rank < g[n].rank
    ensures GraphOk(Linked(g, n, port, a))
  {
    assert Fits(g, g[n]);
    Replace(g, n, g[n].(output := Added(g[n].output, port, a)));
  }

  lemma UnlinkOk(g: Graph, n: Node, port: string, a: Address)
    requires GraphOk(g) && n in g
    ensures GraphOk(Unlinked(g, n, port, a))
  {
    assert Fits(g, g[n]);
    Replace(g, n, g[n].(output := Removed(g[n].output, port, a)));
  }

  lemma UnlinkSame(g: Graph, n: Node, port: string, a: Address)
    requires n in g
    ensures Unlinked(g, n, port, a).Keys == g.Keys
    ensures forall m :: m in g ==> Unlinked(g, n, port, a)[m].rank == g[m].rank && Unlinked(g, n, port, a)[m].input == g[m].input
  {
  }

  lemma UnlinkNothing(g: Graph, n: Node, port: string, a: Address)
    requires n in g && port !in g[n].output
    ensures Unlinked(g, n, port, a) == g
  {
  }

  lemma DetachOk(g: Graph, n: Node, port: string, a: Address)
    requires GraphOk(g) && n in g
    ensures GraphOk(Detached(g, n, port, a))
    ensures port in g[n].input && g[n].input[port].Some? ==> g[n].input[port].value.node in g
    ensures Detached(g, n, port, a).Keys == g.Keys
    ensures forall m :: m in g ==> Detached(g, n, port, a)[m].rank == g[m].rank && Detached(g, n, port, a)[m].input == g[m].input
  {
    assert Fits(g, g[n]);
    if port in g[n].input && g[n].input[port].Some? && g[n].input[port] != Some(a) {
      UnlinkOk(g, g[n].input[port].value.node, g[n].input[port].value.port, Address(n, port));
      UnlinkSame(g, g[n].input[port].value.node, g[n].input[port].value.port, Address(n, port));
    }
  }

  /** Inputs play no part in what `soil` marks. */
  ghost predicate SameWiring(g: Graph, h: Graph)
  {
    g.Keys == h.Keys &&
    forall m :: m in g ==>
      g[m].rank == h[m].rank && g[m].ports == h[m].ports && g[m].isOutput == h[m].isOutput && g[m].output == h[m].output
  }

  lemma SoiledSameWiring(g: Graph, h: Graph, n: Node)
    requires GraphOk(g) && GraphOk(h) && n in g && SameWiring(g, h)
    ensures Soiled(g, n) == Soiled(h, n)
    decreases g[n].rank
  {
    assert Fits(g, g[n]);
    Listed(g, n);
    forall a | a in Targets(g[n])
      ensures a.node in g && Soiled(g, a.node) == Soiled(h, a.node)
    {
      SoiledSameWiring(g, h, a.node);
    }
  }

  /** What `soil` needs to know about one node of a well-formed graph. */
  lemma Listed(g: Graph, n: Node)
    requires GraphOk(g) && n in g
    ensures forall j :: 0 <= j < |g[n].ports| ==> g[n].ports[j] in g[n].isOutput && g[n].ports[j] in g[n].output
    ensures forall p, a :: p in g[n].output && a in g[n].output[p] ==> a.node in g && g[a.node].rank < g[n].rank
  {
    assert Fits(g, g[n]);
  }

  lemma ReachedNone(g: Graph)
    requires GraphOk(g)
    ensures Reached(g, {}) == {}
  {
  }

  /** Ports listed once each, and one entry per port in each of the three tables. */
  ghost predicate WellFormed(ports: seq<string>, isOutput: map<string, bool>,
                             input: map<string, Option<Address>>, output: map<string, set<Address>>)
  {
    (forall i, j :: 0 <= i < j < |ports| ==> ports[i] != ports[j]) &&
    (forall p :: p in ports <==> p in isOutput) &&
    input.Keys == isOutput.Keys && output.Keys == isOutput.Keys
  }

  /** A node's connection state together with its rank. */
  datatype View = View(rank: nat, ports: seq<string>, isOutput: map<string, bool>,
                       input: map<string, Option<Address>>, output: map<string, set<Address>>)

  type Graph = map<Node, View>

  /** `g` describes the current connection state of each of its nodes. */
  ghost predicate Current(g: Graph)
    reads g.Keys`ports, g.Keys`isOutput, g.Keys`input, g.Keys`output
  {
    forall m {:trigger g[m]} :: m in g ==>
      g[m].ports == m.ports && g[m].isOutput == m.isOutput && g[m].input == m.input && g[m].output == m.output
  }

  /** The nodes of `g` whose dirty flag is set. */
  ghost function DirtySet(g: Graph): set<Node>
    reads g.Keys`isDirty
  {
    set m | m in g && m.isDirty
  }

  /** `v` is well formed and its connections stay inside `g`, output connections going down in rank. */
  ghost predicate Fits(g: Graph, v: View)
  {
    WellFormed(v.ports, v.isOutput, v.input, v.output) &&
    (forall p, a :: p in v.output && a in v.output[p] ==> a.node in g && g[a.node].rank < v.rank) &&
    (forall p :: p in v.input && v.input[p].Some? ==> v.input[p].value.node in g)
  }

  /** Every node of `g` fits in `g`. */
  ghost predicate GraphOk(g: Graph)
  {
    forall m {:trigger Fits(g, g[m])} :: m in g ==> Fits(g, g[m])
  }

  /** The connections of the first `k` ports. */
  ghost function PortTargets(ports: seq<string>, output: map<string, set<Address>>, k: nat): (t: set<Address>)
    requires k <= |ports|
    ensures forall a :: a in t ==> exists p :: p in output && a in output[p]
  {
    if k == 0 then {}
    else PortTargets(ports, output, k - 1) + (if ports[k - 1] in output then output[ports[k - 1]] else {})
  }

  /** The connections `soil` follows from a node: those of its leading output ports. */
  ghost function Targets(v: View): set<Address>
    requires WellFormed(v.ports, v.isOutput, v.input, v.output)
  {
    PortTargets(v.ports, v.output, OutputPrefix(v.ports, v.isOutput))
  }

  /** The nodes `soil` marks when called on `n`. */
  ghost function Soiled(g: Graph, n: Node): set<Node>
    requires GraphOk(g) && n in g
    decreases g[n].rank
  {
    assert Fits(g, g[n]);
    {n} + (set a, m | a in Targets(g[n]) && m in Soiled(g, a.node) :: m)
  }

  /** The nodes `soil` marks through the connections in `s` (those that lead into `g`). */
  ghost function Reached(g: Graph, s: set<Address>): set<Node>
    requires GraphOk(g)
  {
    set a, m | a in s && a.node in g && m in Soiled(g, a.node) :: m
  }

  /** The nodes `soil` marks through the first `k` ports of a node. */
  ghost function Walked(g: Graph, ports: seq<string>, output: map<string, set<Address>>, k: nat): set<Node>
    requires GraphOk(g) && k <= |ports|
  {
    Reached(g, PortTargets(ports, output, k))
  }

  lemma WalkedNone(g: Graph, ports: seq<string>, output: map<string, set<Address>>)
    requires GraphOk(g)
    ensures Walked(g, ports, output, 0) == {}
  {
  }

  lemma WalkStep(g: Graph, ports: seq<string>, output: map<string, set<Address>>, k: nat)
    requires GraphOk(g) && k < |ports| && ports[k] in output
    ensures Walked(g, ports, output, k + 1) == Walked(g, ports, output, k) + Reached(g, output[ports[k]])
  {
    ReachedUnion(g, PortTargets(ports, output, k), output[ports[k]]);
  }

  /**
   * A node whose first port is not an output soils only itself.  Every node
   * built by the constructor has "name", which is not an output, first.
   */
  lemma SoilsOnlyItself(g: Graph, n: Node)
    requires GraphOk(g) && n in g && |g[n].ports| > 0
    requires g[n].ports[0] in g[n].isOutput && !g[n].isOutput[g[n].ports[0]]
    ensures Soiled(g, n) == {n}
  {
    PrefixEnds(g[n].ports, g[n].isOutput, 0);
    assert Fits(g, g[n]);
    assert Targets(g[n]) == {};
  }

  /** What the walk of `soil` has marked once it stops is `Soiled`. */
  lemma Closed(g: Graph, n: Node, k: nat, d0: set<Node>, d: set<Node>)
    requires GraphOk(g) && n in g && k == OutputPrefix(g[n].ports, g[n].isOutput)
    requires d == d0 + {n} + Walked(g, g[n].ports, g[n].output, k)
    ensures d == d0 + Soiled(g, n)
  {
    SoiledAt(g, n, k);
    assert d == d0 + ({n} + Walked(g, g[n].ports, g[n].output, k));
  }

  /** Once the walk of `soil` has stopped at port `k`, it has followed all of `Targets`. */
  lemma SoiledAt(g: Graph, n: Node, k: nat)
    requires GraphOk(g) && n in g && k == OutputPrefix(g[n].ports, g[n].isOutput)
    ensures forall j :: 0 <= j < k ==> g[n].ports[j] in g[n].output
    ensures forall a :: a in PortTargets(g[n].ports, g[n].output, k) ==> a.node in g
    ensures Soiled(g, n) == {n} + Reached(g, PortTargets(g[n].ports, g[n].output, k))
  {
    assert Fits(g, g[n]);
  }

  lemma ReachedAdd(g: Graph, s: set<Address>, a: Address)
    requires GraphOk(g) && a.node in g
    ensures Reached(g, s + {a}) == Reached(g, s) + Soiled(g, a.node)
  {
  }

  lemma ReachedUnion(g: Graph, s: set<Address>, t: set<Address>)
    requires GraphOk(g)
    ensures Reached(g, s + t) == Reached(g, s) + Reached(g, t)
  {
  }
}

/**
 * The output sets as the program actually keeps them.  `Address` defines
 * `Equals(Address)` but neither `Equals(object)` nor `GetHashCode`, so a
 * `HashSet<Address>` compares its elements by reference.  Here each
 * `new Address(...)` is a `Ref` carrying a fresh allocation number.
 */
module AddressIdentity {
  import opened Nodes

  datatype Ref = Ref(id: nat, addr: Address)

  /** Every reference in the table was allocated before `next`. */
  ghost predicate AllocatedBefore(o: map<string, set<Ref>>, next: nat)
  {
    forall p, r :: p in o && r in o[p] ==> r.id < next
  }

  /** `addOutput` as written: a new `Address` object with number `next` joins the set. */
  function AddRef(o: map<string, set<Ref>>, next: nat, port: string, a: Address): (r: map<string, set<Ref>>)
    ensures r.Keys == o.Keys
    ensures port in o ==> r[port] == o[port] + {Ref(next, a)}
    ensures forall p :: p in o && p != port ==> r[p] == o[p]
  {
    if port in o then o[port := o[port] + {Ref(next, a)}] else o
  }

  /** `removeOutput` as written: remove the freshly built `match`, numbered `next`. */
  function RemoveRef(o: map<string, set<Ref>>, next: nat, port: string, a: Address): map<string, set<Ref>>
  {
    if port in o then o[port := o[port] - {Ref(next, a)}] else o
  }

  /** The connection ends of a port, forgetting which object holds them. */
  function Ends(o: map<string, set<Ref>>, port: string): (s: set<Address>)
    requires port in o
    ensures forall r :: r in o[port] ==> r.addr in s
  {
    set r | r in o[port] :: r.addr
  }

  /** `removeOutput` as written never removes anything. */
  lemma RemoveRefIsNoOp(o: map<string, set<Ref>>, next: nat, port: string, a: Address)
    requires AllocatedBefore(o, next)
    ensures RemoveRef(o, next, port, a) == o
  {
    if port in o {
      assert Ref(next, a) !in o[port];
      assert o[port] - {Ref(next, a)} == o[port];
      assert o[port := o[port]] == o;
    }
  }

  /**
   * A `connect` whose `addInput` fails: `addOutput` allocates one object,
   * then `removeOutput` allocates another to match it, and the first stays.
   * The output port still leads to `to` although no input points back.
   */
  lemma RollbackLeavesStaleEnd(o: map<string, set<Ref>>, next: nat, port: string, a: Address)
    requires AllocatedBefore(o, next) && port in o
    ensures AllocatedBefore(AddRef(o, next, port, a), next + 1)
    ensures RemoveRef(AddRef(o, next, port, a), next + 1, port, a) == AddRef(o, next, port, a)
    ensures a in Ends(RemoveRef(AddRef(o, next, port, a), next + 1, port, a), port)
  {
    var o1 := AddRef(o, next, port, a);
    RemoveRefIsNoOp(o1, next + 1, port, a);
    assert Ref(next, a) in o1[port];
  }

  /**
   * The same sequence with ends compared by value, as in `Nodes`: the
   * rollback removes the end again whenever it was not there before.
   */
  lemma RollbackByValue(o: map<string, set<Address>>, port: string, a: Address)
    requires port in o && a !in o[port]
    ensures a !in Removed(Added(o, port, a), port, a)[port]
    ensures Removed(Added(o, port, a), port, a) == o
  {
    RemoveAdded(o, port, a);
  }
}
