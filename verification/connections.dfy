/** Rewiring: copying a node's input connections onto another node, moving its
    output connections to another node, and copying its colour. */
module Connections {
  import opened Results
  import opened Network

  /** The two host exceptions the rewiring raises on purpose. */
  datatype HostError = OperationFailed(message: string) | InvalidInput(message: string)

  /** The input slots `base` of a target after the connections `conns` of a
      source were copied onto it slot by slot; a connection whose index the
      target has no connector for is not copied. */
  function Overlay(base: seq<Option<NodeId>>, conns: seq<Option<NodeId>>): (r: seq<Option<NodeId>>)
    ensures |r| == |base|
    ensures forall k :: 0 <= k < |r| ==>
      r[k] == (if k < |conns| && conns[k].Some? then conns[k] else base[k])
  {
    seq(|base|, k requires 0 <= k < |base| =>
      if k < |conns| && conns[k].Some? then conns[k] else base[k])
  }

  /** Some connection of `conns` sits at an index of `n` or more. */
  predicate Overflows(n: nat, conns: seq<Option<NodeId>>)
  {
    exists k :: n <= k < |conns| && conns[k].Some?
  }

  /** How `__copy_inputs_to_node` ends for a target with `n` input connectors. */
  function CopyInputsOutcome(n: nat, conns: seq<Option<NodeId>>, ignoreMissing: bool): (r: Outcome<HostError>)
    ensures r.Fail? && r.error.OperationFailed? <==> n == 0
    ensures r.Fail? && r.error.InvalidInput? <==> n != 0 && !ignoreMissing && Overflows(n, conns)
    ensures r.Pass? <==> n != 0 && (ignoreMissing || !Overflows(n, conns))
  {
    if n == 0 then Fail(OperationFailed("Target node has no inputs."))
    else if !ignoreMissing && Overflows(n, conns) then Fail(InvalidInput("Target node has too few inputs."))
    else Pass
  }

  /** Copying the first `k` slots is copying them all once `k` reaches the
      target's connector count. */
  lemma OverlayPrefix(base: seq<Option<NodeId>>, conns: seq<Option<NodeId>>, k: nat)
    requires |base| <= k <= |conns|
    ensures Overlay(base, conns[..k]) == Overlay(base, conns)
  {
  }

  /** Copied connections refer to nodes of the network, so it stays closed. */
  lemma OverlayClosed(m: map<NodeId, Node>, src: NodeId, dst: NodeId, conns: seq<Option<NodeId>>)
    requires Closed(m) && src in m && dst in m && conns == m[src].inputs
    ensures Closed(m[dst := m[dst].(inputs := Overlay(m[dst].inputs, conns))])
  {
    var m' := m[dst := m[dst].(inputs := Overlay(m[dst].inputs, conns))];
    forall id, k | id in m' && 0 <= k < |m'[id].inputs| && m'[id].inputs[k].Some?
      ensures m'[id].inputs[k].value in m'
    {
      if id == dst && k < |conns| && conns[k].Some? {
        assert m[src].inputs[k].Some?;
      }
    }
  }

  /** `__copy_inputs_to_node(node, target, ignore_missing)`: every input
      connection of `src`, in index order, is made on the same slot of `dst`.
      A target without connectors fails before anything is wired; a
      connection past the target's last connector is skipped when
      `ignoreMissing` holds and fails otherwise, after the connections before
      it were made, so in every case the target ends up with the overlay of
      the connections it has room for. */
  method CopyInputsToNode(scene: Scene, src: NodeId, dst: NodeId, ignoreMissing: bool)
    returns (r: Outcome<HostError>)
    requires scene.Valid() && src in scene.nodes && dst in scene.nodes
    modifies scene
    ensures scene.Valid() && scene.nextId == old(scene.nextId)
    ensures scene.nodes == old(scene.nodes)[dst := old(scene.nodes)[dst].(
              inputs := Overlay(old(scene.nodes)[dst].inputs, old(scene.nodes)[src].inputs))]
    ensures r == CopyInputsOutcome(|old(scene.nodes)[dst].inputs|, old(scene.nodes)[src].inputs, ignoreMissing)
  {
    var nodes0 := scene.nodes;
    var conns := scene.nodes[src].inputs;
    var target0 := scene.nodes[dst];
    var n := |target0.inputs|;
    OverlayClosed(nodes0, src, dst, conns);
    if n == 0 {
      assert Overlay(target0.inputs, conns) == target0.inputs;
      assert nodes0[dst := target0] == nodes0;
      return Fail(OperationFailed("Target node has no inputs."));
    }
    var inputs := target0.inputs;
    assert Overlay(target0.inputs, conns[..0]) == inputs;
    assert nodes0[dst := target0.(inputs := inputs)] == nodes0;
    for k := 0 to |conns|
      invariant scene.nextId == old(scene.nextId)
      invariant inputs == Overlay(target0.inputs, conns[..k])
      invariant !ignoreMissing ==> forall j :: 0 <= j < k && conns[j].Some? ==> j < n
      invariant scene.nodes == nodes0[dst := target0.(inputs := inputs)]
    {
      if conns[k].Some? {
        if k > n - 1 {
          if ignoreMissing {
            continue;
          } else {
            OverlayPrefix(target0.inputs, conns, k);
            return Fail(InvalidInput("Target node has too few inputs."));
          }
        }
        inputs := inputs[k := conns[k]];
      }
      assert inputs == Overlay(target0.inputs, conns[..k + 1]);
      scene.nodes := nodes0[dst := target0.(inputs := inputs)];
    }
    assert conns[..|conns|] == conns;
    r := Pass;
  }

  /** One output connection: the node fed and the input slot it is fed on. */
  datatype Connection = Connection(outputNode: NodeId, inputIndex: nat)

  /** The connections of slots `inputs[..count]` of node `id` that `src` feeds,
      in slot order. */
  function FedSlots(id: NodeId, inputs: seq<Option<NodeId>>, src: NodeId, count: nat): (r: seq<Connection>)
    requires count <= |inputs|
    ensures forall c :: c in r <==>
      c.outputNode == id && c.inputIndex < count && inputs[c.inputIndex] == Some(src)
  {
    if count == 0 then [] else
      FedSlots(id, inputs, src, count - 1)
      + (if inputs[count - 1] == Some(src) then [Connection(id, count - 1)] else [])
  }

  /** `node.outputConnections()`: every slot of every node below `bound` that
      `src` feeds, by node and then by slot. */
  function OutputConnections(m: map<NodeId, Node>, src: NodeId, bound: nat): (r: seq<Connection>)
    ensures forall c :: c in r <==>
      c.outputNode < bound && c.outputNode in m && c.inputIndex < |m[c.outputNode].inputs|
      && m[c.outputNode].inputs[c.inputIndex] == Some(src)
  {
    if bound == 0 then [] else
      OutputConnections(m, src, bound - 1)
      + (if bound - 1 in m then FedSlots(bound - 1, m[bound - 1].inputs, src, |m[bound - 1].inputs|) else [])
  }

  /** `node.setInput(index, v)` on node `id`. */
  function SetInput(m: map<NodeId, Node>, c: Connection, v: Option<NodeId>): map<NodeId, Node>
  {
    if c.outputNode in m && c.inputIndex < |m[c.outputNode].inputs|
    then m[c.outputNode := m[c.outputNode].(inputs := m[c.outputNode].inputs[c.inputIndex := v])]
    else m
  }

  /** The input slots of node `id` with those listed in `cs` set to `dst`. */
  function RewiredSlots(m: map<NodeId, Node>, cs: seq<Connection>, dst: NodeId, id: NodeId): seq<Option<NodeId>>
    requires id in m
  {
    seq(|m[id].inputs|, k requires 0 <= k < |m[id].inputs| =>
      if Connection(id, k) in cs then Some(dst) else m[id].inputs[k])
  }

  /** Rewiring each connection of `cs` in turn to `dst`. */
  function Rewire(m: map<NodeId, Node>, cs: seq<Connection>, dst: NodeId): map<NodeId, Node>
  {
    if cs == [] then m else SetInput(Rewire(m, cs[..|cs| - 1], dst), cs[|cs| - 1], Some(dst))
  }

  /** The slots of `inputs` fed by `src`, fed by `dst` instead. */
  function RedirectSlots(inputs: seq<Option<NodeId>>, src: NodeId, dst: NodeId): (r: seq<Option<NodeId>>)
    ensures |r| == |inputs|
    ensures forall k :: 0 <= k < |r| ==> r[k] == (if inputs[k] == Some(src) then Some(dst) else inputs[k])
  {
    seq(|inputs|, k requires 0 <= k < |inputs| => if inputs[k] == Some(src) then Some(dst) else inputs[k])
  }

  /** The network with every output connection of `src` moved to `dst`. */
  function Redirect(m: map<NodeId, Node>, src: NodeId, dst: NodeId): map<NodeId, Node>
  {
    map id | id in m :: m[id].(inputs := RedirectSlots(m[id].inputs, src, dst))
  }

  /** Rewiring a list of connections sets exactly the listed slots to `dst`. */
  lemma {:induction false} RewireSlots(m: map<NodeId, Node>, cs: seq<Connection>, dst: NodeId)
    ensures Rewire(m, cs, dst).Keys == m.Keys
    ensures forall id :: id in m ==> Rewire(m, cs, dst)[id] == m[id].(inputs := RewiredSlots(m, cs, dst, id))
  {
    if cs != [] {
      var init := cs[..|cs| - 1];
      var c := cs[|cs| - 1];
      RewireSlots(m, init, dst);
      assert cs == init + [c];
      forall id | id in m
        ensures Rewire(m, cs, dst)[id] == m[id].(inputs := RewiredSlots(m, cs, dst, id))
      {
        if id == c.outputNode && c.inputIndex < |m[id].inputs| {
          assert RewiredSlots(m, cs, dst, id) == RewiredSlots(m, init, dst, id)[c.inputIndex := Some(dst)];
        } else {
          assert RewiredSlots(m, cs, dst, id) == RewiredSlots(m, init, dst, id);
        }
      }
    }
  }

  /** Rewiring all of `src`'s output connections redirects them. */
  lemma RewireOutputs(m: map<NodeId, Node>, src: NodeId, dst: NodeId, bound: nat)
    requires forall id :: id in m ==> id < bound
    ensures Rewire(m, OutputConnections(m, src, bound), dst) == Redirect(m, src, dst)
  {
    var cs := OutputConnections(m, src, bound);
    var m' := Rewire(m, cs, dst);
    RewireSlots(m, cs, dst);
    forall id | id in m
      ensures m'[id] == Redirect(m, src, dst)[id]
    {
      assert m'[id].inputs == RedirectSlots(m[id].inputs, src, dst);
    }
  }

  /** After the move `src` feeds nothing, as long as it is not the target. */
  lemma RedirectNoOutputs(m: map<NodeId, Node>, src: NodeId, dst: NodeId)
    requires src != dst
    ensures NoOutputs(Redirect(m, src, dst), src)
  {
  }

  /** Moving connections to a node of the network keeps it closed. */
  lemma RedirectClosed(m: map<NodeId, Node>, src: NodeId, dst: NodeId)
    requires Closed(m) && dst in m
    ensures Closed(Redirect(m, src, dst))
  {
    var m' := Redirect(m, src, dst);
    forall id, k | id in m' && 0 <= k < |m'[id].inputs| && m'[id].inputs[k].Some?
      ensures m'[id].inputs[k].value in m'
    {
      assert m[id].inputs[k].Some?;
    }
  }

  /** Moving connections touches no node's parameters, so every node stays
      well formed. */
  lemma RedirectWellFormed(m: map<NodeId, Node>, src: NodeId, dst: NodeId)
    ensures Redirect(m, src, dst).Keys == m.Keys
    ensures forall id :: id in m && WellFormed(m[id]) ==> WellFormed(Redirect(m, src, dst)[id])
  {
    forall id | id in m
      ensures Redirect(m, src, dst)[id].parmNames == m[id].parmNames
      ensures Redirect(m, src, dst)[id].parms == m[id].parms
    {
    }
  }

  /** `__move_outputs_to_node(node, target)`: each output connection of `src`
      is rewired to come from `dst` on the same slot of the same node. */
  method MoveOutputsToNode(scene: Scene, src: NodeId, dst: NodeId)
    requires scene.Valid() && dst in scene.nodes
    modifies scene
    ensures scene.Valid() && scene.nextId == old(scene.nextId)
    ensures scene.nodes == Redirect(old(scene.nodes), src, dst)
  {
    var nodes0 := scene.nodes;
    var outputs := OutputConnections(scene.nodes, src, scene.nextId);
    for i := 0 to |outputs|
      invariant scene.nextId == old(scene.nextId)
      invariant scene.nodes == Rewire(nodes0, outputs[..i], dst)
    {
      var c := outputs[i];
      assert outputs[..i + 1][..i] == outputs[..i];
      scene.nodes := SetInput(scene.nodes, c, Some(dst));
    }
    assert outputs[..|outputs|] == outputs;
    RewireOutputs(nodes0, src, dst, scene.nextId);
    RedirectClosed(nodes0, src, dst);
    RedirectWellFormed(nodes0, src, dst);
  }

  /** `__copy_color(node_a, node_b)`: `b` takes `a`'s colour. */
  method CopyColor(scene: Scene, a: NodeId, b: NodeId)
    requires scene.Valid() && a in scene.nodes && b in scene.nodes
    modifies scene
    ensures scene.Valid() && scene.nextId == old(scene.nextId)
    ensures scene.nodes == old(scene.nodes)[b := old(scene.nodes)[b].(color := old(scene.nodes)[a].color)]
  {
    scene.SetColor(b, scene.nodes[a].color);
  }

  /** Moving connections does not depend on what a node held besides its inputs. */
  lemma RedirectUpdate(m: map<NodeId, Node>, k: NodeId, n: Node, src: NodeId, dst: NodeId)
    ensures Redirect(m[k := n], src, dst) == Redirect(m, src, dst)[k := n.(inputs := RedirectSlots(n.inputs, src, dst))]
  {
  }

  /** The network after node `dst` took the place of node `src`: `dst` gets the
      connections `src` had room for on `dst`, every output connection of `src`,
      its colour, name and position, and `src` is gone. */
  function Replaced(m: map<NodeId, Node>, src: NodeId, dst: NodeId): map<NodeId, Node>
    requires src in m && dst in m
  {
    var s := m[src];
    (Redirect(m, src, dst) - {src})[dst := m[dst].(
      name := s.name, position := s.position, color := s.color,
      inputs := RedirectSlots(Overlay(m[dst].inputs, s.inputs), src, dst))]
  }

  /** Node `a` differs from node `b` at most in which nodes feed its input
      slots: it has as many slots, and the same ones are connected. */
  predicate Rewired(a: Node, b: Node)
  {
    && a == b.(inputs := a.inputs)
    && |a.inputs| == |b.inputs|
    && forall k :: 0 <= k < |a.inputs| ==> (a.inputs[k].Some? <==> b.inputs[k].Some?)
  }

  /** Rewiring twice is rewiring. */
  lemma RewiredTrans(a: Node, b: Node, c: Node)
    requires Rewired(a, b) && Rewired(b, c)
    ensures Rewired(a, c)
  {
  }

  /** Rewiring keeps which slots are connected, so a node that fits a target's
      connectors still fits them. */
  lemma RewiredOverflows(a: Node, b: Node, n: nat)
    requires Rewired(a, b)
    ensures Overflows(n, a.inputs) <==> Overflows(n, b.inputs)
  {
    if Overflows(n, a.inputs) {
      var k :| n <= k < |a.inputs| && a.inputs[k].Some?;
      assert b.inputs[k].Some?;
    }
    if Overflows(n, b.inputs) {
      var k :| n <= k < |b.inputs| && b.inputs[k].Some?;
      assert a.inputs[k].Some?;
    }
  }

  /** What the replacement leaves of the network: `src` is gone and nothing
      refers to it any more, `dst` looks like `src` from the outside, and every
      other node keeps everything but the identity of its feeding nodes. */
  lemma ReplacedShape(m: map<NodeId, Node>, src: NodeId, dst: NodeId)
    requires src in m && dst in m && src != dst
    ensures var r := Replaced(m, src, dst);
      && r.Keys == m.Keys - {src}
      && NoOutputs(r, src)
      && r[dst].name == m[src].name && r[dst].position == m[src].position && r[dst].color == m[src].color
      && r[dst].typeName == m[dst].typeName
      && forall id :: id in r && id != dst ==> Rewired(r[id], m[id])
  {
  }

  /** `m'` is `m` after node `src` was replaced by the new node `dst` of type
      `typeName`: `src` is gone, `dst` is there, every other node of `m` is
      kept and differs at most in which nodes feed it. */
  ghost predicate ReplacedBy(m: map<NodeId, Node>, m': map<NodeId, Node>, src: NodeId, dst: NodeId, typeName: string)
  {
    && src !in m' && dst !in m && dst in m' && m'[dst].typeName == typeName
    && (forall id :: id in m && id != src ==> id in m')
    && (forall id :: id in m' && id != dst ==> id in m && Rewired(m'[id], m[id]))
  }

  /** A new node that takes an old one's place replaces it. */
  lemma ReplacedByNew(m: map<NodeId, Node>, src: NodeId, dst: NodeId, n: Node)
    requires src in m && dst !in m && src != dst
    ensures ReplacedBy(m, Replaced(m[dst := n], src, dst), src, dst, n.typeName)
  {
    ReplacedShape(m[dst := n], src, dst);
  }

  /** Replacing a node by one of the network keeps the network closed. */
  lemma ReplacedClosed(m: map<NodeId, Node>, src: NodeId, dst: NodeId)
    requires Closed(m) && src in m && dst in m && src != dst
    ensures Closed(Replaced(m, src, dst))
  {
    var r := Replaced(m, src, dst);
    forall id, k | id in r && 0 <= k < |r[id].inputs| && r[id].inputs[k].Some?
      ensures r[id].inputs[k].value in r
    {
      if id == dst {
        var o := Overlay(m[dst].inputs, m[src].inputs);
        assert o[k].Some?;
        if k < |m[src].inputs| && m[src].inputs[k].Some? {
          assert m[src].inputs[k].value in m;
        } else {
          assert m[dst].inputs[k].value in m;
        }
      } else {
        assert m[id].inputs[k].Some?;
      }
    }
  }

  /** The end of both conversions: `__copy_inputs_to_node(node, new)`,
      `__move_outputs_to_node(node, new)`, `__copy_color(node, new)`,
      `node.destroy()`, then `new` takes `node`'s name and position. The copy
      of the inputs fails as `__copy_inputs_to_node` does, and then nothing
      after it happens. */
  method ReplaceNode(scene: Scene, src: NodeId, dst: NodeId) returns (r: Outcome<HostError>)
    requires scene.Valid() && src in scene.nodes && dst in scene.nodes && src != dst
    modifies scene
    ensures scene.Valid() && scene.nextId == old(scene.nextId)
    ensures r == CopyInputsOutcome(|old(scene.nodes)[dst].inputs|, old(scene.nodes)[src].inputs, false)
    ensures r.Fail? ==> scene.nodes == old(scene.nodes)[dst := old(scene.nodes)[dst].(
              inputs := Overlay(old(scene.nodes)[dst].inputs, old(scene.nodes)[src].inputs))]
    ensures r.Pass? ==> scene.nodes == Replaced(old(scene.nodes), src, dst)
  {
    var m := scene.nodes;
    var t := m[dst].(inputs := Overlay(m[dst].inputs, m[src].inputs));
    r := CopyInputsToNode(scene, src, dst, false);
    if r.Pass? {
      TakePlace(scene, src, dst);
      RedirectUpdate(m, dst, t, src, dst);
      RemoveUpdate(Redirect(m, src, dst), src, dst, t.(inputs := RedirectSlots(t.inputs, src, dst)),
                   scene.nodes[dst]);
    }
  }

  /** The steps of `ReplaceNode` after the inputs are copied. */
  method TakePlace(scene: Scene, src: NodeId, dst: NodeId)
    requires scene.Valid() && src in scene.nodes && dst in scene.nodes && src != dst
    modifies scene
    ensures scene.Valid() && scene.nextId == old(scene.nextId)
    ensures var s := old(scene.nodes)[src];
      var d := old(scene.nodes)[dst];
      scene.nodes == (Redirect(old(scene.nodes), src, dst) - {src})[dst := d.(
        name := s.name, position := s.position, color := s.color,
        inputs := RedirectSlots(d.inputs, src, dst))]
  {
    var m := scene.nodes;
    var s := m[src];
    var redirected := Redirect(m, src, dst);
    var moved := redirected[dst];
    MoveOutputsToNode(scene, src, dst);
    CopyColor(scene, src, dst);
    UpdateTwice(redirected, dst, moved, moved.(color := s.color));
    RedirectNoOutputs(m, src, dst);
    NoOutputsUpdate(redirected, src, dst, moved.(color := s.color));
    scene.Destroy(src);
    DetachUnreferenced(redirected[dst := moved.(color := s.color)], src);
    scene.Place(dst, s.name, s.position);
    RemoveUpdate(redirected, src, dst, moved.(color := s.color),
                 moved.(color := s.color, name := s.name, position := s.position));
  }
}
