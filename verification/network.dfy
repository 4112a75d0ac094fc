/** An in-memory stand-in for the host's node network: the parts of a node the
    handler reads and writes, and the two host operations it uses to create and
    destroy nodes. */
module Network {
  import opened Results

  type NodeId = nat

  /** The value a parameter evaluates to. */
  datatype Value = IntV(i: int) | RealV(r: real) | StrV(s: string)

  /** Python truthiness of an evaluated value. */
  predicate Truthy(v: Value)
  {
    match v
    case IntV(i) => i != 0
    case RealV(r) => r != 0.0
    case StrV(s) => s != ""
  }

  /** The parameter-template classes the handler tells apart. */
  datatype ParmKind = FolderSet | StringParm | OtherParm

  /** One animation key: its time, its value and the expression it carries. */
  datatype Keyframe = Keyframe(time: real, value: Value, expression: string)

  /** A parameter: its kind, the unexpanded value, the evaluated value,
      its keyframes as `keyframes()` lists them, and whether it is locked. */
  datatype Parm = Parm(kind: ParmKind, raw: Value, evaluated: Value,
                       keys: seq<Keyframe>, locked: bool)

  /** The key a parameter holds at time `t`, if any. */
  function KeyAt(keys: seq<Keyframe>, t: real): Option<Keyframe>
  {
    if keys == [] then None
    else if keys[0].time == t then Some(keys[0])
    else KeyAt(keys[1..], t)
  }

  /** `parm.setKeyframe(k)`: the key at `k`'s time is replaced by `k`, or `k`
      is added when there is none. */
  function SetKeyframe(keys: seq<Keyframe>, k: Keyframe): seq<Keyframe>
  {
    if keys == [] then [k]
    else if keys[0].time == k.time then [k] + keys[1..]
    else [keys[0]] + SetKeyframe(keys[1..], k)
  }

  /** After `setKeyframe(k)` the parameter has `k` at `k`'s time and its old key
      at every other time. */
  lemma {:induction false} KeyAtSetKeyframe(keys: seq<Keyframe>, k: Keyframe, t: real)
    ensures KeyAt(SetKeyframe(keys, k), t) == if t == k.time then Some(k) else KeyAt(keys, t)
  {
    if keys != [] && keys[0].time != k.time {
      KeyAtSetKeyframe(keys[1..], k, t);
    }
  }

  /** `parm.set(v)`: the stored value becomes `v`. Expression expansion is not
      modelled, so the evaluated value is `v` as well. */
  function Set(p: Parm, v: Value): Parm
  {
    p.(raw := v, evaluated := v)
  }

  datatype Color = Color(r: real, g: real, b: real)

  datatype Position = Position(x: real, y: real)

  /** A node: its type name, name, canvas position, colour, parameter names in
      the order `parms()` lists them, parameters by name, one input slot per
      input connector (the node wired into it, if any), and its user-data
      dictionary. */
  datatype Node = Node(typeName: string, name: string, position: Position, color: Color,
                       parmNames: seq<string>, parms: map<string, Parm>,
                       inputs: seq<Option<NodeId>>, userData: map<string, string>)

  /** `parmNames` lists every parameter exactly once. */
  ghost predicate WellFormed(n: Node)
  {
    && (forall i, j :: 0 <= i < j < |n.parmNames| ==> n.parmNames[i] != n.parmNames[j])
    && (forall name :: name in n.parms ==> name in n.parmNames)
    && (forall i :: 0 <= i < |n.parmNames| ==> n.parmNames[i] in n.parms)
  }

  /** Every input slot of every node refers to a node of the network. */
  ghost predicate Closed(m: map<NodeId, Node>)
  {
    forall id, k :: id in m && 0 <= k < |m[id].inputs| && m[id].inputs[k].Some? ==>
      m[id].inputs[k].value in m
  }

  /** A node straight out of `createNode`: nothing is wired into it. */
  predicate Unconnected(n: Node)
  {
    forall k :: 0 <= k < |n.inputs| ==> n.inputs[k].None?
  }

  /** The input slots of `inputs` with every reference to `gone` cleared. */
  function DetachSlots(inputs: seq<Option<NodeId>>, gone: NodeId): (r: seq<Option<NodeId>>)
    ensures |r| == |inputs|
    ensures forall k :: 0 <= k < |r| ==> r[k] == (if inputs[k] == Some(gone) then None else inputs[k])
  {
    seq(|inputs|, k requires 0 <= k < |inputs| => if inputs[k] == Some(gone) then None else inputs[k])
  }

  /** What destroying a node does to the rest of the network: it disappears and
      the connections it fed are cut. */
  function Detach(m: map<NodeId, Node>, gone: NodeId): map<NodeId, Node>
  {
    map id | id in m && id != gone :: m[id].(inputs := DetachSlots(m[id].inputs, gone))
  }

  /** No input slot anywhere refers to `id`: the node has no output connections. */
  predicate NoOutputs(m: map<NodeId, Node>, id: NodeId)
  {
    forall other, k :: other in m && 0 <= k < |m[other].inputs| ==> m[other].inputs[k] != Some(id)
  }

  /** A node that feeds nothing still feeds nothing after a node that it does
      not feed either is put in the network. */
  lemma NoOutputsUpdate(m: map<NodeId, Node>, id: NodeId, k: NodeId, n: Node)
    requires NoOutputs(m, id)
    requires forall j :: 0 <= j < |n.inputs| ==> n.inputs[j] != Some(id)
    ensures NoOutputs(m[k := n], id)
  {
  }

  /** Destroying a node that feeds nothing only removes it. */
  lemma DetachUnreferenced(m: map<NodeId, Node>, gone: NodeId)
    requires NoOutputs(m, gone)
    ensures Detach(m, gone) == m - {gone}
  {
    forall id | id in m && id != gone
      ensures DetachSlots(m[id].inputs, gone) == m[id].inputs
    {
    }
  }

  /** Setting a parameter twice leaves the second value. */
  lemma SetParmTwice(m: map<NodeId, Node>, id: NodeId, name: string, a: Parm, b: Parm)
    requires id in m
    ensures var m1 := m[id := m[id].(parms := m[id].parms[name := a])];
      m1[id := m1[id].(parms := m1[id].parms[name := b])] == m[id := m[id].(parms := m[id].parms[name := b])]
  {
    assert m[id].parms[name := a][name := b] == m[id].parms[name := b];
  }

  /** A second update of the same entry overrides the first. */
  lemma UpdateTwice<K, V>(m: map<K, V>, k: K, a: V, b: V)
    ensures m[k := a][k := b] == m[k := b]
  {
  }

  /** Removing one entry and then updating another does not depend on what the
      other held before. */
  lemma RemoveUpdate<K, V>(m: map<K, V>, gone: K, k: K, a: V, b: V)
    requires gone != k
    ensures (m[k := a] - {gone})[k := b] == (m - {gone})[k := b]
  {
  }

  /** The host's network of nodes. */
  class Scene {
    var nodes: map<NodeId, Node>
    var nextId: NodeId

    ghost predicate Valid()
      reads this
    {
      && Closed(nodes)
      && (forall id :: id in nodes ==> id < nextId)
      && (forall id :: id in nodes ==> WellFormed(nodes[id]))
    }

    constructor ()
      ensures Valid() && nodes == map[]
    {
      nodes := map[];
      nextId := 0;
    }

    /** `createNode`: adds a fresh node of the prototype's type, as the host
        would build it. */
    method CreateNode(proto: Node) returns (id: NodeId)
      requires Valid() && Unconnected(proto) && WellFormed(proto)
      modifies this
      ensures Valid()
      ensures id == old(nextId) && nextId == old(nextId) + 1
      ensures id !in old(nodes) && nodes == old(nodes)[id := proto]
    {
      id := nextId;
      nodes := nodes[id := proto];
      nextId := nextId + 1;
    }

    /** `node.parm(name)` replaced by `p`, for the parameter setters
        (`set`, `lock`, `setKeyframe`, `revertToDefaults`). */
    method SetParm(id: NodeId, name: string, p: Parm)
      requires Valid() && id in nodes && name in nodes[id].parms
      modifies this
      ensures Valid() && nextId == old(nextId)
      ensures nodes == old(nodes)[id := old(nodes)[id].(parms := old(nodes)[id].parms[name := p])]
    {
      nodes := nodes[id := nodes[id].(parms := nodes[id].parms[name := p])];
    }

    /** The node's parameters replaced by `parms`, which has the same names:
        `node.setParms(values)` and other updates of several parameters. */
    method WriteParms(id: NodeId, parms: map<string, Parm>)
      requires Valid() && id in nodes && parms.Keys == nodes[id].parms.Keys
      modifies this
      ensures Valid() && nextId == old(nextId)
      ensures nodes == old(nodes)[id := old(nodes)[id].(parms := parms)]
    {
      nodes := nodes[id := nodes[id].(parms := parms)];
    }

    /** `node.setColor(c)`. */
    method SetColor(id: NodeId, c: Color)
      requires Valid() && id in nodes
      modifies this
      ensures Valid() && nextId == old(nextId)
      ensures nodes == old(nodes)[id := old(nodes)[id].(color := c)]
    {
      nodes := nodes[id := nodes[id].(color := c)];
    }

    /** `node.setUserData(key, value)`. */
    method SetUserData(id: NodeId, key: string, value: string)
      requires Valid() && id in nodes
      modifies this
      ensures Valid() && nextId == old(nextId)
      ensures nodes == old(nodes)[id := old(nodes)[id].(userData := old(nodes)[id].userData[key := value])]
    {
      nodes := nodes[id := nodes[id].(userData := nodes[id].userData[key := value])];
    }

    /** `node.setName(name)` followed by `node.setPosition(position)`. */
    method Place(id: NodeId, name: string, position: Position)
      requires Valid() && id in nodes
      modifies this
      ensures Valid() && nextId == old(nextId)
      ensures nodes == old(nodes)[id := old(nodes)[id].(name := name, position := position)]
    {
      nodes := nodes[id := nodes[id].(name := name, position := position)];
    }

    /** `node.destroy()`: removes the node and cuts the connections it fed. */
    method Destroy(id: NodeId)
      requires Valid()
      modifies this
      ensures Valid() && nextId == old(nextId)
      ensures nodes == Detach(old(nodes), id)
    {
      nodes := Detach(nodes, id);
    }
  }
}
