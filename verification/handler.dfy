/** `ToolkitMantraNodeHandler`: the profile registry, the per-node operations
    the node type's callbacks use, and the conversions between Toolkit Mantra
    nodes and plain Mantra (`ifd`) nodes. */
module Handler {
  import opened Results
  import opened Network
  import opened Text
  import opened Profiles
  import opened ParmCopy
  import opened Connections
  import opened Paths
  import opened Metadata

  const SgNodeClass := "sgtk_mantra"
  const IfdNodeClass := "ifd"
  const ParmConfig := "sgtk__config"
  const InitializedParm := "sgtk__initialized"
  const NumAuxParm := "vm_numaux"
  const DefaultTileColor := Color(0.8, 0.8, 0.8)

  /** The output-format parameters `__reset_parms` reverts when it is given no
      list of its own. */
  const FormatSpecific := ["vm_device", "soho_mkpath", "vm_image_jpeg_quality",
                           "vm_image_tiff_compression", "vm_image_exr_compression", "soho_compression"]

  /** `parm.revertToDefaults()`: the parameter takes its default value and
      loses its animation. */
  function Reverted(p: Parm, default: Value): Parm
  {
    p.(raw := default, evaluated := default, keys := [])
  }

  /** The parameters after reverting each one named in `names`. */
  function RevertParms(parms: map<string, Parm>, names: seq<string>, defaults: string -> Value): (r: map<string, Parm>)
    ensures r.Keys == parms.Keys
  {
    map name | name in parms :: if name in names then Reverted(parms[name], defaults(name)) else parms[name]
  }

  /** Reverting one more listed parameter reverts it in the running result. */
  lemma RevertStep(parms: map<string, Parm>, names: seq<string>, i: nat, defaults: string -> Value)
    requires i < |names| && names[i] in parms
    ensures var done := RevertParms(parms, names[..i], defaults);
      RevertParms(parms, names[..i + 1], defaults) == done[names[i] := Reverted(done[names[i]], defaults(names[i]))]
  {
    assert names[..i + 1] == names[..i] + [names[i]];
  }

  /** `node.setParms(settings)`: each named parameter is set to its value. */
  function SetParms(parms: map<string, Parm>, settings: map<string, Value>): (r: map<string, Parm>)
    ensures r.Keys == parms.Keys
  {
    map name | name in parms :: if name in settings then Set(parms[name], settings[name]) else parms[name]
  }

  /** The value `__is_first_run` returns: `False` once the node is
      initialised, and the flag's previous value before that. */
  datatype FirstRun = NotFirst | First(prior: Value)

  /** One call of `__is_first_run` on the `sgtk__initialized` parameter: its
      answer and the parameter afterwards. */
  function FirstRunStep(flag: Parm): (r: (FirstRun, Parm))
    ensures r.0.First? <==> flag.evaluated != StrV("True")
    ensures r.0.First? ==> r.0.prior == flag.evaluated && r.1 == Set(flag, StrV("True"))
    ensures r.0.NotFirst? ==> r.1 == flag
  {
    if flag.evaluated == StrV("True") then (NotFirst, flag)
    else (First(flag.evaluated), Set(flag, StrV("True")))
  }

  /** After any call the flag reads "True"; a call answers `False` exactly when
      the flag already did, and then changes nothing. So every call after the
      first answers `False` and leaves the flag alone. */
  lemma FirstRunSettles(flag: Parm)
    ensures FirstRunStep(flag).1.evaluated == StrV("True")
    ensures FirstRunStep(flag).0 == NotFirst <==> flag.evaluated == StrV("True")
    ensures FirstRunStep(flag).0 == NotFirst ==> FirstRunStep(flag).1 == flag
    ensures FirstRunStep(FirstRunStep(flag).1) == (NotFirst, FirstRunStep(flag).1)
  {
  }

  /** The text `compute_and_set` writes: the computed path, or `ERROR: ` and
      the `TankError`'s message. */
  function PathText(computed: Result<string, PathError>): (text: string)
    requires computed.Ok? || IsTankError(computed.error)
    ensures computed.Ok? ==> text == computed.value
    ensures computed.Err? ==> StartsWith(text, "ERROR: ") && text[|"ERROR: "|..] == Message(computed.error)
    ensures computed.Err? && !computed.error.TemplateFailed? ==> |text| > |"ERROR: "|
  {
    match computed
    case Ok(path) => path
    case Err(e) => "ERROR: " + Message(e)
  }

  /** A parameter after `lock(False)`, `set(text)` and `lock(True)`. */
  function LockedText(p: Parm, text: string): (r: Parm)
  {
    Set(p, StrV(text)).(locked := true)
  }

  /** How one node conversion ended: the node was left alone, or the new node
      `newId` took its place, or the copy of the inputs onto `newId` failed. */
  datatype Conversion = Skipped | Converted(newId: NodeId) | Failed(newId: NodeId, error: HostError)

  /** `node.parm('vm_numaux')` evaluates to a number. */
  predicate HasNumAux(n: Node)
  {
    NumAuxParm in n.parms && n.parms[NumAuxParm].evaluated.IntV?
  }

  function NumAux(n: Node): int
    requires HasNumAux(n)
  {
    n.parms[NumAuxParm].evaluated.i
  }

  /** Every extra image plane of `n` has a name parameter holding a string. */
  predicate PlanesReadable(n: Node)
  {
    HasNumAux(n) && forall k: nat :: 1 <= k <= NumAux(n) ==> AovParm(k) in n.parms && n.parms[AovParm(k)].evaluated.StrV?
  }

  /** The names of the extra image planes of a Toolkit node, plane 1 first. */
  function PlaneNames(n: Node): (r: seq<string>)
    requires PlanesReadable(n)
    ensures |r| == PlaneCount(NumAux(n))
  {
    seq(PlaneCount(NumAux(n)), i requires 0 <= i < PlaneCount(NumAux(n)) => n.parms[AovParm(i + 1)].evaluated.s)
  }

  /** Entry `k - 1` of the plane names is the value of plane `k`'s name
      parameter. */
  lemma PlaneNamesValues(n: Node)
    requires PlanesReadable(n)
    ensures forall k: nat :: 1 <= k <= NumAux(n) ==> StrV(PlaneNames(n)[k - 1]) == n.parms[AovParm(k)].evaluated
  {
  }

  /** The plain node carries the profile name the conversion recorded. */
  predicate Recorded(n: Node)
  {
    ProfileKey in n.userData && n.userData[ProfileKey] != ""
  }

  /** What `convert_mantra_to_sg_nodes` needs to rebuild the Toolkit node `n`
      as an instance of `proto`: the "Configuration" parameter, a plane count,
      and for each plane a name parameter on the new node and a recorded name. */
  predicate SgRestorable(n: Node, proto: Node)
  {
    && ParmConfig in proto.parms && HasNumAux(n)
    && forall k: nat :: 1 <= k <= NumAux(n) ==> AovParm(k) in proto.parms && AovKey(k) in n.userData
  }

  /** The parameters after the "Configuration" menu entry `choice` is
      selected, when there is one. */
  function SelectConfig(parms: map<string, Parm>, choice: Option<nat>): map<string, Parm>
    requires ParmConfig in parms
  {
    match choice
    case Some(index) => parms[ParmConfig := Set(parms[ParmConfig], IntV(index))]
    case None => parms
  }

  /** The `try` block of `convert_mantra_to_sg_nodes`: the menu entry labelled
      `profile` is selected; a label the menu does not hold raises the
      `ValueError` it catches, and nothing changes. */
  method SelectProfile(scene: Scene, id: NodeId, labels: seq<string>, profile: string)
    requires scene.Valid() && id in scene.nodes && ParmConfig in scene.nodes[id].parms
    modifies scene
    ensures scene.Valid() && scene.nextId == old(scene.nextId)
    ensures scene.nodes == old(scene.nodes)[id := old(scene.nodes)[id].(
              parms := SelectConfig(old(scene.nodes)[id].parms, IndexOf(labels, profile)))]
  {
    var index := IndexOf(labels, profile);
    if index.Some? {
      scene.SetParm(id, ParmConfig, Set(scene.nodes[id].parms[ParmConfig], IntV(index.value)));
    } else {
      assert scene.nodes[id := scene.nodes[id]] == scene.nodes;
    }
  }

  /** `hou.nodeType(category, typeName).instances()`: the nodes of that type,
      listed here in creation order. */
  function Instances(m: map<NodeId, Node>, typeName: string, bound: nat): (r: seq<NodeId>)
    ensures forall id :: id in r <==> id < bound && id in m && m[id].typeName == typeName
    ensures forall i, j :: 0 <= i < j < |r| ==> r[i] < r[j]
  {
    if bound == 0 then []
    else
      var earlier := Instances(m, typeName, bound - 1);
      assert forall i :: 0 <= i < |earlier| ==> earlier[i] in earlier;
      earlier + (if bound - 1 in m && m[bound - 1].typeName == typeName then [bound - 1] else [])
  }

  /** The nodes of `m` that were in `m0` differ from their old selves at most
      in which nodes feed them, and the nodes added since are of type
      `typeName`. */
  ghost predicate Descends(m0: map<NodeId, Node>, m: map<NodeId, Node>, typeName: string)
  {
    && (forall id :: id in m && id in m0 ==> Rewired(m[id], m0[id]))
    && (forall id :: id in m && id !in m0 ==> m[id].typeName == typeName)
  }

  /** `m'` is `m` with the new node `id` of type `typeName` added. */
  ghost predicate AddedTo(m: map<NodeId, Node>, m': map<NodeId, Node>, id: NodeId, typeName: string)
  {
    id !in m && id in m' && m'[id].typeName == typeName && m' == m[id := m'[id]]
  }

  /** Adding a node of type `typeName` keeps the network a descendant of `m0`. */
  lemma DescendsAdd(m0: map<NodeId, Node>, m: map<NodeId, Node>, m': map<NodeId, Node>, id: NodeId, typeName: string)
    requires Descends(m0, m, typeName) && AddedTo(m, m', id, typeName) && id !in m0
    ensures Descends(m0, m', typeName)
  {
  }

  /** Replacing one more node by a node of type `typeName` keeps the network a
      descendant of `m0`. */
  lemma DescendsStep(m0: map<NodeId, Node>, m: map<NodeId, Node>, m': map<NodeId, Node>,
                     src: NodeId, dst: NodeId, typeName: string)
    requires Descends(m0, m, typeName) && ReplacedBy(m, m', src, dst, typeName) && dst !in m0
    ensures Descends(m0, m', typeName)
  {
    forall id | id in m' && id in m0
      ensures Rewired(m'[id], m0[id])
    {
      if id != dst {
        RewiredTrans(m'[id], m[id], m0[id]);
      }
    }
  }

  /** How far a batch conversion has come. It goes through the nodes `ids` of
      the network `m0` it started from, in order, replacing each node of
      `targets` by a new node of type `typeName` and leaving the others alone;
      the first `i` have had their turn. Every node of `m0` has a smaller id
      than `bound`, which new nodes do not. */
  ghost predicate Progress(m0: map<NodeId, Node>, bound: nat, m: map<NodeId, Node>, ids: seq<NodeId>, i: nat,
                           targets: set<NodeId>, typeName: string)
  {
    && i <= |ids|
    && (forall id :: id in m0 ==> id < bound)
    && (forall j :: 0 <= j < |ids| ==> ids[j] in m0)
    && (forall j, k :: 0 <= j < k < |ids| ==> ids[j] != ids[k])
    && (forall id :: id in targets ==> id in ids)
    && Descends(m0, m, typeName)
    && (forall id :: id in m0 && id !in targets ==> id in m)
    && (forall j :: i <= j < |ids| ==> ids[j] in m)
    && (forall j :: 0 <= j < i && ids[j] in targets ==> ids[j] !in m)
  }

  /** Before the first turn: nothing has changed yet. */
  lemma ProgressStart(m0: map<NodeId, Node>, bound: nat, ids: seq<NodeId>, targets: set<NodeId>, typeName: string)
    requires forall id :: id in m0 ==> id < bound
    requires forall j :: 0 <= j < |ids| ==> ids[j] in m0
    requires forall j, k :: 0 <= j < k < |ids| ==> ids[j] < ids[k]
    requires forall id :: id in targets ==> id in m0 && id in ids
    ensures Progress(m0, bound, m0, ids, 0, targets, typeName)
  {
  }

  /** The next node had its turn and was replaced. */
  lemma ProgressReplace(m0: map<NodeId, Node>, bound: nat, m: map<NodeId, Node>, m': map<NodeId, Node>,
                        ids: seq<NodeId>, i: nat, targets: set<NodeId>, typeName: string, newId: NodeId)
    requires Progress(m0, bound, m, ids, i, targets, typeName) && i < |ids|
    requires ids[i] in targets && ReplacedBy(m, m', ids[i], newId, typeName) && bound <= newId
    ensures Progress(m0, bound, m', ids, i + 1, targets, typeName)
  {
    DescendsStep(m0, m, m', ids[i], newId, typeName);
    forall j | i + 1 <= j < |ids|
      ensures ids[j] in m'
    {
      assert ids[j] != ids[i];
    }
    forall j | 0 <= j < i + 1 && ids[j] in targets
      ensures ids[j] !in m'
    {
      assert ids[j] in m0;
    }
  }

  /** The next node had its turn and was left alone. */
  lemma ProgressSkip(m0: map<NodeId, Node>, bound: nat, m: map<NodeId, Node>,
                     ids: seq<NodeId>, i: nat, targets: set<NodeId>, typeName: string)
    requires Progress(m0, bound, m, ids, i, targets, typeName) && i < |ids| && ids[i] !in targets
    ensures Progress(m0, bound, m, ids, i + 1, targets, typeName)
  {
  }

  /** A conversion that stops after adding a node has lost no node. */
  lemma ProgressStop(m0: map<NodeId, Node>, bound: nat, m: map<NodeId, Node>, m': map<NodeId, Node>,
                     ids: seq<NodeId>, i: nat, targets: set<NodeId>, typeName: string, newId: NodeId)
    requires Progress(m0, bound, m, ids, i, targets, typeName)
    requires AddedTo(m, m', newId, typeName) && bound <= newId
    ensures Descends(m0, m', typeName)
    ensures forall id :: id in m0 && id !in targets ==> id in m'
  {
    DescendsAdd(m0, m, m', newId, typeName);
  }

  /** Once every node had its turn, no node of `targets` is left, and every
      node is an old node kept or a new node of type `typeName`. */
  lemma ProgressDone(m0: map<NodeId, Node>, bound: nat, m: map<NodeId, Node>,
                     ids: seq<NodeId>, targets: set<NodeId>, typeName: string)
    requires Progress(m0, bound, m, ids, |ids|, targets, typeName)
    ensures forall id :: id in m ==>
      if id in m0 then id !in targets && Rewired(m[id], m0[id]) else m[id].typeName == typeName
  {
    forall id | id in m && id in m0
      ensures id !in targets
    {
      assert forall j :: 0 <= j < |ids| && ids[j] == id ==> ids[j] !in targets;
    }
  }

  /** The input copy of each of the first `i` nodes of `ids` that is in
      `targets` succeeded onto a node with `n` input connectors. */
  ghost predicate Fitted(m0: map<NodeId, Node>, ids: seq<NodeId>, i: nat, targets: set<NodeId>, n: nat)
  {
    forall j :: 0 <= j < i && j < |ids| && ids[j] in targets && ids[j] in m0 ==>
      CopyInputsOutcome(n, m0[ids[j]].inputs, false).Pass?
  }

  /** Once every node of `targets` had a successful input copy, the
      connections of each fit the `n` connectors. */
  lemma FittedAll(m0: map<NodeId, Node>, ids: seq<NodeId>, targets: set<NodeId>, n: nat)
    requires forall id :: id in targets ==> id in ids && id in m0
    requires Fitted(m0, ids, |ids|, targets, n)
    ensures forall id :: id in targets ==> 0 < n && !Overflows(n, m0[id].inputs)
  {
    forall id | id in targets
      ensures 0 < n && !Overflows(n, m0[id].inputs)
    {
      var j :| 0 <= j < |ids| && ids[j] == id;
    }
  }

  /** The "Configuration" parameter is no plane-name parameter. */
  lemma ConfigIsNoPlane(count: nat)
    ensures ParmConfig !in AovParms(count)
  {
    forall k: nat | 1 <= k <= count
      ensures AovParm(k) != ParmConfig
    {
      assert AovParm(k)[6] != ParmConfig[6];
    }
  }

  /** A completed `convert_sg_to_mantra_nodes` leaves no Toolkit node. */
  lemma NoSgLeft(m0: map<NodeId, Node>, bound: nat, m: map<NodeId, Node>, ids: seq<NodeId>, targets: set<NodeId>)
    requires Progress(m0, bound, m, ids, |ids|, targets, IfdNodeClass)
    requires forall id :: id in m0 && m0[id].typeName == SgNodeClass ==> id in targets
    ensures forall id :: id in m ==> m[id].typeName != SgNodeClass
  {
    ProgressDone(m0, bound, m, ids, targets, IfdNodeClass);
  }

  /** A completed `convert_mantra_to_sg_nodes` leaves no plain node with a
      recorded profile name. */
  lemma NoRecordedLeft(m0: map<NodeId, Node>, bound: nat, m: map<NodeId, Node>, ids: seq<NodeId>, targets: set<NodeId>)
    requires Progress(m0, bound, m, ids, |ids|, targets, SgNodeClass)
    requires forall id :: id in m0 && m0[id].typeName == IfdNodeClass && Recorded(m0[id]) ==> id in targets
    ensures forall id :: id in m && m[id].typeName == IfdNodeClass ==> !Recorded(m[id])
  {
    ProgressDone(m0, bound, m, ids, targets, SgNodeClass);
  }

  class MantraNodeHandler {
    /** The code the handler calls but does not own. */
    const ext: External
    /** The app's `template_script_work` template. */
    const scriptTemplate: Option<Template>
    const profileNames: seq<string>
    const profiles: map<string, Profile>

    /** The registry lists each profile name once, and holds a profile for
        exactly the names it lists. */
    ghost predicate Valid()
    {
      Distinct(profileNames) && forall name :: name in profileNames <==> name in profiles
    }

    /** `__init__`: reads the `mantra_nodes` profiles in order, keeping the
        first profile of each name and dropping later ones. */
    constructor (ext: External, scriptTemplate: Option<Template>, config: seq<Profile>)
      ensures Valid()
      ensures this.ext == ext && this.scriptTemplate == scriptTemplate
      ensures profileNames == RegistryNames(config) && profiles == RegistryProfiles(config)
    {
      this.ext := ext;
      this.scriptTemplate := scriptTemplate;
      var names: seq<string> := [];
      var held: map<string, Profile> := map[];
      for i := 0 to |config|
        invariant names == RegistryNames(config[..i]) && held == RegistryProfiles(config[..i])
      {
        assert config[..i + 1][..i] == config[..i];
        var name := config[i].name;
        if name in held {
          continue;
        }
        names := names + [name];
        held := held[name := config[i]];
      }
      assert config[..|config|] == config;
      profileNames := names;
      profiles := held;
      RegistryNamesShape(config);
    }

    /** The node's "Configuration" menu holds the index of a menu entry. */
    predicate HasConfigIndex(n: Node)
    {
      && ParmConfig in n.parms && n.parms[ParmConfig].evaluated.IntV?
      && 0 <= n.parms[ParmConfig].evaluated.i < |profileNames|
    }

    /** `get_node_profile_name`: the label of the menu entry the node's
        "Configuration" parameter selects, which is the profile of that index. */
    function NodeProfileName(n: Node): (name: string)
      requires HasConfigIndex(n)
      ensures name == profileNames[n.parms[ParmConfig].evaluated.i]
    {
      ConfigurationMenuShowsNames(profileNames);
      MenuLabels(ConfigurationMenuLabels(profileNames))[n.parms[ParmConfig].evaluated.i]
    }

    /** `__reset_parms(node, parm_names)`: reverts each named parameter in
        turn, or the output-format parameters when no names are given. */
    method ResetParms(scene: Scene, id: NodeId, parmNames: seq<string>, defaults: string -> Value)
      requires scene.Valid() && id in scene.nodes
      requires forall name :: name in (if parmNames != [] then parmNames else FormatSpecific) ==>
        name in scene.nodes[id].parms
      modifies scene
      ensures scene.Valid() && scene.nextId == old(scene.nextId)
      ensures scene.nodes == old(scene.nodes)[id := old(scene.nodes)[id].(
                parms := RevertParms(old(scene.nodes)[id].parms,
                                     if parmNames != [] then parmNames else FormatSpecific, defaults))]
    {
      var names := if parmNames != [] then parmNames else FormatSpecific;
      var node0 := scene.nodes[id];
      var parms := node0.parms;
      assert forall name :: name in names ==> name in node0.parms;
      assert RevertParms(node0.parms, names[..0], defaults) == parms;
      for i := 0 to |names|
        invariant parms == RevertParms(node0.parms, names[..i], defaults)
        invariant parms.Keys == node0.parms.Keys
        invariant scene.Valid() && scene.nextId == old(scene.nextId)
        invariant scene.nodes == old(scene.nodes)[id := node0.(parms := parms)]
      {
        var name := names[i];
        assert name in names;
        RevertStep(node0.parms, names, i, defaults);
        var next := parms[name := Reverted(parms[name], defaults(name))];
        scene.WriteParms(id, next);
        UpdateTwice(old(scene.nodes), id, node0.(parms := parms), node0.(parms := next));
        parms := next;
      }
      assert names[..|names|] == names;
    }

    /** `__set_profile(node, profile_name, reset_all_settings)`: optionally
        reverts the output-format parameters, applies the profile's settings,
        and colours the tile: the profile's colour when it has one, otherwise
        the default grey when resetting, otherwise the colour stays. */
    method SetProfile(scene: Scene, id: NodeId, name: string, resetAll: bool, defaults: string -> Value)
      requires scene.Valid() && id in scene.nodes && name in profiles
      requires resetAll ==> forall p :: p in FormatSpecific ==> p in scene.nodes[id].parms
      requires profiles[name].settings.Keys <= scene.nodes[id].parms.Keys
      modifies scene
      ensures scene.Valid() && scene.nextId == old(scene.nextId)
      ensures id in scene.nodes && scene.nodes == old(scene.nodes)[id := scene.nodes[id]]
      ensures var before := old(scene.nodes)[id];
        var after := scene.nodes[id];
        var profile := profiles[name];
        && after == before.(parms := after.parms, color := after.color)
        && after.parms == SetParms(if resetAll then RevertParms(before.parms, FormatSpecific, defaults)
                                   else before.parms, profile.settings)
        && (profile.tileColor.Some? ==> after.color == profile.tileColor.value)
        && (profile.tileColor.None? && resetAll ==> after.color == DefaultTileColor)
        && (profile.tileColor.None? && !resetAll ==> after.color == before.color)
    {
      var before := scene.nodes[id];
      var profile := profiles[name];
      if resetAll {
        ResetParms(scene, id, [], defaults);
      }
      var reset := scene.nodes[id];
      var applied := SetParms(reset.parms, profile.settings);
      scene.WriteParms(id, applied);
      UpdateTwice(old(scene.nodes), id, reset, reset.(parms := applied));
      if profile.tileColor.Some? {
        scene.SetColor(id, profile.tileColor.value);
        UpdateTwice(old(scene.nodes), id, reset.(parms := applied), reset.(parms := applied, color := profile.tileColor.value));
      } else if resetAll {
        scene.SetColor(id, DefaultTileColor);
        UpdateTwice(old(scene.nodes), id, reset.(parms := applied), reset.(parms := applied, color := DefaultTileColor));
      }
    }

    /** `__is_first_run(node)`: marks the node initialised and says whether it
        was not yet. */
    static method IsFirstRun(scene: Scene, id: NodeId) returns (r: FirstRun)
      requires scene.Valid() && id in scene.nodes && InitializedParm in scene.nodes[id].parms
      modifies scene
      ensures scene.Valid() && scene.nextId == old(scene.nextId)
      ensures var step := FirstRunStep(old(scene.nodes)[id].parms[InitializedParm]);
        r == step.0 && scene.nodes == old(scene.nodes)[id := old(scene.nodes)[id].(
          parms := old(scene.nodes)[id].parms[InitializedParm := step.1])]
    {
      var flag := scene.nodes[id].parms[InitializedParm];
      if flag.evaluated != StrV("True") {
        r := First(flag.evaluated);
        scene.SetParm(id, InitializedParm, Set(flag, StrV("True")));
      } else {
        r := NotFirst;
        assert scene.nodes[id].parms[InitializedParm := flag] == scene.nodes[id].parms;
        assert scene.nodes[id := scene.nodes[id]] == scene.nodes;
      }
    }

    /** The end of `compute_and_set`: unlock the parameter, set its text, and
        lock it again. */
    static method WriteLocked(scene: Scene, id: NodeId, parmName: string, text: string)
      requires scene.Valid() && id in scene.nodes && parmName in scene.nodes[id].parms
      modifies scene
      ensures scene.Valid() && scene.nextId == old(scene.nextId)
      ensures scene.nodes == old(scene.nodes)[id := old(scene.nodes)[id].(
                parms := old(scene.nodes)[id].parms[parmName := LockedText(old(scene.nodes)[id].parms[parmName], text)])]
    {
      var node0 := scene.nodes[id];
      var unlocked := node0.parms[parmName].(locked := false);
      scene.SetParm(id, parmName, unlocked);
      scene.SetParm(id, parmName, Set(unlocked, StrV(text)));
      SetParmTwice(old(scene.nodes), id, parmName, unlocked, Set(unlocked, StrV(text)));
      scene.SetParm(id, parmName, LockedText(node0.parms[parmName], text));
      SetParmTwice(old(scene.nodes), id, parmName, Set(unlocked, StrV(text)), LockedText(node0.parms[parmName], text));
    }

    /** What `__compute_path` needs of node `n` to compute the `alias` path. */
    predicate CanComputePath(n: Node, profile: Profile, alias: string)
    {
      var t := ext.templateByName(TemplateName(profile, alias));
      t.Some? && NeedsResolution(t.value) ==> ResolutionParms(n)
    }

    /** `compute_and_set(node, parm_name, settings, alias, aov_name)`: computes
        the path and writes it into the parameter, which ends up locked. A
        `TankError` is written as `ERROR: <message>` instead; any other error
        escapes before the parameter is touched. */
    method ComputeAndSet(scene: Scene, hipPath: string, id: NodeId, parmName: string,
                         profile: Profile, alias: string, aovName: Option<string>)
      returns (r: Outcome<PathError>)
      requires scene.Valid() && id in scene.nodes && parmName in scene.nodes[id].parms
      requires CanComputePath(scene.nodes[id], profile, alias)
      modifies scene
      ensures scene.Valid() && scene.nextId == old(scene.nextId)
      ensures var computed := ComputePath(ext, scriptTemplate, hipPath, old(scene.nodes)[id], profile, alias, aovName);
        if computed.Err? && !IsTankError(computed.error) then
          r == Fail(computed.error) && scene.nodes == old(scene.nodes)
        else
          r == Pass && scene.nodes == old(scene.nodes)[id := old(scene.nodes)[id].(
            parms := old(scene.nodes)[id].parms[parmName := LockedText(old(scene.nodes)[id].parms[parmName], PathText(computed))])]
    {
      var computed := ComputePath(ext, scriptTemplate, hipPath, scene.nodes[id], profile, alias, aovName);
      if computed.Err? && !IsTankError(computed.error) {
        return Fail(computed.error);
      }
      var text := PathText(computed);
      WriteLocked(scene, id, parmName, text);
      r := Pass;
    }

    /** What `convert_sg_to_mantra_nodes` reads of a Toolkit node: a profile
        selection and the names of its extra planes. */
    predicate SgConvertible(n: Node)
    {
      HasConfigIndex(n) && PlanesReadable(n)
    }

    /** The new `ifd` node just before it takes the Toolkit node's place: the
        Toolkit node's parameter values, copied past the exclusion list as it
        is written (which excludes nothing), and its profile name and plane
        names recorded as user data. Only parameter values and user data
        differ from the prototype. */
    function MantraStaged(sg: Node, proto: Node): (r: Node)
      requires SgConvertible(sg)
      ensures r == proto.(parms := r.parms, userData := r.userData)
      ensures r.typeName == proto.typeName && r.name == proto.name && r.inputs == proto.inputs
      ensures r.parmNames == proto.parmNames && r.parms.Keys == proto.parms.Keys
    {
      proto.(parms := CopyParms(sg.parms, proto.parms, ExcludedNames(ToolkitParmObjects(sg.parmNames))),
             userData := ConversionUserData(proto.userData, NodeProfileName(sg), PlaneNames(sg)))
    }

    /** On a prototype without `sgtk__` parameters, such as the stock `ifd`
        node, the copy as written gives what the intended exclusion of every
        `sgtk__` parameter gives. */
    lemma MantraStagedAsIntended(sg: Node, proto: Node)
      requires SgConvertible(sg)
      requires forall name :: name in proto.parms ==> !StartsWith(name, ToolkitParmPrefix)
      ensures MantraStaged(sg, proto).parms == CopyParms(sg.parms, proto.parms, ToolkitParms(sg))
    {
      ToolkitParmsExcluded(sg, proto.parms);
    }

    /** The menu index `convert_mantra_to_sg_nodes` selects for a recorded
        profile name: its place among the "Configuration" menu labels. */
    function ConfigChoice(n: Node): Option<nat>
      requires Recorded(n)
    {
      IndexOf(MenuLabels(ConfigurationMenuLabels(profileNames)), n.userData[ProfileKey])
    }

    /** The new Toolkit node just before it takes the plain node's place: the
        recorded profile selected when the menu offers it, the plain node's
        parameter values, and the recorded plane names. */
    function SgStaged(n: Node, proto: Node): (r: Node)
      requires Recorded(n) && SgRestorable(n, proto)
      ensures r == proto.(parms := r.parms)
      ensures r.typeName == proto.typeName && r.name == proto.name && r.inputs == proto.inputs
      ensures r.parmNames == proto.parmNames && r.parms.Keys == proto.parms.Keys
    {
      var configured := SelectConfig(proto.parms, ConfigChoice(n));
      proto.(parms := WriteAovParms(CopyParms(n.parms, configured, {}), n.userData, PlaneCount(NumAux(n))))
    }

    /** The conversion to a plain node (an instance of `ifdProto`) records
        the profile name, and the menu index it was read from is where the
        conversion back finds it. */
    lemma MantraStagedProfile(sg: Node, ifdProto: Node)
      requires Valid() && SgConvertible(sg) && NodeProfileName(sg) != ""
      ensures var ifd := MantraStaged(sg, ifdProto);
        && Recorded(ifd) && ifd.userData[ProfileKey] == NodeProfileName(sg)
        && ConfigChoice(ifd) == Some(sg.parms[ParmConfig].evaluated.i)
    {
      ConversionRoundTrip(profileNames, sg.parms[ParmConfig].evaluated.i, ifdProto.userData, PlaneNames(sg));
    }

    /** The plain node gets the Toolkit node's plane count: `vm_numaux` is no
        `sgtk__` parameter, so its value is copied. */
    lemma MantraStagedNumAux(sg: Node, ifdProto: Node)
      requires SgConvertible(sg) && NumAuxParm in ifdProto.parms
      requires sg.parms[NumAuxParm].kind == OtherParm && sg.parms[NumAuxParm].keys == []
      ensures var ifd := MantraStaged(sg, ifdProto);
        HasNumAux(ifd) && NumAux(ifd) == NumAux(sg)
    {
      AsWrittenExcludesNothing(sg);
      CopyParmsRules(sg.parms, ifdProto.parms, ExcludedNames(ToolkitParmObjects(sg.parmNames)), NumAuxParm, 0.0);
    }

    /** The plain node records the name of each extra plane of the Toolkit
        node under that plane's number. */
    lemma MantraStagedPlanes(sg: Node, ifdProto: Node)
      requires Valid() && SgConvertible(sg)
      ensures var ifd := MantraStaged(sg, ifdProto);
        forall k: nat :: 1 <= k <= NumAux(sg) ==>
          AovKey(k) in ifd.userData && StrV(ifd.userData[AovKey(k)]) == sg.parms[AovParm(k)].evaluated
    {
      ConversionRoundTrip(profileNames, sg.parms[ParmConfig].evaluated.i, ifdProto.userData, PlaneNames(sg));
      PlaneNamesValues(sg);
    }

    /** The conversion to a Toolkit node (an instance of `sgProto`) of a plain
        node without a "Configuration" parameter of its own selects the
        recorded menu index when the menu offers the recorded profile, and
        otherwise leaves the prototype's selection. */
    lemma SgStagedConfig(n: Node, sgProto: Node)
      requires Recorded(n) && SgRestorable(n, sgProto) && ParmConfig !in n.parms
      ensures var back := SgStaged(n, sgProto);
        && ParmConfig in back.parms
        && (ConfigChoice(n).Some? ==> back.parms[ParmConfig].evaluated == IntV(ConfigChoice(n).value))
        && (ConfigChoice(n).None? ==> back.parms[ParmConfig] == sgProto.parms[ParmConfig])
    {
      var count := PlaneCount(NumAux(n));
      var configured := SelectConfig(sgProto.parms, ConfigChoice(n));
      var copied := CopyParms(n.parms, configured, {});
      WriteAovParmsLookup(copied, n.userData, count);
      ConfigIsNoPlane(count);
      CopyParmsRules(n.parms, configured, {}, ParmConfig, 0.0);
    }

    /** The conversion to a Toolkit node sets the name of each extra plane to
        the name recorded for it. */
    lemma SgStagedPlanes(n: Node, sgProto: Node)
      requires Recorded(n) && SgRestorable(n, sgProto)
      ensures var back := SgStaged(n, sgProto);
        forall k: nat :: 1 <= k <= NumAux(n) ==> back.parms[AovParm(k)].evaluated == StrV(n.userData[AovKey(k)])
    {
      var configured := SelectConfig(sgProto.parms, ConfigChoice(n));
      WriteAovParmsLookup(CopyParms(n.parms, configured, {}), n.userData, PlaneCount(NumAux(n)));
    }

    /** The conversions are inverse on what the Toolkit node is made of: a
        Toolkit node converted to a plain node (an instance of `ifdProto`,
        which has no "Configuration" parameter) and back (to an instance of
        `sgProto`) selects the same profile again and gets every extra plane
        name back. */
    lemma ConversionsRoundTrip(sg: Node, ifdProto: Node, sgProto: Node)
      requires Valid() && SgConvertible(sg) && NodeProfileName(sg) != ""
      requires NumAuxParm in ifdProto.parms && ParmConfig !in ifdProto.parms
      requires sg.parms[NumAuxParm].kind == OtherParm && sg.parms[NumAuxParm].keys == []
      requires ParmConfig in sgProto.parms
      requires forall k: nat :: 1 <= k <= NumAux(sg) ==> AovParm(k) in sgProto.parms
      ensures Recorded(MantraStaged(sg, ifdProto)) && SgRestorable(MantraStaged(sg, ifdProto), sgProto)
      ensures var back := SgStaged(MantraStaged(sg, ifdProto), sgProto);
        && HasConfigIndex(back) && NodeProfileName(back) == NodeProfileName(sg)
        && forall k: nat :: 1 <= k <= NumAux(sg) ==> back.parms[AovParm(k)].evaluated == sg.parms[AovParm(k)].evaluated
    {
      var ifd := MantraStaged(sg, ifdProto);
      MantraStagedProfile(sg, ifdProto);
      MantraStagedNumAux(sg, ifdProto);
      MantraStagedPlanes(sg, ifdProto);
      SgStagedConfig(ifd, sgProto);
      SgStagedPlanes(ifd, sgProto);
    }

    /** The plane-name loop of `convert_sg_to_mantra_nodes`: the name of each
        extra plane of `src` is recorded in the user data of `dst`. */
    static method RecordPlanes(scene: Scene, src: NodeId, dst: NodeId)
      requires scene.Valid() && src in scene.nodes && dst in scene.nodes && src != dst
      requires PlanesReadable(scene.nodes[src])
      modifies scene
      ensures scene.Valid() && scene.nextId == old(scene.nextId)
      ensures scene.nodes == old(scene.nodes)[dst := old(scene.nodes)[dst].(
                userData := WriteAovs(old(scene.nodes)[dst].userData, PlaneNames(old(scene.nodes)[src])))]
    {
      var sg := scene.nodes[src];
      var target0 := scene.nodes[dst];
      var planes := PlaneNames(sg);
      var nums := PlaneNumbers(NumAux(sg));
      for i := 0 to |nums|
        invariant scene.Valid() && scene.nextId == old(scene.nextId)
        invariant scene.nodes == old(scene.nodes)[dst := target0.(userData := WriteAovs(target0.userData, planes[..i]))]
      {
        var num := nums[i];
        var aovName := planes[i];
        WriteAovsStep(target0.userData, planes, i);
        var before := target0.(userData := WriteAovs(target0.userData, planes[..i]));
        scene.SetUserData(dst, AovKey(num), aovName);
        UpdateTwice(old(scene.nodes), dst, before, before.(userData := before.userData[AovKey(num) := aovName]));
      }
      assert planes[..|planes|] == planes;
    }

    /** `convert_sg_to_mantra_nodes` for one Toolkit node `id`: a new `ifd`
        node (an instance of `proto`) receives its parameter values, its
        profile and plane names, and then its place. */
    method ConvertToMantra(scene: Scene, id: NodeId, proto: Node) returns (r: Conversion)
      requires scene.Valid() && id in scene.nodes && SgConvertible(scene.nodes[id])
      requires Unconnected(proto) && WellFormed(proto)
      modifies scene
      ensures scene.Valid() && scene.nextId == old(scene.nextId) + 1
      ensures !r.Skipped? && r.newId == old(scene.nextId) && r.newId != id
      ensures var sg := old(scene.nodes)[id];
        var outcome := CopyInputsOutcome(|proto.inputs|, sg.inputs, false);
        var staged := MantraStaged(sg, proto);
        && (r.Failed? <==> outcome.Fail?)
        && (r.Failed? ==>
              r.error == outcome.error && scene.nodes == old(scene.nodes)[r.newId := staged.(inputs := Overlay(proto.inputs, sg.inputs))])
        && (r.Converted? ==> scene.nodes == Replaced(old(scene.nodes)[r.newId := staged], id, r.newId))
      ensures r.Converted? ==> ReplacedBy(old(scene.nodes), scene.nodes, id, r.newId, proto.typeName)
    {
      var m := scene.nodes;
      var sg := scene.nodes[id];
      var profileName := NodeProfileName(sg);
      var newId := scene.CreateNode(proto);
      var exclude := ExcludedNames(ToolkitParmObjects(sg.parmNames));
      CopyParmValues(scene, id, newId, exclude);
      var copied := proto.(parms := CopyParms(sg.parms, proto.parms, exclude));
      UpdateTwice(m, newId, proto, copied);
      scene.SetUserData(newId, ProfileKey, profileName);
      var named := copied.(userData := proto.userData[ProfileKey := profileName]);
      UpdateTwice(m, newId, copied, named);
      RecordPlanes(scene, id, newId);
      var staged := MantraStaged(sg, proto);
      UpdateTwice(m, newId, named, staged);
      var outcome := ReplaceNode(scene, id, newId);
      if outcome.Fail? {
        UpdateTwice(m, newId, staged, staged.(inputs := Overlay(proto.inputs, sg.inputs)));
        r := Failed(newId, outcome.error);
      } else {
        ReplacedByNew(m, id, newId, staged);
        r := Converted(newId);
      }
    }

    /** The plane-name loop of `convert_mantra_to_sg_nodes`: the name recorded
        for each of `numaux` planes is set on that plane's name parameter. */
    static method RestorePlanes(scene: Scene, id: NodeId, userData: map<string, string>, numaux: int)
      requires scene.Valid() && id in scene.nodes
      requires forall k: nat :: 1 <= k <= numaux ==> AovParm(k) in scene.nodes[id].parms && AovKey(k) in userData
      modifies scene
      ensures scene.Valid() && scene.nextId == old(scene.nextId)
      ensures scene.nodes == old(scene.nodes)[id := old(scene.nodes)[id].(
                parms := WriteAovParms(old(scene.nodes)[id].parms, userData, PlaneCount(numaux)))]
    {
      var node0 := scene.nodes[id];
      var nums := PlaneNumbers(numaux);
      for i := 0 to |nums|
        invariant scene.Valid() && scene.nextId == old(scene.nextId)
        invariant scene.nodes == old(scene.nodes)[id := node0.(parms := WriteAovParms(node0.parms, userData, i))]
      {
        var num := nums[i];
        var parms := WriteAovParms(node0.parms, userData, i);
        var aovName := userData[AovKey(num)];
        scene.SetParm(id, AovParm(num), Set(scene.nodes[id].parms[AovParm(num)], StrV(aovName)));
        UpdateTwice(old(scene.nodes), id, node0.(parms := parms), node0.(parms := WriteAovParms(node0.parms, userData, i + 1)));
      }
    }

    /** The steps of `convert_mantra_to_sg_nodes` that build the new Toolkit
        node `newId` before it takes the place of `id`. */
    method StageSg(scene: Scene, id: NodeId, proto: Node) returns (newId: NodeId)
      requires scene.Valid() && id in scene.nodes
      requires Unconnected(proto) && WellFormed(proto)
      requires Recorded(scene.nodes[id]) && SgRestorable(scene.nodes[id], proto)
      modifies scene
      ensures scene.Valid() && newId == old(scene.nextId) && scene.nextId == old(scene.nextId) + 1
      ensures scene.nodes == old(scene.nodes)[newId := SgStaged(old(scene.nodes)[id], proto)]
    {
      var m := scene.nodes;
      var n := scene.nodes[id];
      var profile := n.userData[ProfileKey];
      newId := scene.CreateNode(proto);
      SelectProfile(scene, newId, MenuLabels(ConfigurationMenuLabels(profileNames)), profile);
      var configured := proto.(parms := SelectConfig(proto.parms, ConfigChoice(n)));
      UpdateTwice(m, newId, proto, configured);
      CopyParmValues(scene, id, newId, {});
      var copied := configured.(parms := CopyParms(n.parms, configured.parms, {}));
      UpdateTwice(m, newId, configured, copied);
      RestorePlanes(scene, newId, n.userData, NumAux(n));
      var staged := copied.(parms := WriteAovParms(copied.parms, n.userData, PlaneCount(NumAux(n))));
      assert staged == SgStaged(n, proto);
      UpdateTwice(m, newId, copied, staged);
    }

    /** `convert_mantra_to_sg_nodes` for one plain node `id`: a node without a
        recorded profile name is left alone; otherwise a new Toolkit node (an
        instance of `proto`) selects the recorded profile, receives the plain
        node's parameter values and the recorded plane names, and then takes
        its place. */
    method ConvertToSg(scene: Scene, id: NodeId, proto: Node) returns (r: Conversion)
      requires scene.Valid() && id in scene.nodes
      requires Unconnected(proto) && WellFormed(proto)
      requires Recorded(scene.nodes[id]) ==> SgRestorable(scene.nodes[id], proto)
      modifies scene
      ensures scene.Valid() && old(scene.nextId) <= scene.nextId
      ensures r.Skipped? <==> !Recorded(old(scene.nodes)[id])
      ensures r.Skipped? ==> scene.nodes == old(scene.nodes)
      ensures !r.Skipped? ==> r.newId == old(scene.nextId) && r.newId != id
      ensures !r.Skipped? ==>
        var n := old(scene.nodes)[id];
        var outcome := CopyInputsOutcome(|proto.inputs|, n.inputs, false);
        var staged := SgStaged(n, proto);
        && (r.Failed? <==> outcome.Fail?)
        && (r.Failed? ==>
              r.error == outcome.error && scene.nodes == old(scene.nodes)[r.newId := staged.(inputs := Overlay(proto.inputs, n.inputs))])
        && (r.Converted? ==> scene.nodes == Replaced(old(scene.nodes)[r.newId := staged], id, r.newId))
      ensures r.Converted? ==> ReplacedBy(old(scene.nodes), scene.nodes, id, r.newId, proto.typeName)
    {
      var m := scene.nodes;
      var n := scene.nodes[id];
      var userData := n.userData;
      if ProfileKey !in userData || userData[ProfileKey] == "" {
        return Skipped;
      }
      var newId := StageSg(scene, id, proto);
      var staged := SgStaged(n, proto);
      var outcome := ReplaceNode(scene, id, newId);
      if outcome.Fail? {
        UpdateTwice(m, newId, staged, staged.(inputs := Overlay(proto.inputs, n.inputs)));
        r := Failed(newId, outcome.error);
      } else {
        ReplacedByNew(m, id, newId, staged);
        r := Converted(newId);
      }
    }

    /** What the loop of `convert_sg_to_mantra_nodes` relies on of one
        conversion: how it ends, and that on success the new `ifd` node has
        replaced node `id`. */
    method ConvertOneToMantra(scene: Scene, id: NodeId, proto: Node) returns (r: Conversion)
      requires scene.Valid() && id in scene.nodes && SgConvertible(scene.nodes[id])
      requires Unconnected(proto) && WellFormed(proto)
      modifies scene
      ensures scene.Valid() && scene.nextId == old(scene.nextId) + 1
      ensures !r.Skipped? && r.newId == old(scene.nextId)
      ensures var outcome := CopyInputsOutcome(|proto.inputs|, old(scene.nodes)[id].inputs, false);
        (r.Failed? <==> outcome.Fail?) && (r.Failed? ==> r.error == outcome.error)
      ensures r.Converted? ==> ReplacedBy(old(scene.nodes), scene.nodes, id, r.newId, proto.typeName)
      ensures r.Failed? ==> AddedTo(old(scene.nodes), scene.nodes, r.newId, proto.typeName)
    {
      r := ConvertToMantra(scene, id, proto);
    }

    /** What the loop of `convert_mantra_to_sg_nodes` relies on of one
        conversion: when it skips the node, how it ends otherwise, and that on
        success the new Toolkit node has replaced node `id`. */
    method ConvertOneToSg(scene: Scene, id: NodeId, proto: Node) returns (r: Conversion)
      requires scene.Valid() && id in scene.nodes
      requires Unconnected(proto) && WellFormed(proto)
      requires Recorded(scene.nodes[id]) ==> SgRestorable(scene.nodes[id], proto)
      modifies scene
      ensures scene.Valid() && old(scene.nextId) <= scene.nextId
      ensures r.Skipped? <==> !Recorded(old(scene.nodes)[id])
      ensures r.Skipped? ==> scene.nodes == old(scene.nodes)
      ensures !r.Skipped? ==> r.newId == old(scene.nextId)
      ensures var outcome := CopyInputsOutcome(|proto.inputs|, old(scene.nodes)[id].inputs, false);
        (r.Failed? <==> !r.Skipped? && outcome.Fail?) && (r.Failed? ==> r.error == outcome.error)
      ensures r.Converted? ==> ReplacedBy(old(scene.nodes), scene.nodes, id, r.newId, proto.typeName)
      ensures r.Failed? ==> AddedTo(old(scene.nodes), scene.nodes, r.newId, proto.typeName)
    {
      r := ConvertToSg(scene, id, proto);
    }

    /** One turn of the loop of `convert_sg_to_mantra_nodes`: the Toolkit node
        `ids[i]` is converted, and a failure ends the loop. */
    method MantraTurn(scene: Scene, proto: Node, ids: seq<NodeId>, i: nat,
                      ghost m0: map<NodeId, Node>, ghost bound: nat, ghost targets: set<NodeId>)
      returns (r: Outcome<HostError>)
      requires scene.Valid() && bound <= scene.nextId
      requires Unconnected(proto) && WellFormed(proto) && proto.typeName == IfdNodeClass
      requires Progress(m0, bound, scene.nodes, ids, i, targets, IfdNodeClass) && i < |ids|
      requires ids[i] in targets && SgConvertible(m0[ids[i]])
      modifies scene
      ensures scene.Valid() && bound <= scene.nextId
      ensures r == CopyInputsOutcome(|proto.inputs|, m0[ids[i]].inputs, false)
      ensures r.Pass? ==> Progress(m0, bound, scene.nodes, ids, i + 1, targets, IfdNodeClass)
      ensures Fitted(m0, ids, i, targets, |proto.inputs|) && r.Pass? ==> Fitted(m0, ids, i + 1, targets, |proto.inputs|)
      ensures r.Fail? ==> Descends(m0, scene.nodes, IfdNodeClass)
      ensures r.Fail? ==> forall id :: id in m0 && id !in targets ==> id in scene.nodes
    {
      var id := ids[i];
      ghost var before := scene.nodes;
      assert Rewired(before[id], m0[id]);
      RewiredOverflows(before[id], m0[id], |proto.inputs|);
      var c := ConvertOneToMantra(scene, id, proto);
      if c.Failed? {
        ProgressStop(m0, bound, before, scene.nodes, ids, i, targets, IfdNodeClass, c.newId);
        r := Fail(c.error);
      } else {
        ProgressReplace(m0, bound, before, scene.nodes, ids, i, targets, IfdNodeClass, c.newId);
        r := Pass;
      }
    }

    /** Every Toolkit node of `m` can be converted. */
    ghost predicate AllSgConvertible(m: map<NodeId, Node>)
    {
      forall id :: id in m && m[id].typeName == SgNodeClass ==> SgConvertible(m[id])
    }

    /** `convert_sg_to_mantra_nodes`: every Toolkit Mantra node of the network,
        in turn, is replaced by a plain Mantra node (an instance of `proto`).
        A failed copy of a node's inputs ends the conversion there. When every
        Toolkit node's connections fit the plain node's connectors nothing
        fails, and a completed conversion leaves no Toolkit node behind. No
        node but the converted ones disappears, and the nodes kept differ only
        in which nodes feed them. */
    method ConvertSgToMantraNodes(scene: Scene, proto: Node) returns (r: Outcome<HostError>)
      requires scene.Valid() && Unconnected(proto) && WellFormed(proto) && proto.typeName == IfdNodeClass
      requires AllSgConvertible(scene.nodes)
      modifies scene
      ensures scene.Valid()
      ensures r.Pass? ==> forall id :: id in scene.nodes ==> scene.nodes[id].typeName != SgNodeClass
      ensures r.Pass? <==> forall id :: id in old(scene.nodes) && old(scene.nodes)[id].typeName == SgNodeClass ==>
                0 < |proto.inputs| && !Overflows(|proto.inputs|, old(scene.nodes)[id].inputs)
      ensures forall id :: id in old(scene.nodes) && old(scene.nodes)[id].typeName != SgNodeClass ==> id in scene.nodes
      ensures Descends(old(scene.nodes), scene.nodes, IfdNodeClass)
    {
      var ids := Instances(scene.nodes, SgNodeClass, scene.nextId);
      ghost var m0 := scene.nodes;
      ghost var bound := scene.nextId;
      ghost var targets := set id | id in m0 && m0[id].typeName == SgNodeClass;
      ProgressStart(m0, bound, ids, targets, IfdNodeClass);
      for i := 0 to |ids|
        invariant scene.Valid() && bound <= scene.nextId
        invariant Progress(m0, bound, scene.nodes, ids, i, targets, IfdNodeClass)
        invariant Fitted(m0, ids, i, targets, |proto.inputs|)
      {
        assert ids[i] in ids;
        r := MantraTurn(scene, proto, ids, i, m0, bound, targets);
        if r.Fail? {
          return;
        }
      }
      NoSgLeft(m0, bound, scene.nodes, ids, targets);
      FittedAll(m0, ids, targets, |proto.inputs|);
      r := Pass;
    }

    /** One turn of the loop of `convert_mantra_to_sg_nodes`: the plain node
        `ids[i]` is converted when it carries a recorded profile name, and a
        failure ends the loop. */
    method SgTurn(scene: Scene, proto: Node, ids: seq<NodeId>, i: nat,
                  ghost m0: map<NodeId, Node>, ghost bound: nat, ghost targets: set<NodeId>)
      returns (r: Outcome<HostError>)
      requires scene.Valid() && bound <= scene.nextId
      requires Unconnected(proto) && WellFormed(proto) && proto.typeName == SgNodeClass
      requires Progress(m0, bound, scene.nodes, ids, i, targets, SgNodeClass) && i < |ids|
      requires ids[i] in targets <==> Recorded(m0[ids[i]])
      requires Recorded(m0[ids[i]]) ==> SgRestorable(m0[ids[i]], proto)
      modifies scene
      ensures scene.Valid() && bound <= scene.nextId
      ensures r == if Recorded(m0[ids[i]]) then CopyInputsOutcome(|proto.inputs|, m0[ids[i]].inputs, false) else Pass
      ensures r.Pass? ==> Progress(m0, bound, scene.nodes, ids, i + 1, targets, SgNodeClass)
      ensures Fitted(m0, ids, i, targets, |proto.inputs|) && r.Pass? ==> Fitted(m0, ids, i + 1, targets, |proto.inputs|)
      ensures r.Fail? ==> Descends(m0, scene.nodes, SgNodeClass)
      ensures r.Fail? ==> forall id :: id in m0 && id !in targets ==> id in scene.nodes
    {
      var id := ids[i];
      ghost var before := scene.nodes;
      assert Rewired(before[id], m0[id]);
      RewiredOverflows(before[id], m0[id], |proto.inputs|);
      var c := ConvertOneToSg(scene, id, proto);
      if c.Failed? {
        ProgressStop(m0, bound, before, scene.nodes, ids, i, targets, SgNodeClass, c.newId);
        r := Fail(c.error);
      } else if c.Converted? {
        ProgressReplace(m0, bound, before, scene.nodes, ids, i, targets, SgNodeClass, c.newId);
        r := Pass;
      } else {
        ProgressSkip(m0, bound, before, ids, i, targets, SgNodeClass);
        r := Pass;
      }
    }

    /** Every plain node of `m` with a recorded profile name can be converted
        into an instance of `proto`. */
    ghost predicate AllSgRestorable(m: map<NodeId, Node>, proto: Node)
    {
      forall id :: id in m && m[id].typeName == IfdNodeClass && Recorded(m[id]) ==> SgRestorable(m[id], proto)
    }

    /** `convert_mantra_to_sg_nodes`: every plain Mantra node of the network
        that carries a recorded profile name, in turn, is replaced by a Toolkit
        Mantra node (an instance of `proto`); the others are left alone. A
        failed copy of a node's inputs ends the conversion there. When every
        such node's connections fit the Toolkit node's connectors nothing
        fails, and a completed conversion leaves no plain node with a recorded
        profile name. No node but the converted ones disappears, and the nodes
        kept differ only in which nodes feed them. */
    method ConvertMantraToSgNodes(scene: Scene, proto: Node) returns (r: Outcome<HostError>)
      requires scene.Valid() && Unconnected(proto) && WellFormed(proto) && proto.typeName == SgNodeClass
      requires AllSgRestorable(scene.nodes, proto)
      modifies scene
      ensures scene.Valid()
      ensures r.Pass? ==> forall id :: id in scene.nodes && scene.nodes[id].typeName == IfdNodeClass ==> !Recorded(scene.nodes[id])
      ensures r.Pass? <==>
                forall id :: id in old(scene.nodes) && old(scene.nodes)[id].typeName == IfdNodeClass && Recorded(old(scene.nodes)[id]) ==>
                  0 < |proto.inputs| && !Overflows(|proto.inputs|, old(scene.nodes)[id].inputs)
      ensures forall id :: id in old(scene.nodes) && !(old(scene.nodes)[id].typeName == IfdNodeClass && Recorded(old(scene.nodes)[id])) ==>
        id in scene.nodes
      ensures Descends(old(scene.nodes), scene.nodes, SgNodeClass)
    {
      var ids := Instances(scene.nodes, IfdNodeClass, scene.nextId);
      ghost var m0 := scene.nodes;
      ghost var bound := scene.nextId;
      ghost var targets := set id | id in m0 && m0[id].typeName == IfdNodeClass && Recorded(m0[id]);
      ProgressStart(m0, bound, ids, targets, SgNodeClass);
      for i := 0 to |ids|
        invariant scene.Valid() && bound <= scene.nextId
        invariant Progress(m0, bound, scene.nodes, ids, i, targets, SgNodeClass)
        invariant Fitted(m0, ids, i, targets, |proto.inputs|)
      {
        assert ids[i] in ids;
        r := SgTurn(scene, proto, ids, i, m0, bound, targets);
        if r.Fail? {
          return;
        }
      }
      NoRecordedLeft(m0, bound, scene.nodes, ids, targets);
      FittedAll(m0, ids, targets, |proto.inputs|);
      r := Pass;
    }
  }
}
