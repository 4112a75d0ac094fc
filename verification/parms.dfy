/** Copying parameter values between two nodes (`__copy_parm_values`). */
module ParmCopy {
  import opened Results
  import opened Network

  /** `setKeyframe` applied to each key of `ks` in turn. */
  function SetKeyframes(keys: seq<Keyframe>, ks: seq<Keyframe>): seq<Keyframe>
  {
    if ks == [] then keys else SetKeyframe(SetKeyframes(keys, ks[..|ks| - 1]), ks[|ks| - 1])
  }

  /** The last key of `ks` at time `t`, if any. */
  function LastKeyAt(ks: seq<Keyframe>, t: real): Option<Keyframe>
  {
    if ks == [] then None
    else if ks[|ks| - 1].time == t then Some(ks[|ks| - 1])
    else LastKeyAt(ks[..|ks| - 1], t)
  }

  /** Setting a list of keys: at a time that list mentions the parameter holds
      the list's last key for that time; at every other time its old key. */
  lemma {:induction false} KeyAtSetKeyframes(keys: seq<Keyframe>, ks: seq<Keyframe>, t: real)
    ensures KeyAt(SetKeyframes(keys, ks), t) ==
            if LastKeyAt(ks, t).Some? then LastKeyAt(ks, t) else KeyAt(keys, t)
  {
    if ks != [] {
      KeyAtSetKeyframes(keys, ks[..|ks| - 1], t);
      KeyAtSetKeyframe(SetKeyframes(keys, ks[..|ks| - 1]), ks[|ks| - 1], t);
    }
  }

  /** No two keys of the list share a time, as for the keys of one parameter. */
  predicate DistinctTimes(ks: seq<Keyframe>)
  {
    forall i, j :: 0 <= i < j < |ks| ==> ks[i].time != ks[j].time
  }

  /** In a list with distinct times, the key found at a key's time is that key,
      and a time no key has finds nothing. */
  lemma {:induction false} LastKeyAtDistinct(ks: seq<Keyframe>, j: nat, t: real)
    requires DistinctTimes(ks)
    ensures j < |ks| ==> LastKeyAt(ks, ks[j].time) == Some(ks[j])
    ensures (forall i :: 0 <= i < |ks| ==> ks[i].time != t) ==> LastKeyAt(ks, t) == None
  {
    if ks != [] {
      var init := ks[..|ks| - 1];
      assert DistinctTimes(init);
      if j < |init| {
        LastKeyAtDistinct(init, j, t);
      } else {
        LastKeyAtDistinct(init, 0, t);
      }
    }
  }

  /** `for key in parm.keyframes(): target.setKeyframe(key)`. */
  method CopyKeyframes(target: seq<Keyframe>, source: seq<Keyframe>) returns (keys: seq<Keyframe>)
    ensures keys == SetKeyframes(target, source)
  {
    keys := target;
    for i := 0 to |source|
      invariant keys == SetKeyframes(target, source[..i])
    {
      assert source[..i + 1][..i] == source[..i];
      keys := SetKeyframe(keys, source[i]);
    }
    assert source[..|source|] == source;
  }

  /** Whether the copy writes the source's parameter `name` onto the target:
      it is not excluded, it is not a folder, and the target has a parameter of
      that name. */
  predicate Copies(name: string, src: map<string, Parm>, dst: map<string, Parm>, exclude: set<string>)
  {
    name in src && name !in exclude && src[name].kind != FolderSet && name in dst
  }

  /** The target parameter after one source parameter was copied onto it: all
      the source's keyframes when it has any, otherwise its unexpanded string
      (string parameters) or its evaluated value (every other kind). */
  function CopiedParm(from: Parm, to: Parm): Parm
  {
    if |from.keys| > 0 then to.(keys := SetKeyframes(to.keys, from.keys))
    else if from.kind == StringParm then Set(to, from.raw)
    else Set(to, from.evaluated)
  }

  /** The target's parameters after every source parameter was copied: the
      target keeps its parameter names, and each parameter its kind and lock. */
  function CopyParms(src: map<string, Parm>, dst: map<string, Parm>, exclude: set<string>): (r: map<string, Parm>)
    ensures r.Keys == dst.Keys
    ensures forall name :: name in r ==> r[name].kind == dst[name].kind && r[name].locked == dst[name].locked
  {
    map name | name in dst :: if Copies(name, src, dst, exclude) then CopiedParm(src[name], dst[name]) else dst[name]
  }

  /** The three rules of the copy, stated per target parameter: a parameter that
      is excluded, a folder, or missing on the source keeps its value; any other
      gets the source's keyframes (each source key at its time, every other key
      kept), or else its raw string, or else its evaluated value. */
  lemma CopyParmsRules(src: map<string, Parm>, dst: map<string, Parm>, exclude: set<string>, name: string, t: real)
    requires name in dst
    requires name in src ==> DistinctTimes(src[name].keys)
    ensures var r := CopyParms(src, dst, exclude);
      && r.Keys == dst.Keys
      && r[name].kind == dst[name].kind && r[name].locked == dst[name].locked
      && (name !in src || name in exclude || src[name].kind == FolderSet ==> r[name] == dst[name])
      && (name in src && name !in exclude && src[name].kind != FolderSet ==>
            var from := src[name];
            if |from.keys| > 0 then
              && r[name].raw == dst[name].raw && r[name].evaluated == dst[name].evaluated
              && (forall j :: 0 <= j < |from.keys| ==> KeyAt(r[name].keys, from.keys[j].time) == Some(from.keys[j]))
              && ((forall j :: 0 <= j < |from.keys| ==> from.keys[j].time != t) ==>
                    KeyAt(r[name].keys, t) == KeyAt(dst[name].keys, t))
            else
              && r[name].keys == dst[name].keys
              && r[name].raw == r[name].evaluated
              && r[name].raw == (if from.kind == StringParm then from.raw else from.evaluated))
  {
    if name in src && name !in exclude && src[name].kind != FolderSet && |src[name].keys| > 0 {
      var from := src[name];
      forall j | 0 <= j < |from.keys|
        ensures KeyAt(CopyParms(src, dst, exclude)[name].keys, from.keys[j].time) == Some(from.keys[j])
      {
        KeyAtSetKeyframes(dst[name].keys, from.keys, from.keys[j].time);
        LastKeyAtDistinct(from.keys, j, from.keys[j].time);
      }
      KeyAtSetKeyframes(dst[name].keys, from.keys, t);
      LastKeyAtDistinct(from.keys, 0, t);
    }
  }

  /** The body of the copy loop for one parameter that is copied. */
  method CopyParm(from: Parm, to: Parm) returns (r: Parm)
    ensures r == CopiedParm(from, to)
  {
    if |from.keys| > 0 {
      var keys := CopyKeyframes(to.keys, from.keys);
      r := to.(keys := keys);
    } else if from.kind == StringParm {
      r := Set(to, from.raw);
    } else {
      r := Set(to, from.evaluated);
    }
  }

  /** The parameters of `src` whose names occur in `done`. */
  function Only(src: map<string, Parm>, done: seq<string>): map<string, Parm>
  {
    map name | name in src && name in done :: src[name]
  }

  /** Taking the next listed source parameter into the copy changes at most the
      target parameter of that name, and that one as `CopiedParm` says. */
  lemma CopyParmsStep(src: map<string, Parm>, names: seq<string>, i: nat,
                      dst: map<string, Parm>, exclude: set<string>, parms: map<string, Parm>)
    requires i < |names| && names[i] in src && names[i] !in names[..i]
    requires parms == CopyParms(Only(src, names[..i]), dst, exclude)
    ensures var name := names[i];
      CopyParms(Only(src, names[..i + 1]), dst, exclude) ==
      if name !in exclude && src[name].kind != FolderSet && name in parms
      then parms[name := CopiedParm(src[name], parms[name])] else parms
  {
    assert names[..i + 1] == names[..i] + [names[i]];
  }

  /** A well-formed node's parameter list names all its parameters once. */
  lemma ListedOnce(n: Node, i: nat)
    requires WellFormed(n) && i <= |n.parmNames|
    ensures i < |n.parmNames| ==> n.parmNames[i] in n.parms && n.parmNames[i] !in n.parmNames[..i]
    ensures i == |n.parmNames| ==> Only(n.parms, n.parmNames[..i]) == n.parms
  {
  }

  /** `__copy_parm_values(source, target, exclude)`: every source parameter, in
      the order the source lists them, is copied onto the target's parameter of
      the same name when the copy rules allow it. */
  method CopyParmValues(scene: Scene, src: NodeId, dst: NodeId, exclude: set<string>)
    requires scene.Valid() && src in scene.nodes && dst in scene.nodes
    modifies scene
    ensures scene.Valid() && scene.nextId == old(scene.nextId)
    ensures scene.nodes == old(scene.nodes)[dst := old(scene.nodes)[dst].(
              parms := CopyParms(old(scene.nodes)[src].parms, old(scene.nodes)[dst].parms, exclude))]
  {
    var nodes0 := scene.nodes;
    var source := scene.nodes[src];
    var target0 := scene.nodes[dst];
    var parms := target0.parms;
    assert CopyParms(Only(source.parms, source.parmNames[..0]), target0.parms, exclude) == parms;
    assert nodes0[dst := target0.(parms := parms)] == nodes0;
    for i := 0 to |source.parmNames|
      invariant scene.nextId == old(scene.nextId)
      invariant parms == CopyParms(Only(source.parms, source.parmNames[..i]), target0.parms, exclude)
      invariant scene.nodes == nodes0[dst := target0.(parms := parms)]
    {
      ListedOnce(source, i);
      CopyParmsStep(source.parms, source.parmNames, i, target0.parms, exclude, parms);
      var name := source.parmNames[i];
      var parm := source.parms[name];
      if name !in exclude && parm.kind != FolderSet && name in parms {
        var to := CopyParm(parm, parms[name]);
        parms := parms[name := to];
      }
      scene.nodes := nodes0[dst := target0.(parms := parms)];
    }
    ListedOnce(source, |source.parmNames|);
    assert parms.Keys == target0.parms.Keys;
  }
}
