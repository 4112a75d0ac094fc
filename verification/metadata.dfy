/** What the node conversions record about a Toolkit node so that it can be
    rebuilt later: the user-data keys, the extra image planes they cover, and
    which parameters the conversion leaves behind. */
module Metadata {
  import opened Results
  import opened Network
  import opened Text
  import opened Profiles
  import opened ParmCopy

  const ProfileKey := "tk_profile_name"
  const AovKeyPrefix := "tk_aov_name"
  const AovParmPrefix := "sgtk__aov_name"
  const ToolkitParmPrefix := "sgtk__"

  /** The user-data key holding the name of extra image plane `n`. */
  function AovKey(n: nat): string
  {
    AovKeyPrefix + NatToString(n)
  }

  /** The node parameter holding the name of extra image plane `n`. */
  function AovParm(n: nat): string
  {
    AovParmPrefix + NatToString(n)
  }

  /** A number formatted after a fixed prefix can be read back from the result. */
  lemma PrefixedNumberInjective(prefix: string, a: nat, b: nat)
    requires prefix + NatToString(a) == prefix + NatToString(b)
    ensures a == b
  {
    assert (prefix + NatToString(a))[|prefix|..] == NatToString(a);
    assert (prefix + NatToString(b))[|prefix|..] == NatToString(b);
    NatToStringInjective(a, b);
  }

  /** The user-data keys of different planes differ, and none of them is the
      profile key. */
  lemma AovKeysDistinct(a: nat, b: nat)
    ensures AovKey(a) == AovKey(b) ==> a == b
    ensures AovKey(a) != ProfileKey
  {
    if AovKey(a) == AovKey(b) {
      PrefixedNumberInjective(AovKeyPrefix, a, b);
    }
    assert AovKey(a)[3] == 'a' && ProfileKey[3] == 'p';
  }

  /** How many extra planes a `vm_numaux` value stands for. */
  function PlaneCount(numaux: int): nat
  {
    if numaux > 0 then numaux else 0
  }

  /** The parameters of different planes differ. */
  lemma AovParmsDistinct(a: nat, b: nat)
    ensures AovParm(a) == AovParm(b) ==> a == b
  {
    if AovParm(a) == AovParm(b) {
      PrefixedNumberInjective(AovParmPrefix, a, b);
    }
  }

  /** `__get_all_extra_plane_numbers`: `xrange(1, vm_numaux + 1)`. */
  function PlaneNumbers(numaux: int): (r: seq<nat>)
    ensures |r| == PlaneCount(numaux)
    ensures forall i :: 0 <= i < |r| ==> r[i] == i + 1
  {
    if numaux <= 0 then [] else PlaneNumbers(numaux - 1) + [numaux]
  }

  /** The plane numbers are exactly 1 to `vm_numaux`. */
  lemma PlaneNumbersRange(numaux: int, n: nat)
    ensures n in PlaneNumbers(numaux) <==> 1 <= n <= numaux
  {
    if 1 <= n <= numaux {
      assert PlaneNumbers(numaux)[n - 1] == n;
    }
  }

  /** `setUserData('tk_aov_name{n}', aovs[n - 1])` for n = 1, 2, ... in turn. */
  function WriteAovs(userData: map<string, string>, aovs: seq<string>): map<string, string>
  {
    if aovs == [] then userData
    else WriteAovs(userData, aovs[..|aovs| - 1])[AovKey(|aovs|) := aovs[|aovs| - 1]]
  }

  /** Writing one more plane name writes it under the next number. */
  lemma WriteAovsStep(userData: map<string, string>, aovs: seq<string>, i: nat)
    requires i < |aovs|
    ensures WriteAovs(userData, aovs[..i + 1]) == WriteAovs(userData, aovs[..i])[AovKey(i + 1) := aovs[i]]
  {
    assert aovs[..i + 1][..i] == aovs[..i];
  }

  /** The keys `WriteAovs` writes for `count` planes. */
  function AovKeys(count: nat): set<string>
  {
    set n: nat | 1 <= n <= count :: AovKey(n)
  }

  /** After writing the plane names, key `tk_aov_name{n}` holds the name of
      plane `n`, and every other key is as it was. */
  lemma {:induction false} WriteAovsLookup(userData: map<string, string>, aovs: seq<string>)
    ensures forall n :: 1 <= n <= |aovs| ==>
      AovKey(n) in WriteAovs(userData, aovs) && WriteAovs(userData, aovs)[AovKey(n)] == aovs[n - 1]
    ensures forall key :: key !in AovKeys(|aovs|) ==>
      (key in WriteAovs(userData, aovs) <==> key in userData)
      && (key in userData ==> WriteAovs(userData, aovs)[key] == userData[key])
  {
    if aovs != [] {
      var init := aovs[..|aovs| - 1];
      WriteAovsLookup(userData, init);
      forall n | 1 <= n < |aovs|
        ensures AovKey(n) != AovKey(|aovs|)
      {
        AovKeysDistinct(n, |aovs|);
      }
      assert AovKeys(|init|) <= AovKeys(|aovs|);
    }
  }

  /** The user data `convert_sg_to_mantra_nodes` leaves on the new node: the
      node's profile name, then the name of each extra image plane. */
  function ConversionUserData(userData: map<string, string>, profileName: string, aovs: seq<string>): map<string, string>
  {
    WriteAovs(userData[ProfileKey := profileName], aovs)
  }

  /** The metadata round trip: what the conversion to a plain node records is
      what the conversion back reads. A non-empty profile name is found again
      at the menu index it was taken from (the registry lists each name once),
      and every plane name comes back under its own number. */
  lemma ConversionRoundTrip(names: seq<string>, index: nat, userData: map<string, string>, aovs: seq<string>)
    requires Distinct(names) && index < |names|
    ensures var ud := ConversionUserData(userData, names[index], aovs);
      && ProfileKey in ud && ud[ProfileKey] == names[index]
      && IndexOf(MenuLabels(ConfigurationMenuLabels(names)), ud[ProfileKey]) == Some(index)
      && forall n :: 1 <= n <= |aovs| ==> AovKey(n) in ud && ud[AovKey(n)] == aovs[n - 1]
  {
    WriteAovsLookup(userData[ProfileKey := names[index]], aovs);
    assert ProfileKey !in AovKeys(|aovs|) by {
      forall n: nat | 1 <= n <= |aovs| ensures AovKey(n) != ProfileKey {
        AovKeysDistinct(n, n);
      }
    }
    ConfigurationMenuShowsNames(names);
    IndexOfDistinct(names, index);
  }

  /** The plane-name parameters of the first `count` planes. */
  function AovParms(count: nat): set<string>
  {
    set n: nat | 1 <= n <= count :: AovParm(n)
  }

  /** `parm('sgtk__aov_name{n}').set(userData['tk_aov_name{n}'])` for
      n = 1, 2, ... `count` in turn. */
  function WriteAovParms(parms: map<string, Parm>, userData: map<string, string>, count: nat): (r: map<string, Parm>)
    requires forall n: nat :: 1 <= n <= count ==> AovParm(n) in parms && AovKey(n) in userData
    ensures r.Keys == parms.Keys
  {
    if count == 0 then parms
    else
      var done := WriteAovParms(parms, userData, count - 1);
      done[AovParm(count) := Set(done[AovParm(count)], StrV(userData[AovKey(count)]))]
  }

  /** After the plane names are written back, parameter `sgtk__aov_name{n}`
      holds the name recorded for plane `n`, and every other parameter is as
      it was. */
  lemma {:induction false} WriteAovParmsLookup(parms: map<string, Parm>, userData: map<string, string>, count: nat)
    requires forall n: nat :: 1 <= n <= count ==> AovParm(n) in parms && AovKey(n) in userData
    ensures forall n: nat :: 1 <= n <= count ==>
      WriteAovParms(parms, userData, count)[AovParm(n)] == Set(parms[AovParm(n)], StrV(userData[AovKey(n)]))
    ensures forall name :: name in parms && name !in AovParms(count) ==>
      WriteAovParms(parms, userData, count)[name] == parms[name]
  {
    if count > 0 {
      WriteAovParmsLookup(parms, userData, count - 1);
      forall n: nat | 1 <= n < count
        ensures AovParm(n) != AovParm(count)
      {
        AovParmsDistinct(n, count);
      }
      assert AovParms(count - 1) <= AovParms(count);
    }
  }

  /** `__is_node_being_copied`: the host renames a node it is copying by
      putting `original0` in front of its name. */
  predicate IsNodeBeingCopied(name: string): (r: bool)
    ensures r <==> exists rest :: name == "original0" + rest
  {
    assert StartsWith(name, "original0") ==> name == "original0" + name[9..];
    StartsWith(name, "original0")
  }

  /** Examples of `IsNodeBeingCopied`: a node the host renamed for copying is
      recognised; a name that does not start with `o` is not. */
  lemma BeingCopiedNames(name: string)
    ensures IsNodeBeingCopied("original0_" + name)
    ensures name == [] || name[0] != 'o' ==> !IsNodeBeingCopied(name)
  {
    assert ("original0_" + name)[..9] == "original0";
  }

  /** A Python value that can sit in the `exclude` list. */
  datatype PyObject = PyStr(s: string) | PyParm(parmName: string)

  /** `[f for f in sg_n.parms() if f.name().startswith('sgtk__')]` as written:
      the list holds the parameter objects, not their names. */
  function ToolkitParmObjects(names: seq<string>): (r: seq<PyObject>)
    ensures forall o :: o in r <==> o.PyParm? && o.parmName in names && StartsWith(o.parmName, ToolkitParmPrefix)
  {
    if names == [] then [] else
      (if StartsWith(names[0], ToolkitParmPrefix) then [PyParm(names[0])] else [])
      + ToolkitParmObjects(names[1..])
  }

  /** The parameter names `p.name() not in exclude` rejects: a name is a string,
      and equals only the strings of the list. */
  function ExcludedNames(exclude: seq<PyObject>): set<string>
  {
    set o | o in exclude && o.PyStr? :: o.s
  }

  /** As written, the exclusion list of `convert_sg_to_mantra_nodes` excludes
      no parameter at all. */
  lemma AsWrittenExcludesNothing(n: Node)
    ensures ExcludedNames(ToolkitParmObjects(n.parmNames)) == {}
  {
    var objs := ToolkitParmObjects(n.parmNames);
    assert forall o :: o in objs ==> !o.PyStr?;
  }

  /** The names the exclusion evidently means: every `sgtk__` parameter of the
      source node. */
  function ToolkitParms(n: Node): set<string>
  {
    set name | name in n.parms && StartsWith(name, ToolkitParmPrefix)
  }

  /** A node with one Toolkit string parameter. */
  function ToolkitParmNode(value: string): Node
  {
    Node("sgtk_mantra", "n", Position(0.0, 0.0), Color(0.8, 0.8, 0.8), ["sgtk__x"],
         map["sgtk__x" := Parm(StringParm, StrV(value), StrV(value), [], false)], [], map[])
  }

  /** The input that shows the difference: a target with a Toolkit parameter
      of the same name gets the source's value under the exclusion as written,
      and keeps its own under the intended one. */
  lemma ExclusionCounterexample()
    ensures var src := ToolkitParmNode("a");
      var dst := ToolkitParmNode("b").parms;
      && CopyParms(src.parms, dst, ExcludedNames(ToolkitParmObjects(src.parmNames)))["sgtk__x"].raw == StrV("a")
      && CopyParms(src.parms, dst, ToolkitParms(src))["sgtk__x"] == dst["sgtk__x"]
  {
    var src := ToolkitParmNode("a");
    AsWrittenExcludesNothing(src);
    assert StartsWith("sgtk__x", ToolkitParmPrefix);
    assert "sgtk__x" in ToolkitParms(src);
  }

  /** Under the intended exclusion no Toolkit parameter of the target is
      touched; and for a target without Toolkit parameters, such as the plain
      `ifd` node the conversion creates, the exclusion as written copies the
      same values. */
  lemma ToolkitParmsExcluded(src: Node, dst: map<string, Parm>)
    ensures forall name :: name in dst && StartsWith(name, ToolkitParmPrefix) ==>
      CopyParms(src.parms, dst, ToolkitParms(src))[name] == dst[name]
    ensures (forall name :: name in dst ==> !StartsWith(name, ToolkitParmPrefix)) ==>
      CopyParms(src.parms, dst, ExcludedNames(ToolkitParmObjects(src.parmNames)))
        == CopyParms(src.parms, dst, ToolkitParms(src))
  {
    AsWrittenExcludesNothing(src);
  }
}
