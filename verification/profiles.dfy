/** The node profiles the app is configured with, the registry the handler
    builds from them, and the "Configuration" menu that offers them. */
module Profiles {
  import opened Results
  import opened Network

  /** One entry of the `mantra_nodes` setting: its name, the parameter values
      it applies, its optional tile colour, and the template names it uses by
      alias (`template_render`, `template_ifd`, ...). */
  datatype Profile = Profile(name: string, settings: map<string, Value>, tileColor: Option<Color>,
                             templates: map<string, string>)

  /** The index of the first occurrence of `x` in `s` (Python's `list.index`,
      with `None` for the `ValueError`). */
  function IndexOf<T(==)>(s: seq<T>, x: T): (r: Option<nat>)
    ensures r.None? <==> x !in s
    ensures r.Some? ==> r.value < |s| && s[r.value] == x && x !in s[..r.value]
  {
    if s == [] then None
    else if s[0] == x then Some(0)
    else match IndexOf(s[1..], x)
      case None => None
      case Some(i) => assert s[1..][..i] == s[1..i + 1]; Some(i + 1)
  }

  /** In a list without repeats, each entry is found at its own index. */
  lemma IndexOfDistinct<T>(s: seq<T>, i: nat)
    requires i < |s| && forall a, b :: 0 <= a < b < |s| ==> s[a] != s[b]
    ensures IndexOf(s, s[i]) == Some(i)
  {
  }

  /** The profile names in configuration order, repeats included. */
  function ConfigNames(config: seq<Profile>): (r: seq<string>)
    ensures |r| == |config| && forall i :: 0 <= i < |config| ==> r[i] == config[i].name
  {
    seq(|config|, i requires 0 <= i < |config| => config[i].name)
  }

  /** The profiles the registry holds after reading `config` in order: a
      profile is taken unless one of its name is held already. */
  function RegistryProfiles(config: seq<Profile>): (r: map<string, Profile>)
    ensures forall name :: name in r ==> r[name] in config && r[name].name == name
  {
    if config == [] then map[]
    else
      var held := RegistryProfiles(config[..|config| - 1]);
      var p := config[|config| - 1];
      assert forall q :: q in config[..|config| - 1] ==> q in config;
      if p.name in held then held else held[p.name := p]
  }

  /** The names of `RegistryProfiles(config)` in the order they were taken. */
  function RegistryNames(config: seq<Profile>): (r: seq<string>)
    ensures |r| <= |config|
    ensures forall i :: 0 <= i < |r| ==> r[i] in RegistryProfiles(config)
  {
    if config == [] then []
    else
      var held := RegistryProfiles(config[..|config| - 1]);
      var p := config[|config| - 1];
      RegistryNames(config[..|config| - 1]) + if p.name in held then [] else [p.name]
  }

  /** No name is listed twice. */
  predicate Distinct(names: seq<string>)
  {
    forall i, j :: 0 <= i < j < |names| ==> names[i] != names[j]
  }

  /** The registry lists each name once, exactly the names it holds a profile
      for, and those are the names the configuration mentions. */
  lemma {:induction false} RegistryNamesShape(config: seq<Profile>)
    ensures Distinct(RegistryNames(config))
    ensures forall name :: name in RegistryNames(config) <==> name in RegistryProfiles(config)
    ensures forall name :: name in RegistryProfiles(config) <==> name in ConfigNames(config)
  {
    if config != [] {
      var init := config[..|config| - 1];
      RegistryNamesShape(init);
      assert ConfigNames(config) == ConfigNames(init) + [config[|config| - 1].name];
    }
  }

  /** Each name is held with the first profile the configuration gives it;
      later profiles of the same name are dropped. */
  lemma {:induction false} RegistryFirstWins(config: seq<Profile>, name: string)
    requires name in ConfigNames(config)
    ensures name in RegistryProfiles(config)
    ensures RegistryProfiles(config)[name] == config[IndexOf(ConfigNames(config), name).value]
  {
    RegistryNamesShape(config);
    var init := config[..|config| - 1];
    var p := config[|config| - 1];
    assert ConfigNames(config) == ConfigNames(init) + [p.name];
    IndexOfAppend(ConfigNames(init), p.name, name);
    if name in ConfigNames(init) {
      RegistryFirstWins(init, name);
    } else {
      RegistryNamesShape(init);
    }
  }

  /** Appending to a list moves no first occurrence of what it already held. */
  lemma {:induction false} IndexOfAppend<T>(s: seq<T>, y: T, x: T)
    ensures IndexOf(s + [y], x) == if x in s then IndexOf(s, x) else if x == y then Some(|s|) else None
  {
    if s != [] && s[0] != x {
      IndexOfAppend(s[1..], y, x);
      assert (s + [y])[1..] == s[1..] + [y];
    }
  }

  /** `x` occurs in `s`, and before any occurrence of `y`. */
  predicate Before<T(==)>(s: seq<T>, x: T, y: T)
  {
    IndexOf(s, x).Some? && IndexOf(s, y).Some? && IndexOf(s, x).value < IndexOf(s, y).value
  }

  /** The registry keeps configuration order: of two listed names, the one the
      configuration mentions first comes first. */
  lemma {:induction false} RegistryOrder(config: seq<Profile>)
    ensures forall i, j :: 0 <= i < j < |RegistryNames(config)| ==>
      Before(ConfigNames(config), RegistryNames(config)[i], RegistryNames(config)[j])
  {
    if config != [] {
      var init := config[..|config| - 1];
      var p := config[|config| - 1];
      RegistryOrder(init);
      RegistryNamesShape(init);
      var names := RegistryNames(init);
      var before := ConfigNames(init);
      var after := ConfigNames(config);
      assert after == before + [p.name];
      forall x | x in names
        ensures IndexOf(after, x) == IndexOf(before, x)
      {
        IndexOfAppend(before, p.name, x);
      }
      if p.name in RegistryProfiles(init) {
        assert RegistryNames(config) == names;
      } else {
        var names' := names + [p.name];
        assert RegistryNames(config) == names';
        IndexOfAppend(before, p.name, p.name);
        forall i, j | 0 <= i < j < |names'|
          ensures Before(after, names'[i], names'[j])
        {
          assert names'[i] == names[i] && names[i] in names;
          if j < |names| {
            assert names'[j] == names[j] && names[j] in names;
          }
        }
      }
    }
  }

  /** `__get_configuration_menu_labels`: the menu script's list of
      token/label pairs, each profile name labelled with the token `sgtk`
      (the even slots hold the tokens, the odd slots the names). */
  function ConfigurationMenuLabels(names: seq<string>): (r: seq<string>)
    ensures |r| == 2 * |names|
    ensures forall i :: 0 <= i < |names| ==> r[2 * i] == "sgtk" && r[2 * i + 1] == names[i]
  {
    seq(2 * |names|, k requires 0 <= k < 2 * |names| => if k % 2 == 0 then "sgtk" else names[k / 2])
  }

  /** `parm.menuLabels()` of a parameter whose menu script returned `menu`:
      the second entry of every token/label pair. */
  function MenuLabels(menu: seq<string>): (r: seq<string>)
    ensures |r| == |menu| / 2
    ensures forall i :: 0 <= i < |r| ==> r[i] == menu[2 * i + 1]
  {
    if |menu| < 2 then [] else [menu[1]] + MenuLabels(menu[2..])
  }

  /** The "Configuration" menu labels its entries with the profile names, in
      registry order. */
  lemma ConfigurationMenuShowsNames(names: seq<string>)
    ensures MenuLabels(ConfigurationMenuLabels(names)) == names
  {
  }
}
