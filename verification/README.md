# Toolkit Mantra node handler, modelled in Dafny

This project models `ToolkitMantraNodeHandler`, the object behind the Shotgun
Toolkit Mantra render node in Houdini. The handler does these things:

- It builds a profile registry from the `mantra_nodes` setting and offers the
  profiles in a "Configuration" menu.
- It applies a profile to a node: format parameters and tile colour.
- It keeps a "first run" flag.
- It computes output paths from templates, writing `ERROR: <message>` into the
  locked path parameter when a `TankError` stops the computation.
- It converts every Toolkit Mantra node (`sgtk_mantra`) into a plain Mantra
  node (`ifd`) and back. The conversion copies parameter values, records the
  profile and the extra image-plane names as user data, moves the input and
  output connections, copies the colour, and hands over the name and position.

The Houdini network is a `Scene` object (`network.dfy`). It holds a map from
node ids to `Node` records: type name, name, position, colour, parameters,
one input slot per connector, and user data. The host operations the handler
calls (`createNode`, `destroy`, `setParms`, `setUserData`, `setInput`,
`setColor`, `setName`, `setPosition`) are `Scene` methods or map updates.

Each handler operation that changes nodes is a method with `modifies scene`.
Its postcondition states the new network in terms of a specification
function, and lemmas prove what those functions promise.

Errors are modelled in two ways:
- The exceptions the handler raises or catches on purpose are values:
  `hou.OperationFailed`, `hou.InvalidInput`, `TankError`, the `KeyError` of a
  work file without a version, and the `ValueError` of `list.index`.
- Crashes the code never anticipates are preconditions: a missing parameter,
  a missing profile, an out-of-range menu index.

Modules, one per file:

- `results.dfy`: `Option`, `Result`, `Outcome`.
- `text.dfy`: decimal formatting, `startswith`, slash normalisation.
- `network.dfy`: nodes, parameters, keyframes, the `Scene`.
- `parms.dfy`: `__copy_parm_values`.
- `profiles.dfy`: profile registry and menu labels.
- `connections.dfy`: input copy, output move, colour copy, and one node
  taking another's place.
- `paths.dfy`: `__compute_path` and its helpers.
- `metadata.dfy`: conversion user data, plane numbers, and the exclusion list.
- `handler.dfy`: the handler class and the two conversions.

All source paths below are in `python/tk_houdini_mantranode/handler.py`,
written `handler.py` in the prose.

## Model

| member | source | states |
|---|---|---|
| Text.ParseNatToString | python/tk_houdini_mantranode/handler.py:171-172 | The decimal text `'{0}'.format(n)` produces for a plane number reads back as that number. |
| Text.NatToStringInjective | python/tk_houdini_mantranode/handler.py:171-172 | Different plane numbers give different decimal texts. |
| Text.NormaliseSlashes | python/tk_houdini_mantranode/handler.py:808 | Same length as the input. Each backslash becomes `/`, every other character stays, and no backslash is left. |
| Network.KeyAtSetKeyframe | python/tk_houdini_mantranode/handler.py:658-659 | After `setKeyframe(k)` the parameter holds `k` at `k`'s time and its old key at every other time. |
| Network.DetachUnreferenced | python/tk_houdini_mantranode/handler.py:182 | Destroying a node that feeds nothing removes that node and changes no other node. |
| Network.Scene.CreateNode | python/tk_houdini_mantranode/handler.py:154 | `createNode` adds exactly one node, a copy of the prototype, under a fresh id. The network stays valid. |
| Network.Scene.SetUserData | python/tk_houdini_mantranode/handler.py:165-166 | `setUserData` changes one key of one node's user data and nothing else. |
| Network.Scene.Place | python/tk_houdini_mantranode/handler.py:185-186 | `setName` and `setPosition` change only the node's name and position. |
| Network.Scene.Destroy | python/tk_houdini_mantranode/handler.py:182 | `destroy` removes the node and cuts the connections it fed. The network stays valid. |
| ParmCopy.KeyAtSetKeyframes | python/tk_houdini_mantranode/handler.py:656-659 | After setting a list of keys, a time the list mentions holds the list's last key for that time. Any other time holds its old key. |
| ParmCopy.CopyKeyframes | python/tk_houdini_mantranode/handler.py:658-659 | The key-copy loop sets each source key in order. |
| ParmCopy.CopyParms | python/tk_houdini_mantranode/handler.py:636-666 | The copy keeps the target's parameter names, and each parameter keeps its kind and its lock. |
| ParmCopy.CopyParmsRules | python/tk_houdini_mantranode/handler.py:641-666 | Skip rule: a target parameter keeps its value when it is excluded, is a folder, or is missing on the source. Copy rule, otherwise: it gets every source key at that key's time and keeps its own other keys. Without source keys it gets the unexpanded string (string parameters) or the evaluated value (other kinds). Kind and lock never change, and the set of names is kept. |
| ParmCopy.CopyParm | python/tk_houdini_mantranode/handler.py:656-666 | The loop body for one copied parameter gives exactly the copied parameter the rules define. |
| ParmCopy.CopyParmsStep | python/tk_houdini_mantranode/handler.py:643-666 | Taking one more source parameter into the copy changes at most the target parameter of that name. |
| ParmCopy.CopyParmValues | python/tk_houdini_mantranode/handler.py:636-666 | The copy changes only the target node's parameters, which become the rule-defined copy of all source parameters. The network stays valid. |
| Profiles.IndexOf | python/tk_houdini_mantranode/handler.py:226 | `list.index` fails exactly when the value is absent. Otherwise it returns an index holding the value with no earlier occurrence. |
| Profiles.IndexOfDistinct | python/tk_houdini_mantranode/handler.py:226 | In a list without repeats, every entry is found at its own index. |
| Profiles.RegistryProfiles | python/tk_houdini_mantranode/handler.py:30-41 | Every profile the registry holds comes from the configuration and is filed under its own name. |
| Profiles.RegistryNames | python/tk_houdini_mantranode/handler.py:30-41 | The registry lists at most one name per profile read, and a profile is held for each listed name. |
| Profiles.RegistryNamesShape | python/tk_houdini_mantranode/handler.py:30-41 | The name list has no duplicates. It lists exactly the names that have a profile, which are exactly the names the configuration mentions. |
| Profiles.RegistryFirstWins | python/tk_houdini_mantranode/handler.py:30-41 | Each name maps to the first profile of that name in the configuration. Later duplicates are dropped. |
| Profiles.RegistryOrder | python/tk_houdini_mantranode/handler.py:30-41 | Of two registered names, the one the configuration mentions first comes first. |
| Profiles.ConfigurationMenuLabels | python/tk_houdini_mantranode/handler.py:856-861 | The list has length 2·n. Index 2i holds `sgtk` and index 2i+1 holds profile name i. |
| Profiles.MenuLabels | python/tk_houdini_mantranode/handler.py:95 | `menuLabels()` is the second entry of each token/label pair of the menu script. |
| Profiles.ConfigurationMenuShowsNames | python/tk_houdini_mantranode/handler.py:95 | The "Configuration" menu labels are the profile names, in registry order. |
| Connections.Overlay | python/tk_houdini_mantranode/handler.py:614-622 | Slot k of the target holds the source's connection when k is within the source's slots and connected. Otherwise the target's own slot stays. |
| Connections.CopyInputsOutcome | python/tk_houdini_mantranode/handler.py:608-620 | `OperationFailed` exactly when the target has no connectors. `InvalidInput` exactly when it has some, `ignore_missing` is off, and a connection sits past its last connector. Success otherwise. |
| Connections.CopyInputsToNode | python/tk_houdini_mantranode/handler.py:601-622 | The outcome is as above. On success or failure, the target ends up with every connection made before the failure, and no other node changes. |
| Connections.OutputConnections | python/tk_houdini_mantranode/handler.py:630 | `outputConnections()` lists exactly the slots, on any node, that the node feeds. |
| Connections.RewireSlots | python/tk_houdini_mantranode/handler.py:632-633 | Rewiring a list of connections sets exactly the listed slots to the target. |
| Connections.RewireOutputs | python/tk_houdini_mantranode/handler.py:625-633 | Rewiring every output connection of a node redirects every slot it fed to the target, and no other slot. |
| Connections.RedirectNoOutputs | python/tk_houdini_mantranode/handler.py:625-633 | After the move the old node feeds nothing. |
| Connections.RedirectClosed | python/tk_houdini_mantranode/handler.py:625-633 | When the target is in the network, the move leaves every connection pointing at a node of the network. |
| Connections.RedirectWellFormed | python/tk_houdini_mantranode/handler.py:625-633 | The move touches no node's parameters, so every node stays well formed. |
| Connections.MoveOutputsToNode | python/tk_houdini_mantranode/handler.py:625-633 | The network becomes the old one with every slot fed by the node fed by the target instead. |
| Connections.CopyColor | python/tk_houdini_mantranode/handler.py:515-518 | Node b takes node a's colour, and nothing else changes. |
| Connections.RewiredOverflows | python/tk_houdini_mantranode/handler.py:614-620 | A node whose connections were only moved still fits, or still overflows, a target's connectors. |
| Connections.ReplacedShape | python/tk_houdini_mantranode/handler.py:178-186 | After a replacement the old node is gone and feeds nothing. The new node has the old node's name, position and colour and keeps its type. Every other node differs at most in which nodes feed it. |
| Connections.ReplacedClosed | python/tk_houdini_mantranode/handler.py:178-186 | A replacement keeps every connection pointing at a node of the network. |
| Connections.ReplaceNode | python/tk_houdini_mantranode/handler.py:178-186 | The replacement copies the inputs first. If that fails, only the target's inputs have changed, and the error is the input copy's error. On success the network is the replacement defined above. |
| Connections.TakePlace | python/tk_houdini_mantranode/handler.py:179-186 | Moving the outputs, copying the colour, destroying the old node, then renaming and placing the new one, gives the old node's name, position, colour and outputs to the new node. |
| Paths.Message | python/tk_houdini_mantranode/handler.py:774-785 | The three `TankError` texts the handler raises, each non-empty: the two of `__compute_path`, and the camera text of line 752. A `TankError` from the context or the template engine keeps its own message. |
| Paths.HipfileFields | python/tk_houdini_mantranode/handler.py:668-679 | Fields are only read when there is a work-file template and it validates the scene path. |
| Paths.GatherRenderResolution | python/tk_houdini_mantranode/handler.py:747-767 | The result fails exactly when the camera is not found, with its path in the error. Without an override it is the camera's resolution. A `specific` override gives the node's own width and height. |
| Paths.PathFields | python/tk_houdini_mantranode/handler.py:788-803 | The fields hold `name`, `version`, `renderpass` (the node name) and `SEQ` (`FORMAT: $F`). `aov_name` is present exactly when a non-empty one is given. `width` and `height` are present exactly when a resolution is given. Nothing else is present. |
| Paths.ComputePath | python/tk_houdini_mantranode/handler.py:772-809 | Each failure happens exactly under its condition, in this order: not a work file, no template, no version, camera not found, and a `TankError` from `as_template_fields` or `apply_fields` (lines 805 and 807), which keeps the engine's message. A computed path has no backslash and is the template applied to the node's fields merged with the context's. |
| Metadata.PrefixedNumberInjective | python/tk_houdini_mantranode/handler.py:171-172 | A number formatted after a fixed prefix can be recovered from the text. |
| Metadata.AovKeysDistinct | python/tk_houdini_mantranode/handler.py:165-174 | The `tk_aov_name{n}` keys of different planes differ, and none is `tk_profile_name`. |
| Metadata.AovParmsDistinct | python/tk_houdini_mantranode/handler.py:239 | The `sgtk__aov_name{n}` parameters of different planes differ. |
| Metadata.PlaneNumbers | python/tk_houdini_mantranode/handler.py:743-745 | `xrange(1, vm_numaux + 1)`: entry i is i + 1, and there are `max(vm_numaux, 0)` entries. |
| Metadata.PlaneNumbersRange | python/tk_houdini_mantranode/handler.py:743-745 | A number is a plane number exactly when it lies between 1 and `vm_numaux`. |
| Metadata.WriteAovsStep | python/tk_houdini_mantranode/handler.py:170-174 | Recording one more plane name writes it under the next plane's key. |
| Metadata.WriteAovsLookup | python/tk_houdini_mantranode/handler.py:170-174 | After the plane names are recorded, `tk_aov_name{n}` holds the name of plane n, and every other key is as it was. |
| Metadata.ConversionRoundTrip | python/tk_houdini_mantranode/handler.py:165-174 | What one conversion writes, the other reads back. The recorded profile name is stored under `tk_profile_name` and found in the menu at the index it came from. Each plane name comes back under its own number. |
| Metadata.WriteAovParms | python/tk_houdini_mantranode/handler.py:237-242 | Writing the recorded plane names back keeps the set of parameter names. |
| Metadata.WriteAovParmsLookup | python/tk_houdini_mantranode/handler.py:237-242 | After the write, `sgtk__aov_name{n}` holds the name recorded for plane n, and every other parameter is as it was. |
| Metadata.IsNodeBeingCopied | python/tk_houdini_mantranode/handler.py:474-485 | A name counts as being copied exactly when it is `original0` followed by anything. So `original0_out` counts, and `out1` and `original1` do not. |
| Metadata.BeingCopiedNames | python/tk_houdini_mantranode/handler.py:474-485 | Examples of `IsNodeBeingCopied`: a name Houdini gave a node it is copying (`original0_…`) is recognised. A name not starting with `o` is not. |
| Metadata.ToolkitParmObjects | python/tk_houdini_mantranode/handler.py:158 | The exclusion list as written holds parameter objects, not names: an entry is in it exactly when it is the object of a node parameter whose name starts with `sgtk__`. |
| Metadata.AsWrittenExcludesNothing | python/tk_houdini_mantranode/handler.py:158-159 | The name comparison of line 642 against that list excludes no parameter. |
| Metadata.ExclusionCounterexample | python/tk_houdini_mantranode/handler.py:158-159 | Take a target with a `sgtk__` parameter of the source's name. The list as written overwrites it with the source's value; the intended exclusion keeps the target's own value. |
| Metadata.ToolkitParmsExcluded | python/tk_houdini_mantranode/handler.py:158-159 | The intended exclusion touches no `sgtk__` parameter of the target. For a target without `sgtk__` parameters, such as a plain `ifd` node, it copies the same values as the list as written. |
| Handler.RevertStep | python/tk_houdini_mantranode/handler.py:530-533 | Reverting one more listed parameter reverts just that one in the running result. |
| Handler.FirstRunStep | python/tk_houdini_mantranode/handler.py:580-587 | On a flag not reading `True`, the call answers the flag's previous value and sets the flag to `True`. On a flag reading `True`, it answers `False` and leaves the flag alone. |
| Handler.FirstRunSettles | python/tk_houdini_mantranode/handler.py:580-587 | After any call the flag reads `True`. A call answers `False` exactly when the flag already read `True`, and then changes nothing; otherwise it answers the flag's previous value. So every call after the first answers `False`. |
| Handler.PathText | python/tk_houdini_mantranode/handler.py:825-834 | The text written is the computed path, or `ERROR: ` followed by the error's message. That message is non-empty for the handler's own errors. |
| Handler.PlaneNames | python/tk_houdini_mantranode/handler.py:169-174 | One name per plane number. |
| Handler.PlaneNamesValues | python/tk_houdini_mantranode/handler.py:171-174 | Name k - 1 is the evaluated `sgtk__aov_name{k}` of the node. |
| Handler.SelectProfile | python/tk_houdini_mantranode/handler.py:224-229 | The "Configuration" parameter is set to the index of the recorded label. A label the menu lacks leaves the node unchanged. |
| Handler.Instances | python/tk_houdini_mantranode/handler.py:204 | `instances()` lists exactly the nodes of the type, each once, in creation order. Line 69 uses it the same way. |
| Handler.DescendsStep | python/tk_houdini_mantranode/handler.py:146-186 | Replacing one more node by a node of the new type keeps every surviving old node equal to its old self except for its inputs. |
| Handler.ProgressReplace | python/tk_houdini_mantranode/handler.py:147-186 | After a node's replacement, the batch has converted one more node and lost no other. |
| Handler.ProgressStop | python/tk_houdini_mantranode/handler.py:177-178 | A conversion that fails after creating its node has lost no node it did not convert. |
| Handler.FittedAll | python/tk_houdini_mantranode/handler.py:178 | When every converted node's input copy succeeded, each such node's connections fit the new node's connectors. |
| Handler.ConfigIsNoPlane | python/tk_houdini_mantranode/handler.py:224-242 | `sgtk__config` is no plane-name parameter, so the menu selection (lines 224-229) and the plane loop (lines 237-242) set different parameters. |
| Handler.NoSgLeft | python/tk_houdini_mantranode/handler.py:146-186 | A completed sg-to-Mantra conversion leaves no `sgtk_mantra` node. |
| Handler.NoRecordedLeft | python/tk_houdini_mantranode/handler.py:204-254 | A completed Mantra-to-sg conversion leaves no `ifd` node with a recorded profile name. |
| Handler.MantraNodeHandler.constructor | python/tk_houdini_mantranode/handler.py:25-41 | The loop leaves the registry's names and profiles as the first-wins, order-keeping registry defines them. That registry has no duplicate names. |
| Handler.MantraNodeHandler.NodeProfileName | python/tk_houdini_mantranode/handler.py:85-95 | The menu label the "Configuration" index selects is the profile name at that index. |
| Handler.MantraNodeHandler.ResetParms | python/tk_houdini_mantranode/handler.py:520-533 | Each listed parameter is reverted, or the six output-format parameters when no list is given. Nothing else changes. |
| Handler.MantraNodeHandler.SetProfile | python/tk_houdini_mantranode/handler.py:487-556 | Every setting of the profile must name a parameter of the node; `setParms` (line 556) raises otherwise, so this is a precondition. Parameters: optionally reverted, then the profile's settings applied. Colour: the profile's tile colour when it has one; otherwise grey (0.8, 0.8, 0.8) when resetting, and unchanged when not. Nothing else changes. |
| Handler.MantraNodeHandler.IsFirstRun | python/tk_houdini_mantranode/handler.py:580-587 | It returns the flag's answer and leaves the flag as the first-run rule says. Nothing else changes. |
| Handler.MantraNodeHandler.WriteLocked | python/tk_houdini_mantranode/handler.py:833-837 | Unlock, set, lock: the parameter holds the text and ends up locked. |
| Handler.MantraNodeHandler.ComputeAndSet | python/tk_houdini_mantranode/handler.py:823-837 | A `TankError` is written as its `ERROR:` text. Any other error escapes with the node untouched. Otherwise the path is written. The parameter ends up locked. |
| Handler.MantraNodeHandler.MantraStaged | python/tk_houdini_mantranode/handler.py:150-174 | The staged `ifd` node differs from the prototype only in its parameter values and its user data. So it keeps the type, name, position, colour, input slots and parameter names. |
| Handler.MantraNodeHandler.MantraStagedAsIntended | python/tk_houdini_mantranode/handler.py:158-159 | On a prototype without `sgtk__` parameters, such as the stock `ifd` node, the copy as written equals the intended copy that skips every `sgtk__` parameter. |
| Handler.MantraNodeHandler.SgStaged | python/tk_houdini_mantranode/handler.py:218-242 | The staged Toolkit node differs from the prototype only in its parameter values. So it keeps the type, name, position, colour, input slots, user data and parameter names. |
| Handler.MantraNodeHandler.MantraStagedProfile | python/tk_houdini_mantranode/handler.py:165-166 | The plain node records the Toolkit node's profile name. The conversion back finds it at the menu index it was read from. |
| Handler.MantraNodeHandler.MantraStagedNumAux | python/tk_houdini_mantranode/handler.py:158-159 | The plain node gets the Toolkit node's plane count. |
| Handler.MantraNodeHandler.MantraStagedPlanes | python/tk_houdini_mantranode/handler.py:168-174 | The plain node records each plane's name under that plane's number. |
| Handler.MantraNodeHandler.SgStagedConfig | python/tk_houdini_mantranode/handler.py:223-233 | The new Toolkit node selects the recorded menu index. When the menu lacks the name, it keeps the prototype's selection. |
| Handler.MantraNodeHandler.SgStagedPlanes | python/tk_houdini_mantranode/handler.py:236-242 | The new Toolkit node's plane-name parameters hold the recorded names. |
| Handler.MantraNodeHandler.ConversionsRoundTrip | python/tk_houdini_mantranode/handler.py:133-254 | Converting a Toolkit node to a plain node and back selects the same profile again and restores every plane name. |
| Handler.MantraNodeHandler.RecordPlanes | python/tk_houdini_mantranode/handler.py:168-174 | The plane loop records every plane name on the new node and changes nothing else. |
| Handler.MantraNodeHandler.ConvertToMantra | python/tk_houdini_mantranode/handler.py:150-186 | Before the rewiring, the new `ifd` node holds the values copied past the exclusion list as written, the profile and the plane names. When the input copy fails, the new node is left in the network with the error. Otherwise the new node replaces the Toolkit node. |
| Handler.MantraNodeHandler.RestorePlanes | python/tk_houdini_mantranode/handler.py:236-242 | The plane loop writes every recorded name back and changes nothing else. |
| Handler.MantraNodeHandler.StageSg | python/tk_houdini_mantranode/handler.py:218-242 | The new Toolkit node gets the profile selection, the copied values and the recorded plane names. |
| Handler.MantraNodeHandler.ConvertToSg | python/tk_houdini_mantranode/handler.py:205-254 | A node without a non-empty `tk_profile_name` is skipped, with nothing changed. Otherwise the new Toolkit node is staged and then replaces the node, or the input-copy error is returned. |
| Handler.MantraNodeHandler.ConvertOneToMantra | python/tk_houdini_mantranode/handler.py:150-186 | One conversion to a plain node, as the batch loop sees it. It always creates a node, fails exactly when the input copy fails, and otherwise the new node replaces the old one. |
| Handler.MantraNodeHandler.MantraTurn | python/tk_houdini_mantranode/handler.py:147-186 | One loop turn ends as that node's input copy does. On success one more node is converted and no other node is lost. |
| Handler.MantraNodeHandler.ConvertSgToMantraNodes | python/tk_houdini_mantranode/handler.py:133-186 | The run succeeds exactly when every Toolkit node's connections fit the `ifd` node's input connectors. There must be some connectors only when a Toolkit node exists. A completed run leaves no Toolkit node. Non-Toolkit nodes all survive. Old nodes change only in their inputs, and every new node is an `ifd` node. |
| Handler.MantraNodeHandler.ConvertOneToSg | python/tk_houdini_mantranode/handler.py:205-254 | One conversion to a Toolkit node, as the batch loop sees it. It skips exactly the unrecorded nodes, changing nothing. Otherwise it fails exactly when the input copy fails, and on success the new node replaces the old one. |
| Handler.MantraNodeHandler.SgTurn | python/tk_houdini_mantranode/handler.py:205-254 | One loop turn skips an unrecorded node. Otherwise it ends as that node's input copy does. |
| Handler.MantraNodeHandler.ConvertMantraToSgNodes | python/tk_houdini_mantranode/handler.py:188-254 | The run succeeds exactly when every recorded `ifd` node's connections fit the Toolkit node's input connectors. There must be some connectors only when a recorded `ifd` node exists. A completed run leaves no recorded `ifd` node. Every other node survives. Old nodes change only in their inputs, and every new node is a Toolkit node. |

## Left out

- `app.py` is a thin wrapper that delegates to the handler, so it is not part
  of this model.
- The node-type callbacks (`on_*`, handler.py:259-470) are not modelled: the
  Qt clipboard, the file-browser shell-out, and the menu and parameter
  callbacks. `on_create_configuration_menu` is only `ConfigurationMenuLabels`.
- `__update_render_path` (handler.py:811-854) is not modelled: its loop over
  the three output parameters and the plane paths. So are `__update_parms`,
  `__set_initial_output_picture`, `__get_node_profile_settings`,
  `get_files_on_disk`, `reset_render_path`, the hip-path user-data helpers,
  and `__set_default_node_name`. `compute_and_set` for one parameter is
  modelled.
- Logging and dialogs are not modelled: the duplicate-profile warning and the
  `TankError` warning.
- The template engine and the context's fields are uninterpreted functions in
  `Paths.External`: `validate`, `get_fields`, `apply_fields`,
  `as_template_fields` and the template lookup. So is the camera lookup.
  `apply_fields` and `as_template_fields` may fail with any message, but
  when they fail is not modelled (for example, a required `aov_name` key
  missing because the plane name is empty). `validate`, `get_fields` and the
  template lookup are assumed never to raise.
- Paths.GatherRenderResolution: the fractional resolution override
  `int(float(size) * float(scale))` is floating point. It is the
  uninterpreted function `External.scale`, so only the camera and `specific`
  branches are stated exactly.
- Houdini semantics are not modelled: `set(v)` stores `v` as both the raw
  and the evaluated value, with no expression expansion. Defaults come in as
  a function parameter of `ResetParms`. `setName` is assumed to keep the name
  exactly, without unique-name suffixes.
- Setting a locked parameter succeeds in the model. Houdini raises on it,
  which is why `compute_and_set` (handler.py:833-837) unlocks around its
  `set`. So `WriteLocked`'s contract would also hold without the unlock step.
- ParmCopy.CopyParmsRules: copying keyframes onto a parameter leaves its
  stored `raw` and `evaluated` values as they were. Houdini would evaluate
  the new animation there; the model does not evaluate animation.
- Connections.CopyInputsToNode: the contract for the failure case (the target
  holds the copied prefix, `Overlay`) relies on `inputConnections()` listing
  connections in input-index order. The host does not document that order;
  the model assumes it.
- `createNode` gives a copy of a prototype node. Creation callbacks do not
  run, and the prototype already holds the plane-name parameters that setting
  `vm_numaux` would create as multiparm instances.
- Handler.Instances: the order of `instances()` is not documented; the model
  assumes creation order.
- Handler.MantraNodeHandler.SgStaged: `user_dict.get('tk_aov_name{n}')` can
  return `None`, which `set` would reject. The model requires the key instead
  (`SgRestorable`).
- Handler.MantraNodeHandler.ConvertSgToMantraNodes: the batch contract states
  when the run fails, which nodes disappear and survive, that old nodes change only in their
  inputs, and which new nodes appear. It does not state the exact final
  network; that is `ConvertToMantra`'s contract, one node at a time.
- Handler.MantraNodeHandler.ConvertMantraToSgNodes: weaker in the same way,
  with `ConvertToSg` as the per-node contract.
- Handler.MantraNodeHandler.NodeProfileName is a static method in the source
  that reads the node's own menu. The model reads the menu the handler's
  registry builds, which is the menu the node shows.

Three behaviours of the code differ from what its purpose suggests. The model
follows the code:
- A failed input copy aborts the whole conversion: the exception leaves the
  loop, earlier nodes stay converted, and the new node of the failing one
  stays in the network. The remaining nodes are not processed.
- A recorded profile name missing from the menu is passed over silently; no
  warning is logged.
- A work file whose fields lack `version` raises `KeyError`, not a
  `TankError`, so `compute_and_set` does not catch it.

## Findings

| source | as written | input that shows it | evidently intended | confidence | as-written member | corrected member |
|---|---|---|---|---|---|---|
| python/tk_houdini_mantranode/handler.py:158-159 | The exclusion list holds `hou.Parm` objects, and `__copy_parm_values` (line 642) tests `p.name() not in exclude`. A name never equals a parameter object, so no parameter is excluded. | A Toolkit node with a parameter `sgtk__x` = `a`, converted onto a target that also has `sgtk__x` = `b`: the target ends up with `a`. | Exclude every `sgtk__` parameter by name: the target keeps `b`. | not executed; medium: harmless for the stock `ifd` type, which has no `sgtk__` parameters (`ToolkitParmsExcluded`, `MantraStagedAsIntended`). The conversion itself copies as written | Metadata.AsWrittenExcludesNothing, Metadata.ExclusionCounterexample | Metadata.ToolkitParms, Metadata.ToolkitParmsExcluded |
