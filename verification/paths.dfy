/** Render-path computation: the fields a node contributes to its output
    templates, the render resolution, and the path the template engine
    produces from them. The template engine and the host's camera lookup are
    outside the model and enter as functions. */
module Paths {
  import opened Results
  import opened Network
  import opened Text
  import opened Profiles

  /** A value of a template field. */
  datatype FieldValue = FStr(s: string) | FInt(i: int) | FNone

  /** A template: its name and the keys it has fields for. */
  datatype Template = Template(name: string, keys: set<string>)

  datatype Resolution = Resolution(width: int, height: int)

  /** The code the handler calls but does not own: the app's template lookup,
      the template engine's `validate`, `get_fields` and `apply_fields`, the
      context's `as_template_fields`, the host's camera lookup (`hou.node`
      followed by reading `resx` and `resy`), and the floating-point scaling
      `int(float(size) * float(scale))`. The context and the template engine
      may raise a `TankError` (a required key without a value, say); that is
      an `Err` carrying its message. */
  datatype External = External(
    templateByName: Option<string> -> Option<Template>,
    validate: (Template, string) -> bool,
    getFields: (Template, string) -> map<string, FieldValue>,
    applyFields: (Template, map<string, FieldValue>) -> Result<string, string>,
    contextFields: Template -> Result<map<string, FieldValue>, string>,
    findCamera: string -> Option<Resolution>,
    scale: (int, Value) -> int)

  /** Why a path could not be computed. All but `MissingVersion` are raised as
      `TankError`; `MissingVersion` is the `KeyError` of a work file whose
      fields have no version, and `TemplateFailed` is a `TankError` the
      context or the template engine raised, with its message. */
  datatype PathError =
    | NotAWorkFile
    | NoTemplate(templateName: Option<string>)
    | CameraNotFound(cameraPath: string)
    | MissingVersion
    | TemplateFailed(msg: string)

  predicate IsTankError(e: PathError)
  {
    !e.MissingVersion?
  }

  /** The text of a `TankError`: the handler's own texts are never empty, and
      one from the template engine is passed on as it is. */
  function Message(e: PathError): (m: string)
    requires IsTankError(e)
    ensures !e.TemplateFailed? ==> |m| > 0
    ensures e.TemplateFailed? ==> m == e.msg
  {
    match e
    case NotAWorkFile => "This Houdini file is not a Shotgun Toolkit work file!"
    case NoTemplate(name) =>
      "No Template provided for \"" + (if name.Some? then name.value else "None") + "\""
    case CameraNotFound(path) => "Camera " + path + " not found."
    case TemplateFailed(msg) => msg
  }

  /** `__get_hipfile_fields`: the fields of the scene file's path, read with
      the work-file template when there is one and it recognises the path. */
  function HipfileFields(ext: External, scriptTemplate: Option<Template>, hipPath: string): (r: map<string, FieldValue>)
    ensures r != map[] ==> scriptTemplate.Some? && ext.validate(scriptTemplate.value, hipPath)
  {
    if scriptTemplate.Some? && ext.validate(scriptTemplate.value, hipPath)
    then ext.getFields(scriptTemplate.value, hipPath) else map[]
  }

  /** The node parameters the resolution is read from, as the sgtk_mantra node
      type defines them. */
  predicate ResolutionParms(n: Node)
  {
    && "camera" in n.parms && n.parms["camera"].evaluated.StrV?
    && "override_camerares" in n.parms
    && "res_fraction" in n.parms
    && "res_overridex" in n.parms && n.parms["res_overridex"].evaluated.IntV?
    && "res_overridey" in n.parms && n.parms["res_overridey"].evaluated.IntV?
  }

  /** `__gather_render_resolution`: the camera's resolution, replaced by the
      node's own width and height under a "specific" override or scaled under
      a fractional one; a camera path that names no camera is an error. */
  function GatherRenderResolution(ext: External, n: Node): (r: Result<Resolution, PathError>)
    requires ResolutionParms(n)
    ensures var cam := n.parms["camera"].evaluated.s;
      && (r.Err? <==> ext.findCamera(cam).None?)
      && (r.Err? ==> r.error == CameraNotFound(cam))
      && (r.Ok? && !Truthy(n.parms["override_camerares"].evaluated) ==> r.value == ext.findCamera(cam).value)
      && (r.Ok? && Truthy(n.parms["override_camerares"].evaluated)
            && n.parms["res_fraction"].evaluated == StrV("specific") ==>
          r.value == Resolution(n.parms["res_overridex"].evaluated.i, n.parms["res_overridey"].evaluated.i))
  {
    var cam := n.parms["camera"].evaluated.s;
    match ext.findCamera(cam)
    case None => Err(CameraNotFound(cam))
    case Some(res) =>
      if !Truthy(n.parms["override_camerares"].evaluated) then Ok(res)
      else
        var fraction := n.parms["res_fraction"].evaluated;
        if fraction == StrV("specific")
        then Ok(Resolution(n.parms["res_overridex"].evaluated.i, n.parms["res_overridey"].evaluated.i))
        else Ok(Resolution(ext.scale(res.width, fraction), ext.scale(res.height, fraction)))
  }

  /** The template needs the render resolution. */
  predicate NeedsResolution(t: Template)
  {
    "width" in t.keys || "height" in t.keys
  }

  /** The fields `__compute_path` assembles for a node before the context's
      fields are merged in. */
  function PathFields(work: map<string, FieldValue>, nodeName: string, aovName: Option<string>,
                      res: Option<Resolution>): (r: map<string, FieldValue>)
    requires "version" in work
    ensures {"name", "version", "renderpass", "SEQ"} <= r.Keys
    ensures r["name"] == (if "name" in work then work["name"] else FNone)
    ensures r["version"] == work["version"]
    ensures r["renderpass"] == FStr(nodeName)
    ensures r["SEQ"] == FStr("FORMAT: $F")
    ensures "aov_name" in r <==> aovName.Some? && aovName.value != ""
    ensures "aov_name" in r ==> r["aov_name"] == FStr(aovName.value)
    ensures ("width" in r <==> res.Some?) && ("height" in r <==> res.Some?)
    ensures res.Some? ==> r["width"] == FInt(res.value.width) && r["height"] == FInt(res.value.height)
    ensures r.Keys <= {"name", "version", "renderpass", "SEQ", "aov_name", "width", "height"}
  {
    var base := map["name" := if "name" in work then work["name"] else FNone,
                    "version" := work["version"],
                    "renderpass" := FStr(nodeName),
                    "SEQ" := FStr("FORMAT: $F")];
    var withAov := if aovName.Some? && aovName.value != "" then base["aov_name" := FStr(aovName.value)] else base;
    if res.Some? then withAov["width" := FInt(res.value.width)]["height" := FInt(res.value.height)] else withAov
  }

  /** The name of the template a profile gives for `alias`, if any
      (`settings.get(template_alias)`). */
  function TemplateName(profile: Profile, alias: string): Option<string>
  {
    if alias in profile.templates then Some(profile.templates[alias]) else None
  }

  /** `fields.update(context.as_template_fields(template))` followed by
      `template.apply_fields(fields)`: either call may raise. */
  function Rendered(ext: External, t: Template, fields: map<string, FieldValue>): Result<string, string>
  {
    match ext.contextFields(t)
    case Err(msg) => Err(msg)
    case Ok(context) => ext.applyFields(t, fields + context)
  }

  /** `__compute_path(node, settings, template_alias, aov_name)`: the path the
      profile's template for `alias` gives for node `n` in the current scene
      file, with backslashes turned into forward slashes. The checks happen in
      this order: the scene file must be a work file, the template must exist,
      the work file's fields must carry a version, a template that needs
      the resolution must find the node's camera, and the context and the
      template engine must not raise. */
  function ComputePath(ext: External, scriptTemplate: Option<Template>, hipPath: string,
                       n: Node, profile: Profile, alias: string, aovName: Option<string>): (r: Result<string, PathError>)
    requires var t := ext.templateByName(TemplateName(profile, alias));
      t.Some? && NeedsResolution(t.value) ==> ResolutionParms(n)
    ensures var work := HipfileFields(ext, scriptTemplate, hipPath);
      var t := ext.templateByName(TemplateName(profile, alias));
      && (r == Err(NotAWorkFile) <==> work == map[])
      && (r == Err(NoTemplate(TemplateName(profile, alias))) <==> work != map[] && t.None?)
      && (r == Err(MissingVersion) <==> work != map[] && t.Some? && "version" !in work)
      && (r.Err? && r.error.CameraNotFound? <==>
            work != map[] && t.Some? && "version" in work && NeedsResolution(t.value)
            && GatherRenderResolution(ext, n).Err?)
      && (r.Err? && r.error.TemplateFailed? <==>
            work != map[] && t.Some? && "version" in work
            && (NeedsResolution(t.value) ==> GatherRenderResolution(ext, n).Ok?)
            && var res := if NeedsResolution(t.value) then Some(GatherRenderResolution(ext, n).value) else None;
               Rendered(ext, t.value, PathFields(work, n.name, aovName, res)).Err?)
      && (r.Err? && r.error.TemplateFailed? ==>
            && t.Some? && "version" in work
            && var res := if NeedsResolution(t.value) then Some(GatherRenderResolution(ext, n).value) else None;
               r.error.msg == Rendered(ext, t.value, PathFields(work, n.name, aovName, res)).error)
      && (r.Ok? ==> '\\' !in r.value)
      && (r.Ok? ==>
            && t.Some? && "version" in work
            && var res := if NeedsResolution(t.value) then Some(GatherRenderResolution(ext, n).value) else None;
               r.value == NormaliseSlashes(Rendered(ext, t.value, PathFields(work, n.name, aovName, res)).value))
  {
    var work := HipfileFields(ext, scriptTemplate, hipPath);
    if work == map[] then Err(NotAWorkFile)
    else
      var name := TemplateName(profile, alias);
      match ext.templateByName(name)
      case None => Err(NoTemplate(name))
      case Some(t) =>
        if "version" !in work then Err(MissingVersion)
        else
          var res :=
            if NeedsResolution(t) then
              match GatherRenderResolution(ext, n)
              case Err(e) => Err(e)
              case Ok(wh) => Ok(Some(wh))
            else Ok(None);
          match res
          case Err(e) => Err(e)
          case Ok(wh) =>
            match Rendered(ext, t, PathFields(work, n.name, aovName, wh))
            case Err(msg) => Err(TemplateFailed(msg))
            case Ok(path) => Ok(NormaliseSlashes(path))
  }
}
