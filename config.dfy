/** What the service and scheduled-task configuration builders share: the
    template renderer they are given, the layering of configuration and
    template variables, the checks of single parameters, the lookup of a
    task-definition template and the rewriting of every container's
    environment. */
module Config {
  import opened Base
  import opened Text
  import opened Json
  import opened Py

  /** The collaborators of a builder, uninterpreted: `render.render_template`
      with the variables (and the `is_task_definition_config_env` flag the
      caller chose), `json.loads` (an `Err` is its JSONDecodeError),
      `json.dumps`, and Python's text for a list or dict. */
  datatype Renderer = Renderer(
    render: (string, seq<Field>) -> Result<string>,
    loads: string -> Result<Json>,
    dumps: Json -> string,
    repr: Json -> string)

  /** `{"name": name, "value": value}`. */
  function Entry(name: string, value: string): Json
  {
    JObj([Field("name", JStr(name)), Field("value", JStr(value))])
  }

  // ---------------------------------------------------------------------------
  // __get_service_variables

  /** The configuration of one service or task, and the variables its
      templates are rendered with. */
  datatype Configured = Configured(config: seq<Field>, variables: seq<Field>)

  /** A layer that takes part: present and truthy. */
  predicate Takes(v: Option<Json>)
  {
    v.Some? && Truthy(v.value)
  }

  /** `d.update(v)` for a layer that must be a dict. */
  function UpdateWith(d: seq<Field>, v: Json): Result<seq<Field>>
  {
    if v.JObj? then Ok(Update(d, v.fields)) else Err(TypeError("update"))
  }

  /** The base configuration and its `vars` (lines before the environment
      configuration is consulted). */
  function BaseVariables(name: string, base: Json): Result<Configured>
  {
    var variables :- UpdateWith([Field("item", JStr(name))], base);
    var config :- UpdateWith([], base);
    var baseVars := Get(base.fields, "vars");
    var variables :- if Takes(baseVars) then UpdateWith(variables, baseVars.value) else Ok(variables);
    Ok(Configured(config, variables))
  }

  /** The environment configuration's entry for this name, when it has one
      that takes part. */
  function EntryOf(envConfig: Json, section: string, name: string): (r: Result<Option<Json>>)
    requires envConfig.JObj?
    ensures r.Ok? && r.value.Some? ==> Takes(r.value)
  {
    var s := Get(envConfig.fields, section);
    if !Takes(s) then Ok(None)
    else if !s.value.JObj? then Err(AttributeError("get"))
    else
      var entry := Get(s.value.fields, name);
      if Takes(entry) then Ok(entry) else Ok(None)
  }

  /** `__get_service_variables` (and the same `_get_service_variables` of
      the older `Service`): the base configuration, then the section's entry
      for this name in the environment configuration, override one another
      in that order; the variables are `item`, the base, its `vars`, the
      environment configuration, the environment's entry and its `vars`. */
  function Variables(section: string, name: string, base: Json, envConfig: Json): Result<Configured>
  {
    var c :- BaseVariables(name, base);
    var variables :- UpdateWith(c.variables, envConfig);
    var entry :- EntryOf(envConfig, section, name);
    if entry.None? then Ok(Configured(c.config, variables))
    else
      var variables :- UpdateWith(variables, entry.value);
      var config :- UpdateWith(c.config, entry.value);
      var entryVars := Get(entry.value.fields, "vars");
      var variables :- if Takes(entryVars) then UpdateWith(variables, entryVars.value) else Ok(variables);
      Ok(Configured(config, variables))
  }

  /** A layer given as a present dict, or none. */
  function LayerOf(v: Option<Json>): seq<seq<Field>>
  {
    if Takes(v) && v.value.JObj? then [v.value.fields] else []
  }

  function BaseLayers(name: string, base: Json): seq<seq<Field>>
    requires base.JObj?
  {
    [[Field("item", JStr(name))], base.fields] + LayerOf(Get(base.fields, "vars"))
  }

  /** The layers `Variables` applies, earliest first. */
  function VariableLayers(section: string, name: string, base: Json, envConfig: Json): seq<seq<Field>>
    requires base.JObj? && envConfig.JObj?
  {
    var entry := EntryOf(envConfig, section, name);
    var e := if entry.Ok? then entry.value else None;
    BaseLayers(name, base) + [envConfig.fields] + LayerOf(e)
      + (if e.Some? && e.value.JObj? then LayerOf(Get(e.value.fields, "vars")) else [])
  }

  /** The value the latest layer holding k gives it. */
  function Layered(layers: seq<seq<Field>>, k: string): Option<Json>
  {
    if layers == [] then None
    else if k in KeySet(layers[|layers| - 1]) then Get(layers[|layers| - 1], k)
    else Layered(layers[..|layers| - 1], k)
  }

  lemma LayeredAppend(layers: seq<seq<Field>>, l: seq<Field>, k: string)
    ensures Layered(layers + [l], k) == if k in KeySet(l) then Get(l, k) else Layered(layers, k)
  {
    assert (layers + [l])[..|layers|] == layers;
  }

  lemma LayeredPair(a: seq<Field>, b: seq<Field>, k: string)
    ensures Layered([a, b], k) == if k in KeySet(b) then Get(b, k) else Get(a, k)
  {
    LayeredAppend([a], b, k);
    LayeredAppend([], a, k);
    assert [a, b] == [a] + [b];
  }

  /** Updating with one more layer: the new layer wins where it has the key. */
  lemma UpdateLayer(d: seq<Field>, layers: seq<seq<Field>>, l: seq<Field>)
    requires UniqueKeys(l)
    requires forall k :: Get(d, k) == Layered(layers, k)
    ensures forall k :: Get(Update(d, l), k) == Layered(layers + [l], k)
  {
    forall k ensures Get(Update(d, l), k) == Layered(layers + [l], k) {
      LayeredAppend(layers, l, k);
    }
  }

  lemma BaseVariablesLayered(name: string, base: Json)
    requires WellFormed(base) && BaseVariables(name, base).Ok?
    ensures forall k :: Get(BaseVariables(name, base).value.variables, k) == Layered(BaseLayers(name, base), k)
  {
    var item := [Field("item", JStr(name))];
    var v := Update(item, base.fields);
    forall k ensures Get(v, k) == Layered([item, base.fields], k) { LayeredPair(item, base.fields, k); }
    var baseVars := Get(base.fields, "vars");
    if Takes(baseVars) {
      WellFormedGet(base, "vars");
      UpdateLayer(v, [item, base.fields], baseVars.value.fields);
    } else {
      assert BaseLayers(name, base) == [item, base.fields];
    }
  }

  lemma EntryOfWellFormed(envConfig: Json, section: string, name: string)
    requires WellFormed(envConfig) && envConfig.JObj? && EntryOf(envConfig, section, name).Ok?
    ensures var e := EntryOf(envConfig, section, name).value; e.Some? ==> WellFormed(e.value)
  {
    var s := Get(envConfig.fields, section);
    if Takes(s) && s.value.JObj? {
      WellFormedGet(envConfig, section);
      if Takes(Get(s.value.fields, name)) { WellFormedGet(s.value, name); }
    }
  }

  /** Later layers win: every variable has the value of the last layer that
      defines it. */
  lemma VariablesAreLayered(section: string, name: string, base: Json, envConfig: Json)
    requires WellFormed(base) && WellFormed(envConfig)
    requires Variables(section, name, base, envConfig).Ok?
    ensures var c := Variables(section, name, base, envConfig).value;
      forall k :: Get(c.variables, k) == Layered(VariableLayers(section, name, base, envConfig), k)
  {
    BaseVariablesLayered(name, base);
    var c := BaseVariables(name, base).value;
    UpdateLayer(c.variables, BaseLayers(name, base), envConfig.fields);
    var layers := BaseLayers(name, base) + [envConfig.fields];
    var v := Update(c.variables, envConfig.fields);
    var e := EntryOf(envConfig, section, name).value;
    EntryOfWellFormed(envConfig, section, name);
    if e.Some? {
      UpdateLayer(v, layers, e.value.fields);
      var v2 := Update(v, e.value.fields);
      var layers2 := layers + [e.value.fields];
      var entryVars := Get(e.value.fields, "vars");
      if Takes(entryVars) {
        WellFormedGet(e.value, "vars");
        UpdateLayer(v2, layers2, entryVars.value.fields);
        assert VariableLayers(section, name, base, envConfig) == layers2 + [entryVars.value.fields];
      } else {
        assert VariableLayers(section, name, base, envConfig) == layers2;
      }
    } else {
      assert VariableLayers(section, name, base, envConfig) == layers;
    }
  }

  /** The configuration is the base, overridden key by key by the
      environment's entry for this name. */
  lemma ConfigIsOverridden(section: string, name: string, base: Json, envConfig: Json)
    requires WellFormed(base) && WellFormed(envConfig)
    requires Variables(section, name, base, envConfig).Ok?
    ensures var c := Variables(section, name, base, envConfig).value;
      var e := EntryOf(envConfig, section, name).value;
      forall k :: Get(c.config, k) ==
        if e.Some? && k in KeySet(e.value.fields) then Get(e.value.fields, k) else Get(base.fields, k)
  {
    EntryOfWellFormed(envConfig, section, name);
  }

  /** A value held by a well-formed dict is well-formed. */
  lemma WellFormedGet(j: Json, k: string)
    requires WellFormed(j) && j.JObj? && Get(j.fields, k).Some?
    ensures WellFormed(Get(j.fields, k).value)
  {
    var i := KeyIndex(j.fields, k);
    GetOfUnique(j.fields, i);
  }

  // ---------------------------------------------------------------------------
  // Parameters

  /** `config.get(key)`, with `None` for a YAML null. */
  function Param(config: seq<Field>, key: string): Option<Json>
  {
    var v := Get(config, key);
    if v.Some? && v.value != JNull then v else None
  }

  /** `render.render_template(str(v), variables, ...)`. */
  function RenderParam(r: Renderer, v: Json, variables: seq<Field>): Result<string>
  {
    r.render(Str(v, r.repr), variables)
  }

  /** An optional parameter: rendered when set. */
  function OptionalParam(r: Renderer, config: seq<Field>, key: string, variables: seq<Field>): Result<Option<string>>
  {
    match Param(config, key)
    case None => Ok(None)
    case Some(v) => var s :- RenderParam(r, v, variables); Ok(Some(s))
  }

  /** A required parameter: `ParameterNotFoundException` when unset. */
  function RequiredParam(r: Renderer, config: seq<Field>, key: string, variables: seq<Field>): (res: Result<string>)
    ensures Param(config, key).None? ==> res == Err(ParameterNotFound(key))
  {
    match Param(config, key)
    case None => Err(ParameterNotFound(key))
    case Some(v) => RenderParam(r, v, variables)
  }

  /** A rendered value that must pass `int()` (`ParameterInvalidException`
      otherwise); the text is kept as rendered. */
  function CheckInt(s: string, key: string): (res: Result<string>)
    ensures res.Ok? <==> ParseInt(s).Some?
    ensures res.Ok? ==> res.value == s
    ensures res.Err? ==> res.error == ParameterInvalid(key)
  {
    if ParseInt(s).Some? then Ok(s) else Err(ParameterInvalid(key))
  }

  /** An optional parameter that must pass `bool(strtobool(...))`. */
  function BoolParam(r: Renderer, config: seq<Field>, key: string, variables: seq<Field>): (res: Result<Option<bool>>)
    ensures Param(config, key).None? ==> res == Ok(None)
    ensures res.Ok? && res.value.Some? ==> Param(config, key).Some?
  {
    match Param(config, key)
    case None => Ok(None)
    case Some(v) =>
      var s :- RenderParam(r, v, variables);
      match StrToBool(s)
      case None => Err(ParameterInvalid(key))
      case Some(b) => Ok(Some(b))
  }

  /** `render_template(json.dumps(v), ...)` parsed back with `json.loads`. */
  function RenderJson(r: Renderer, v: Json, variables: seq<Field>): Result<Json>
  {
    var s :- r.render(r.dumps(v), variables);
    r.loads(s)
  }

  function RenderJsonEach(r: Renderer, vs: seq<Json>, variables: seq<Field>): (res: Result<seq<Json>>)
    ensures res.Ok? ==> |res.value| == |vs|
    ensures res.Ok? ==> forall i :: 0 <= i < |vs| ==> RenderJson(r, vs[i], variables) == Ok(res.value[i])
  {
    if vs == [] then Ok([])
    else
      var h :- RenderJson(r, vs[0], variables);
      var t :- RenderJsonEach(r, vs[1..], variables);
      Ok([h] + t)
  }

  /** A list parameter (`placementStrategy`, `serviceRegistries`, ...): each
      element rendered and parsed back; `None` when unset. */
  function RenderedList(r: Renderer, config: seq<Field>, key: string, variables: seq<Field>): (res: Result<Json>)
    ensures Param(config, key).None? ==> res == Ok(JNull)
    ensures res.Ok? && Param(config, key).Some? ==> res.value.JList?
  {
    match Param(config, key)
    case None => Ok(JNull)
    case Some(v) =>
      var vs :- Iterate(v);
      var rendered :- RenderJsonEach(r, vs, variables);
      Ok(JList(rendered))
  }

  // ---------------------------------------------------------------------------
  // taskDefinitionTemplate

  /** `len(t) == 0` for the values that have a length. */
  function Empty(t: Json): Result<bool>
  {
    match t
    case JStr(s) => Ok(s == [])
    case JList(xs) => Ok(xs == [])
    case JObj(fs) => Ok(fs == [])
    case _ => Err(TypeError("len"))
  }

  /** The template text a service names: it must be a non-empty string of
      the `taskDefinitionTemplates` section. */
  function TemplateText(templates: Json, template: Json): (res: Result<string>)
    ensures res.Ok? ==> templates.JObj? && template.JStr? && Get(templates.fields, template.s) == Some(JStr(res.value))
    ensures res.Ok? ==> res.value != []
  {
    if !templates.JObj? then Err(AttributeError("get"))
    else
      var t := if template.JStr? then Get(templates.fields, template.s) else None;
      if t.None? || t.value == JNull then Err(TemplateError("taskDefinitionTemplate not found"))
      else
        var empty :- Empty(t.value);
        if empty then Err(TemplateError("taskDefinitionTemplate not found"))
        else if !t.value.JStr? then Err(TemplateError("taskDefinitionTemplate specified template value must be str"))
        else Ok(t.value.s)
  }

  /** The rendered and parsed task definition of a service or task. */
  function TaskDefinitionOf(r: Renderer, config: seq<Field>, templates: Json, variables: seq<Field>): (res: Result<Json>)
    ensures Param(config, "taskDefinitionTemplate").None? ==> res == Err(ParameterNotFound("taskDefinitionTemplate"))
  {
    match Param(config, "taskDefinitionTemplate")
    case None => Err(ParameterNotFound("taskDefinitionTemplate"))
    case Some(name) =>
      var text :- TemplateText(templates, name);
      var data :- r.render(text, variables);
      r.loads(data)
  }

  // ---------------------------------------------------------------------------
  // Container environments

  /** The template's own environment entries of one container. */
  function OwnEnvironment(c: Json): Result<seq<Json>>
  {
    if !c.JObj? then Err(AttributeError("get"))
    else match Get(c.fields, "environment")
      case None => Ok([])
      case Some(JNull) => Ok([])
      case Some(JList(xs)) => Ok(xs)
      case Some(_) => Err(TemplateError("taskDefinitionTemplate environment value must be list"))
  }

  function InjectEach(cs: seq<Json>, env: seq<Json>): (res: Result<seq<Json>>)
    ensures res.Ok? ==> |res.value| == |cs|
    ensures res.Ok? ==> forall i :: 0 <= i < |cs| ==>
      OwnEnvironment(cs[i]).Ok? && res.value[i] == JObj(Put(cs[i].fields, "environment", JList(env + OwnEnvironment(cs[i]).value)))
    ensures res.Err? <==> exists i :: 0 <= i < |cs| && OwnEnvironment(cs[i]).Err?
  {
    if cs == [] then Ok([])
    else
      var own := OwnEnvironment(cs[0]);
      var rest := InjectEach(cs[1..], env);
      if own.Err? then Err(own.error)
      else if rest.Err? then
        assert exists i :: 0 <= i < |cs| && OwnEnvironment(cs[i]).Err? by {
          var j :| 0 <= j < |cs[1..]| && OwnEnvironment(cs[1..][j]).Err?;
          assert cs[j + 1] == cs[1..][j];
        }
        Err(rest.error)
      else
        var ys := [JObj(Put(cs[0].fields, "environment", JList(env + own.value)))] + rest.value;
        assert forall i :: 1 <= i < |cs| ==> cs[i] == cs[1..][i - 1] && ys[i] == rest.value[i - 1];
        Ok(ys)
  }

  /** The loop that sets every container's environment to the injected list
      followed by the template's own entries. */
  function InjectEnvironment(td: Json, env: seq<Json>): (res: Result<Json>)
  {
    if !td.JObj? then Err(AttributeError("get"))
    else
      var cs := Get(td.fields, "containerDefinitions");
      if cs.None? then Err(TypeError("object is not iterable"))
      else match cs.value
        case JList(xs) =>
          var ys :- InjectEach(xs, env);
          Ok(JObj(Put(td.fields, "containerDefinitions", JList(ys))))
        case _ =>
          var keys :- Iterate(cs.value);
          if keys == [] then Ok(td) else Err(AttributeError("get"))
  }

  /** After the injection every container's environment is the injected
      list, then the template's own entries, and all else of the container
      and of the definition is as it was. */
  lemma InjectEnvironmentMeaning(td: Json, env: seq<Json>)
    requires InjectEnvironment(td, env).Ok?
    requires td.JObj? && Get(td.fields, "containerDefinitions").Some? && Get(td.fields, "containerDefinitions").value.JList?
    ensures var cs := Get(td.fields, "containerDefinitions").value.items;
      var out := InjectEnvironment(td, env).value;
      && out.JObj?
      && (forall k :: k != "containerDefinitions" ==> Get(out.fields, k) == Get(td.fields, k))
      && Get(out.fields, "containerDefinitions").Some?
      && var ys := Get(out.fields, "containerDefinitions").value;
         && ys.JList? && |ys.items| == |cs|
         && forall i :: 0 <= i < |cs| ==>
              && ys.items[i].JObj?
              && Get(ys.items[i].fields, "environment") == Some(JList(env + OwnEnvironment(cs[i]).value))
              && forall k :: k != "environment" ==> Get(ys.items[i].fields, k) == Get(cs[i].fields, k)
  {
  }

  /** `disabled`: a service or task rendered as disabled is dropped. */
  function Disabled(r: Renderer, config: seq<Field>, variables: seq<Field>): Result<bool>
  {
    var d :- BoolParam(r, config, "disabled", variables);
    Ok(d == Some(true))
  }
}
