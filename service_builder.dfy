/** `get_service_list_yaml`: the services section of the configuration
    becomes a list of `Service`s, each with a rendered task definition whose
    containers carry the service's settings in their environment. */
module ServiceBuilder {
  import opened Base
  import opened Text
  import opened Json
  import opened Py
  import opened Canon
  import opened Config
  import opened Services

  // ---------------------------------------------------------------------------
  // The docker environment

  /** `[{"name": name, "value": v}]` when there is a v, else nothing. */
  function OptEntry(name: string, v: Option<string>): seq<Json>
  {
    if v.Some? then [Entry(name, v.value)] else []
  }

  /** A flag that adds `"true"` to the environment only when set. */
  function FlagValue(b: Option<bool>): Option<string>
  {
    if b == Some(true) then Some("true") else None
  }

  /** An optional parameter that must pass `int()`; the rendered text is kept. */
  function IntParam(r: Renderer, config: seq<Field>, key: string, variables: seq<Field>): (res: Result<Option<string>>)
    ensures Param(config, key).None? ==> res == Ok(None)
    ensures res.Ok? && res.value.Some? ==> ParseInt(res.value.value).Some?
  {
    var s :- OptionalParam(r, config, key, variables);
    if s.None? then Ok(None)
    else
      var t :- CheckInt(s.value, key);
      Ok(Some(t))
  }

  /** A list parameter rendered element by element, and the `str()` of the
      value as configured, for the environment. */
  function ListParam(r: Renderer, config: seq<Field>, key: string, variables: seq<Field>): (res: Result<(Json, Option<string>)>)
    ensures res.Ok? ==> RenderedList(r, config, key, variables) == Ok(res.value.0)
    ensures res.Ok? ==> (res.value.1.Some? <==> Param(config, key).Some?)
  {
    var rendered :- RenderedList(r, config, key, variables);
    var p := Param(config, key);
    Ok((rendered, if p.Some? then Some(Str(p.value, r.repr)) else None))
  }

  /** The environment up to the desired count and the settings read after it. */
  datatype EnvPart = EnvPart(
    env: seq<Json>, cluster: string, desiredCount: string,
    placementStrategy: Json, placementConstraints: Json, primaryPlacement: bool)

  /** The checks of one service up to `desiredCount`, in the source's
      order: the environment's front, the cluster and the desired count. */
  function FrontOf(r: Renderer, name: string, config: seq<Field>, variables: seq<Field>, environment: string)
    : (res: Result<(seq<Json>, string, string)>)
    ensures BoolParam(r, config, "registrator", variables).Ok? && Param(config, "cluster").None? ==>
      res == Err(ParameterNotFound("cluster"))
    ensures Param(config, "cluster").None? || Param(config, "desiredCount").None? ==> res.Err?
    ensures res.Ok? ==>
      && RequiredParam(r, config, "cluster", variables) == Ok(res.value.1)
      && RequiredParam(r, config, "desiredCount", variables) == Ok(res.value.2)
      && ParseInt(res.value.2).Some?
      && res.value.0 != [] && res.value.0[0] == Entry("ENVIRONMENT", environment)
      && LastValue(res.value.0, "ENVIRONMENT") == Some(JStr(environment))
      && LastValue(res.value.0, "CLUSTER_NAME") == Some(JStr(res.value.1))
  {
    var registrator :- BoolParam(r, config, "registrator", variables);
    var cluster :- RequiredParam(r, config, "cluster", variables);
    var group :- OptionalParam(r, config, "serviceGroup", variables);
    var templateGroup :- OptionalParam(r, config, "templateGroup", variables);
    var desiredText :- RequiredParam(r, config, "desiredCount", variables);
    var desired :- CheckInt(desiredText, "desiredCount");
    Ok((EnvFront(environment, name, registrator == Some(true), cluster, group, templateGroup), cluster, desired))
  }

  /** The checks after `desiredCount`: the optional entries, the rendered
      placement lists and the primary-placement flag. */
  function BackOf(r: Renderer, config: seq<Field>, variables: seq<Field>): (res: Result<(seq<Json>, Json, Json, bool)>)
    ensures res.Ok? ==> Quiet(res.value.0)
  {
    var minimum :- IntParam(r, config, "minimumHealthyPercent", variables);
    var maximum :- IntParam(r, config, "maximumPercent", variables);
    var distinct :- BoolParam(r, config, "distinctInstance", variables);
    var strategy :- ListParam(r, config, "placementStrategy", variables);
    var constraints :- ListParam(r, config, "placementConstraints", variables);
    var primary :- BoolParam(r, config, "primaryPlacement", variables);
    Ok((EnvBack(minimum, maximum, distinct, strategy.1, constraints.1, primary),
      strategy.0, constraints.0, primary == Some(true)))
  }

  /** The parameter checks of one service and the environment they build:
      ENVIRONMENT first, and the required cluster and desired count as the
      entries read back under their names. */
  function EnvironmentPart(r: Renderer, name: string, config: seq<Field>, variables: seq<Field>, environment: string): (res: Result<EnvPart>)
    ensures BoolParam(r, config, "registrator", variables).Ok? && Param(config, "cluster").None? ==>
      res == Err(ParameterNotFound("cluster"))
    ensures Param(config, "cluster").None? || Param(config, "desiredCount").None? ==> res.Err?
    ensures res.Ok? ==>
      && RequiredParam(r, config, "cluster", variables) == Ok(res.value.cluster)
      && RequiredParam(r, config, "desiredCount", variables) == Ok(res.value.desiredCount)
      && ParseInt(res.value.desiredCount).Some?
      && res.value.env != [] && res.value.env[0] == Entry("ENVIRONMENT", environment)
      && LastValue(res.value.env, "ENVIRONMENT") == Some(JStr(environment))
      && LastValue(res.value.env, "CLUSTER_NAME") == Some(JStr(res.value.cluster))
      && LastValue(res.value.env, "DESIRED_COUNT") == Some(JStr(res.value.desiredCount))
  {
    var front :- FrontOf(r, name, config, variables, environment);
    var back :- BackOf(r, config, variables);
    Ok(EnvPart(EnvList(front.0, front.2, back.0), front.1, front.2, back.1, back.2, back.3))
  }

  /** ENVIRONMENT, the registrator's entries, CLUSTER_NAME and the groups. */
  function EnvFront(environment: string, name: string, registrator: bool, cluster: string,
                    group: Option<string>, templateGroup: Option<string>): (res: seq<Json>)
    ensures res != [] && res[0] == Entry("ENVIRONMENT", environment)
    ensures LastValue(res, "ENVIRONMENT") == Some(JStr(environment))
    ensures LastValue(res, "CLUSTER_NAME") == Some(JStr(cluster))
  {
    var e := [Entry("ENVIRONMENT", environment)];
    var reg := if registrator then [Entry("SERVICE_NAME", environment), Entry("SERVICE_TAGS", name)] else [];
    var c := [Entry("CLUSTER_NAME", cluster)];
    var groups := OptEntry("SERVICE_GROUP", group) + OptEntry("TEMPLATE_GROUP", templateGroup);
    assert Quiet(groups) by {
      QuietOpt("SERVICE_GROUP", group);
      QuietOpt("TEMPLATE_GROUP", templateGroup);
      QuietAppend(OptEntry("SERVICE_GROUP", group), OptEntry("TEMPLATE_GROUP", templateGroup));
    }
    assert Quiet(reg) by {
      EntryNamed("SERVICE_NAME", environment);
      EntryNamed("SERVICE_TAGS", name);
    }
    assert LastValue(reg + c + groups, "ENVIRONMENT") == None by {
      QuietLastValue(reg, "ENVIRONMENT");
      EntryNamed("CLUSTER_NAME", cluster);
      NoneNamed(c, "ENVIRONMENT");
      QuietLastValue(groups, "ENVIRONMENT");
      LastValueAppend(reg, c, "ENVIRONMENT");
      LastValueAppend(reg + c, groups, "ENVIRONMENT");
    }
    assert LastValue(e + (reg + c + groups), "ENVIRONMENT") == Some(JStr(environment)) by {
      LastValueOfEntry([], "ENVIRONMENT", environment, []);
      assert [] + e + [] == e;
      LastValueAppend(e, reg + c + groups, "ENVIRONMENT");
    }
    assert e + reg + c + groups == e + (reg + c + groups);
    LastValueOfEntry(e + reg, "CLUSTER_NAME", cluster, groups);
    e + reg + c + groups
  }

  /** The optional entries after DESIRED_COUNT. */
  function EnvBack(minimum: Option<string>, maximum: Option<string>, distinct: Option<bool>,
                   strategy: Option<string>, constraints: Option<string>, primary: Option<bool>): (res: seq<Json>)
    ensures Quiet(res)
  {
    var a := OptEntry("MINIMUM_HEALTHY_PERCENT", minimum);
    var b := OptEntry("MAXIMUM_PERCENT", maximum);
    var c := OptEntry("DISTINCT_INSTANCE", FlagValue(distinct));
    var d := OptEntry("PLACEMENT_STRATEGY", strategy);
    var e := OptEntry("PLACEMENT_CONSTRAINTS", constraints);
    var f := OptEntry("PRIMARY_PLACEMENT", FlagValue(primary));
    QuietOpt("MINIMUM_HEALTHY_PERCENT", minimum);
    QuietOpt("MAXIMUM_PERCENT", maximum);
    QuietOpt("DISTINCT_INSTANCE", FlagValue(distinct));
    QuietOpt("PLACEMENT_STRATEGY", strategy);
    QuietOpt("PLACEMENT_CONSTRAINTS", constraints);
    QuietOpt("PRIMARY_PLACEMENT", FlagValue(primary));
    QuietAppend(a, b);
    QuietAppend(a + b, c);
    QuietAppend(a + b + c, d);
    QuietAppend(a + b + c + d, e);
    QuietAppend(a + b + c + d + e, f);
    a + b + c + d + e + f
  }

  /** The whole environment: the front, DESIRED_COUNT, the optional rest. */
  function EnvList(front: seq<Json>, desired: string, back: seq<Json>): (res: seq<Json>)
    requires Quiet(back) && front != []
    ensures res != [] && res[0] == front[0]
    ensures LastValue(res, "ENVIRONMENT") == LastValue(front, "ENVIRONMENT")
    ensures LastValue(res, "CLUSTER_NAME") == LastValue(front, "CLUSTER_NAME")
    ensures LastValue(res, "DESIRED_COUNT") == Some(JStr(desired))
  {
    var d := [Entry("DESIRED_COUNT", desired)];
    LastValueOfEntry(front, "DESIRED_COUNT", desired, back);
    EntryNamed("DESIRED_COUNT", desired);
    assert Quiet2(d + back) by {
      assert forall i :: 0 < i < |d + back| ==> (d + back)[i] == back[i - 1];
    }
    QuietLastValue2(d + back, "ENVIRONMENT");
    QuietLastValue2(d + back, "CLUSTER_NAME");
    LastValueAppend(front, d + back, "ENVIRONMENT");
    LastValueAppend(front, d + back, "CLUSTER_NAME");
    assert front + d + back == front + (d + back);
    front + d + back
  }

  /** `Entry(name, v)` is read under its name and no other. */
  lemma EntryNamed(name: string, v: string)
    ensures forall n :: NamedEntry(Entry(name, v), n) <==> n == name
    ensures Get(Entry(name, v).fields, "value") == Some(JStr(v))
  {
    var fs := Entry(name, v).fields;
    assert Get(fs, "name") == Some(JStr(name));
    assert fs[1..] == [Field("value", JStr(v))];
  }

  /** No entry that the task environment reads as ENVIRONMENT, CLUSTER_NAME
      or DESIRED_COUNT. */
  predicate Quiet(xs: seq<Json>)
  {
    forall i :: 0 <= i < |xs| ==>
      !NamedEntry(xs[i], "ENVIRONMENT") && !NamedEntry(xs[i], "CLUSTER_NAME") && !NamedEntry(xs[i], "DESIRED_COUNT")
  }

  /** No entry read as ENVIRONMENT or CLUSTER_NAME. */
  predicate Quiet2(xs: seq<Json>)
  {
    forall i :: 0 <= i < |xs| ==> !NamedEntry(xs[i], "ENVIRONMENT") && !NamedEntry(xs[i], "CLUSTER_NAME")
  }

  lemma QuietAppend(a: seq<Json>, b: seq<Json>)
    requires Quiet(a) && Quiet(b)
    ensures Quiet(a + b)
  {
    assert forall i :: |a| <= i < |a + b| ==> (a + b)[i] == b[i - |a|];
  }

  lemma QuietOpt(name: string, v: Option<string>)
    requires name != "ENVIRONMENT" && name != "CLUSTER_NAME" && name != "DESIRED_COUNT"
    ensures Quiet(OptEntry(name, v))
  {
    if v.Some? { EntryNamed(name, v.value); }
  }

  /** The later list wins where it names n. */
  lemma {:induction false} LastValueAppend(a: seq<Json>, b: seq<Json>, n: string)
    ensures LastValue(a + b, n) == if LastValue(b, n).Some? then LastValue(b, n) else LastValue(a, n)
  {
    if a == [] {
      assert a + b == b;
    } else {
      assert (a + b)[1..] == a[1..] + b;
      assert (a + b)[0] == a[0];
      LastValueAppend(a[1..], b, n);
    }
  }

  lemma {:induction false} QuietLastValue(xs: seq<Json>, n: string)
    requires Quiet(xs) && (n == "ENVIRONMENT" || n == "CLUSTER_NAME" || n == "DESIRED_COUNT")
    ensures LastValue(xs, n) == None
    decreases |xs|
  {
    if xs != [] {
      assert Quiet(xs[1..]) by { assert forall i :: 0 <= i < |xs[1..]| ==> xs[1..][i] == xs[i + 1]; }
      QuietLastValue(xs[1..], n);
    }
  }

  lemma {:induction false} QuietLastValue2(xs: seq<Json>, n: string)
    requires Quiet2(xs) && (n == "ENVIRONMENT" || n == "CLUSTER_NAME")
    ensures LastValue(xs, n) == None
    decreases |xs|
  {
    if xs != [] {
      assert Quiet2(xs[1..]) by { assert forall i :: 0 <= i < |xs[1..]| ==> xs[1..][i] == xs[i + 1]; }
      QuietLastValue2(xs[1..], n);
    }
  }

  /** ENVIRONMENT at the head, named nowhere after it. */
  lemma ReadOnlyFirst(environment: string, rest: seq<Json>)
    requires forall i :: 0 <= i < |rest| ==> !NamedEntry(rest[i], "ENVIRONMENT")
    ensures LastValue([Entry("ENVIRONMENT", environment)] + rest, "ENVIRONMENT") == Some(JStr(environment))
    decreases |rest|
  {
    EntryNamed("ENVIRONMENT", environment);
    NoneNamed(rest, "ENVIRONMENT");
    LastValueAppend([Entry("ENVIRONMENT", environment)], rest, "ENVIRONMENT");
    assert [Entry("ENVIRONMENT", environment)][1..] == [];
  }

  lemma {:induction false} NoneNamed(xs: seq<Json>, n: string)
    requires forall i :: 0 <= i < |xs| ==> !NamedEntry(xs[i], n)
    ensures LastValue(xs, n) == None
    decreases |xs|
  {
    if xs != [] {
      assert forall i :: 0 <= i < |xs[1..]| ==> xs[1..][i] == xs[i + 1];
      NoneNamed(xs[1..], n);
    }
  }

  /** An entry followed only by entries of other names gives its value. */
  lemma LastValueOfEntry(a: seq<Json>, n: string, v: string, b: seq<Json>)
    requires Quiet(b) && (n == "ENVIRONMENT" || n == "CLUSTER_NAME" || n == "DESIRED_COUNT")
    ensures LastValue(a + [Entry(n, v)] + b, n) == Some(JStr(v))
  {
    QuietLastValue(b, n);
    EntryNamed(n, v);
    LastValueAppend(a + [Entry(n, v)], b, n);
    LastValueAppend(a, [Entry(n, v)], n);
    assert [Entry(n, v)][1..] == [];
  }

  // ---------------------------------------------------------------------------
  // loadBalancers

  /** One load balancer: exactly one of `targetGroupArn` and
      `loadBalancerName`, then the required `containerName` and an integer
      `containerPort`. */
  function BalancerOf(r: Renderer, b: Json, variables: seq<Field>): (res: Result<Json>)
    ensures res.Ok? ==> b.JObj?
    ensures b.JObj? && (Param(b.fields, "targetGroupArn").Some? == Param(b.fields, "loadBalancerName").Some?) ==>
      res == Err(ParameterInvalid("loadBalancers"))
    ensures res.Ok? ==>
      && Param(b.fields, "containerName").Some? && Param(b.fields, "containerPort").Some?
      && res.value.JObj? && UniqueKeys(res.value.fields)
      && KeySet(res.value.fields) ==
         {if Param(b.fields, "targetGroupArn").Some? then "targetGroupArn" else "loadBalancerName", "containerName", "containerPort"}
      && RenderParam(r, Param(b.fields, "containerPort").value, variables).Ok?
      && ParseInt(RenderParam(r, Param(b.fields, "containerPort").value, variables).value).Some?
      && Get(res.value.fields, "containerPort") ==
           Some(JInt(ParseInt(RenderParam(r, Param(b.fields, "containerPort").value, variables).value).value))
  {
    if !b.JObj? then Err(AttributeError("get"))
    else
      var target := Param(b.fields, "targetGroupArn");
      var lbName := Param(b.fields, "loadBalancerName");
      if target.Some? == lbName.Some? then Err(ParameterInvalid("loadBalancers"))
      else
        var key := if target.Some? then "targetGroupArn" else "loadBalancerName";
        var named :- RenderParam(r, if target.Some? then target.value else lbName.value, variables);
        var container := Param(b.fields, "containerName");
        if container.None? then Err(ParameterInvalid("loadBalancers"))
        else
          var containerName :- RenderParam(r, container.value, variables);
          var port := Param(b.fields, "containerPort");
          if port.None? then Err(ParameterInvalid("loadBalancers"))
          else
            var portText :- RenderParam(r, port.value, variables);
            match ParseInt(portText)
            case None => Err(ParameterInvalid("containerPort"))
            case Some(p) =>
              var d := Put(Put([Field(key, JStr(named))], "containerName", JStr(containerName)), "containerPort", JInt(p));
              assert KeySet([Field(key, JStr(named))]) == {key};
              Ok(JObj(d))
  }

  function BalancerEach(r: Renderer, bs: seq<Json>, variables: seq<Field>): (res: Result<seq<Json>>)
    ensures res.Ok? ==> |res.value| == |bs|
    ensures res.Ok? ==> forall i :: 0 <= i < |bs| ==> BalancerOf(r, bs[i], variables) == Ok(res.value[i])
  {
    if bs == [] then Ok([])
    else
      var h :- BalancerOf(r, bs[0], variables);
      var t :- BalancerEach(r, bs[1..], variables);
      assert forall i :: 0 < i < |bs| ==> bs[i] == bs[1..][i - 1];
      Ok([h] + t)
  }

  /** The rendered load balancers; none when `loadBalancers` is unset. */
  function BalancersOf(r: Renderer, config: seq<Field>, variables: seq<Field>): (res: Result<Option<seq<Json>>>)
    ensures Param(config, "loadBalancers").None? <==> res == Ok(None)
  {
    match Param(config, "loadBalancers")
    case None => Ok(None)
    case Some(v) =>
      var bs :- Iterate(v);
      var rendered :- BalancerEach(r, bs, variables);
      Ok(Some(rendered))
  }

  /** One `LOAD_BALANCER` entry per balancer. */
  function BalancerEntries(balancers: Option<seq<Json>>): (res: seq<Json>)
    ensures Quiet(res)
    ensures |res| == if balancers.Some? then |balancers.value| else 0
  {
    EntryNamed("LOAD_BALANCER", "true");
    if balancers.Some? then seq(|balancers.value|, _ => Entry("LOAD_BALANCER", "true")) else []
  }

  // ---------------------------------------------------------------------------
  // networkConfiguration

  /** The rendered network configuration (`JNull` when unset) and the task
      definition, put in `awsvpc` mode when the configuration names an
      `awsvpcConfiguration`. */
  function NetworkOf(r: Renderer, config: seq<Field>, variables: seq<Field>, td: Json): (res: Result<(Json, Json)>)
    ensures Param(config, "networkConfiguration").None? ==> res == Ok((JNull, td))
    ensures res.Ok? && Param(config, "networkConfiguration").Some? ==>
      var n := Param(config, "networkConfiguration").value;
      && n.JObj?
      && (Param(n.fields, "awsvpcConfiguration").None? ==> res.value.1 == td)
      && (Param(n.fields, "awsvpcConfiguration").Some? ==>
            && td.JObj? && res.value.1.JObj?
            && Get(res.value.1.fields, "networkMode") == Some(JStr("awsvpc"))
            && forall k :: k != "networkMode" ==> Get(res.value.1.fields, k) == Get(td.fields, k))
  {
    match Param(config, "networkConfiguration")
    case None => Ok((JNull, td))
    case Some(n) =>
      var rendered :- RenderJson(r, n, variables);
      if !n.JObj? then Err(AttributeError("get"))
      else if Param(n.fields, "awsvpcConfiguration").None? then Ok((rendered, td))
      else if !td.JObj? then Err(AttributeError("update"))
      else Ok((rendered, JObj(Update(td.fields, [Field("networkMode", JStr("awsvpc"))]))))
  }

  // ---------------------------------------------------------------------------
  // One service

  /** A service as built: its environment, its task definition before the
      environment is injected, and what the `Service` constructor gets. */
  datatype Built = Built(environment: seq<Json>, template: Json, spec: ServiceSpec)

  /** Everything of one service up to the injection of its environment. */
  datatype Assembly = Assembly(
    part: EnvPart, template: Json, balancers: Option<seq<Json>>, network: Json,
    registries: Json, env: seq<Json>, injected: Json)

  /** The checks and renderings of one service before `disabled` is read. */
  function Assemble(r: Renderer, name: string, config: seq<Field>, variables: seq<Field>,
                    environment: string, templates: Json): (res: Result<Assembly>)
    ensures res.Ok? ==> EnvironmentPart(r, name, config, variables, environment) == Ok(res.value.part)
    ensures res.Ok? ==> BalancersOf(r, config, variables) == Ok(res.value.balancers)
    ensures res.Ok? ==> res.value.env == res.value.part.env + BalancerEntries(res.value.balancers)
    ensures res.Ok? ==> InjectEnvironment(res.value.template, res.value.env) == Ok(res.value.injected)
    ensures EnvironmentPart(r, name, config, variables, environment).Err? ==>
      res == Err(EnvironmentPart(r, name, config, variables, environment).error)
    ensures Param(config, "taskDefinitionTemplate").None? ==> res.Err?
  {
    var part :- EnvironmentPart(r, name, config, variables, environment);
    var td :- TaskDefinitionOf(r, config, templates, variables);
    var balancers :- BalancersOf(r, config, variables);
    var env := part.env + BalancerEntries(balancers);
    var network :- NetworkOf(r, config, variables, td);
    var registries :- RenderedList(r, config, "serviceRegistries", variables);
    var injected :- InjectEnvironment(network.1, env);
    Ok(Assembly(part, network.1, balancers, network.0, registries, env, injected))
  }

  /** The steps after the assembly, given the outcomes of `disabled` and
      `stopBeforeDeploy`: the latter is read only for a service kept. */
  function Finish(a: Assembly, disabled: Result<bool>, stop: Result<Option<bool>>): (res: Result<Option<Built>>)
    ensures disabled.Err? ==> res == Err(disabled.error)
    ensures disabled == Ok(true) ==> res == Ok(None)
    ensures disabled == Ok(false) && stop.Err? ==> res == Err(stop.error)
    ensures res.Ok? && res.value.Some? ==>
      && disabled == Ok(false) && stop.Ok?
      && res.value.value.environment == a.env && res.value.value.template == a.template
      && res.value.value.spec.taskDefinition == a.injected
      && (res.value.value.spec.stopBeforeDeploy <==> stop.value == Some(true))
      && res.value.value.spec.loadBalancers == (if a.balancers.Some? then JList(a.balancers.value) else JNull)
  {
    var off :- disabled;
    if off then Ok(None)
    else
      var s :- stop;
      var lbs := if a.balancers.Some? then JList(a.balancers.value) else JNull;
      Ok(Some(Built(a.env, a.template, ServiceSpec(a.injected, s == Some(true), a.part.primaryPlacement,
        a.part.placementStrategy, a.part.placementConstraints, lbs, a.network, a.registries))))
  }

  /** The loop body of `get_service_list_yaml` for one service, given its
      configuration and variables: `None` for a disabled service. */
  function BuildService(r: Renderer, name: string, config: seq<Field>, variables: seq<Field>,
                        environment: string, templates: Json): Result<Option<Built>>
  {
    var a :- Assemble(r, name, config, variables, environment, templates);
    Finish(a, Disabled(r, config, variables), BoolParam(r, config, "stopBeforeDeploy", variables))
  }

  /** `cluster`, `desiredCount` and `taskDefinitionTemplate` are required;
      without a registrator setting to reject first, a missing cluster is
      reported as such. */
  lemma BuildServiceRequired(r: Renderer, name: string, config: seq<Field>, variables: seq<Field>,
                             environment: string, templates: Json)
    ensures BoolParam(r, config, "registrator", variables).Ok? && Param(config, "cluster").None? ==>
      BuildService(r, name, config, variables, environment, templates) == Err(ParameterNotFound("cluster"))
    ensures Param(config, "cluster").None? ==> BuildService(r, name, config, variables, environment, templates).Err?
    ensures Param(config, "desiredCount").None? ==> BuildService(r, name, config, variables, environment, templates).Err?
    ensures Param(config, "taskDefinitionTemplate").None? ==> BuildService(r, name, config, variables, environment, templates).Err?
  {
  }

  /** A service is dropped exactly when it renders as disabled; a kept one
      stops before deploying exactly when `stopBeforeDeploy` says so (False
      when unset). */
  lemma BuildServiceDisabled(r: Renderer, name: string, config: seq<Field>, variables: seq<Field>,
                             environment: string, templates: Json)
    requires BuildService(r, name, config, variables, environment, templates).Ok?
    ensures var b := BuildService(r, name, config, variables, environment, templates).value;
      && (b.None? <==> Disabled(r, config, variables) == Ok(true))
      && (b.Some? ==> (b.value.spec.stopBeforeDeploy <==> BoolParam(r, config, "stopBeforeDeploy", variables) == Ok(Some(true))))
      && (b.Some? && Param(config, "stopBeforeDeploy").None? ==> !b.value.spec.stopBeforeDeploy)
  {
  }

  /** A kept service is made of its assembly. */
  lemma BuildServiceParts(r: Renderer, name: string, config: seq<Field>, variables: seq<Field>,
                          environment: string, templates: Json, b: Built) returns (a: Assembly)
    requires BuildService(r, name, config, variables, environment, templates) == Ok(Some(b))
    ensures Assemble(r, name, config, variables, environment, templates) == Ok(a)
    ensures b.environment == a.env && b.template == a.template && b.spec.taskDefinition == a.injected
    ensures b.spec.loadBalancers == (if a.balancers.Some? then JList(a.balancers.value) else JNull)
  {
    a := Assemble(r, name, config, variables, environment, templates).value;
  }

  /** What a kept service carries: the environment starts with ENVIRONMENT,
      names the cluster and the desired count, and the task definition is
      the template with that environment injected. */
  lemma BuildServiceEnvironment(r: Renderer, name: string, config: seq<Field>, variables: seq<Field>,
                                environment: string, templates: Json, b: Built)
    requires BuildService(r, name, config, variables, environment, templates) == Ok(Some(b))
    ensures b.environment != [] && b.environment[0] == Entry("ENVIRONMENT", environment)
    ensures InjectEnvironment(b.template, b.environment) == Ok(b.spec.taskDefinition)
    ensures LastValue(b.environment, "ENVIRONMENT") == Some(JStr(environment))
    ensures RequiredParam(r, config, "cluster", variables).Ok?
    ensures LastValue(b.environment, "CLUSTER_NAME") == Some(JStr(RequiredParam(r, config, "cluster", variables).value))
    ensures RequiredParam(r, config, "desiredCount", variables).Ok?
    ensures LastValue(b.environment, "DESIRED_COUNT") == Some(JStr(RequiredParam(r, config, "desiredCount", variables).value))
  {
    var a := BuildServiceParts(r, name, config, variables, environment, templates, b);
    var part := a.part;
    var extra := BalancerEntries(a.balancers);
    LastValueAppend(part.env, extra, "ENVIRONMENT");
    LastValueAppend(part.env, extra, "CLUSTER_NAME");
    LastValueAppend(part.env, extra, "DESIRED_COUNT");
    QuietLastValue(extra, "ENVIRONMENT");
    QuietLastValue(extra, "CLUSTER_NAME");
    QuietLastValue(extra, "DESIRED_COUNT");
  }

  /** A kept service has load balancers exactly when it configures them,
      and its environment ends with one LOAD_BALANCER entry per balancer. */
  lemma BuildServiceBalancers(r: Renderer, name: string, config: seq<Field>, variables: seq<Field>,
                              environment: string, templates: Json, b: Built)
    requires BuildService(r, name, config, variables, environment, templates) == Ok(Some(b))
    ensures b.spec.loadBalancers == JNull <==> Param(config, "loadBalancers").None?
    ensures b.spec.loadBalancers.JList? ==>
      var n := |b.spec.loadBalancers.items|;
      n <= |b.environment| && b.environment[|b.environment| - n..] == seq(n, _ => Entry("LOAD_BALANCER", "true"))
  {
    var a := BuildServiceParts(r, name, config, variables, environment, templates, b);
    var extra := BalancerEntries(a.balancers);
    var env := a.env;
    assert env[|env| - |extra|..] == extra;
  }

  /** A template whose first container does not itself set ENVIRONMENT,
      CLUSTER_NAME or DESIRED_COUNT. */
  predicate NoOverride(td: Json)
  {
    td.JObj? &&
    match Get(td.fields, "containerDefinitions")
    case Some(JList(cs)) => cs != [] && OwnEnvironment(cs[0]).Ok? && Quiet(OwnEnvironment(cs[0]).value)
    case _ => true
  }

  /** What the injection writes, the task environment reads: unless the
      template's first container sets them itself, ENVIRONMENT, CLUSTER_NAME
      and DESIRED_COUNT are read as the injected list gives them. */
  lemma InjectedReadsBack(td: Json, env: seq<Json>)
    requires NoOverride(td) && InjectEnvironment(td, env).Ok?
    requires ServiceEnvironmentOf(InjectEnvironment(td, env).value).Ok?
    ensures var id := ServiceEnvironmentOf(InjectEnvironment(td, env).value).value;
      && (LastValue(env, "ENVIRONMENT").Some? ==> id.environment == LastValue(env, "ENVIRONMENT").value)
      && (LastValue(env, "CLUSTER_NAME").Some? ==> id.clusterName == LastValue(env, "CLUSTER_NAME").value)
      && (LastValue(env, "DESIRED_COUNT").Some? ==> PyInt(LastValue(env, "DESIRED_COUNT").value) == Ok(id.desiredCount))
  {
    var cs := Get(td.fields, "containerDefinitions");
    assert cs.Some? && cs.value.JList?;
    InjectEnvironmentMeaning(td, env);
    var own := OwnEnvironment(cs.value.items[0]).value;
    var entries := env + own;
    assert FirstEnvironment(InjectEnvironment(td, env).value) == Ok(JList(entries));
    ServiceEnvironmentOfEntries(entries);
    LastValueAppend(env, own, "ENVIRONMENT");
    LastValueAppend(env, own, "CLUSTER_NAME");
    LastValueAppend(env, own, "DESIRED_COUNT");
    QuietLastValue(own, "ENVIRONMENT");
    QuietLastValue(own, "CLUSTER_NAME");
    QuietLastValue(own, "DESIRED_COUNT");
  }

  /** The `Service` built from a service's configuration reads back, through
      its task environment, the environment, cluster and desired count the
      configuration gave it, unless the template's own first container
      overrides them. */
  lemma BuiltServiceReadsBack(r: Renderer, name: string, config: seq<Field>, variables: seq<Field>,
                              environment: string, templates: Json, b: Built)
    requires BuildService(r, name, config, variables, environment, templates) == Ok(Some(b))
    requires NoOverride(b.template)
    requires ServiceIdentity(b.spec.taskDefinition).Ok?
    ensures RequiredParam(r, config, "cluster", variables).Ok? && RequiredParam(r, config, "desiredCount", variables).Ok?
    ensures var id := ServiceIdentity(b.spec.taskDefinition).value.0;
      && id.environment == JStr(environment)
      && id.clusterName == JStr(RequiredParam(r, config, "cluster", variables).value)
      && ParseInt(RequiredParam(r, config, "desiredCount", variables).value) == Some(id.desiredCount)
  {
    BuildServiceEnvironment(r, name, config, variables, environment, templates, b);
    InjectedReadsBack(b.template, b.environment);
  }

  // ---------------------------------------------------------------------------
  // The services section

  /** `for service_name in services` followed by `services.get(...)`: only a
      dict gets past its first name. */
  function ServiceNames(services: Json): (res: Result<seq<string>>)
    ensures services.JObj? ==> res.Ok? && |res.value| == |services.fields|
    ensures services.JObj? ==> forall i :: 0 <= i < |services.fields| ==> res.value[i] == services.fields[i].key
  {
    match services
    case JObj(fs) => Ok(seq(|fs|, i requires 0 <= i < |fs| => fs[i].key))
    case JList(xs) => if xs == [] then Ok([]) else Err(AttributeError("get"))
    case JStr(s) => if s == [] then Ok([]) else Err(AttributeError("get"))
    case _ => Err(TypeError("object is not iterable"))
  }

  /** What every service of one call shares. */
  datatype Context = Context(r: Renderer, services: Json, envConfig: Json, environment: string, templates: Json)

  /** `services.get(service_name)`. */
  function BaseConfig(services: Json, name: string): Json
  {
    if services.JObj? && Get(services.fields, name).Some? then Get(services.fields, name).value else JNull
  }

  /** One service: its configuration and variables, the build, and the
      `Service` constructor's reading of the definition it is given. */
  function BuildOne(ctx: Context, name: string): (res: Result<Option<ServiceSpec>>)
    ensures res.Ok? && res.value.Some? ==> ServiceIdentity(res.value.value.taskDefinition).Ok?
  {
    var c :- Variables("services", name, BaseConfig(ctx.services, name), ctx.envConfig);
    var b :- BuildService(ctx.r, name, c.config, c.variables, ctx.environment, ctx.templates);
    if b.None? then Ok(None)
    else
      var id :- ServiceIdentity(b.value.spec.taskDefinition);
      Ok(Some(b.value.spec))
  }

  /** Every name's outcome, computed ahead. */
  function BuildEach(ctx: Context, names: seq<string>): (res: seq<Result<Option<ServiceSpec>>>)
    ensures |res| == |names| && forall j :: 0 <= j < |names| ==> res[j] == BuildOne(ctx, names[j])
  {
    seq(|names|, j requires 0 <= j < |names| => BuildOne(ctx, names[j]))
  }

  /** The loop over the names from position i on, given each name's outcome:
      a name seen before is a duplicate, the first failure ends the loop, a
      disabled entry is skipped. */
  function KeepFrom<T>(names: seq<string>, results: seq<Result<Option<T>>>, i: nat): Result<seq<T>>
    requires |results| == |names| && i <= |names|
    decreases |names| - i
  {
    if i == |names| then Ok([])
    else if names[i] in names[..i] then Err(DuplicateName(names[i]))
    else match results[i]
      case Err(e) => Err(e)
      case Ok(None) => KeepFrom(names, results, i + 1)
      case Ok(Some(x)) => Prefixed([x], KeepFrom(names, results, i + 1))
  }

  /** A successful loop met no failure and no name twice. */
  lemma {:induction false} KeepFromAllOk<T>(names: seq<string>, results: seq<Result<Option<T>>>, i: nat)
    requires |results| == |names| && i <= |names| && KeepFrom(names, results, i).Ok?
    ensures forall j :: i <= j < |names| ==> results[j].Ok? && names[j] !in names[..j]
    decreases |names| - i
  {
    if i < |names| {
      KeepFromAllOk(names, results, i + 1);
      if results[i].Ok? && results[i].value.Some? {
        assert KeepFrom(names, results, i + 1).Ok?;
      }
    }
  }

  /** What a successful loop keeps: exactly the present outcomes, in order,
      at most one per name. */
  lemma {:induction false} KeepFromKept<T>(names: seq<string>, results: seq<Result<Option<T>>>, i: nat)
    requires |results| == |names| && i <= |names| && KeepFrom(names, results, i).Ok?
    ensures |KeepFrom(names, results, i).value| <= |names| - i
    ensures forall x :: x in KeepFrom(names, results, i).value <==> exists j :: i <= j < |names| && results[j] == Ok(Some(x))
    decreases |names| - i
  {
    if i < |names| {
      var rest := KeepFrom(names, results, i + 1);
      if results[i] == Ok(None) {
        KeepFromKept(names, results, i + 1);
      } else {
        var x0 := results[i].value.value;
        assert rest.Ok?;
        KeepFromKept(names, results, i + 1);
        var out := KeepFrom(names, results, i).value;
        assert out == [x0] + rest.value;
        assert results[i] == Ok(Some(x0));
      }
    }
  }

  /** A duplicate name, when the loop reaches it, is reported. */
  lemma {:induction false} KeepFromDuplicate<T>(names: seq<string>, results: seq<Result<Option<T>>>, i: nat, j: nat)
    requires |results| == |names| && i <= j < |names| && names[j] in names[..j]
    ensures KeepFrom(names, results, i).Err?
    decreases j - i
  {
    if i < j {
      if names[i] !in names[..i] && results[i].Ok? {
        KeepFromDuplicate(names, results, i + 1, j);
      }
    }
  }

  /** `get_service_list_yaml`: no `services` section is no services; with
      one, `taskDefinitionTemplates` is required. */
  function ServiceList(r: Renderer, servicesConfig: Json, envConfig: Json, environment: string): Result<seq<ServiceSpec>>
  {
    if !servicesConfig.JObj? then Err(TypeError("subscript"))
    else match Get(servicesConfig.fields, "services")
      case None => Ok([])
      case Some(services) =>
        var templates :- Index(servicesConfig, "taskDefinitionTemplates");
        var names :- ServiceNames(services);
        var ctx := Context(r, services, envConfig, environment, templates);
        KeepFrom(names, BuildEach(ctx, names), 0)
  }

  lemma ServiceListSections(r: Renderer, servicesConfig: Json, envConfig: Json, environment: string)
    requires servicesConfig.JObj?
    ensures "services" !in KeySet(servicesConfig.fields) ==> ServiceList(r, servicesConfig, envConfig, environment) == Ok([])
    ensures "services" in KeySet(servicesConfig.fields) && "taskDefinitionTemplates" !in KeySet(servicesConfig.fields) ==>
      ServiceList(r, servicesConfig, envConfig, environment) == Err(KeyError("taskDefinitionTemplates"))
  {
  }

  /** Every service listed constructs, and a dict section yields one service
      per enabled name at most. */
  lemma ServiceListKept(r: Renderer, servicesConfig: Json, envConfig: Json, environment: string)
    requires ServiceList(r, servicesConfig, envConfig, environment).Ok?
    ensures forall s :: s in ServiceList(r, servicesConfig, envConfig, environment).value ==>
      ServiceIdentity(s.taskDefinition).Ok?
    ensures servicesConfig.JObj? && Get(servicesConfig.fields, "services").Some? && Get(servicesConfig.fields, "services").value.JObj? ==>
      |ServiceList(r, servicesConfig, envConfig, environment).value| <= |Get(servicesConfig.fields, "services").value.fields|
  {
    if servicesConfig.JObj? && Get(servicesConfig.fields, "services").Some? {
      var services := Get(servicesConfig.fields, "services").value;
      var templates := Index(servicesConfig, "taskDefinitionTemplates").value;
      var names := ServiceNames(services).value;
      var ctx := Context(r, services, envConfig, environment, templates);
      assert ServiceList(r, servicesConfig, envConfig, environment) == KeepFrom(names, BuildEach(ctx, names), 0);
      KeepFromKept(names, BuildEach(ctx, names), 0);
      forall s | s in ServiceList(r, servicesConfig, envConfig, environment).value
        ensures ServiceIdentity(s.taskDefinition).Ok?
      {
        var j :| 0 <= j < |names| && BuildEach(ctx, names)[j] == Ok(Some(s));
        assert BuildOne(ctx, names[j]) == Ok(Some(s));
      }
    }
  }

  lemma KeepFromStep<T>(names: seq<string>, results: seq<Result<Option<T>>>, i: nat)
    requires |results| == |names| && i < |names|
    ensures KeepFrom(names, results, i) ==
      if names[i] in names[..i] then Err(DuplicateName(names[i]))
      else match results[i]
        case Err(e) => Err(e)
        case Ok(None) => Prefixed([], KeepFrom(names, results, i + 1))
        case Ok(Some(x)) => Prefixed([x], KeepFrom(names, results, i + 1))
  {
    PrefixedEmpty(KeepFrom(names, results, i + 1));
  }

  /** The fixed attributes of a `Service` constructed from this specification. */
  predicate Identified(s: Service, spec: ServiceSpec)
  {
    && ServiceIdentity(spec.taskDefinition).Ok?
    && var id := ServiceIdentity(spec.taskDefinition).value;
       && s.stopBeforeDeploy == spec.stopBeforeDeploy
       && s.isPrimaryPlacement == spec.primaryPlacement
       && s.placementStrategy == spec.placementStrategy && s.placementConstraints == spec.placementConstraints
       && s.loadBalancers == spec.loadBalancers && s.networkConfiguration == spec.networkConfiguration
       && s.serviceRegistries == spec.serviceRegistries
       && s.taskEnvironment == id.0 && s.family == id.1
       && s.serviceName == id.1 + "-service"
  }

  /** The mutable state of a `Service` as the constructor leaves it. */
  predicate Pristine(s: Service, td: Json)
    reads s
  {
    s.taskDefinition == td && s.NoOrigin() && s.status == Normal
  }

  /** A new `Service` as the constructor makes it from this specification. */
  predicate Made(s: Service, spec: ServiceSpec)
    reads s
  {
    Identified(s, spec) && Pristine(s, spec.taskDefinition)
  }

  /** `Made` pairwise, for a list of services and their specifications. */
  predicate AllMade(out: seq<Service>, specs: seq<ServiceSpec>)
    reads out
  {
    |out| == |specs| && (|out| == 0 || (AllMade(out[..|out| - 1], specs[..|specs| - 1]) && Made(out[|out| - 1], specs[|specs| - 1])))
  }

  lemma AllMadeAppend(out: seq<Service>, specs: seq<ServiceSpec>, s: Service, spec: ServiceSpec)
    requires AllMade(out, specs) && Made(s, spec)
    ensures AllMade(out + [s], specs + [spec])
  {
    assert (out + [s])[..|out|] == out;
    assert (specs + [spec])[..|specs|] == specs;
  }

  /** Each service of the list is made from the specification at its position. */
  lemma {:induction false} AllMadeAt(out: seq<Service>, specs: seq<ServiceSpec>, k: nat)
    requires AllMade(out, specs) && k < |out|
    ensures |out| == |specs| && Made(out[k], specs[k])
    decreases |out|
  {
    var n := |out| - 1;
    if k < n {
      AllMadeAt(out[..n], specs[..n], k);
      MadeSame(out[..n][k], out[k], specs[..n][k], specs[k]);
    }
  }

  lemma MadeSame(s: Service, t: Service, spec: ServiceSpec, tspec: ServiceSpec)
    requires s == t && spec == tspec && Made(s, spec)
    ensures Made(t, tspec)
  {
  }

  /** The loop of `get_service_list_yaml` on values, over each name in the
      order the section lists them and its outcome: a duplicate or the
      first failure ends it, a disabled service is skipped. */
  method CollectServices<T>(ns: seq<string>, results: seq<Result<Option<T>>>) returns (res: Result<seq<T>>)
    requires |results| == |ns|
    ensures res == KeepFrom(ns, results, 0)
  {
    var kept: seq<T> := [];
    var i := 0;
    PrefixedEmpty(KeepFrom(ns, results, 0));
    while i < |ns|
      invariant 0 <= i <= |ns|
      invariant KeepFrom(ns, results, 0) == Prefixed(kept, KeepFrom(ns, results, i))
    {
      KeepFromStep(ns, results, i);
      if ns[i] in ns[..i] { return Err(DuplicateName(ns[i])); }
      var one := results[i];
      if one.Err? { return Err(one.error); }
      var piece := if one.value.Some? then [one.value.value] else [];
      PrefixedAppend(kept, piece, KeepFrom(ns, results, i + 1));
      kept := kept + piece;
      i := i + 1;
    }
    assert kept + [] == kept;
    res := Ok(kept);
  }

  /** The `Service(...)` constructions of that loop, in the same order. */
  method ConstructServices(specs: seq<ServiceSpec>) returns (out: seq<Service>)
    requires forall k :: 0 <= k < |specs| ==> ServiceIdentity(specs[k].taskDefinition).Ok?
    ensures |out| == |specs|
    ensures forall k :: 0 <= k < |specs| ==> fresh(out[k])
    ensures AllMade(out, specs)
  {
    out := [];
    var i := 0;
    while i < |specs|
      invariant 0 <= i <= |specs| && |out| == i
      invariant forall k :: 0 <= k < i ==> fresh(out[k])
      invariant AllMade(out, specs[..i])
    {
      TakeStep(specs, i);
      var s := Service.Create(specs[i]);
      if s.Err? { assert false; }
      AllMadeAppend(out, specs[..i], s.value, specs[i]);
      out := out + [s.value];
      i := i + 1;
    }
    TakeAll(specs);
  }

  /** `get_service_list_yaml` up to the constructions: the sections it
      reads and the loop on values. */
  method ReadServiceList(r: Renderer, servicesConfig: Json, envConfig: Json, environment: string)
    returns (res: Result<seq<ServiceSpec>>)
    ensures res == ServiceList(r, servicesConfig, envConfig, environment)
  {
    if !servicesConfig.JObj? { return Err(TypeError("subscript")); }
    var services := Get(servicesConfig.fields, "services");
    if services.None? { return Ok([]); }
    var templates := Index(servicesConfig, "taskDefinitionTemplates");
    if templates.Err? { return Err(templates.error); }
    var names := ServiceNames(services.value);
    if names.Err? { return Err(names.error); }
    var ctx := Context(r, services.value, envConfig, environment, templates.value);
    var results := BuildEach(ctx, names.value);
    res := CollectServices(names.value, results);
  }

  /** `get_service_list_yaml`. */
  method GetServiceListYaml(r: Renderer, servicesConfig: Json, envConfig: Json, environment: string)
    returns (res: Result<seq<Service>>)
    ensures res.Err? <==> ServiceList(r, servicesConfig, envConfig, environment).Err?
    ensures res.Err? ==> res.error == ServiceList(r, servicesConfig, envConfig, environment).error
    ensures res.Ok? ==>
      var specs := ServiceList(r, servicesConfig, envConfig, environment).value;
      && |res.value| == |specs|
      && (forall k :: 0 <= k < |specs| ==> fresh(res.value[k]))
      && AllMade(res.value, specs)
  {
    var specs := ReadServiceList(r, servicesConfig, envConfig, environment);
    if specs.Err? { return Err(specs.error); }
    ServiceListKept(r, servicesConfig, envConfig, environment);
    var out := ConstructServices(specs.value);
    res := Ok(out);
  }
}
