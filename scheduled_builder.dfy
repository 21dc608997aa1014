/** `get_scheduled_task_list`: the `scheduledTasks` section of the
    configuration becomes a list of `ScheduledTask`s, each with a rendered
    task definition whose containers carry the task's settings in their
    environment. */
module ScheduledBuilder {
  import opened Base
  import opened Text
  import opened Json
  import opened Py
  import opened Canon
  import opened Config
  import opened Services
  import opened ServiceBuilder
  import ScheduledTasks

  // ---------------------------------------------------------------------------
  // Parameters of one task

  /** The settings read before the `cloudwatchEvent` section: rendered
      values, the placement lists as configured (they reach the task
      unrendered) and their `str()` for the environment. */
  datatype TaskFront = TaskFront(
    cluster: string, serviceGroup: Option<string>, templateGroup: Option<string>, taskCount: string,
    placementStrategy: Json, placementConstraints: Json,
    strategyText: Option<string>, constraintsText: Option<string>)

  /** `task_config.get(key)` as handed on: `None` when unset. */
  function RawParam(config: seq<Field>, key: string): Json
  {
    OrElse(Param(config, key), JNull)
  }

  /** The checks up to the placement lists, in the source's order: the
      cluster and the task count are required, and the count must pass
      `int()`. The placement lists are rendered only for their errors. */
  function TaskFrontOf(r: Renderer, config: seq<Field>, variables: seq<Field>): (res: Result<TaskFront>)
    ensures Param(config, "cluster").None? ==> res == Err(ParameterNotFound("cluster"))
    ensures res.Ok? ==>
      && RequiredParam(r, config, "cluster", variables) == Ok(res.value.cluster)
      && RequiredParam(r, config, "taskCount", variables) == Ok(res.value.taskCount)
      && ParseInt(res.value.taskCount).Some?
      && (res.value.strategyText.Some? <==> Param(config, "placementStrategy").Some?)
      && (res.value.constraintsText.Some? <==> Param(config, "placementConstraints").Some?)
      && res.value.placementStrategy == RawParam(config, "placementStrategy")
      && res.value.placementConstraints == RawParam(config, "placementConstraints")
  {
    var cluster :- RequiredParam(r, config, "cluster", variables);
    var group :- OptionalParam(r, config, "serviceGroup", variables);
    var templateGroup :- OptionalParam(r, config, "templateGroup", variables);
    var countText :- RequiredParam(r, config, "taskCount", variables);
    var count :- CheckInt(countText, "taskCount");
    var strategy :- ListParam(r, config, "placementStrategy", variables);
    var constraints :- ListParam(r, config, "placementConstraints", variables);
    Ok(TaskFront(cluster, group, templateGroup, count,
      RawParam(config, "placementStrategy"), RawParam(config, "placementConstraints"), strategy.1, constraints.1))
  }

  /** The same checks as written: the placement constraints are read from
      `service_config`, a name the function never binds, so once the
      placement strategy is through the lookup raises `NameError`. */
  function TaskFrontAsWritten(r: Renderer, config: seq<Field>, variables: seq<Field>): Result<TaskFront>
  {
    var cluster :- RequiredParam(r, config, "cluster", variables);
    var group :- OptionalParam(r, config, "serviceGroup", variables);
    var templateGroup :- OptionalParam(r, config, "templateGroup", variables);
    var countText :- RequiredParam(r, config, "taskCount", variables);
    var count :- CheckInt(countText, "taskCount");
    var strategy :- ListParam(r, config, "placementStrategy", variables);
    Err(NameError("service_config"))
  }

  /** As written no scheduled task gets past its placement settings: every
      task the corrected checks accept fails with `NameError`, and the
      earlier failures are the same. */
  lemma TaskFrontAsWrittenFails(r: Renderer, config: seq<Field>, variables: seq<Field>)
    ensures TaskFrontAsWritten(r, config, variables).Err?
    ensures TaskFrontOf(r, config, variables).Ok? ==> TaskFrontAsWritten(r, config, variables) == Err(NameError("service_config"))
    ensures Param(config, "cluster").None? ==> TaskFrontAsWritten(r, config, variables) == Err(ParameterNotFound("cluster"))
  {
  }

  /** The check of `cloudwatchEvent.targetLambdaArn` as written: it tests the
      rendered schedule expression, which is never `None`, so a missing
      target passes and is rendered from the text `None`. */
  function TargetLambdaArnAsWritten(r: Renderer, event: seq<Field>, variables: seq<Field>): Result<string>
  {
    RenderParam(r, OrElse(Get(event, "targetLambdaArn"), JNull), variables)
  }

  /** The check as its message states it: the target is required. */
  function TargetLambdaArn(r: Renderer, event: seq<Field>, variables: seq<Field>): (res: Result<string>)
    ensures Param(event, "targetLambdaArn").None? ==> res == Err(ParameterNotFound("cloudwatchEvent.targetLambdaArn"))
    ensures Param(event, "targetLambdaArn").Some? ==> res == RenderParam(r, Param(event, "targetLambdaArn").value, variables)
  {
    match Param(event, "targetLambdaArn")
    case None => Err(ParameterNotFound("cloudwatchEvent.targetLambdaArn"))
    case Some(v) => RenderParam(r, v, variables)
  }

  /** As written, a task without a target is accepted with the target
      rendered from `None`; the corrected check refuses it. */
  lemma TargetCheckAsWrittenPasses(r: Renderer, event: seq<Field>, variables: seq<Field>)
    requires Get(event, "targetLambdaArn").None?
    ensures TargetLambdaArnAsWritten(r, event, variables) == r.render("None", variables)
    ensures TargetLambdaArn(r, event, variables) == Err(ParameterNotFound("cloudwatchEvent.targetLambdaArn"))
  {
  }

  /** With a target set, the two checks agree. */
  lemma TargetChecksAgree(r: Renderer, event: seq<Field>, variables: seq<Field>)
    requires Param(event, "targetLambdaArn").Some?
    ensures TargetLambdaArnAsWritten(r, event, variables) == TargetLambdaArn(r, event, variables)
  {
  }

  /** The `cloudwatchEvent` section: required, read with `.get`, with a
      required `scheduleExpression` and a required `targetLambdaArn`;
      gives the rendered schedule expression and target. */
  function CloudwatchEventOf(r: Renderer, config: seq<Field>, variables: seq<Field>): (res: Result<(string, string)>)
    ensures Param(config, "cloudwatchEvent").None? ==> res == Err(ParameterNotFound("cloudwatchEvent"))
    ensures var e := Param(config, "cloudwatchEvent");
      e.Some? && e.value.JObj? && Param(e.value.fields, "scheduleExpression").None? ==>
        res == Err(ParameterNotFound("cloudwatchEvent.scheduleExpression"))
    ensures res.Ok? ==>
      var e := Param(config, "cloudwatchEvent");
      && e.Some? && e.value.JObj? && Param(e.value.fields, "scheduleExpression").Some?
      && RenderParam(r, Param(e.value.fields, "scheduleExpression").value, variables) == Ok(res.value.0)
      && TargetLambdaArn(r, e.value.fields, variables) == Ok(res.value.1)
  {
    match Param(config, "cloudwatchEvent")
    case None => Err(ParameterNotFound("cloudwatchEvent"))
    case Some(event) =>
      if !event.JObj? then Err(AttributeError("get"))
      else
        var schedule :- match Param(event.fields, "scheduleExpression")
          case None => Err(ParameterNotFound("cloudwatchEvent.scheduleExpression"))
          case Some(v) => RenderParam(r, v, variables);
        var target :- TargetLambdaArn(r, event.fields, variables);
        Ok((schedule, target))
  }

  // ---------------------------------------------------------------------------
  // The docker environment

  /** The injected list: ENVIRONMENT, CLUSTER_NAME, the groups when set,
      TASK_COUNT, the placement lists when set, and TARGET_LAMBDA_ARN. */
  function TaskEnv(environment: string, f: TaskFront, target: string): seq<Json>
  {
    [Entry("ENVIRONMENT", environment), Entry("CLUSTER_NAME", f.cluster)]
    + OptEntry("SERVICE_GROUP", f.serviceGroup) + OptEntry("TEMPLATE_GROUP", f.templateGroup)
    + [Entry("TASK_COUNT", f.taskCount)]
    + OptEntry("PLACEMENT_STRATEGY", f.strategyText) + OptEntry("PLACEMENT_CONSTRAINTS", f.constraintsText)
    + [Entry("TARGET_LAMBDA_ARN", target)]
  }

  /** What a one-entry or empty piece gives each name. */
  lemma LastValueOptEntry(m: string, v: Option<string>, n: string)
    ensures LastValue(OptEntry(m, v), n) == if v.Some? && m == n then Some(JStr(v.value)) else None
  {
    if v.Some? {
      EntryNamed(m, v.value);
      assert OptEntry(m, v)[1..] == [];
    }
  }

  lemma LastValueEntry(m: string, v: string, n: string)
    ensures LastValue([Entry(m, v)], n) == if m == n then Some(JStr(v)) else None
  {
    LastValueOptEntry(m, Some(v), n);
  }

  /** The names the scheduled task environment requires. */
  predicate Required(n: string)
  {
    n == "ENVIRONMENT" || n == "CLUSTER_NAME" || n == "TASK_COUNT" || n == "TARGET_LAMBDA_ARN"
  }

  /** Each required name is read from the one entry the list has for it. */
  lemma TaskEnvReads(environment: string, f: TaskFront, target: string)
    ensures var env := TaskEnv(environment, f, target);
      && env[0] == Entry("ENVIRONMENT", environment)
      && 4 <= |env| <= 8
      && LastValue(env, "ENVIRONMENT") == Some(JStr(environment))
      && LastValue(env, "CLUSTER_NAME") == Some(JStr(f.cluster))
      && LastValue(env, "TASK_COUNT") == Some(JStr(f.taskCount))
      && LastValue(env, "TARGET_LAMBDA_ARN") == Some(JStr(target))
  {
    var p1 := [Entry("ENVIRONMENT", environment), Entry("CLUSTER_NAME", f.cluster)];
    var p2 := OptEntry("SERVICE_GROUP", f.serviceGroup);
    var p3 := OptEntry("TEMPLATE_GROUP", f.templateGroup);
    var p4 := [Entry("TASK_COUNT", f.taskCount)];
    var p5 := OptEntry("PLACEMENT_STRATEGY", f.strategyText);
    var p6 := OptEntry("PLACEMENT_CONSTRAINTS", f.constraintsText);
    var p7 := [Entry("TARGET_LAMBDA_ARN", target)];
    forall n | Required(n)
      ensures LastValue(p1 + p2 + p3 + p4 + p5 + p6 + p7, n) ==
        if n == "TARGET_LAMBDA_ARN" then Some(JStr(target))
        else if n == "TASK_COUNT" then Some(JStr(f.taskCount))
        else if n == "CLUSTER_NAME" then Some(JStr(f.cluster))
        else Some(JStr(environment))
    {
      LastValueEntry("ENVIRONMENT", environment, n);
      LastValueEntry("CLUSTER_NAME", f.cluster, n);
      LastValueAppend([Entry("ENVIRONMENT", environment)], [Entry("CLUSTER_NAME", f.cluster)], n);
      assert p1 == [Entry("ENVIRONMENT", environment)] + [Entry("CLUSTER_NAME", f.cluster)];
      LastValueOptEntry("SERVICE_GROUP", f.serviceGroup, n);
      LastValueOptEntry("TEMPLATE_GROUP", f.templateGroup, n);
      LastValueEntry("TASK_COUNT", f.taskCount, n);
      LastValueOptEntry("PLACEMENT_STRATEGY", f.strategyText, n);
      LastValueOptEntry("PLACEMENT_CONSTRAINTS", f.constraintsText, n);
      LastValueEntry("TARGET_LAMBDA_ARN", target, n);
      LastValueAppend(p1, p2, n);
      LastValueAppend(p1 + p2, p3, n);
      LastValueAppend(p1 + p2 + p3, p4, n);
      LastValueAppend(p1 + p2 + p3 + p4, p5, n);
      LastValueAppend(p1 + p2 + p3 + p4 + p5, p6, n);
      LastValueAppend(p1 + p2 + p3 + p4 + p5 + p6, p7, n);
    }
    assert Required("ENVIRONMENT") && Required("CLUSTER_NAME") && Required("TASK_COUNT") && Required("TARGET_LAMBDA_ARN");
  }

  // ---------------------------------------------------------------------------
  // One task

  /** A task as built: its environment, its task definition before the
      environment is injected, and what the `ScheduledTask` constructor
      gets. */
  datatype BuiltTask = BuiltTask(environment: seq<Json>, template: Json, spec: ScheduledTasks.TaskSpec)

  /** The parts of one task read before `disabled`. */
  datatype TaskAssembly = TaskAssembly(front: TaskFront, event: (string, string), env: seq<Json>, template: Json, injected: Json)

  /** The stages of one task before `disabled` is read, given the outcome
      of each check in the source's order: the front, the event, the
      template; the first failure wins. */
  function Assemble(front: Result<TaskFront>, event: Result<(string, string)>, environment: string, template: Result<Json>)
    : (res: Result<TaskAssembly>)
    ensures front.Err? ==> res == Err(front.error)
    ensures front.Ok? && event.Err? ==> res == Err(event.error)
    ensures front.Ok? && event.Ok? && template.Err? ==> res == Err(template.error)
    ensures res.Ok? ==>
      && front == Ok(res.value.front) && event == Ok(res.value.event)
      && res.value.env == TaskEnv(environment, res.value.front, res.value.event.1)
      && template == Ok(res.value.template)
      && InjectEnvironment(res.value.template, res.value.env) == Ok(res.value.injected)
  {
    var f :- front;
    var e :- event;
    var env := TaskEnv(environment, f, e.1);
    var td :- template;
    var injected :- InjectEnvironment(td, env);
    Ok(TaskAssembly(f, e, env, td, injected))
  }

  /** The checks and renderings of one task before `disabled` is read. */
  function AssembleTask(r: Renderer, environment: string, config: seq<Field>, variables: seq<Field>, templates: Json)
    : Result<TaskAssembly>
  {
    Assemble(TaskFrontOf(r, config, variables), CloudwatchEventOf(r, config, variables), environment,
      TaskDefinitionOf(r, config, templates, variables))
  }

  /** An assembled task holds the front, the event, the environment built
      from them, the template and the template with that environment
      injected. */
  lemma AssembleTaskParts(r: Renderer, environment: string, config: seq<Field>, variables: seq<Field>, templates: Json)
    requires AssembleTask(r, environment, config, variables, templates).Ok?
    ensures var a := AssembleTask(r, environment, config, variables, templates).value;
      && TaskFrontOf(r, config, variables) == Ok(a.front)
      && CloudwatchEventOf(r, config, variables) == Ok(a.event)
      && a.env == TaskEnv(environment, a.front, a.event.1)
      && TaskDefinitionOf(r, config, templates, variables) == Ok(a.template)
      && InjectEnvironment(a.template, a.env) == Ok(a.injected)
  {
  }

  /** The loop body of `get_scheduled_task_list` for one task, given its
      configuration and variables: `None` for a disabled task. */
  function BuildTask(r: Renderer, environment: string, config: seq<Field>, variables: seq<Field>, templates: Json)
    : Result<Option<BuiltTask>>
  {
    var a :- AssembleTask(r, environment, config, variables, templates);
    var disabled :- Disabled(r, config, variables);
    if disabled then Ok(None)
    else Ok(Some(BuiltTask(a.env, a.template,
      ScheduledTasks.TaskSpec(a.injected, a.event.1, a.event.0, a.front.placementStrategy, a.front.placementConstraints))))
  }

  /** The required parameters, each reported once the checks before it
      have passed: `cluster`, `taskCount` (which must also pass `int()`),
      `cloudwatchEvent`, its `scheduleExpression` and `targetLambdaArn`,
      and `taskDefinitionTemplate`. */
  lemma BuildTaskRequired(r: Renderer, environment: string, config: seq<Field>, variables: seq<Field>, templates: Json)
    ensures Param(config, "cluster").None? ==>
      BuildTask(r, environment, config, variables, templates) == Err(ParameterNotFound("cluster"))
    ensures Param(config, "taskCount").None? || Param(config, "cloudwatchEvent").None?
            || Param(config, "taskDefinitionTemplate").None? ==>
      BuildTask(r, environment, config, variables, templates).Err?
    ensures RequiredParam(r, config, "taskCount", variables).Ok? && ParseInt(RequiredParam(r, config, "taskCount", variables).value).None? ==>
      BuildTask(r, environment, config, variables, templates).Err?
    ensures TaskFrontOf(r, config, variables).Ok? && Param(config, "cloudwatchEvent").None? ==>
      BuildTask(r, environment, config, variables, templates) == Err(ParameterNotFound("cloudwatchEvent"))
    ensures var e := Param(config, "cloudwatchEvent");
      TaskFrontOf(r, config, variables).Ok? && e.Some? && e.value.JObj? && Param(e.value.fields, "scheduleExpression").None? ==>
        BuildTask(r, environment, config, variables, templates) == Err(ParameterNotFound("cloudwatchEvent.scheduleExpression"))
    ensures var e := Param(config, "cloudwatchEvent");
      e.Some? && e.value.JObj? && Param(e.value.fields, "targetLambdaArn").None? ==>
        BuildTask(r, environment, config, variables, templates).Err?
    ensures TaskFrontOf(r, config, variables).Ok? && CloudwatchEventOf(r, config, variables).Ok?
            && Param(config, "taskDefinitionTemplate").None? ==>
      BuildTask(r, environment, config, variables, templates) == Err(ParameterNotFound("taskDefinitionTemplate"))
  {
    FrontFailsTask(r, environment, config, variables, templates);
    EventFailsTask(r, environment, config, variables, templates);
    DefinitionFailsTask(r, environment, config, variables, templates);
  }

  /** A failing front fails the task with its error. */
  lemma FrontFailsTask(r: Renderer, environment: string, config: seq<Field>, variables: seq<Field>, templates: Json)
    ensures TaskFrontOf(r, config, variables).Err? ==>
      BuildTask(r, environment, config, variables, templates) == Err(TaskFrontOf(r, config, variables).error)
  {
    assert TaskFrontOf(r, config, variables).Err? ==>
      AssembleTask(r, environment, config, variables, templates) == Err(TaskFrontOf(r, config, variables).error);
  }

  /** After the front, a failing `cloudwatchEvent` section fails the task with its error. */
  lemma EventFailsTask(r: Renderer, environment: string, config: seq<Field>, variables: seq<Field>, templates: Json)
    ensures TaskFrontOf(r, config, variables).Ok? && CloudwatchEventOf(r, config, variables).Err? ==>
      BuildTask(r, environment, config, variables, templates) == Err(CloudwatchEventOf(r, config, variables).error)
  {
    assert TaskFrontOf(r, config, variables).Ok? && CloudwatchEventOf(r, config, variables).Err? ==>
      AssembleTask(r, environment, config, variables, templates) == Err(CloudwatchEventOf(r, config, variables).error);
  }

  /** After both, a failing task definition fails the task with its error. */
  lemma DefinitionFailsTask(r: Renderer, environment: string, config: seq<Field>, variables: seq<Field>, templates: Json)
    ensures TaskFrontOf(r, config, variables).Ok? && CloudwatchEventOf(r, config, variables).Ok?
            && TaskDefinitionOf(r, config, templates, variables).Err? ==>
      BuildTask(r, environment, config, variables, templates) == Err(TaskDefinitionOf(r, config, templates, variables).error)
  {
    assert TaskFrontOf(r, config, variables).Ok? && CloudwatchEventOf(r, config, variables).Ok?
            && TaskDefinitionOf(r, config, templates, variables).Err? ==>
      AssembleTask(r, environment, config, variables, templates) == Err(TaskDefinitionOf(r, config, templates, variables).error);
  }

  /** A task is dropped exactly when it renders as disabled. */
  lemma BuildTaskDisabled(r: Renderer, environment: string, config: seq<Field>, variables: seq<Field>, templates: Json)
    requires BuildTask(r, environment, config, variables, templates).Ok?
    ensures BuildTask(r, environment, config, variables, templates).value.None? <==> Disabled(r, config, variables) == Ok(true)
  {
  }

  /** What a kept task carries: the injected list starts with ENVIRONMENT
      and gives the cluster, task count and target as rendered; the task
      definition is the template with that list injected; the schedule
      expression and target are the rendered ones. */
  lemma BuildTaskEnvironment(r: Renderer, environment: string, config: seq<Field>, variables: seq<Field>, templates: Json, b: BuiltTask)
    requires BuildTask(r, environment, config, variables, templates) == Ok(Some(b))
    ensures CloudwatchEventOf(r, config, variables).Ok?
    ensures b.environment != [] && b.environment[0] == Entry("ENVIRONMENT", environment)
    ensures InjectEnvironment(b.template, b.environment) == Ok(b.spec.taskDefinition)
    ensures LastValue(b.environment, "ENVIRONMENT") == Some(JStr(environment))
    ensures LastValue(b.environment, "CLUSTER_NAME") == Some(JStr(RequiredParam(r, config, "cluster", variables).value))
    ensures LastValue(b.environment, "TASK_COUNT") == Some(JStr(RequiredParam(r, config, "taskCount", variables).value))
    ensures LastValue(b.environment, "TARGET_LAMBDA_ARN") == Some(JStr(b.spec.targetLambdaArn))
    ensures (b.spec.scheduleExpression, b.spec.targetLambdaArn) == CloudwatchEventOf(r, config, variables).value
    ensures b.spec.placementStrategy == RawParam(config, "placementStrategy")
    ensures b.spec.placementConstraints == RawParam(config, "placementConstraints")
  {
    var a := BuildTaskAssembled(r, environment, config, variables, templates, b);
    AssembleTaskParts(r, environment, config, variables, templates);
    TaskEnvReads(environment, a.front, a.event.1);
  }

  /** A kept task is made of its assembly. */
  lemma BuildTaskAssembled(r: Renderer, environment: string, config: seq<Field>, variables: seq<Field>, templates: Json, b: BuiltTask)
    returns (a: TaskAssembly)
    requires BuildTask(r, environment, config, variables, templates) == Ok(Some(b))
    ensures AssembleTask(r, environment, config, variables, templates) == Ok(a)
    ensures b == BuiltTask(a.env, a.template,
      ScheduledTasks.TaskSpec(a.injected, a.event.1, a.event.0, a.front.placementStrategy, a.front.placementConstraints))
  {
    a := AssembleTask(r, environment, config, variables, templates).value;
  }

  /** Entries none of which the scheduled task environment reads under a
      required name. */
  ghost predicate Unnamed(xs: seq<Json>)
  {
    forall i, n :: 0 <= i < |xs| && Required(n) ==> !NamedEntry(xs[i], n)
  }

  /** A template whose first container does not itself set a name the
      scheduled task environment requires. */
  ghost predicate NoTaskOverride(td: Json)
  {
    td.JObj? &&
    match Get(td.fields, "containerDefinitions")
    case Some(JList(cs)) => cs != [] && OwnEnvironment(cs[0]).Ok? && Unnamed(OwnEnvironment(cs[0]).value)
    case _ => true
  }

  /** The first container's environment after the injection: the injected
      list, then the template's own entries. */
  lemma InjectedFirstEnvironment(td: Json, env: seq<Json>) returns (own: seq<Json>)
    requires NoTaskOverride(td) && InjectEnvironment(td, env).Ok?
    requires FirstEnvironment(InjectEnvironment(td, env).value).Ok?
    ensures FirstEnvironment(InjectEnvironment(td, env).value) == Ok(JList(env + own))
    ensures Unnamed(own)
  {
    var cs := Get(td.fields, "containerDefinitions");
    assert cs.Some? && cs.value.JList?;
    InjectEnvironmentMeaning(td, env);
    own := OwnEnvironment(cs.value.items[0]).value;
  }

  /** What the injection writes, the task environment reads, unless the
      template's first container sets those names itself. */
  lemma InjectedTaskReadsBack(td: Json, env: seq<Json>)
    requires NoTaskOverride(td) && InjectEnvironment(td, env).Ok?
    requires ScheduledTasks.TaskEnvironmentOf(InjectEnvironment(td, env).value).Ok?
    ensures var id := ScheduledTasks.TaskEnvironmentOf(InjectEnvironment(td, env).value).value;
      && (LastValue(env, "ENVIRONMENT").Some? ==> id.environment == LastValue(env, "ENVIRONMENT").value)
      && (LastValue(env, "CLUSTER_NAME").Some? ==> id.clusterName == LastValue(env, "CLUSTER_NAME").value)
      && (LastValue(env, "TASK_COUNT").Some? ==> PyInt(LastValue(env, "TASK_COUNT").value) == Ok(id.taskCount))
      && (LastValue(env, "TARGET_LAMBDA_ARN").Some? ==> id.targetLambdaArn == LastValue(env, "TARGET_LAMBDA_ARN").value)
  {
    var d := InjectEnvironment(td, env).value;
    assert FirstEnvironment(d).Ok?;
    var own := InjectedFirstEnvironment(td, env);
    var entries := env + own;
    ScheduledTasks.TaskEnvironmentOfList(d, entries);
    ScheduledTasks.TaskEnvironmentReads(entries);
    UnnamedTail(env, own);
  }

  /** Entries after the injected list that name none of the required names
      leave what the list gives them. */
  lemma UnnamedTail(env: seq<Json>, own: seq<Json>)
    requires Unnamed(own)
    ensures LastValue(env + own, "ENVIRONMENT") == LastValue(env, "ENVIRONMENT")
    ensures LastValue(env + own, "CLUSTER_NAME") == LastValue(env, "CLUSTER_NAME")
    ensures LastValue(env + own, "TASK_COUNT") == LastValue(env, "TASK_COUNT")
    ensures LastValue(env + own, "TARGET_LAMBDA_ARN") == LastValue(env, "TARGET_LAMBDA_ARN")
  {
    forall n | Required(n) ensures LastValue(env + own, n) == LastValue(env, n) {
      NoneNamed(own, n);
      LastValueAppend(env, own, n);
    }
    assert Required("ENVIRONMENT") && Required("CLUSTER_NAME") && Required("TASK_COUNT") && Required("TARGET_LAMBDA_ARN");
  }

  /** The `ScheduledTask` built from a task's configuration reads back,
      through its task environment, the environment, cluster, task count
      and target the configuration gave it, unless the template's own first
      container overrides them. */
  lemma BuiltTaskReadsBack(r: Renderer, environment: string, config: seq<Field>, variables: seq<Field>, templates: Json)
    requires var b := BuildTask(r, environment, config, variables, templates); b.Ok? && b.value.Some?
    requires NoTaskOverride(BuildTask(r, environment, config, variables, templates).value.value.template)
    requires ScheduledTasks.TaskEnvironmentOf(BuildTask(r, environment, config, variables, templates).value.value.spec.taskDefinition).Ok?
    ensures var b := BuildTask(r, environment, config, variables, templates).value.value;
      var id := ScheduledTasks.TaskEnvironmentOf(b.spec.taskDefinition).value;
      && id.environment == JStr(environment)
      && id.clusterName == JStr(RequiredParam(r, config, "cluster", variables).value)
      && ParseInt(RequiredParam(r, config, "taskCount", variables).value) == Some(id.taskCount)
      && id.targetLambdaArn == JStr(b.spec.targetLambdaArn)
  {
    var b := BuildTask(r, environment, config, variables, templates).value.value;
    BuildTaskEnvironment(r, environment, config, variables, templates, b);
    InjectedTaskReadsBack(b.template, b.environment);
  }

  // ---------------------------------------------------------------------------
  // The scheduledTasks section

  /** What every task of one call shares. */
  datatype TaskContext = TaskContext(r: Renderer, tasks: Json, envConfig: Json, environment: string, templates: Json)

  /** One task: its configuration and variables, the build, and the
      `ScheduledTask` constructor's reading of the definition it is given. */
  function BuildTaskOne(ctx: TaskContext, name: string): (res: Result<Option<ScheduledTasks.TaskSpec>>)
    ensures res.Ok? && res.value.Some? ==> ScheduledTasks.TaskIdentity(res.value.value.taskDefinition).Ok?
  {
    var c :- Variables("scheduledTasks", name, BaseConfig(ctx.tasks, name), ctx.envConfig);
    var b :- BuildTask(ctx.r, ctx.environment, c.config, c.variables, ctx.templates);
    if b.None? then Ok(None)
    else
      var id :- ScheduledTasks.TaskIdentity(b.value.spec.taskDefinition);
      Ok(Some(b.value.spec))
  }

  function BuildTaskEach(ctx: TaskContext, names: seq<string>): (res: seq<Result<Option<ScheduledTasks.TaskSpec>>>)
    ensures |res| == |names| && forall j :: 0 <= j < |names| ==> res[j] == BuildTaskOne(ctx, names[j])
  {
    seq(|names|, j requires 0 <= j < |names| => BuildTaskOne(ctx, names[j]))
  }

  /** The loop over the outcomes from position i on, with no duplicate
      check: the first failure ends it, a disabled task is skipped. */
  function KeepAll<T>(results: seq<Result<Option<T>>>, i: nat): Result<seq<T>>
    requires i <= |results|
    decreases |results| - i
  {
    if i == |results| then Ok([])
    else match results[i]
      case Err(e) => Err(e)
      case Ok(None) => KeepAll(results, i + 1)
      case Ok(Some(x)) => Prefixed([x], KeepAll(results, i + 1))
  }

  /** Over names that are all distinct, as a dict's keys are, a duplicate
      check would never fire. */
  lemma {:induction false} KeepAllIsKeepFrom<T>(names: seq<string>, results: seq<Result<Option<T>>>, i: nat)
    requires |results| == |names| && i <= |names|
    requires forall j :: i <= j < |names| ==> names[j] !in names[..j]
    ensures KeepAll(results, i) == KeepFrom(names, results, i)
    decreases |names| - i
  {
    if i < |names| {
      KeepAllIsKeepFrom(names, results, i + 1);
    }
  }

  /** The keys of a dict with unique keys are distinct. */
  lemma DistinctNames(fs: seq<Field>, names: seq<string>)
    requires UniqueKeys(fs) && |names| == |fs| && forall i :: 0 <= i < |fs| ==> names[i] == fs[i].key
    ensures forall j :: 0 <= j < |names| ==> names[j] !in names[..j]
  {
    forall j | 0 <= j < |names| ensures names[j] !in names[..j] {
      assert forall k :: 0 <= k < j ==> names[..j][k] == fs[k].key && fs[k].key != fs[j].key;
    }
  }

  /** What a successful loop keeps: exactly the present outcomes, at most
      one per position. */
  lemma {:induction false} KeepAllKept<T>(results: seq<Result<Option<T>>>, i: nat)
    requires i <= |results| && KeepAll(results, i).Ok?
    ensures |KeepAll(results, i).value| <= |results| - i
    ensures forall x :: x in KeepAll(results, i).value <==> exists j :: i <= j < |results| && results[j] == Ok(Some(x))
    decreases |results| - i
  {
    if i < |results| {
      var rest := KeepAll(results, i + 1);
      if results[i] == Ok(None) {
        KeepAllKept(results, i + 1);
      } else {
        var x0 := results[i].value.value;
        assert rest.Ok?;
        KeepAllKept(results, i + 1);
        var out := KeepAll(results, i).value;
        assert out == [x0] + rest.value;
        assert results[i] == Ok(Some(x0));
      }
    }
  }

  lemma KeepAllStep<T>(results: seq<Result<Option<T>>>, i: nat)
    requires i < |results|
    ensures KeepAll(results, i) ==
      match results[i]
      case Err(e) => Err(e)
      case Ok(None) => Prefixed([], KeepAll(results, i + 1))
      case Ok(Some(x)) => Prefixed([x], KeepAll(results, i + 1))
  {
    PrefixedEmpty(KeepAll(results, i + 1));
  }

  /** `get_scheduled_task_list`: no `scheduledTasks` section is no tasks;
      with one, `taskDefinitionTemplates` is required. */
  function TaskList(r: Renderer, servicesConfig: Json, envConfig: Json, environment: string): Result<seq<ScheduledTasks.TaskSpec>>
  {
    if !servicesConfig.JObj? then Err(TypeError("subscript"))
    else match Get(servicesConfig.fields, "scheduledTasks")
      case None => Ok([])
      case Some(tasks) =>
        var templates :- Index(servicesConfig, "taskDefinitionTemplates");
        var names :- ServiceNames(tasks);
        KeepAll(BuildTaskEach(TaskContext(r, tasks, envConfig, environment, templates), names), 0)
  }

  lemma TaskListSections(r: Renderer, servicesConfig: Json, envConfig: Json, environment: string)
    requires servicesConfig.JObj?
    ensures "scheduledTasks" !in KeySet(servicesConfig.fields) ==> TaskList(r, servicesConfig, envConfig, environment) == Ok([])
    ensures "scheduledTasks" in KeySet(servicesConfig.fields) && "taskDefinitionTemplates" !in KeySet(servicesConfig.fields) ==>
      TaskList(r, servicesConfig, envConfig, environment) == Err(KeyError("taskDefinitionTemplates"))
  {
  }

  /** Every task listed constructs, a dict section yields at most one task
      per entry, and for a section loaded from YAML (distinct keys) the
      result is what a working duplicate check would give. */
  lemma TaskListKept(r: Renderer, servicesConfig: Json, envConfig: Json, environment: string)
    requires TaskList(r, servicesConfig, envConfig, environment).Ok?
    ensures forall t :: t in TaskList(r, servicesConfig, envConfig, environment).value ==>
      ScheduledTasks.TaskIdentity(t.taskDefinition).Ok?
    ensures servicesConfig.JObj? && Get(servicesConfig.fields, "scheduledTasks").Some?
            && Get(servicesConfig.fields, "scheduledTasks").value.JObj? ==>
      var tasks := Get(servicesConfig.fields, "scheduledTasks").value;
      && |TaskList(r, servicesConfig, envConfig, environment).value| <= |tasks.fields|
      && (UniqueKeys(tasks.fields) ==>
            var ctx := TaskContext(r, tasks, envConfig, environment, Index(servicesConfig, "taskDefinitionTemplates").value);
            var names := ServiceNames(tasks).value;
            TaskList(r, servicesConfig, envConfig, environment) == KeepFrom(names, BuildTaskEach(ctx, names), 0))
  {
    if servicesConfig.JObj? && Get(servicesConfig.fields, "scheduledTasks").Some? {
      var tasks := Get(servicesConfig.fields, "scheduledTasks").value;
      var templates := Index(servicesConfig, "taskDefinitionTemplates").value;
      var names := ServiceNames(tasks).value;
      var ctx := TaskContext(r, tasks, envConfig, environment, templates);
      var results := BuildTaskEach(ctx, names);
      assert TaskList(r, servicesConfig, envConfig, environment) == KeepAll(results, 0);
      KeptIdentified(ctx, names);
      if tasks.JObj? && UniqueKeys(tasks.fields) {
        DistinctNames(tasks.fields, names);
        KeepAllIsKeepFrom(names, results, 0);
      }
    }
  }

  /** The tasks a successful loop keeps all construct, and there are at
      most as many as names. */
  lemma KeptIdentified(ctx: TaskContext, names: seq<string>)
    requires KeepAll(BuildTaskEach(ctx, names), 0).Ok?
    ensures |KeepAll(BuildTaskEach(ctx, names), 0).value| <= |names|
    ensures forall t :: t in KeepAll(BuildTaskEach(ctx, names), 0).value ==> ScheduledTasks.TaskIdentity(t.taskDefinition).Ok?
  {
    var results := BuildTaskEach(ctx, names);
    KeepAllKept(results, 0);
    forall t: ScheduledTasks.TaskSpec | t in KeepAll(results, 0).value
      ensures ScheduledTasks.TaskIdentity(t.taskDefinition).Ok?
    {
      var j :| 0 <= j < |names| && results[j] == Ok(Some(t));
      assert BuildTaskOne(ctx, names[j]) == Ok(Some(t));
    }
  }

  /** A new `ScheduledTask` as the constructor makes it from this
      specification. */
  predicate TaskMade(t: ScheduledTasks.ScheduledTask, spec: ScheduledTasks.TaskSpec)
    reads t
  {
    && ScheduledTasks.TaskIdentity(spec.taskDefinition).Ok?
    && var id := ScheduledTasks.TaskIdentity(spec.taskDefinition).value;
       && t.taskDefinition == spec.taskDefinition
       && t.taskEnvironment == id.0 && t.family == id.1
       && t.targetLambdaArn == spec.targetLambdaArn && t.scheduleExpression == spec.scheduleExpression
       && t.placementStrategy == spec.placementStrategy && t.placementConstraints == spec.placementConstraints
       && t.NoOrigin() && t.status == Normal && t.state == ScheduledTasks.Enabled
  }

  /** `TaskMade` pairwise, for a list of tasks and their specifications. */
  predicate AllTasksMade(out: seq<ScheduledTasks.ScheduledTask>, specs: seq<ScheduledTasks.TaskSpec>)
    reads out
  {
    |out| == |specs| && (|out| == 0 || (AllTasksMade(out[..|out| - 1], specs[..|specs| - 1]) && TaskMade(out[|out| - 1], specs[|specs| - 1])))
  }

  lemma AllTasksMadeAppend(out: seq<ScheduledTasks.ScheduledTask>, specs: seq<ScheduledTasks.TaskSpec>,
                           t: ScheduledTasks.ScheduledTask, spec: ScheduledTasks.TaskSpec)
    requires AllTasksMade(out, specs) && TaskMade(t, spec)
    ensures AllTasksMade(out + [t], specs + [spec])
  {
    assert (out + [t])[..|out|] == out;
    assert (specs + [spec])[..|specs|] == specs;
  }

  /** Each task of the list is made from the specification at its position. */
  lemma {:induction false} AllTasksMadeAt(out: seq<ScheduledTasks.ScheduledTask>, specs: seq<ScheduledTasks.TaskSpec>, k: nat)
    requires AllTasksMade(out, specs) && k < |out|
    ensures |out| == |specs| && TaskMade(out[k], specs[k])
    decreases |out|
  {
    var n := |out| - 1;
    if k < n {
      AllTasksMadeAt(out[..n], specs[..n], k);
      assert out[..n][k] == out[k] && specs[..n][k] == specs[k];
    }
  }

  /** The loop of `get_scheduled_task_list` on values, over the outcome of
      each name in the order the section lists them: the first failure
      ends it, a disabled task is skipped. */
  method CollectTasks<T>(results: seq<Result<Option<T>>>) returns (res: Result<seq<T>>)
    ensures res == KeepAll(results, 0)
  {
    var kept: seq<T> := [];
    var i := 0;
    PrefixedEmpty(KeepAll(results, 0));
    while i < |results|
      invariant 0 <= i <= |results|
      invariant KeepAll(results, 0) == Prefixed(kept, KeepAll(results, i))
    {
      KeepAllStep(results, i);
      var one := results[i];
      if one.Err? { return Err(one.error); }
      var piece := if one.value.Some? then [one.value.value] else [];
      PrefixedAppend(kept, piece, KeepAll(results, i + 1));
      kept := kept + piece;
      i := i + 1;
    }
    assert kept + [] == kept;
    res := Ok(kept);
  }

  /** The `ScheduledTask(...)` constructions of that loop, in the same order. */
  method ConstructTasks(specs: seq<ScheduledTasks.TaskSpec>) returns (out: seq<ScheduledTasks.ScheduledTask>)
    requires forall k :: 0 <= k < |specs| ==> ScheduledTasks.TaskIdentity(specs[k].taskDefinition).Ok?
    ensures |out| == |specs|
    ensures forall k :: 0 <= k < |specs| ==> fresh(out[k])
    ensures AllTasksMade(out, specs)
  {
    out := [];
    var i := 0;
    while i < |specs|
      invariant 0 <= i <= |specs| && |out| == i
      invariant forall k :: 0 <= k < i ==> fresh(out[k])
      invariant AllTasksMade(out, specs[..i])
    {
      TakeStep(specs, i);
      var t := ScheduledTasks.ScheduledTask.Create(specs[i]);
      if t.Err? { assert false; }
      AllTasksMadeAppend(out, specs[..i], t.value, specs[i]);
      out := out + [t.value];
      i := i + 1;
    }
    TakeAll(specs);
  }

  /** `get_scheduled_task_list` up to the constructions: the sections it
      reads and the loop on values. */
  method ReadTaskList(r: Renderer, servicesConfig: Json, envConfig: Json, environment: string)
    returns (res: Result<seq<ScheduledTasks.TaskSpec>>)
    ensures res == TaskList(r, servicesConfig, envConfig, environment)
  {
    if !servicesConfig.JObj? { return Err(TypeError("subscript")); }
    var tasks := Get(servicesConfig.fields, "scheduledTasks");
    if tasks.None? { return Ok([]); }
    var templates := Index(servicesConfig, "taskDefinitionTemplates");
    if templates.Err? { return Err(templates.error); }
    var names := ServiceNames(tasks.value);
    if names.Err? { return Err(names.error); }
    var ctx := TaskContext(r, tasks.value, envConfig, environment, templates.value);
    var results := BuildTaskEach(ctx, names.value);
    res := CollectTasks(results);
  }

  /** `get_scheduled_task_list`. */
  method GetScheduledTaskList(r: Renderer, servicesConfig: Json, envConfig: Json, environment: string)
    returns (res: Result<seq<ScheduledTasks.ScheduledTask>>)
    ensures res.Err? <==> TaskList(r, servicesConfig, envConfig, environment).Err?
    ensures res.Err? ==> res.error == TaskList(r, servicesConfig, envConfig, environment).error
    ensures res.Ok? ==>
      var specs := TaskList(r, servicesConfig, envConfig, environment).value;
      && |res.value| == |specs|
      && (forall k :: 0 <= k < |specs| ==> fresh(res.value[k]))
      && AllTasksMade(res.value, specs)
  {
    var specs := ReadTaskList(r, servicesConfig, envConfig, environment);
    if specs.Err? { return Err(specs.error); }
    TaskListKept(r, servicesConfig, envConfig, environment);
    var out := ConstructTasks(specs.value);
    res := Ok(out);
  }
}
