/** `DeployManager` and `get_deploy_list` of ecs/deploy.py: the deploy
    targets read from the configuration, matched against what the cloud
    runs, partitioned into stop-before-deploy and primary groups, and rolled
    out phase by phase through the task queue. */
module DeployManagement {
  import opened Base
  import opened Json
  import opened Py
  import opened Config
  import opened Services
  import opened ScheduledTasks
  import ServiceBuilder
  import ScheduledBuilder
  import Cloud
  import Canon
  import opened Deploy
  import opened Matching

  // ---------------------------------------------------------------------------
  // get_deploy_list

  /** Where the deploy targets come from: the loaded services and
      environment YAML, or the loaded task-definition config JSON together
      with the task definitions `get_service_list_json` reads from the
      rendered template files (reading and rendering them is not part of
      this model; an error there is the `Err` case). */
  datatype Source =
    | YamlSource(servicesConfig: Json, environmentConfig: Json)
    | JsonSource(taskDefinitionConfig: Json, definitions: Result<seq<Json>>)

  /** What `get_deploy_list` returns. */
  datatype DeployList = DeployList(
    services: seq<Service>, deployServices: seq<Service>,
    tasks: seq<ScheduledTask>, deployTasks: seq<ScheduledTask>,
    environment: Json)

  /** Some scheduled task has this family. */
  predicate HasFamily(tasks: seq<ScheduledTask>, family: string)
  {
    exists t :: t in tasks && t.family == family
  }

  /** The first family, in service order, that a deploy service shares
      with a deploy scheduled task. */
  function SharedFamily(services: seq<Service>, tasks: seq<ScheduledTask>): Option<string>
  {
    if services == [] then None
    else if HasFamily(tasks, services[0].family) then Some(services[0].family)
    else SharedFamily(services[1..], tasks)
  }

  /** A family is reported exactly when some service and some task share
      one, and it is the family of the first such service. */
  lemma {:induction false} SharedFamilyMeaning(services: seq<Service>, tasks: seq<ScheduledTask>)
    ensures SharedFamily(services, tasks).None? <==>
      forall i, j :: 0 <= i < |services| && 0 <= j < |tasks| ==> services[i].family != tasks[j].family
    ensures SharedFamily(services, tasks).Some? ==>
      exists i :: 0 <= i < |services| && services[i].family == SharedFamily(services, tasks).value
        && HasFamily(tasks, services[i].family)
        && forall k :: 0 <= k < i ==> !HasFamily(tasks, services[k].family)
  {
    if services != [] {
      SharedFamilyMeaning(services[1..], tasks);
      if !HasFamily(tasks, services[0].family) {
        var f := SharedFamily(services, tasks);
        if f.Some? {
          var i :| 0 <= i < |services[1..]| && services[1..][i].family == f.value
            && HasFamily(tasks, services[1..][i].family)
            && forall k :: 0 <= k < i ==> !HasFamily(tasks, services[1..][k].family);
          assert services[i + 1] == services[1..][i];
          assert forall k :: 0 < k < i + 1 ==> services[k] == services[1..][k - 1];
        } else {
          forall i, j | 0 <= i < |services| && 0 <= j < |tasks|
            ensures services[i].family != tasks[j].family
          {
            if i > 0 {
              assert services[i] == services[1..][i - 1];
            } else {
              assert tasks[j] in tasks;
            }
          }
        }
      } else {
        var t :| t in tasks && t.family == services[0].family;
        var j :| 0 <= j < |tasks| && tasks[j] == t;
        assert services[0].family == tasks[j].family;
      }
    }
  }

  /** The duplicate-family check of `get_deploy_list`: services in the
      outer loop, tasks in the inner one, stopping at the first clash. */
  method FindSharedFamily(services: seq<Service>, tasks: seq<ScheduledTask>) returns (found: Option<string>)
    ensures found == SharedFamily(services, tasks)
  {
    var i := 0;
    while i < |services|
      invariant 0 <= i <= |services|
      invariant SharedFamily(services, tasks) == SharedFamily(services[i..], tasks)
    {
      var j := 0;
      while j < |tasks|
        invariant 0 <= j <= |tasks|
        invariant forall k :: 0 <= k < j ==> tasks[k].family != services[i].family
      {
        if services[i].family == tasks[j].family {
          assert HasFamily(tasks, services[i].family);
          return Some(services[i].family);
        }
        j := j + 1;
      }
      assert !HasFamily(tasks, services[i].family) by {
        forall t | t in tasks ensures t.family != services[i].family {
          var k :| 0 <= k < |tasks| && tasks[k] == t;
        }
      }
      assert services[i..][1..] == services[i + 1..];
      i := i + 1;
    }
    found := None;
  }

  /** The families of a list of services, in order. */
  function Families(services: seq<Service>): (fs: seq<string>)
    ensures |fs| == |services| && forall k :: 0 <= k < |services| ==> fs[k] == services[k].family
  {
    seq(|services|, k requires 0 <= k < |services| => services[k].family)
  }

  /** The families of a list of scheduled tasks, in order: `Families` for
      the other element type, since a scheduled task is not a service. */
  function TaskFamilies(tasks: seq<ScheduledTask>): (fs: seq<string>)
    ensures |fs| == |tasks| && forall k :: 0 <= k < |tasks| ==> fs[k] == tasks[k].family
  {
    seq(|tasks|, k requires 0 <= k < |tasks| => tasks[k].family)
  }

  /** The first name of `fs` that `gs` holds too. */
  function SharedName(fs: seq<string>, gs: seq<string>): Option<string>
  {
    if fs == [] then None
    else if fs[0] in gs then Some(fs[0])
    else SharedName(fs[1..], gs)
  }

  /** The duplicate check depends on the families alone. */
  lemma {:induction false} SharedFamilyNames(services: seq<Service>, tasks: seq<ScheduledTask>)
    ensures SharedFamily(services, tasks) == SharedName(Families(services), TaskFamilies(tasks))
  {
    if services != [] {
      assert HasFamily(tasks, services[0].family) <==> services[0].family in TaskFamilies(tasks) by {
        if HasFamily(tasks, services[0].family) {
          var t :| t in tasks && t.family == services[0].family;
          var j :| 0 <= j < |tasks| && tasks[j] == t;
          assert TaskFamilies(tasks)[j] == services[0].family;
        }
      }
      assert Families(services)[1..] == Families(services[1..]);
      SharedFamilyNames(services[1..], tasks);
    }
  }

  /** What `get_deploy_list` refuses, given the families of the deploy
      services and of the deploy scheduled tasks: a family they share, then
      an empty target set. */
  function Refusal(serviceFamilies: seq<string>, taskFamilies: seq<string>): (e: Option<Error>)
    ensures e.None? <==> SharedName(serviceFamilies, taskFamilies).None? && (|serviceFamilies| > 0 || |taskFamilies| > 0)
    ensures SharedName(serviceFamilies, taskFamilies).Some? ==> e == Some(DuplicateFamily(SharedName(serviceFamilies, taskFamilies).value))
  {
    match SharedName(serviceFamilies, taskFamilies)
    case Some(f) => Some(DuplicateFamily(f))
    case None => if serviceFamilies == [] && taskFamilies == [] then Some(SystemExit(1)) else None
  }

  /** The groups and family a deploy target is selected and checked by. */
  datatype Named = Named(serviceGroup: Json, templateGroup: Json, family: string)

  /** The families, in order, of the targets both filters admit; `None`
      stands for a specification no target is made from. */
  function Admitted(names: seq<Option<Named>>, g: Option<string>, t: Option<string>): seq<string>
  {
    if names == [] then []
    else
      var n := names[0];
      var head := if n.Some? && GroupMatches(n.value.serviceGroup, g) && GroupMatches(n.value.templateGroup, t) then [n.value.family] else [];
      head + Admitted(names[1..], g, t)
  }

  function ServiceNamed(s: Service): Option<Named>
  {
    Some(Named(s.taskEnvironment.serviceGroup, s.taskEnvironment.templateGroup, s.family))
  }

  function TaskNamed(x: ScheduledTask): Option<Named>
  {
    Some(Named(x.taskEnvironment.serviceGroup, x.taskEnvironment.templateGroup, x.family))
  }

  /** The groups and family of the service a specification makes. */
  function SpecNamed(spec: ServiceSpec): Option<Named>
  {
    var id := ServiceIdentity(spec.taskDefinition);
    if id.Ok? then Some(Named(id.value.0.serviceGroup, id.value.0.templateGroup, id.value.1)) else None
  }

  /** The groups and family of the scheduled task a specification makes. */
  function TaskSpecNamed(spec: TaskSpec): Option<Named>
  {
    var id := TaskIdentity(spec.taskDefinition);
    if id.Ok? then Some(Named(id.value.0.serviceGroup, id.value.0.templateGroup, id.value.1)) else None
  }

  /** The families of the deploy services these specifications make. */
  function SpecFamilies(specs: seq<ServiceSpec>, g: Option<string>, t: Option<string>): seq<string>
  {
    Admitted(seq(|specs|, k requires 0 <= k < |specs| => SpecNamed(specs[k])), g, t)
  }

  /** The families of the deploy scheduled tasks these specifications make. */
  function TaskSpecFamilies(specs: seq<TaskSpec>, g: Option<string>, t: Option<string>): seq<string>
  {
    Admitted(seq(|specs|, k requires 0 <= k < |specs| => TaskSpecNamed(specs[k])), g, t)
  }

  /** Selecting services by group keeps the families `Admitted` keeps. */
  lemma {:induction false} SelectedServiceNames(out: seq<Service>, names: seq<Option<Named>>, g: Option<string>, t: Option<string>)
    requires |out| == |names| && forall k :: 0 <= k < |out| ==> names[k] == ServiceNamed(out[k])
    ensures Families(SelectServices(out, g, t)) == Admitted(names, g, t)
  {
    if out != [] {
      SelectedServiceNames(out[1..], names[1..], g, t);
      var head := if ServiceSelected(out[0], g, t) then [out[0]] else [];
      assert Families(head + SelectServices(out[1..], g, t)) == Families(head) + Families(SelectServices(out[1..], g, t));
    }
  }

  /** Selecting scheduled tasks by group keeps the families `Admitted` keeps. */
  lemma {:induction false} SelectedTaskNames(out: seq<ScheduledTask>, names: seq<Option<Named>>, g: Option<string>, t: Option<string>)
    requires |out| == |names| && forall k :: 0 <= k < |out| ==> names[k] == TaskNamed(out[k])
    ensures TaskFamilies(SelectTasks(out, g, t)) == Admitted(names, g, t)
  {
    if out != [] {
      SelectedTaskNames(out[1..], names[1..], g, t);
      var head := if TaskSelected(out[0], g, t) then [out[0]] else [];
      assert TaskFamilies(head + SelectTasks(out[1..], g, t)) == TaskFamilies(head) + TaskFamilies(SelectTasks(out[1..], g, t));
    }
  }

  lemma MadeNamed(x: Service, spec: ServiceSpec)
    requires ServiceBuilder.Made(x, spec)
    ensures SpecNamed(spec) == ServiceNamed(x)
  {
  }

  lemma TaskMadeNamed(x: ScheduledTask, spec: TaskSpec)
    requires ScheduledBuilder.TaskMade(x, spec)
    ensures TaskSpecNamed(spec) == TaskNamed(x)
  {
  }

  /** The deploy services made from a list of specifications carry the
      families of the specifications the groups admit. */
  lemma SelectedFamiliesMade(out: seq<Service>, specs: seq<ServiceSpec>, g: Option<string>, t: Option<string>)
    requires ServiceBuilder.AllMade(out, specs)
    ensures Families(SelectServices(out, g, t)) == SpecFamilies(specs, g, t)
  {
    var names := seq(|specs|, k requires 0 <= k < |specs| => SpecNamed(specs[k]));
    forall k | 0 <= k < |out| ensures names[k] == ServiceNamed(out[k]) {
      ServiceBuilder.AllMadeAt(out, specs, k);
      MadeNamed(out[k], specs[k]);
    }
    SelectedServiceNames(out, names, g, t);
  }

  /** The same for the deploy scheduled tasks. */
  lemma SelectedTaskFamiliesMade(out: seq<ScheduledTask>, specs: seq<TaskSpec>, g: Option<string>, t: Option<string>)
    requires ScheduledBuilder.AllTasksMade(out, specs)
    ensures TaskFamilies(SelectTasks(out, g, t)) == TaskSpecFamilies(specs, g, t)
  {
    var names := seq(|specs|, k requires 0 <= k < |specs| => TaskSpecNamed(specs[k]));
    forall k | 0 <= k < |out| ensures names[k] == TaskNamed(out[k]) {
      ScheduledBuilder.AllTasksMadeAt(out, specs, k);
      TaskMadeNamed(out[k], specs[k]);
    }
    SelectedTaskNames(out, names, g, t);
  }

  /** `environment_config.get("environment")`, which must be set. */
  function EnvironmentOf(environmentConfig: Json): (r: Result<Json>)
    ensures r.Ok? ==> environmentConfig.JObj? && Get(environmentConfig.fields, "environment") == Some(r.value) && r.value != JNull
    ensures environmentConfig.JObj? && (Get(environmentConfig.fields, "environment") == None || Get(environmentConfig.fields, "environment") == Some(JNull)) ==>
      r == Err(VariableNotFound("environment"))
  {
    var e :- ObjGet(environmentConfig, "environment");
    if e.None? || e.value == JNull then Err(VariableNotFound("environment")) else Ok(e.value)
  }

  /** What `get_service_list_json` hands to the `Service` constructor for
      each task definition: no stop-before-deploy, no primary placement and
      no placement, load-balancer, network or registry settings. */
  function JsonSpec(td: Json): ServiceSpec
  {
    ServiceSpec(td, false, false, JNull, JNull, JNull, JNull, JNull)
  }

  function JsonSpecs(tds: seq<Json>): (specs: seq<ServiceSpec>)
    ensures |specs| == |tds| && forall k :: 0 <= k < |tds| ==> specs[k] == JsonSpec(tds[k])
  {
    seq(|tds|, k requires 0 <= k < |tds| => JsonSpec(tds[k]))
  }

  /** The error of the first task definition the `Service` constructor
      refuses. */
  function FirstIdentityError(tds: seq<Json>): (e: Option<Error>)
    ensures e.None? <==> forall k :: 0 <= k < |tds| ==> ServiceIdentity(tds[k]).Ok?
  {
    if tds == [] then None
    else if ServiceIdentity(tds[0]).Err? then Some(ServiceIdentity(tds[0]).error)
    else FirstIdentityError(tds[1..])
  }

  /** The constructions of `get_service_list_json`, in order; the first
      definition the constructor refuses ends the list. */
  method BuildJsonServices(tds: seq<Json>) returns (res: Result<seq<Service>>)
    ensures res.Err? <==> FirstIdentityError(tds).Some?
    ensures res.Err? ==> res.error == FirstIdentityError(tds).value
    ensures res.Ok? ==> |res.value| == |tds| && (forall s :: s in res.value ==> fresh(s))
    ensures res.Ok? ==> ServiceBuilder.AllMade(res.value, JsonSpecs(tds))
  {
    var out: seq<Service> := [];
    var i := 0;
    while i < |tds|
      invariant 0 <= i <= |tds| && |out| == i
      invariant FirstIdentityError(tds) == FirstIdentityError(tds[i..])
      invariant forall s :: s in out ==> fresh(s)
      invariant ServiceBuilder.AllMade(out, JsonSpecs(tds)[..i])
    {
      assert tds[i..][1..] == tds[i + 1..];
      var s := Service.Create(JsonSpec(tds[i]));
      if s.Err? { return Err(s.error); }
      Canon.TakeStep(JsonSpecs(tds), i);
      assert ServiceBuilder.Made(s.value, JsonSpec(tds[i]));
      ServiceBuilder.AllMadeAppend(out, JsonSpecs(tds)[..i], s.value, JsonSpec(tds[i]));
      out := out + [s.value];
      i := i + 1;
    }
    Canon.TakeAll(JsonSpecs(tds));
    res := Ok(out);
  }

  /** The services, then the scheduled tasks, the YAML configuration
      describes for the environment; the first list that cannot be built
      is the error. */
  method BuildTargets(r: Renderer, servicesConfig: Json, environmentConfig: Json, environment: string)
    returns (res: Result<(seq<Service>, seq<ScheduledTask>)>)
    ensures var services := ServiceBuilder.ServiceList(r, servicesConfig, environmentConfig, environment);
      var tasks := ScheduledBuilder.TaskList(r, servicesConfig, environmentConfig, environment);
      && (res.Err? <==> services.Err? || tasks.Err?)
      && (services.Err? ==> res == Err(services.error))
      && (services.Ok? && tasks.Err? ==> res == Err(tasks.error))
      && (res.Ok? ==> ListsMade(res.value.0, res.value.1, services, tasks))
    ensures res.Ok? ==> (forall s :: s in res.value.0 ==> fresh(s)) && (forall t :: t in res.value.1 ==> fresh(t))
  {
    var built := ServiceBuilder.GetServiceListYaml(r, servicesConfig, environmentConfig, environment);
    if built.Err? { return Err(built.error); }
    var scheduled := ScheduledBuilder.GetScheduledTaskList(r, servicesConfig, environmentConfig, environment);
    if scheduled.Err? { return Err(scheduled.error); }
    forall s | s in built.value ensures fresh(s) {
      var k :| 0 <= k < |built.value| && built.value[k] == s;
    }
    forall t | t in scheduled.value ensures fresh(t) {
      var k :| 0 <= k < |scheduled.value| && scheduled.value[k] == t;
    }
    res := Ok((built.value, scheduled.value));
  }

  /** The environment of a YAML run: `environment` must be set, and is
      rendered with the environment configuration. */
  function RenderedEnvironment(r: Renderer, environmentConfig: Json): (res: Result<string>)
    ensures EnvironmentOf(environmentConfig).Err? ==> res == Err(EnvironmentOf(environmentConfig).error)
    ensures EnvironmentOf(environmentConfig).Ok? ==>
      res == r.render(Str(EnvironmentOf(environmentConfig).value, r.repr), environmentConfig.fields)
  {
    var e :- EnvironmentOf(environmentConfig);
    r.render(Str(e, r.repr), environmentConfig.fields)
  }

  /** Why `get_deploy_list` fails on a YAML configuration once its
      environment is rendered: the service list, then the scheduled-task
      list, then a family a deploy service shares with a deploy scheduled
      task, then an empty target set. */
  function TargetsError(r: Renderer, servicesConfig: Json, environmentConfig: Json, environment: string,
                        g: Option<string>, t: Option<string>): Option<Error>
  {
    TargetsVerdict(ServiceBuilder.ServiceList(r, servicesConfig, environmentConfig, environment),
                   ScheduledBuilder.TaskList(r, servicesConfig, environmentConfig, environment), g, t)
  }

  /** The error of the first list that failed, else the refusal of the
      families their specifications give. */
  function TargetsVerdict(specs: Result<seq<ServiceSpec>>, taskSpecs: Result<seq<TaskSpec>>, g: Option<string>, t: Option<string>): Option<Error>
  {
    match specs
    case Err(e) => Some(e)
    case Ok(ss) =>
      match taskSpecs
      case Err(e) => Some(e)
      case Ok(ts) => Refusal(SpecFamilies(ss, g, t), TaskSpecFamilies(ts, g, t))
  }

  /** The services and scheduled tasks are made, in order, from the
      specifications the two lists hold. */
  predicate ListsMade(services: seq<Service>, tasks: seq<ScheduledTask>, specs: Result<seq<ServiceSpec>>, taskSpecs: Result<seq<TaskSpec>>)
    reads services, tasks
  {
    && specs.Ok? && taskSpecs.Ok?
    && ServiceBuilder.AllMade(services, specs.value) && ScheduledBuilder.AllTasksMade(tasks, taskSpecs.value)
  }

  /** Built lists are refused exactly as their specifications are. */
  lemma ListsRefusal(services: seq<Service>, tasks: seq<ScheduledTask>, specs: Result<seq<ServiceSpec>>, taskSpecs: Result<seq<TaskSpec>>,
                     g: Option<string>, t: Option<string>)
    requires ListsMade(services, tasks, specs, taskSpecs)
    ensures TargetsVerdict(specs, taskSpecs, g, t) == Refusal(Families(SelectServices(services, g, t)), TaskFamilies(SelectTasks(tasks, g, t)))
  {
    SelectedFamiliesMade(services, specs.value, g, t);
    SelectedTaskFamiliesMade(tasks, taskSpecs.value, g, t);
  }

  /** Why `get_deploy_list` fails on a YAML configuration: the
      environment first, then the targets. */
  function YamlListError(r: Renderer, servicesConfig: Json, environmentConfig: Json, g: Option<string>, t: Option<string>): Option<Error>
  {
    match RenderedEnvironment(r, environmentConfig)
    case Err(e) => Some(e)
    case Ok(environment) => TargetsError(r, servicesConfig, environmentConfig, environment, g, t)
  }

  /** Why `get_deploy_list` fails on a JSON configuration: the
      environment, then the task definitions, then the first one the
      `Service` constructor refuses, then an empty target set (there are no
      scheduled tasks to clash with). */
  function JsonListError(config: Json, definitions: Result<seq<Json>>, g: Option<string>, t: Option<string>): Option<Error>
  {
    match Index(config, "environment")
    case Err(e) => Some(e)
    case Ok(_) =>
      match definitions
      case Err(e) => Some(e)
      case Ok(tds) => if FirstIdentityError(tds).Some? then FirstIdentityError(tds) else Refusal(SpecFamilies(JsonSpecs(tds), g, t), [])
  }

  /** Why `get_deploy_list` fails, stated on the configuration. */
  function DeployListError(r: Renderer, source: Source, g: Option<string>, t: Option<string>): Option<Error>
  {
    match source
    case YamlSource(servicesConfig, environmentConfig) => YamlListError(r, servicesConfig, environmentConfig, g, t)
    case JsonSource(config, definitions) => JsonListError(config, definitions, g, t)
  }

  /** The end of `get_deploy_list`: the two selections, then the duplicate
      family check, then the empty check. */
  method Conclude(services: seq<Service>, tasks: seq<ScheduledTask>, deployTasks: seq<ScheduledTask>, environment: Json,
                  g: Option<string>, t: Option<string>)
    returns (res: Result<DeployList>)
    requires deployTasks == SelectTasks(tasks, g, t)
    ensures var refusal := Refusal(Families(SelectServices(services, g, t)), TaskFamilies(deployTasks));
      && (refusal.Some? ==> res == Err(refusal.value))
      && (refusal.None? ==> res == Ok(DeployList(services, SelectServices(services, g, t), tasks, deployTasks, environment)))
    ensures res.Ok? ==> SharedFamily(res.value.deployServices, res.value.deployTasks).None?
  {
    var deployServices := GetDeployServiceList(services, g, t);
    var shared := FindSharedFamily(deployServices, deployTasks);
    SharedFamilyNames(deployServices, deployTasks);
    if shared.Some? { return Err(DuplicateFamily(shared.value)); }
    if |deployServices| == 0 && |deployTasks| == 0 { return Err(SystemExit(1)); }
    res := Ok(DeployList(services, deployServices, tasks, deployTasks, environment));
  }

  /** `get_deploy_list` on a YAML configuration once its environment is
      rendered: the services and scheduled tasks it describes, then the
      selections and the checks. */
  method GetYamlTargets(r: Renderer, servicesConfig: Json, environmentConfig: Json, environment: string,
                        g: Option<string>, t: Option<string>)
    returns (res: Result<DeployList>)
    ensures res.Err? <==> TargetsError(r, servicesConfig, environmentConfig, environment, g, t).Some?
    ensures res.Err? ==> res.error == TargetsError(r, servicesConfig, environmentConfig, environment, g, t).value
    ensures res.Ok? ==>
      && res.value.deployServices == SelectServices(res.value.services, g, t)
      && res.value.deployTasks == SelectTasks(res.value.tasks, g, t)
      && SharedFamily(res.value.deployServices, res.value.deployTasks).None?
      && (|res.value.deployServices| > 0 || |res.value.deployTasks| > 0)
      && (forall s :: s in res.value.services ==> fresh(s)) && (forall x :: x in res.value.tasks ==> fresh(x))
      && res.value.environment == JStr(environment)
    ensures res.Ok? ==>
      ListsMade(res.value.services, res.value.tasks, ServiceBuilder.ServiceList(r, servicesConfig, environmentConfig, environment),
                ScheduledBuilder.TaskList(r, servicesConfig, environmentConfig, environment))
  {
    ghost var specs := ServiceBuilder.ServiceList(r, servicesConfig, environmentConfig, environment);
    ghost var taskSpecs := ScheduledBuilder.TaskList(r, servicesConfig, environmentConfig, environment);
    assert TargetsError(r, servicesConfig, environmentConfig, environment, g, t) == TargetsVerdict(specs, taskSpecs, g, t);
    var built := BuildTargets(r, servicesConfig, environmentConfig, environment);
    if built.Err? { return Err(built.error); }
    var services, tasks := built.value.0, built.value.1;
    var deployTasks := GetDeployScheduledTaskList(tasks, g, t);
    ListsRefusal(services, tasks, specs, taskSpecs, g, t);
    res := Conclude(services, tasks, deployTasks, JStr(environment), g, t);
  }

  /** `get_deploy_list` on a YAML configuration: `environment` must be set
      and is rendered before anything is built. */
  method GetYamlDeployList(r: Renderer, servicesConfig: Json, environmentConfig: Json, g: Option<string>, t: Option<string>)
    returns (res: Result<DeployList>)
    ensures res.Err? <==> YamlListError(r, servicesConfig, environmentConfig, g, t).Some?
    ensures res.Err? ==> res.error == YamlListError(r, servicesConfig, environmentConfig, g, t).value
    ensures res.Ok? ==>
      && res.value.deployServices == SelectServices(res.value.services, g, t)
      && res.value.deployTasks == SelectTasks(res.value.tasks, g, t)
      && SharedFamily(res.value.deployServices, res.value.deployTasks).None?
      && (|res.value.deployServices| > 0 || |res.value.deployTasks| > 0)
      && (forall s :: s in res.value.services ==> fresh(s)) && (forall x :: x in res.value.tasks ==> fresh(x))
      && res.value.environment.JStr? && RenderedEnvironment(r, environmentConfig) == Ok(res.value.environment.s)
    ensures res.Ok? && res.value.environment.JStr? ==>
      ListsMade(res.value.services, res.value.tasks, ServiceBuilder.ServiceList(r, servicesConfig, environmentConfig, res.value.environment.s),
                ScheduledBuilder.TaskList(r, servicesConfig, environmentConfig, res.value.environment.s))
  {
    var environment := RenderedEnvironment(r, environmentConfig);
    if environment.Err? { return Err(environment.error); }
    res := GetYamlTargets(r, servicesConfig, environmentConfig, environment.value, g, t);
  }

  /** `get_deploy_list` on a JSON configuration: services only. */
  method GetJsonDeployList(config: Json, definitions: Result<seq<Json>>, g: Option<string>, t: Option<string>)
    returns (res: Result<DeployList>)
    ensures res.Err? <==> JsonListError(config, definitions, g, t).Some?
    ensures res.Err? ==> res.error == JsonListError(config, definitions, g, t).value
    ensures res.Ok? ==>
      && res.value.deployServices == SelectServices(res.value.services, g, t)
      && res.value.tasks == [] && res.value.deployTasks == []
      && SharedFamily(res.value.deployServices, res.value.deployTasks).None?
      && |res.value.deployServices| > 0
      && (forall s :: s in res.value.services ==> fresh(s))
      && definitions.Ok? && |res.value.services| == |definitions.value|
      && ServiceBuilder.AllMade(res.value.services, JsonSpecs(definitions.value))
      && Index(config, "environment") == Ok(res.value.environment)
  {
    var env := Index(config, "environment");
    if env.Err? { return Err(env.error); }
    if definitions.Err? { return Err(definitions.error); }
    var built := BuildJsonServices(definitions.value);
    if built.Err? { return Err(built.error); }
    SelectedFamiliesMade(built.value, JsonSpecs(definitions.value), g, t);
    res := Conclude(built.value, [], [], env.value, g, t);
  }

  /** `get_deploy_list`. It fails exactly as `DeployListError` says; what it
      returns is made from the configuration's specifications. */
  method GetDeployList(r: Renderer, source: Source, serviceGroup: Option<string>, templateGroup: Option<string>)
    returns (res: Result<DeployList>)
    ensures res.Err? <==> DeployListError(r, source, serviceGroup, templateGroup).Some?
    ensures res.Err? ==> res.error == DeployListError(r, source, serviceGroup, templateGroup).value
    ensures res.Ok? ==> res.value.deployServices == SelectServices(res.value.services, serviceGroup, templateGroup)
    ensures res.Ok? ==> res.value.deployTasks == SelectTasks(res.value.tasks, serviceGroup, templateGroup)
    ensures res.Ok? ==> SharedFamily(res.value.deployServices, res.value.deployTasks).None?
    ensures res.Ok? ==> |res.value.deployServices| > 0 || |res.value.deployTasks| > 0
    ensures res.Ok? ==> (forall s :: s in res.value.services ==> fresh(s)) && (forall t :: t in res.value.tasks ==> fresh(t))
    ensures res.Ok? && source.JsonSource? ==>
      && source.definitions.Ok? && res.value.tasks == []
      && |res.value.services| == |source.definitions.value|
      && ServiceBuilder.AllMade(res.value.services, JsonSpecs(source.definitions.value))
      && Index(source.taskDefinitionConfig, "environment") == Ok(res.value.environment)
    ensures res.Ok? && source.YamlSource? ==>
      var environment := res.value.environment;
      && environment.JStr? && RenderedEnvironment(r, source.environmentConfig) == Ok(environment.s)
      && ListsMade(res.value.services, res.value.tasks,
                   ServiceBuilder.ServiceList(r, source.servicesConfig, source.environmentConfig, environment.s),
                   ScheduledBuilder.TaskList(r, source.servicesConfig, source.environmentConfig, environment.s))
  {
    match source {
    case YamlSource(servicesConfig, environmentConfig) =>
      res := GetYamlDeployList(r, servicesConfig, environmentConfig, serviceGroup, templateGroup);
    case JsonSource(config, definitions) =>
      res := GetJsonDeployList(config, definitions, serviceGroup, templateGroup);
      SelectTasksUnfiltered([]);
    }
  }

  // ---------------------------------------------------------------------------
  // _service_config and _set_deploy_list

  /** The thread-count clamp: no more workers than deploy targets. */
  function ClampThreads(threads: int, deploySize: int): (n: int)
    ensures n <= threads && n <= deploySize
    ensures n == threads || n == deploySize
  {
    if deploySize < threads then deploySize else threads
  }

  /** A service stops before it is deployed when the run allows it and the
      service asks for it. */
  predicate StopsFirst(s: Service, isStopBeforeDeploy: bool)
  {
    isStopBeforeDeploy && s.stopBeforeDeploy
  }

  /** The services of one of the four groups of `_set_deploy_list`, in
      their original order. */
  function Pick(services: seq<Service>, stop: bool, primary: bool, isStopBeforeDeploy: bool): seq<Service>
  {
    if services == [] then []
    else
      Pick(services[..|services| - 1], stop, primary, isStopBeforeDeploy)
        + Placed(services[|services| - 1], stop, primary, isStopBeforeDeploy)
  }

  /** The service itself when it belongs to the group, and nothing otherwise. */
  function Placed(s: Service, stop: bool, primary: bool, isStopBeforeDeploy: bool): seq<Service>
  {
    if StopsFirst(s, isStopBeforeDeploy) == stop && s.isPrimaryPlacement == primary then [s] else []
  }

  /** A group listed after `init` grows at step i by the service placed there. */
  lemma PickStep(init: seq<Service>, services: seq<Service>, i: nat, stop: bool, primary: bool, flag: bool)
    requires i < |services|
    ensures init + Pick(services[..i + 1], stop, primary, flag)
      == (init + Pick(services[..i], stop, primary, flag)) + Placed(services[i], stop, primary, flag)
  {
    assert services[..i + 1][..i] == services[..i];
    Canon.AppendAssoc(init, Pick(services[..i], stop, primary, flag), Placed(services[i], stop, primary, flag));
  }

  /** Each service lands in exactly the group its two flags name: the four
      groups are disjoint and together hold every deploy target. */
  lemma {:induction false} PickMembers(services: seq<Service>, stop: bool, primary: bool, flag: bool, s: Service)
    ensures s in Pick(services, stop, primary, flag) <==>
      s in services && StopsFirst(s, flag) == stop && s.isPrimaryPlacement == primary
  {
    if services != [] {
      var init := services[..|services| - 1];
      PickMembers(init, stop, primary, flag, s);
      assert services == init + [services[|services| - 1]];
    }
  }

  /** The four groups together are as long as the targets, so no service
      is placed twice. */
  lemma {:induction false} PickSizes(services: seq<Service>, flag: bool)
    ensures |Pick(services, true, true, flag)| + |Pick(services, true, false, flag)|
          + |Pick(services, false, true, flag)| + |Pick(services, false, false, flag)| == |services|
  {
    if services != [] {
      PickSizes(services[..|services| - 1], flag);
    }
  }

  /** Without the run's stop-before-deploy flag both stop groups are empty. */
  lemma {:induction false} PickWithoutStop(services: seq<Service>, primary: bool)
    ensures Pick(services, true, primary, false) == []
  {
    if services != [] {
      PickWithoutStop(services[..|services| - 1], primary);
    }
  }

  /** Grouping a concatenation concatenates the groups: order is kept. */
  lemma {:induction false} PickAppend(a: seq<Service>, b: seq<Service>, stop: bool, primary: bool, flag: bool)
    ensures Pick(a + b, stop, primary, flag) == Pick(a, stop, primary, flag) + Pick(b, stop, primary, flag)
  {
    if b == [] {
      assert a + b == a;
    } else {
      var init, last := b[..|b| - 1], b[|b| - 1];
      assert (a + b)[..|a + b| - 1] == a + init;
      calc {
        Pick(a + b, stop, primary, flag);
        Pick(a + init, stop, primary, flag) + Placed(last, stop, primary, flag);
        { PickAppend(a, init, stop, primary, flag); }
        (Pick(a, stop, primary, flag) + Pick(init, stop, primary, flag)) + Placed(last, stop, primary, flag);
        { Canon.AppendAssoc(Pick(a, stop, primary, flag), Pick(init, stop, primary, flag), Placed(last, stop, primary, flag)); }
        Pick(a, stop, primary, flag) + Pick(b, stop, primary, flag);
      }
    }
  }

  /** A service is placed in exactly one of the four groups. */
  lemma PlacedOnce(s: Service, flag: bool)
    ensures multiset(Placed(s, true, true, flag)) + multiset(Placed(s, true, false, flag))
          + multiset(Placed(s, false, true, flag)) + multiset(Placed(s, false, false, flag))
          == multiset{s}
  {
  }

  /** The four groups put together hold each deploy target exactly as often
      as the targets do. */
  lemma {:induction false} PickPartition(services: seq<Service>, flag: bool)
    ensures multiset(Pick(services, true, true, flag)) + multiset(Pick(services, true, false, flag))
          + multiset(Pick(services, false, true, flag)) + multiset(Pick(services, false, false, flag))
          == multiset(services)
  {
    if services != [] {
      var init, last := services[..|services| - 1], services[|services| - 1];
      assert services == init + [last];
      assert multiset(services) == multiset(init) + multiset{last};
      assert multiset(Pick(services, true, true, flag)) == multiset(Pick(init, true, true, flag)) + multiset(Placed(last, true, true, flag));
      assert multiset(Pick(services, true, false, flag)) == multiset(Pick(init, true, false, flag)) + multiset(Placed(last, true, false, flag));
      assert multiset(Pick(services, false, true, flag)) == multiset(Pick(init, false, true, flag)) + multiset(Placed(last, false, true, flag));
      assert multiset(Pick(services, false, false, flag)) == multiset(Pick(init, false, false, flag)) + multiset(Placed(last, false, false, flag));
      PickPartition(init, flag);
      PlacedOnce(last, flag);
    }
  }

  // ---------------------------------------------------------------------------
  // the batches the phases queue

  function ServiceUnits(xs: seq<Service>, mode: Mode): (us: seq<Unit>)
    ensures |us| == |xs| && forall k :: 0 <= k < |xs| ==> us[k] == Unit(ServiceTarget(xs[k]), mode)
  {
    seq(|xs|, k requires 0 <= k < |xs| => Unit(ServiceTarget(xs[k]), mode))
  }

  function DescribeUnits(xs: seq<DescribeService>, mode: Mode): (us: seq<Unit>)
    ensures |us| == |xs| && forall k :: 0 <= k < |xs| ==> us[k] == Unit(DescribeTarget(xs[k]), mode)
  {
    seq(|xs|, k requires 0 <= k < |xs| => Unit(DescribeTarget(xs[k]), mode))
  }

  function TaskUnits(xs: seq<ScheduledTask>, mode: Mode): (us: seq<Unit>)
    ensures |us| == |xs| && forall k :: 0 <= k < |xs| ==> us[k] == Unit(TaskTarget(xs[k]), mode)
  {
    seq(|xs|, k requires 0 <= k < |xs| => Unit(TaskTarget(xs[k]), mode))
  }

  function RuleUnits(xs: seq<CloudwatchEventRule>, mode: Mode): (us: seq<Unit>)
    ensures |us| == |xs| && forall k :: 0 <= k < |xs| ==> us[k] == Unit(RuleTarget(xs[k]), mode)
  {
    seq(|xs|, k requires 0 <= k < |xs| => Unit(RuleTarget(xs[k]), mode))
  }

  /** `_wait_for_stable`: the batch is joined even when it is empty. */
  function WaitBatch(xs: seq<Service>): seq<Unit>
  {
    ServiceUnits(xs, WaitForStable)
  }

  /** `_stop_before_deploy`: both groups go into one stop batch, then each
      group's stable wait is joined in turn. */
  function StopBatches(primary: seq<Service>, other: seq<Service>): seq<seq<Unit>>
  {
    if |primary| > 0 || |other| > 0
    then [ServiceUnits(primary, StopBeforeDeploy) + ServiceUnits(other, StopBeforeDeploy), WaitBatch(primary), WaitBatch(other)]
    else []
  }

  /** `_deploy_service` and `_start_after_deploy`: the first group is
      deployed and waited for before the second is queued. */
  function RolloutBatches(first: seq<Service>, second: seq<Service>): seq<seq<Unit>>
  {
    (if |first| > 0 then [ServiceUnits(first, DeployService), WaitBatch(first)] else [])
    + (if |second| > 0 then [ServiceUnits(second, DeployService), WaitBatch(second)] else [])
  }

  /** Every service a rollout deploys is waited for after its own batch and
      before any later group is queued: a batch of the second group comes
      only after the first group's wait. */
  lemma RolloutOrder(first: seq<Service>, second: seq<Service>)
    ensures |RolloutBatches(first, second)| == (if |first| > 0 then 2 else 0) + (if |second| > 0 then 2 else 0)
    ensures |first| > 0 ==>
      RolloutBatches(first, second)[0] == ServiceUnits(first, DeployService)
      && RolloutBatches(first, second)[1] == WaitBatch(first)
    ensures |second| > 0 ==>
      var n := if |first| > 0 then 2 else 0;
      RolloutBatches(first, second)[n] == ServiceUnits(second, DeployService)
      && RolloutBatches(first, second)[n + 1] == WaitBatch(second)
  {
  }

  /** The service a unit queues with `ProcessMode.deployService`, if any. */
  function DeployedBy(u: Unit): multiset<Service>
  {
    if u.mode.DeployService? && u.target.ServiceTarget? then multiset{u.target.service} else multiset{}
  }

  /** The services a batch queues with `ProcessMode.deployService`, as
      often as they are queued. */
  function Deployed(batch: seq<Unit>): multiset<Service>
  {
    if batch == [] then multiset{}
    else Deployed(batch[..|batch| - 1]) + DeployedBy(batch[|batch| - 1])
  }

  /** The services a run of batches deploys. */
  function DeployedAll(batches: seq<seq<Unit>>): multiset<Service>
  {
    if batches == [] then multiset{}
    else DeployedAll(batches[..|batches| - 1]) + Deployed(batches[|batches| - 1])
  }

  lemma {:induction false} DeployedAppend(a: seq<Unit>, b: seq<Unit>)
    ensures Deployed(a + b) == Deployed(a) + Deployed(b)
  {
    if b == [] {
      assert a + b == a;
    } else {
      var init, last := b[..|b| - 1], b[|b| - 1];
      assert (a + b)[..|a + b| - 1] == a + init;
      calc {
        Deployed(a + b);
        Deployed(a + init) + DeployedBy(last);
        { DeployedAppend(a, init); }
        Deployed(a) + Deployed(init) + DeployedBy(last);
        Deployed(a) + Deployed(b);
      }
    }
  }

  lemma {:induction false} DeployedAllAppend(a: seq<seq<Unit>>, b: seq<seq<Unit>>)
    ensures DeployedAll(a + b) == DeployedAll(a) + DeployedAll(b)
  {
    if b == [] {
      assert a + b == a;
    } else {
      var init, last := b[..|b| - 1], b[|b| - 1];
      assert (a + b)[..|a + b| - 1] == a + init;
      calc {
        DeployedAll(a + b);
        DeployedAll(a + init) + Deployed(last);
        { DeployedAllAppend(a, init); }
        DeployedAll(a) + DeployedAll(init) + Deployed(last);
        DeployedAll(a) + DeployedAll(b);
      }
    }
  }

  /** A batch of one mode deploys its services when the mode is
      `deployService`, and nothing otherwise. */
  lemma {:induction false} DeployedUnits(xs: seq<Service>, mode: Mode)
    ensures Deployed(ServiceUnits(xs, mode)) == if mode.DeployService? then multiset(xs) else multiset{}
  {
    if xs != [] {
      var init, last := xs[..|xs| - 1], xs[|xs| - 1];
      var us := ServiceUnits(xs, mode);
      assert us[..|us| - 1] == ServiceUnits(init, mode);
      assert xs == init + [last];
      calc {
        Deployed(us);
        Deployed(ServiceUnits(init, mode)) + DeployedBy(Unit(ServiceTarget(last), mode));
        { DeployedUnits(init, mode); }
        (if mode.DeployService? then multiset(init) else multiset{}) + DeployedBy(Unit(ServiceTarget(last), mode));
      }
    }
  }

  /** A batch with no service queued for deployment deploys nothing. */
  lemma {:induction false} DeployedNone(batch: seq<Unit>)
    requires forall k :: 0 <= k < |batch| ==> !batch[k].target.ServiceTarget? || !batch[k].mode.DeployService?
    ensures Deployed(batch) == multiset{}
  {
    if batch != [] {
      DeployedNone(batch[..|batch| - 1]);
    }
  }

  /** Batches of described services, tasks and rules deploy nothing. */
  lemma DescribedDeployNothing(xs: seq<DescribeService>, mode: Mode)
    ensures Deployed(DescribeUnits(xs, mode)) == multiset{}
  {
    DeployedNone(DescribeUnits(xs, mode));
  }

  lemma TasksDeployNothing(xs: seq<ScheduledTask>, mode: Mode)
    ensures Deployed(TaskUnits(xs, mode)) == multiset{}
  {
    DeployedNone(TaskUnits(xs, mode));
  }

  lemma RulesDeployNothing(xs: seq<CloudwatchEventRule>, mode: Mode)
    ensures Deployed(RuleUnits(xs, mode)) == multiset{}
  {
    DeployedNone(RuleUnits(xs, mode));
  }

  lemma DeployedPair(x: seq<Unit>, y: seq<Unit>)
    ensures DeployedAll([x, y]) == Deployed(x) + Deployed(y)
  {
    assert [x, y][..1] == [x];
    assert [x][..0] == [];
    assert DeployedAll([x]) == Deployed(x);
  }

  lemma DeployedSingle(x: seq<Unit>)
    ensures DeployedAll([x]) == Deployed(x)
  {
    assert [x][..0] == [];
  }

  lemma DeployedTriple(x: seq<Unit>, y: seq<Unit>, z: seq<Unit>)
    ensures DeployedAll([x, y, z]) == Deployed(x) + Deployed(y) + Deployed(z)
  {
    assert [x, y, z][..2] == [x, y];
    DeployedPair(x, y);
  }

  /** A rollout deploys each service of its two groups once per listing. */
  lemma RolloutDeploys(first: seq<Service>, second: seq<Service>)
    ensures DeployedAll(RolloutBatches(first, second)) == multiset(first) + multiset(second)
  {
    var a := if |first| > 0 then [ServiceUnits(first, DeployService), WaitBatch(first)] else [];
    var b := if |second| > 0 then [ServiceUnits(second, DeployService), WaitBatch(second)] else [];
    DeployedAllAppend(a, b);
    DeployedUnits(first, DeployService);
    DeployedUnits(first, WaitForStable);
    DeployedUnits(second, DeployService);
    DeployedUnits(second, WaitForStable);
    DeployedPair(ServiceUnits(first, DeployService), WaitBatch(first));
    DeployedPair(ServiceUnits(second, DeployService), WaitBatch(second));
  }

  /** Stopping before the deploy deploys nothing. */
  lemma StopDeploysNothing(primary: seq<Service>, other: seq<Service>)
    ensures DeployedAll(StopBatches(primary, other)) == multiset{}
  {
    if |primary| > 0 || |other| > 0 {
      DeployedAppend(ServiceUnits(primary, StopBeforeDeploy), ServiceUnits(other, StopBeforeDeploy));
      DeployedUnits(primary, StopBeforeDeploy);
      DeployedUnits(other, StopBeforeDeploy);
      DeployedUnits(primary, WaitForStable);
      DeployedUnits(other, WaitForStable);
      DeployedTriple(ServiceUnits(primary, StopBeforeDeploy) + ServiceUnits(other, StopBeforeDeploy), WaitBatch(primary), WaitBatch(other));
    }
  }

  /** The calls `_delete_unused` makes for the rules to delete. */
  function RuleDeleteCalls(obs: seq<RuleObservation>): (calls: seq<Cloud.Call>)
    requires forall k :: 0 <= k < |obs| ==> obs[k].1.Some?
    ensures |calls| == |obs| && forall k :: 0 <= k < |calls| ==> calls[k].DeleteScheduledTask?
  {
    if obs == [] then []
    else
      RuleDeleteCalls(obs[..|obs| - 1])
        + [Cloud.Call.DeleteScheduledTask(obs[|obs| - 1].0.name, obs[|obs| - 1].1.value.targetLambdaArn)]
  }

  /** Every observed rule has a task environment to read its target from. */
  predicate Targeted(obs: seq<RuleObservation>)
  {
    forall k :: 0 <= k < |obs| ==> obs[k].1.Some?
  }

  /** The names of the observed rules. */
  function RuleNames(obs: seq<RuleObservation>): (names: set<string>)
    ensures forall k :: 0 <= k < |obs| ==> obs[k].0.name in names
    ensures forall n :: n in names ==> exists k :: 0 <= k < |obs| && obs[k].0.name == n
  {
    set k | 0 <= k < |obs| :: obs[k].0.name
  }

  /** The rules of a `list_rules` answer the task manager made. */
  function Managed(listed: seq<Cloud.RuleDescription>): seq<Cloud.RuleDescription>
  {
    if listed == [] then []
    else
      Managed(listed[..|listed| - 1])
        + (if listed[|listed| - 1].description == Some(ManagedDescription) then [listed[|listed| - 1]] else [])
  }

  /** A listed rule is kept exactly when its description is the managed
      one. */
  lemma {:induction false} ManagedMembers(listed: seq<Cloud.RuleDescription>, d: Cloud.RuleDescription)
    ensures d in Managed(listed) <==> d in listed && d.description == Some(ManagedDescription)
  {
    if listed != [] {
      ManagedMembers(listed[..|listed| - 1], d);
      assert listed == listed[..|listed| - 1] + [listed[|listed| - 1]];
    }
  }

  /** The first managed rule whose state the rule constructor refuses. */
  function FirstBadState(rules: seq<Cloud.RuleDescription>): (bad: Option<string>)
    ensures bad.None? <==> forall k :: 0 <= k < |rules| ==> GetState(rules[k].state).Ok?
  {
    if rules == [] then None
    else if GetState(rules[0].state).Err? then Some(rules[0].state)
    else FirstBadState(rules[1..])
  }

  /** A rule object as `CloudwatchEventRule(rule)` makes it from a managed
      rule. */
  predicate RuleMade(c: CloudwatchEventRule, d: Cloud.RuleDescription)
    reads c
  {
    && c.name == d.name && c.arn == d.arn && GetState(d.state) == Ok(c.state)
    && c.taskDefinition.None? && c.taskEnvironment.None? && c.family.None? && c.status == Normal
  }

  /** The managed rules of a `list_rules` answer, each made into a rule
      object; an unknown state ends the pass. */
  method ManagedRules(listed: seq<Cloud.RuleDescription>) returns (res: Result<seq<CloudwatchEventRule>>)
    ensures res.Err? <==> FirstBadState(Managed(listed)).Some?
    ensures res.Err? ==> res.error == UnknownState(FirstBadState(Managed(listed)).value)
    ensures res.Ok? ==> |res.value| == |Managed(listed)|
    ensures res.Ok? ==> forall k :: 0 <= k < |res.value| ==> fresh(res.value[k]) && RuleMade(res.value[k], Managed(listed)[k])
  {
    var out: seq<CloudwatchEventRule> := [];
    ghost var managed: seq<Cloud.RuleDescription> := [];
    var i := 0;
    while i < |listed|
      invariant 0 <= i <= |listed|
      invariant managed == Managed(listed[..i]) && |out| == |managed|
      invariant FirstBadState(managed).None?
      invariant forall k :: 0 <= k < |out| ==> fresh(out[k]) && RuleMade(out[k], managed[k])
    {
      Canon.TakeStep(listed, i);
      assert listed[..i + 1][..i] == listed[..i];
      var d := listed[i];
      if d.description == Some(ManagedDescription) {
        var c := CloudwatchEventRule.Create(d);
        ManagedBadStep(managed, d);
        if c.Err? {
          ManagedPrefix(listed, i);
          return Err(c.error);
        }
        out := out + [c.value];
        managed := managed + [d];
      }
      i := i + 1;
    }
    Canon.TakeAll(listed);
    res := Ok(out);
  }

  /** Appending a rule with a known state keeps the list free of unknown
      states; appending one with an unknown state makes it the first. */
  lemma {:induction false} ManagedBadStep(managed: seq<Cloud.RuleDescription>, d: Cloud.RuleDescription)
    requires FirstBadState(managed).None?
    ensures FirstBadState(managed + [d]) == if GetState(d.state).Err? then Some(d.state) else None
  {
    if managed != [] {
      assert (managed + [d])[1..] == managed[1..] + [d];
      ManagedBadStep(managed[1..], d);
    }
  }

  /** The first unknown state of the managed rules lies in the managed
      prefix that holds one. */
  lemma {:induction false} ManagedPrefix(listed: seq<Cloud.RuleDescription>, i: nat)
    requires i < |listed| && listed[i].description == Some(ManagedDescription)
    requires FirstBadState(Managed(listed[..i])).None? && GetState(listed[i].state).Err?
    ensures FirstBadState(Managed(listed)) == Some(listed[i].state)
  {
    assert listed[..i + 1][..i] == listed[..i];
    ManagedBadStep(Managed(listed[..i]), listed[i]);
    assert listed == listed[..i + 1] + listed[i + 1..];
    ManagedAppend(listed[..i + 1], listed[i + 1..]);
    BadStateAppend(Managed(listed[..i + 1]), Managed(listed[i + 1..]));
  }

  lemma {:induction false} ManagedAppend(a: seq<Cloud.RuleDescription>, b: seq<Cloud.RuleDescription>)
    ensures Managed(a + b) == Managed(a) + Managed(b)
  {
    if b == [] {
      assert a + b == a;
    } else {
      var init := b[..|b| - 1];
      ManagedAppend(a, init);
      assert (a + b)[..|a + b| - 1] == a + init;
      assert (a + b)[|a + b| - 1] == b[|b| - 1];
    }
  }

  lemma {:induction false} BadStateAppend(a: seq<Cloud.RuleDescription>, b: seq<Cloud.RuleDescription>)
    requires FirstBadState(a).Some?
    ensures FirstBadState(a + b) == FirstBadState(a)
  {
    assert (a + b)[0] == a[0];
    if GetState(a[0].state).Ok? {
      assert (a + b)[1..] == a[1..] + b;
      BadStateAppend(a[1..], b);
    }
  }

  /** The deploy services that ended in error. */
  function ErrorServices(xs: seq<Service>): (r: seq<Service>)
    reads set s | s in xs
    ensures (|r| > 0) <==> exists s :: s in xs && s.status == Error
  {
    if xs == [] then []
    else
      var last := xs[|xs| - 1];
      assert xs == xs[..|xs| - 1] + [last];
      ErrorServices(xs[..|xs| - 1]) + (if last.status == Error then [last] else [])
  }

  /** The deploy scheduled tasks that ended in error. */
  function ErrorTasks(xs: seq<ScheduledTask>): (r: seq<ScheduledTask>)
    reads set t | t in xs
    ensures (|r| > 0) <==> exists t :: t in xs && t.status == Error
  {
    if xs == [] then []
    else
      var last := xs[|xs| - 1];
      assert xs == xs[..|xs| - 1] + [last];
      ErrorTasks(xs[..|xs| - 1]) + (if last.status == Error then [last] else [])
  }

  /** The targets of two batches put together. */
  lemma ObjectsAppend(a: seq<Unit>, b: seq<Unit>)
    ensures Objects(a + b) == Objects(a) + Objects(b)
  {
    forall o | o in Objects(a + b) ensures o in Objects(a) + Objects(b) {
      var u :| u in a + b && Object(u.target) == o;
    }
    forall o | o in Objects(a) + Objects(b) ensures o in Objects(a + b) {
      if o in Objects(a) {
        var u :| u in a && Object(u.target) == o;
        assert u in a + b;
      } else {
        var u :| u in b && Object(u.target) == o;
        assert u in a + b;
      }
    }
  }

  lemma ServiceUnitObjects(xs: seq<Service>, mode: Mode)
    ensures forall o :: o in Objects(ServiceUnits(xs, mode)) ==> exists k :: 0 <= k < |xs| && o == xs[k]
  {
    forall o | o in Objects(ServiceUnits(xs, mode)) ensures exists k :: 0 <= k < |xs| && o == xs[k] {
      var u :| u in ServiceUnits(xs, mode) && Object(u.target) == o;
      var k :| 0 <= k < |xs| && ServiceUnits(xs, mode)[k] == u;
    }
  }

  lemma DescribeUnitObjects(xs: seq<DescribeService>, mode: Mode)
    ensures forall o :: o in Objects(DescribeUnits(xs, mode)) ==> exists k :: 0 <= k < |xs| && o == xs[k]
  {
    forall o | o in Objects(DescribeUnits(xs, mode)) ensures exists k :: 0 <= k < |xs| && o == xs[k] {
      var u :| u in DescribeUnits(xs, mode) && Object(u.target) == o;
      var k :| 0 <= k < |xs| && DescribeUnits(xs, mode)[k] == u;
    }
  }

  lemma TaskUnitObjects(xs: seq<ScheduledTask>, mode: Mode)
    ensures forall o :: o in Objects(TaskUnits(xs, mode)) ==> exists k :: 0 <= k < |xs| && o == xs[k]
  {
    forall o | o in Objects(TaskUnits(xs, mode)) ensures exists k :: 0 <= k < |xs| && o == xs[k] {
      var u :| u in TaskUnits(xs, mode) && Object(u.target) == o;
      var k :| 0 <= k < |xs| && TaskUnits(xs, mode)[k] == u;
    }
  }

  lemma RuleUnitObjects(xs: seq<CloudwatchEventRule>, mode: Mode)
    ensures forall o :: o in Objects(RuleUnits(xs, mode)) ==> exists k :: 0 <= k < |xs| && o == xs[k]
  {
    forall o | o in Objects(RuleUnits(xs, mode)) ensures exists k :: 0 <= k < |xs| && o == xs[k] {
      var u :| u in RuleUnits(xs, mode) && Object(u.target) == o;
      var k :| 0 <= k < |xs| && RuleUnits(xs, mode)[k] == u;
    }
  }

  /** Every service a group holds is one of the services the targets
      were drawn from. */
  lemma PickDrawn(xs: seq<Service>, all: seq<Service>, flag: bool)
    requires forall s :: s in xs ==> s in all
    ensures forall s :: s in Pick(xs, true, true, flag) ==> s in all
    ensures forall s :: s in Pick(xs, true, false, flag) ==> s in all
    ensures forall s :: s in Pick(xs, false, true, flag) ==> s in all
    ensures forall s :: s in Pick(xs, false, false, flag) ==> s in all
  {
    forall s | s in Pick(xs, true, true, flag) ensures s in all {
      PickMembers(xs, true, true, flag, s);
    }
    forall s | s in Pick(xs, true, false, flag) ensures s in all {
      PickMembers(xs, true, false, flag, s);
    }
    forall s | s in Pick(xs, false, true, flag) ensures s in all {
      PickMembers(xs, false, true, flag, s);
    }
    forall s | s in Pick(xs, false, false, flag) ensures s in all {
      PickMembers(xs, false, false, flag, s);
    }
  }

  /** The modes a service target is queued with. */
  predicate ServiceMode(mode: Mode)
  {
    mode.DeployService? || mode.CheckDeployService? || mode.WaitForStable? || mode.StopBeforeDeploy?
  }

  /** The modes a scheduled task is queued with. */
  predicate TaskMode(mode: Mode)
  {
    mode.DeployScheduledTask? || mode.CheckDeployScheduledTask? || mode.StopScheduledTask?
  }

  /** The described services are those `fetch_aws_service` finds in the
      clusters, in order. */
  predicate ServicesFound(ds: seq<DescribeService>, state: Cloud.CloudState, clusters: seq<string>)
  {
    |ds| == |Listed(state, clusters)| && forall i :: 0 <= i < |ds| ==> Described(ds[i], Listed(state, clusters)[i])
  }

  /** The rules are the managed ones `list_cloudwatch_event_rules` lists,
      in order. */
  predicate RulesFound(cs: seq<CloudwatchEventRule>, state: Cloud.CloudState)
  {
    var managed := Managed(Cloud.RuleDescriptions(state.rules, state.ruleListing));
    |cs| == |managed| && forall k :: 0 <= k < |cs| ==> cs[k].name == managed[k].name
  }

  /** Whether the describing of `_fetch_ecs_information` raises: when
      there are services, a listing or describe call of some cluster
      fails; when there are scheduled tasks, `list_rules` fails or a
      managed rule is in a state other than ENABLED and DISABLED. */
  predicate DescribeFails(faults: seq<Option<Fault>>, state: Cloud.CloudState, clusters: seq<string>, services: bool, tasks: bool)
  {
    || (services && !Cloud.Clear(faults, 2 * |clusters|))
    || (tasks && (Cloud.Head(if services then Cloud.Drop(faults, 2 * |clusters|) else faults).Some?
                  || FirstBadState(Managed(Cloud.RuleDescriptions(state.rules, state.ruleListing))).Some?))
  }

  /** The calls of a describing that succeeds: the listing of every
      cluster when there are services, one `list_rules` when there are
      scheduled tasks, and nothing else. */
  function DescribeCalls(state: Cloud.CloudState, clusters: seq<string>, services: bool, tasks: bool): seq<Cloud.Call>
  {
    (if services then ListingCalls(state, clusters) else []) + (if tasks then [Cloud.Call.ListRules] else [])
  }

  /** Some fetched service or rule has no task environment, which the
      matching reads. */
  predicate EnvironmentMissing(obs: seq<Observation>, ruleObs: seq<RuleObservation>)
  {
    (exists k :: 0 <= k < |obs| && obs[k].1.None?) || (exists k :: 0 <= k < |ruleObs| && ruleObs[k].1.None?)
  }

  /** Each deploy target took its origin from the last described service
      that matched it. */
  predicate ServiceOrigins(described: seq<DescribeService>, services: seq<Service>, environment: Json, templateGroup: Option<string>)
    reads set d | d in described, set s | s in services
  {
    forall s :: s in services ==>
      var j := LastServiceFor(Observations(described), services, s, environment, templateGroup);
      j.Some? ==> OriginFrom(s, described[j.value])
  }

  /** Each scheduled task took its origin from the last fetched rule that
      matched it. */
  predicate RuleOrigins(rules: seq<CloudwatchEventRule>, tasks: seq<ScheduledTask>, environment: Json, templateGroup: Option<string>)
    reads set c | c in rules, set t | t in tasks
  {
    forall t :: t in tasks ==>
      var j := LastRuleFor(RuleObservations(rules), tasks, t, environment, templateGroup);
      j.Some? ==> OriginFromRule(t, rules[j.value])
  }

  /** The rule deletions of `_delete_unused` raise: some rule has no task
      environment, or one of the delete calls fails. */
  predicate DeleteFails(obs: seq<RuleObservation>, faults: seq<Option<Fault>>)
  {
    !(Targeted(obs) && Cloud.Clear(faults, |obs|))
  }

  /** From `log0` to `log` the cloud was asked only to delete rules. */
  predicate RulesDeletedOnly(log0: seq<Cloud.Call>, log: seq<Cloud.Call>)
  {
    log0 <= log && forall k :: |log0| <= k < |log| ==> log[k].DeleteScheduledTask?
  }

  /** The log of `_delete_unused` splits one way only into its service
      deletions and its rule deletions, so the point where the rule
      deletions began, and the fault script they met, are fixed by the
      log. */
  lemma DeleteSplit(faults0: seq<Option<Fault>>, log0: seq<Cloud.Call>, log: seq<Cloud.Call>,
                    faults1: seq<Option<Fault>>, log1: seq<Cloud.Call>, faults2: seq<Option<Fault>>, log2: seq<Cloud.Call>)
    requires DeletedOnly(faults0, log0, faults1, log1) && RulesDeletedOnly(log1, log)
    requires DeletedOnly(faults0, log0, faults2, log2) && RulesDeletedOnly(log2, log)
    ensures log1 == log2 && faults1 == faults2
  {
    // the call where the shorter split's rule deletions begin
    var m := if |log1| <= |log2| then |log1| else |log2|;
    var first := if m < |log| then Some(log[m]) else None;
    if |log1| != |log2| {
      assert false;
    }
    assert log1 == log[..|log1|] == log2;
  }

  lemma RuleDeleteStep(rules: map<string, Cloud.RuleDescription>, obs: seq<RuleObservation>, i: nat)
    requires i < |obs| && Targeted(obs[..i + 1])
    ensures Targeted(obs[..i])
    ensures rules - RuleNames(obs[..i]) - {obs[i].0.name} == rules - RuleNames(obs[..i + 1])
    ensures RuleDeleteCalls(obs[..i + 1])
      == RuleDeleteCalls(obs[..i]) + [Cloud.Call.DeleteScheduledTask(obs[i].0.name, obs[i].1.value.targetLambdaArn)]
  {
    Canon.TakeStep(obs, i);
    assert obs[..i + 1][..i] == obs[..i];
    assert RuleNames(obs[..i + 1]) == RuleNames(obs[..i]) + {obs[i].0.name};
  }

  /** `_delete_unused` for the rules: each observed rule is deleted with
      the target its task environment names, stopping at the first that
      raises (a missing task environment raises before any call). */
  method DeleteRules(cloud: Cloud.Cloud, obs: seq<RuleObservation>) returns (r: Outcome)
    modifies cloud
    ensures r.Pass? <==> Targeted(obs) && Cloud.Clear(old(cloud.faults), |obs|)
    ensures RulesDeletedOnly(old(cloud.log), cloud.log)
    ensures r.Pass? ==>
      && cloud.log == old(cloud.log) + RuleDeleteCalls(obs)
      && cloud.state == old(cloud.state).(rules := old(cloud.state).rules - RuleNames(obs))
  {
    var i := 0;
    while i < |obs|
      invariant 0 <= i <= |obs|
      invariant Targeted(obs[..i])
      invariant Cloud.Clear(old(cloud.faults), i) && cloud.faults == Cloud.Drop(old(cloud.faults), i)
      invariant cloud.log == old(cloud.log) + RuleDeleteCalls(obs[..i])
      invariant cloud.state == old(cloud.state).(rules := old(cloud.state).rules - RuleNames(obs[..i]))
    {
      if obs[i].1.None? {
        assert !Targeted(obs);
        return Fail(AttributeError("target_lambda_arn"));
      }
      Cloud.DropStep(old(cloud.faults), i);
      var deleted := cloud.DeleteScheduledTask(obs[i].0.name, obs[i].1.value.targetLambdaArn);
      if deleted.Fail? {
        Cloud.ClearShorter(old(cloud.faults), i + 1, |obs|);
        return deleted;
      }
      RuleDeleteStep(old(cloud.state).rules, obs, i);
      i := i + 1;
    }
    Canon.TakeAll(obs);
    r := Pass;
  }

  /** The command-line settings the manager reads. */
  datatype Args = Args(
    source: Source, threadsCount: int,
    deployServiceGroup: Option<string>, templateGroup: Option<string>,
    serviceZeroKeep: bool, deleteUnusedService: bool, stopBeforeDeploy: bool,
    serviceUpdateOnly: bool, taskDefinitionUpdateOnly: bool)

  // ---------------------------------------------------------------------------
  // DeployManager

  class DeployManager {
    const cloud: Cloud.Cloud
    const taskQueue: TaskQueue
    const args: Args
    const renderer: Renderer
    const clusterList: seq<string>
    var threadsCount: int
    var error: bool
    var deleteServiceList: seq<DescribeService>
    var allServiceList: seq<Service>
    var allDeployTargetServiceList: seq<Service>
    var primaryStopBeforeDeployServiceList: seq<Service>
    var stopBeforeDeployServiceList: seq<Service>
    var primaryDeployServiceList: seq<Service>
    var remainDeployServiceList: seq<Service>
    var deleteScheduledTaskList: seq<CloudwatchEventRule>
    var scheduledTaskList: seq<ScheduledTask>
    var deployScheduledTaskList: seq<ScheduledTask>
    var environment: Json
    var templateGroup: Option<string>
    var isServiceZeroKeep: bool
    var isStopBeforeDeploy: bool
    var isDeleteUnusedService: bool
    var isServiceUpdateOnly: bool
    var isTaskDefinitionUpdateOnly: bool
    /** What the last fetch described and listed, in queue order. */
    ghost var fetchedServices: seq<DescribeService>
    ghost var fetchedRules: seq<CloudwatchEventRule>
    /** What the last matching read of the fetched services and rules. */
    ghost var observedServices: seq<Observation>
    ghost var observedRules: seq<RuleObservation>
    /** The rules the last deletion of unused rules read, the fault
        script its calls met, and the log as they began. */
    ghost var deleteObserved: seq<RuleObservation>
    ghost var deleteFaults: seq<Option<Fault>>
    ghost var deleteLog: seq<Cloud.Call>

    /** The state `__init__` leaves: every list empty and the defaults set. */
    ghost predicate Initial()
      reads this
    {
      && !error && deleteServiceList == [] && allServiceList == [] && allDeployTargetServiceList == []
      && primaryStopBeforeDeployServiceList == [] && stopBeforeDeployServiceList == []
      && primaryDeployServiceList == [] && remainDeployServiceList == []
      && deleteScheduledTaskList == [] && scheduledTaskList == [] && deployScheduledTaskList == []
      && environment == JNull && templateGroup.None?
      && isServiceZeroKeep && isStopBeforeDeploy && isDeleteUnusedService
      && !isServiceUpdateOnly && !isTaskDefinitionUpdateOnly
      && fetchedServices == [] && fetchedRules == []
    }

    constructor (cloud: Cloud.Cloud, args: Args, renderer: Renderer, clusters: seq<string>)
      ensures this.cloud == cloud && this.args == args && this.renderer == renderer && clusterList == clusters
      ensures fresh(taskQueue) && taskQueue.joined == []
      ensures threadsCount == args.threadsCount && Initial()
    {
      this.cloud := cloud;
      this.args := args;
      this.renderer := renderer;
      taskQueue := new TaskQueue();
      clusterList := clusters;
      threadsCount := args.threadsCount;
      error := false;
      deleteServiceList := [];
      allServiceList := [];
      allDeployTargetServiceList := [];
      primaryStopBeforeDeployServiceList := [];
      stopBeforeDeployServiceList := [];
      primaryDeployServiceList := [];
      remainDeployServiceList := [];
      deleteScheduledTaskList := [];
      scheduledTaskList := [];
      deployScheduledTaskList := [];
      environment := JNull;
      templateGroup := None;
      isServiceZeroKeep := true;
      isStopBeforeDeploy := true;
      isDeleteUnusedService := true;
      isServiceUpdateOnly := false;
      isTaskDefinitionUpdateOnly := false;
      fetchedServices := [];
      fetchedRules := [];
      observedServices := [];
      observedRules := [];
      deleteObserved := [];
      deleteFaults := [];
      deleteLog := [];
    }

    /** `DeployManager(args)`: the cluster listing is read once, here. */
    static method Create(cloud: Cloud.Cloud, args: Args, renderer: Renderer) returns (r: Result<DeployManager>)
      modifies cloud
      ensures cloud.log == old(cloud.log) + [Cloud.Call.ListClusters] && cloud.state == old(cloud.state)
      ensures r.Err? <==> Cloud.Head(old(cloud.faults)).Some?
      ensures r.Ok? ==> fresh(r.value) && fresh(r.value.taskQueue) && r.value.taskQueue.joined == []
      ensures r.Ok? ==> r.value.cloud == cloud && r.value.args == args && r.value.renderer == renderer
      ensures r.Ok? ==> r.value.clusterList == cloud.state.clusters && r.value.Initial()
      ensures r.Ok? ==> r.value.threadsCount == args.threadsCount
    {
      var clusters := cloud.ListClusters();
      if clusters.Err? { return Err(clusters.error); }
      var m := new DeployManager(cloud, args, renderer, clusters.value);
      r := Ok(m);
    }

    // -------------------------------------------------------------------------
    // _service_config and _set_deploy_list

    /** `_service_config`: the deploy lists, then the thread clamp and the
        flags. Nothing changes when the lists cannot be built. */
    method ServiceConfig() returns (r: Outcome)
      modifies this`allServiceList, this`allDeployTargetServiceList, this`scheduledTaskList,
        this`deployScheduledTaskList, this`environment, this`threadsCount, this`isServiceZeroKeep,
        this`templateGroup, this`isDeleteUnusedService, this`isStopBeforeDeploy,
        this`isServiceUpdateOnly, this`isTaskDefinitionUpdateOnly
      ensures r.Fail? <==> DeployListError(renderer, args.source, args.deployServiceGroup, args.templateGroup).Some?
      ensures r.Fail? ==> r == Fail(DeployListError(renderer, args.source, args.deployServiceGroup, args.templateGroup).value)
      ensures r.Fail? ==> unchanged(this)
      ensures r.Pass? ==>
        && allDeployTargetServiceList == SelectServices(allServiceList, args.deployServiceGroup, args.templateGroup)
        && deployScheduledTaskList == SelectTasks(scheduledTaskList, args.deployServiceGroup, args.templateGroup)
        && SharedFamily(allDeployTargetServiceList, deployScheduledTaskList).None?
        && (|allDeployTargetServiceList| > 0 || |deployScheduledTaskList| > 0)
        && threadsCount == ClampThreads(old(threadsCount), |deployScheduledTaskList| + |allDeployTargetServiceList|)
      ensures r.Pass? ==>
        && isServiceZeroKeep == args.serviceZeroKeep && templateGroup == args.templateGroup
        && isDeleteUnusedService == args.deleteUnusedService && isStopBeforeDeploy == args.stopBeforeDeploy
        && isServiceUpdateOnly == args.serviceUpdateOnly && isTaskDefinitionUpdateOnly == args.taskDefinitionUpdateOnly
      ensures r.Pass? ==> (forall s :: s in allServiceList ==> fresh(s)) && (forall t :: t in scheduledTaskList ==> fresh(t))
    {
      var list := GetDeployList(renderer, args.source, args.deployServiceGroup, args.templateGroup);
      if list.Err? { return Fail(list.error); }
      Configure(list.value);
      r := Pass;
    }

    /** The assignments of `_service_config` once the lists are built. */
    method Configure(list: DeployList)
      modifies this`allServiceList, this`allDeployTargetServiceList, this`scheduledTaskList,
        this`deployScheduledTaskList, this`environment, this`threadsCount, this`isServiceZeroKeep,
        this`templateGroup, this`isDeleteUnusedService, this`isStopBeforeDeploy,
        this`isServiceUpdateOnly, this`isTaskDefinitionUpdateOnly
      ensures allServiceList == list.services && allDeployTargetServiceList == list.deployServices
      ensures scheduledTaskList == list.tasks && deployScheduledTaskList == list.deployTasks
      ensures environment == list.environment
      ensures threadsCount == ClampThreads(old(threadsCount), |list.deployTasks| + |list.deployServices|)
      ensures isServiceZeroKeep == args.serviceZeroKeep && templateGroup == args.templateGroup
      ensures isDeleteUnusedService == args.deleteUnusedService && isStopBeforeDeploy == args.stopBeforeDeploy
      ensures isServiceUpdateOnly == args.serviceUpdateOnly && isTaskDefinitionUpdateOnly == args.taskDefinitionUpdateOnly
    {
      allServiceList := list.services;
      allDeployTargetServiceList := list.deployServices;
      scheduledTaskList := list.tasks;
      deployScheduledTaskList := list.deployTasks;
      environment := list.environment;
      threadsCount := ClampThreads(threadsCount, |deployScheduledTaskList| + |allDeployTargetServiceList|);
      isServiceZeroKeep := args.serviceZeroKeep;
      templateGroup := args.templateGroup;
      isDeleteUnusedService := args.deleteUnusedService;
      isStopBeforeDeploy := args.stopBeforeDeploy;
      isServiceUpdateOnly := args.serviceUpdateOnly;
      isTaskDefinitionUpdateOnly := args.taskDefinitionUpdateOnly;
    }

    /** `_set_deploy_list`: each deploy target is appended to the one group
        its flags name, in order. */
    method SetDeployList()
      modifies this`primaryStopBeforeDeployServiceList, this`stopBeforeDeployServiceList,
        this`primaryDeployServiceList, this`remainDeployServiceList
      ensures primaryStopBeforeDeployServiceList
        == old(primaryStopBeforeDeployServiceList) + Pick(allDeployTargetServiceList, true, true, isStopBeforeDeploy)
      ensures stopBeforeDeployServiceList
        == old(stopBeforeDeployServiceList) + Pick(allDeployTargetServiceList, true, false, isStopBeforeDeploy)
      ensures primaryDeployServiceList
        == old(primaryDeployServiceList) + Pick(allDeployTargetServiceList, false, true, isStopBeforeDeploy)
      ensures remainDeployServiceList
        == old(remainDeployServiceList) + Pick(allDeployTargetServiceList, false, false, isStopBeforeDeploy)
    {
      var xs := allDeployTargetServiceList;
      ghost var before := Groups();
      var i := 0;
      while i < |xs|
        invariant 0 <= i <= |xs|
        invariant GroupedAfter(before, xs[..i])
      {
        PlaceNext(before, xs, i);
        i := i + 1;
      }
      Canon.TakeAll(xs);
    }

    /** The four groups of `_set_deploy_list`, in their order. */
    ghost function Groups(): seq<seq<Service>>
      reads this`primaryStopBeforeDeployServiceList, this`stopBeforeDeployServiceList, this`primaryDeployServiceList, this`remainDeployServiceList
    {
      [primaryStopBeforeDeployServiceList, stopBeforeDeployServiceList, primaryDeployServiceList, remainDeployServiceList]
    }

    /** The groups are the ones of `before` followed by the placement of `ys`. */
    ghost predicate GroupedAfter(before: seq<seq<Service>>, ys: seq<Service>)
      reads this`primaryStopBeforeDeployServiceList, this`stopBeforeDeployServiceList, this`primaryDeployServiceList, this`remainDeployServiceList, this`isStopBeforeDeploy
    {
      && |before| == 4
      && primaryStopBeforeDeployServiceList == before[0] + Pick(ys, true, true, isStopBeforeDeploy)
      && stopBeforeDeployServiceList == before[1] + Pick(ys, true, false, isStopBeforeDeploy)
      && primaryDeployServiceList == before[2] + Pick(ys, false, true, isStopBeforeDeploy)
      && remainDeployServiceList == before[3] + Pick(ys, false, false, isStopBeforeDeploy)
    }

    /** The i-th turn of the loop of `_set_deploy_list`. */
    method PlaceNext(ghost before: seq<seq<Service>>, xs: seq<Service>, i: nat)
      requires i < |xs| && GroupedAfter(before, xs[..i])
      modifies this`primaryStopBeforeDeployServiceList, this`stopBeforeDeployServiceList,
        this`primaryDeployServiceList, this`remainDeployServiceList
      ensures GroupedAfter(before, xs[..i + 1])
    {
      PickStep(before[0], xs, i, true, true, isStopBeforeDeploy);
      PickStep(before[1], xs, i, true, false, isStopBeforeDeploy);
      PickStep(before[2], xs, i, false, true, isStopBeforeDeploy);
      PickStep(before[3], xs, i, false, false, isStopBeforeDeploy);
      Place(xs[i]);
    }

    /** One iteration of `_set_deploy_list`. */
    method Place(s: Service)
      modifies this`primaryStopBeforeDeployServiceList, this`stopBeforeDeployServiceList,
        this`primaryDeployServiceList, this`remainDeployServiceList
      ensures primaryStopBeforeDeployServiceList == old(primaryStopBeforeDeployServiceList) + Placed(s, true, true, isStopBeforeDeploy)
      ensures stopBeforeDeployServiceList == old(stopBeforeDeployServiceList) + Placed(s, true, false, isStopBeforeDeploy)
      ensures primaryDeployServiceList == old(primaryDeployServiceList) + Placed(s, false, true, isStopBeforeDeploy)
      ensures remainDeployServiceList == old(remainDeployServiceList) + Placed(s, false, false, isStopBeforeDeploy)
    {
      if isStopBeforeDeploy && s.stopBeforeDeploy {
        if s.isPrimaryPlacement {
          primaryStopBeforeDeployServiceList := primaryStopBeforeDeployServiceList + [s];
        } else {
          stopBeforeDeployServiceList := stopBeforeDeployServiceList + [s];
        }
      } else {
        if s.isPrimaryPlacement {
          primaryDeployServiceList := primaryDeployServiceList + [s];
        } else {
          remainDeployServiceList := remainDeployServiceList + [s];
        }
      }
    }

    // -------------------------------------------------------------------------
    // the phases

    /** The batch `_fetch_ecs_information` queues: the described services,
        then the managed rules. */
    ghost function FetchBatch(): seq<Unit>
      reads this`fetchedServices, this`fetchedRules
    {
      DescribeUnits(fetchedServices, FetchServices) + RuleUnits(fetchedRules, FetchCloudwatchEvents)
    }

    /** The batch `_check_deploy` queues. */
    function CheckBatch(): seq<Unit>
      reads this`allDeployTargetServiceList, this`deployScheduledTaskList
    {
      ServiceUnits(allDeployTargetServiceList, CheckDeployService) + TaskUnits(deployScheduledTaskList, CheckDeployScheduledTask)
    }

    /** The describing that `_fetch_ecs_information` does before its
        batch: the services of every cluster when there are services to
        deploy, the managed rules when there are scheduled tasks. */
    method DescribeCloud() returns (r: Result<(seq<DescribeService>, seq<CloudwatchEventRule>)>)
      modifies cloud
      ensures cloud.state == old(cloud.state)
      ensures r.Err? <==> DescribeFails(old(cloud.faults), cloud.state, clusterList, |allServiceList| > 0, |scheduledTaskList| > 0)
      ensures r.Ok? ==> cloud.log == old(cloud.log) + DescribeCalls(cloud.state, clusterList, |allServiceList| > 0, |scheduledTaskList| > 0)
      ensures r.Ok? && |allServiceList| == 0 ==> r.value.0 == []
      ensures r.Ok? && |allServiceList| > 0 ==> ServicesFound(r.value.0, cloud.state, clusterList)
      ensures r.Ok? && |scheduledTaskList| == 0 ==> r.value.1 == []
      ensures r.Ok? && |scheduledTaskList| > 0 ==> RulesFound(r.value.1, cloud.state)
      ensures r.Ok? ==> (forall d :: d in r.value.0 ==> fresh(d)) && (forall c :: c in r.value.1 ==> fresh(c))
    {
      var described: seq<DescribeService> := [];
      if |allServiceList| > 0 {
        var fetched := FetchAwsService(clusterList, cloud);
        if fetched.Err? { return Err(fetched.error); }
        described := fetched.value;
        forall d | d in described ensures fresh(d) {
          ghost var k :| 0 <= k < |described| && described[k] == d;
        }
      }
      var rules: seq<CloudwatchEventRule> := [];
      if |scheduledTaskList| > 0 {
        var listed := cloud.ListRules();
        if listed.Err? { return Err(listed.error); }
        var made := ManagedRules(listed.value);
        if made.Err? { return Err(made.error); }
        rules := made.value;
        forall c | c in rules ensures fresh(c) {
          ghost var k :| 0 <= k < |rules| && rules[k] == c;
        }
      }
      r := Ok((described, rules));
    }

    /** The batch of `_fetch_ecs_information`: every described service and
        managed rule is fetched. */
    method FetchAll(w: DeployProcess) returns (r: Outcome, described: seq<DescribeService>, rules: seq<CloudwatchEventRule>)
      requires w.cloud == cloud
      modifies this`fetchedServices, this`fetchedRules, cloud, taskQueue
      ensures r.Fail? <==> DescribeFails(old(cloud.faults), old(cloud.state), clusterList, |allServiceList| > 0, |scheduledTaskList| > 0)
      ensures r.Pass? ==> described == fetchedServices && rules == fetchedRules
      ensures r.Pass? ==> taskQueue.joined == old(taskQueue.joined) + [FetchBatch()]
      ensures r.Pass? ==> (forall d :: d in fetchedServices ==> fresh(d)) && (forall c :: c in fetchedRules ==> fresh(c))
      ensures r.Pass? && |allServiceList| == 0 ==> fetchedServices == []
      ensures r.Pass? && |allServiceList| > 0 ==> ServicesFound(fetchedServices, old(cloud.state), clusterList)
      ensures r.Pass? && |scheduledTaskList| == 0 ==> fetchedRules == []
      ensures r.Pass? && |scheduledTaskList| > 0 ==> RulesFound(fetchedRules, old(cloud.state))
    {
      var found := DescribeCloud();
      if found.Err? { return Fail(found.error), [], []; }
      described := found.value.0;
      rules := found.value.1;
      fetchedServices := described;
      fetchedRules := rules;
      var batch := DescribeUnits(described, FetchServices) + RuleUnits(rules, FetchCloudwatchEvents);
      ObjectsAppend(DescribeUnits(described, FetchServices), RuleUnits(rules, FetchCloudwatchEvents));
      DescribeUnitObjects(described, FetchServices);
      RuleUnitObjects(rules, FetchCloudwatchEvents);
      forall o | o in Objects(batch) ensures fresh(o) {
        if o in Objects(DescribeUnits(described, FetchServices)) {
          var k :| 0 <= k < |described| && o == described[k];
          assert described[k] in described;
        } else {
          var k :| 0 <= k < |rules| && o == rules[k];
          assert rules[k] in rules;
        }
      }
      Join(w, batch);
      r := Pass;
    }

    /** `_fetch_ecs_information`: the fetch batch, then the matching. */
    method FetchEcsInformation(w: DeployProcess) returns (r: Outcome)
      requires w.cloud == cloud
      modifies this`deleteServiceList, this`deleteScheduledTaskList, this`fetchedServices, this`fetchedRules
      modifies this`observedServices, this`observedRules
      modifies cloud, taskQueue, set s | s in allServiceList, set t | t in scheduledTaskList
      ensures r.Fail? <==>
        || DescribeFails(old(cloud.faults), old(cloud.state), clusterList, |allServiceList| > 0, |scheduledTaskList| > 0)
        || EnvironmentMissing(observedServices, observedRules)
      ensures !DescribeFails(old(cloud.faults), old(cloud.state), clusterList, |allServiceList| > 0, |scheduledTaskList| > 0) ==>
        && Found(old(cloud.state))
        && observedServices == Observations(fetchedServices) && observedRules == RuleObservations(fetchedRules)
      ensures r.Pass? ==> taskQueue.joined == old(taskQueue.joined) + [FetchBatch()]
      ensures r.Pass? ==>
        deleteServiceList == old(deleteServiceList) + UnmatchedServices(Observations(fetchedServices), allServiceList, environment, templateGroup)
      ensures r.Pass? ==>
        deleteScheduledTaskList == old(deleteScheduledTaskList) + UnmatchedRules(RuleObservations(fetchedRules), scheduledTaskList, environment, templateGroup)
      ensures r.Pass? ==> ServiceOrigins(fetchedServices, allServiceList, environment, templateGroup)
      ensures r.Pass? ==> RuleOrigins(fetchedRules, scheduledTaskList, environment, templateGroup)
      ensures forall d :: d in deleteServiceList ==> d in old(deleteServiceList) || fresh(d)
      ensures forall d :: d in deleteServiceList ==> d in old(deleteServiceList) || (d in fetchedServices && d.taskEnvironment.Some?)
      ensures forall c :: c in deleteScheduledTaskList ==> c in old(deleteScheduledTaskList) || fresh(c)
    {
      var described, rules;
      r, described, rules := FetchAll(w);
      if r.Fail? { return; }
      r := MatchAll(described, rules);
    }

    /** The matching loops of `_fetch_ecs_information`: the fetched
        services and rules of the run are matched against the deploy
        targets, which take their origin from the last match, and the
        unmatched ones are kept for deletion. */
    method MatchAll(described: seq<DescribeService>, rules: seq<CloudwatchEventRule>) returns (r: Outcome)
      modifies this`deleteServiceList, this`deleteScheduledTaskList, this`observedServices, this`observedRules
      modifies set s | s in allServiceList, set t | t in scheduledTaskList
      ensures observedServices == Observations(described) && observedRules == RuleObservations(rules)
      ensures r.Fail? <==> EnvironmentMissing(observedServices, observedRules)
      ensures r.Pass? ==>
        deleteServiceList == old(deleteServiceList) + UnmatchedServices(Observations(described), allServiceList, environment, templateGroup)
      ensures r.Pass? ==>
        deleteScheduledTaskList == old(deleteScheduledTaskList) + UnmatchedRules(RuleObservations(rules), scheduledTaskList, environment, templateGroup)
      ensures r.Pass? ==> ServiceOrigins(described, allServiceList, environment, templateGroup)
      ensures r.Pass? ==> RuleOrigins(rules, scheduledTaskList, environment, templateGroup)
      ensures forall d :: d in deleteServiceList ==> d in old(deleteServiceList) || (d in described && d.taskEnvironment.Some?)
      ensures forall c :: c in deleteScheduledTaskList ==> c in old(deleteScheduledTaskList) || c in rules
    {
      r := MatchDescribed(described);
      if r.Fail? {
        observedRules := RuleObservations(rules);
        return;
      }
      r := MatchRulesFound(rules);
    }

    /** The service loop of the matching. */
    method MatchDescribed(described: seq<DescribeService>) returns (r: Outcome)
      modifies this`deleteServiceList, this`observedServices, set s | s in allServiceList
      ensures observedServices == old(Observations(described)) == Observations(described)
      ensures r.Fail? <==> exists k :: 0 <= k < |observedServices| && observedServices[k].1.None?
      ensures r.Pass? ==>
        deleteServiceList == old(deleteServiceList) + UnmatchedServices(Observations(described), allServiceList, environment, templateGroup)
      ensures r.Pass? ==> ServiceOrigins(described, allServiceList, environment, templateGroup)
      ensures forall d :: d in deleteServiceList ==> d in old(deleteServiceList) || (d in described && d.taskEnvironment.Some?)
    {
      ghost var obs := Observations(described);
      observedServices := obs;
      var unmatched := MatchServices(described, allServiceList, environment, templateGroup);
      if unmatched.Err? {
        ghost var d :| d in described && old(d.taskEnvironment).None?;
        ghost var k :| 0 <= k < |described| && described[k] == d;
        return Fail(unmatched.error);
      }
      forall d | d in unmatched.value ensures d in described && d.taskEnvironment.Some? {
        UnmatchedServicesMembers(obs, allServiceList, environment, templateGroup, d);
        var o :| o in obs && o.0 == d && ServiceConsidered(o.1, environment, templateGroup);
        var k :| 0 <= k < |obs| && obs[k] == o;
      }
      deleteServiceList := deleteServiceList + unmatched.value;
      r := Pass;
    }

    /** The rule loop of the matching. */
    method MatchRulesFound(rules: seq<CloudwatchEventRule>) returns (r: Outcome)
      modifies this`deleteScheduledTaskList, this`observedRules, set t | t in scheduledTaskList
      ensures observedRules == old(RuleObservations(rules)) == RuleObservations(rules)
      ensures r.Fail? <==> exists k :: 0 <= k < |observedRules| && observedRules[k].1.None?
      ensures r.Pass? ==>
        deleteScheduledTaskList == old(deleteScheduledTaskList) + UnmatchedRules(RuleObservations(rules), scheduledTaskList, environment, templateGroup)
      ensures r.Pass? ==> RuleOrigins(rules, scheduledTaskList, environment, templateGroup)
      ensures forall c :: c in deleteScheduledTaskList ==> c in old(deleteScheduledTaskList) || c in rules
    {
      ghost var ruleObs := RuleObservations(rules);
      observedRules := ruleObs;
      var unmatchedRules := MatchRules(rules, scheduledTaskList, environment, templateGroup);
      if unmatchedRules.Err? {
        ghost var c :| c in rules && old(c.taskEnvironment).None?;
        ghost var k :| 0 <= k < |rules| && rules[k] == c;
        return Fail(unmatchedRules.error);
      }
      forall c | c in unmatchedRules.value ensures c in rules {
        UnmatchedRulesMembers(ruleObs, scheduledTaskList, environment, templateGroup, c);
        var o :| o in ruleObs && o.0 == c && RuleConsidered(o.1, environment, templateGroup);
        var k :| 0 <= k < |ruleObs| && ruleObs[k] == o;
      }
      deleteScheduledTaskList := deleteScheduledTaskList + unmatchedRules.value;
      r := Pass;
    }

    /** Queue the batch and `join`: the worker pool runs every unit. */
    method Join(w: DeployProcess, batch: seq<Unit>)
      requires w.cloud == cloud
      requires forall k :: 0 <= k < |batch| ==> Matches(batch[k])
      modifies taskQueue, cloud, Objects(batch)
      ensures taskQueue.joined == old(taskQueue.joined) + [batch]
      ensures DeletesServices(batch) ==> DeletedOnly(old(cloud.faults), old(cloud.log), cloud.faults, cloud.log)
    {
      forall u | u in batch ensures Matches(u) {
        var k :| 0 <= k < |batch| && batch[k] == u;
      }
      ghost var steps := w.Drain(taskQueue, batch);
      if DeletesServices(batch) {
        CallsOfDeletes(batch, steps);
      }
    }

    /** One batch of services, all queued with the same mode. */
    method JoinServices(w: DeployProcess, xs: seq<Service>, mode: Mode)
      requires w.cloud == cloud && ServiceMode(mode)
      modifies taskQueue, cloud, set s | s in xs
      ensures taskQueue.joined == old(taskQueue.joined) + [ServiceUnits(xs, mode)]
    {
      ServiceUnitObjects(xs, mode);
      Join(w, ServiceUnits(xs, mode));
    }

    /** One batch of scheduled tasks, all queued with the same mode. */
    method JoinTasks(w: DeployProcess, xs: seq<ScheduledTask>, mode: Mode)
      requires w.cloud == cloud && TaskMode(mode)
      modifies taskQueue, cloud, set t | t in xs
      ensures taskQueue.joined == old(taskQueue.joined) + [TaskUnits(xs, mode)]
    {
      TaskUnitObjects(xs, mode);
      Join(w, TaskUnits(xs, mode));
    }

    /** The batch `_delete_unused` queues. */
    function DeleteBatch(): seq<Unit>
      reads this`deleteServiceList
    {
      DescribeUnits(deleteServiceList, DeleteService)
    }

    /** `_delete_unused`: nothing when the run keeps unused services;
        otherwise the unused services are deleted in one batch, joined even
        when it is empty, and then the unused rules one by one, each with
        the target its task environment names. */
    method DeleteUnused(w: DeployProcess) returns (r: Outcome)
      requires w.cloud == cloud
      modifies this`deleteObserved, this`deleteFaults, this`deleteLog, taskQueue, cloud, set d | d in deleteServiceList
      ensures !isDeleteUnusedService ==> r == Pass && unchanged(taskQueue, cloud)
      ensures isDeleteUnusedService ==> taskQueue.joined == old(taskQueue.joined) + [DeleteBatch()]
      ensures isDeleteUnusedService ==> deleteObserved == old(RuleObservations(deleteScheduledTaskList))
      ensures isDeleteUnusedService ==>
        DeletedOnly(old(cloud.faults), old(cloud.log), deleteFaults, deleteLog) && RulesDeletedOnly(deleteLog, cloud.log)
      ensures isDeleteUnusedService ==> (r.Fail? <==> DeleteFails(deleteObserved, deleteFaults))
      ensures isDeleteUnusedService && r.Pass? ==>
        forall k :: 0 <= k < |deleteScheduledTaskList| ==> deleteScheduledTaskList[k].name !in cloud.state.rules
    {
      if !isDeleteUnusedService { return Pass; }
      DescribeUnitObjects(deleteServiceList, DeleteService);
      Join(w, DeleteBatch());
      deleteObserved := RuleObservations(deleteScheduledTaskList);
      deleteFaults := cloud.faults;
      deleteLog := cloud.log;
      r := DeleteRules(cloud, RuleObservations(deleteScheduledTaskList));
    }

    /** `_check_deploy`: every deploy target and deploy scheduled task is
        checked in one batch. */
    method CheckDeploy(w: DeployProcess)
      requires w.cloud == cloud
      modifies taskQueue, cloud, set s | s in allDeployTargetServiceList, set t | t in deployScheduledTaskList
      ensures taskQueue.joined == old(taskQueue.joined) + [CheckBatch()]
      ensures ReadAsFetched() == old(ReadAsFetched())
    {
      ObjectsAppend(ServiceUnits(allDeployTargetServiceList, CheckDeployService), TaskUnits(deployScheduledTaskList, CheckDeployScheduledTask));
      ServiceUnitObjects(allDeployTargetServiceList, CheckDeployService);
      TaskUnitObjects(deployScheduledTaskList, CheckDeployScheduledTask);
      Join(w, CheckBatch());
    }

    /** The batch `_stop_scheduled_task` or `_deploy_scheduled_task`
        queues: none when there is no scheduled task to deploy. */
    function TaskBatches(mode: Mode): seq<seq<Unit>>
      reads this`deployScheduledTaskList
    {
      if |deployScheduledTaskList| > 0 then [TaskUnits(deployScheduledTaskList, mode)] else []
    }

    /** `_stop_scheduled_task` and `_deploy_scheduled_task`. */
    method ScheduledTaskStep(w: DeployProcess, mode: Mode)
      requires w.cloud == cloud && (mode.StopScheduledTask? || mode.DeployScheduledTask?)
      modifies taskQueue, cloud, set t | t in deployScheduledTaskList
      ensures taskQueue.joined == old(taskQueue.joined) + TaskBatches(mode)
    {
      if |deployScheduledTaskList| > 0 {
        JoinTasks(w, deployScheduledTaskList, mode);
      }
    }

    /** `_stop_before_deploy`. */
    method StopBeforeDeployStep(w: DeployProcess)
      requires w.cloud == cloud
      modifies taskQueue, cloud, set s | s in primaryStopBeforeDeployServiceList, set s | s in stopBeforeDeployServiceList
      ensures taskQueue.joined == old(taskQueue.joined)
        + StopBatches(primaryStopBeforeDeployServiceList, stopBeforeDeployServiceList)
    {
      var primary := primaryStopBeforeDeployServiceList;
      var other := stopBeforeDeployServiceList;
      if |primary| > 0 || |other| > 0 {
        ObjectsAppend(ServiceUnits(primary, StopBeforeDeploy), ServiceUnits(other, StopBeforeDeploy));
        ServiceUnitObjects(primary, StopBeforeDeploy);
        ServiceUnitObjects(other, StopBeforeDeploy);
        Join(w, ServiceUnits(primary, StopBeforeDeploy) + ServiceUnits(other, StopBeforeDeploy));
        JoinServices(w, primary, WaitForStable);
        JoinServices(w, other, WaitForStable);
      }
    }

    /** `_deploy_service` (the primary then the remaining deploy targets)
        and `_start_after_deploy` (the primary then the other stopped
        services): each group is deployed and waited for in turn. */
    method Rollout(w: DeployProcess, first: seq<Service>, second: seq<Service>)
      requires w.cloud == cloud
      modifies taskQueue, cloud, set s | s in first, set s | s in second
      ensures taskQueue.joined == old(taskQueue.joined) + RolloutBatches(first, second)
    {
      if |first| > 0 {
        JoinServices(w, first, DeployService);
        JoinServices(w, first, WaitForStable);
      }
      if |second| > 0 {
        JoinServices(w, second, DeployService);
        JoinServices(w, second, WaitForStable);
      }
    }

    /** `_result_check`: the run exits with status 1 when any deploy target
        or deploy scheduled task ended in error, or when the manager's own
        error flag is set. */
    method ResultCheck() returns (r: Outcome)
      ensures r.Fail? <==> Failed()
      ensures r.Fail? ==> r.error == SystemExit(1)
    {
      var errorServices := ErrorServices(allDeployTargetServiceList);
      var errorTasks := ErrorTasks(deployScheduledTaskList);
      if |errorServices| > 0 || |errorTasks| > 0 {
        return Fail(SystemExit(1));
      }
      if error {
        return Fail(SystemExit(1));
      }
      r := Pass;
    }

    /** Whether `run` stops before `_set_deploy_list`, given the fault
        script and the cloud it starts from: the fetch raises, the matching
        meets a fetched service or rule without a task environment, or the
        deletion of the unused rules raises, each only where `run` takes
        that step. */
    ghost predicate InspectionFails(faults: seq<Option<Fault>>, state: Cloud.CloudState)
      reads this`isServiceUpdateOnly, this`isTaskDefinitionUpdateOnly, this`isDeleteUnusedService,
        this`allServiceList, this`scheduledTaskList, this`observedServices, this`observedRules,
        this`deleteObserved, this`deleteFaults
    {
      FetchStepFails(faults, state) || DeleteStepFails()
    }

    /** The fetch is run and raises, or its matching fails. */
    ghost predicate FetchStepFails(faults: seq<Option<Fault>>, state: Cloud.CloudState)
      reads this`isServiceUpdateOnly, this`allServiceList, this`scheduledTaskList, this`observedServices, this`observedRules
    {
      && !isServiceUpdateOnly
      && (|| DescribeFails(faults, state, clusterList, |allServiceList| > 0, |scheduledTaskList| > 0)
          || EnvironmentMissing(observedServices, observedRules))
    }

    /** The deletion of the unused rules is run and raises. */
    ghost predicate DeleteStepFails()
      reads this`isServiceUpdateOnly, this`isTaskDefinitionUpdateOnly, this`isDeleteUnusedService, this`deleteObserved, this`deleteFaults
    {
      !(isServiceUpdateOnly || isTaskDefinitionUpdateOnly) && isDeleteUnusedService && DeleteFails(deleteObserved, deleteFaults)
    }

    /** The fetch is run and its describing does not raise. */
    ghost predicate FetchRan(faults: seq<Option<Fault>>, state: Cloud.CloudState)
      reads this`isServiceUpdateOnly, this`allServiceList, this`scheduledTaskList
    {
      !isServiceUpdateOnly && !DescribeFails(faults, state, clusterList, |allServiceList| > 0, |scheduledTaskList| > 0)
    }

    /** What the fetch found, as the cloud stood in `state`: the services of
        every cluster when there are services to deploy, the managed rules
        when there are scheduled tasks, and nothing otherwise. */
    ghost predicate Found(state: Cloud.CloudState)
      reads this`allServiceList, this`scheduledTaskList, this`fetchedServices, this`fetchedRules
    {
      && (if |allServiceList| > 0 then ServicesFound(fetchedServices, state, clusterList) else fetchedServices == [])
      && (if |scheduledTaskList| > 0 then RulesFound(fetchedRules, state) else fetchedRules == [])
    }

    /** The matching read the fetched services and rules as they now stand,
        except that of a service kept for deletion it is known only that it
        had a task environment: its deletion may have run since. */
    ghost predicate ReadAsFetched()
      reads this`fetchedServices, this`fetchedRules, this`observedServices, this`observedRules, this`deleteServiceList
      reads set d | d in fetchedServices, set c | c in fetchedRules
    {
      && |observedServices| == |fetchedServices|
      && (forall k :: 0 <= k < |fetchedServices| ==> observedServices[k].0 == fetchedServices[k])
      && (forall k :: 0 <= k < |fetchedServices| ==>
            if fetchedServices[k] in deleteServiceList then observedServices[k].1.Some?
            else observedServices[k].1 == fetchedServices[k].taskEnvironment)
      && observedRules == RuleObservations(fetchedRules)
    }

    /** Right after the matching, with only fetched services that had a
        task environment kept for deletion, it read them as fetched. */
    lemma ReadWhenFetched()
      requires observedServices == Observations(fetchedServices) && observedRules == RuleObservations(fetchedRules)
      requires forall d :: d in deleteServiceList ==> d in fetchedServices && d.taskEnvironment.Some?
      ensures ReadAsFetched()
    {
    }

    /** Some deploy target or deploy scheduled task ended in error, or the
        manager's own error flag is set. */
    predicate Failed()
      reads this`allDeployTargetServiceList, this`deployScheduledTaskList, this`error
      reads set s | s in allDeployTargetServiceList, set t | t in deployScheduledTaskList
    {
      || (exists s :: s in allDeployTargetServiceList && s.status == Error)
      || (exists t :: t in deployScheduledTaskList && t.status == Error)
      || error
    }

    /** The batches `run` joins up to `_set_deploy_list`. */
    ghost function PrepareBatches(): seq<seq<Unit>>
      reads this`isServiceUpdateOnly, this`isTaskDefinitionUpdateOnly, this`isDeleteUnusedService,
        this`fetchedServices, this`fetchedRules, this`deleteServiceList, this`allDeployTargetServiceList, this`deployScheduledTaskList
    {
      FetchDeleteBatches() + (if !isServiceUpdateOnly then [CheckBatch()] else [])
    }

    /** The batches of `_fetch_ecs_information` and `_delete_unused`, as
        `run` gates them. */
    ghost function FetchDeleteBatches(): seq<seq<Unit>>
      reads this`isServiceUpdateOnly, this`isTaskDefinitionUpdateOnly, this`isDeleteUnusedService,
        this`fetchedServices, this`fetchedRules, this`deleteServiceList
    {
      var suo := isServiceUpdateOnly;
      var tduo := isTaskDefinitionUpdateOnly;
      (if !suo then [FetchBatch()] else [])
      + (if !(suo || tduo) && isDeleteUnusedService then [DeleteBatch()] else [])
    }

    /** The batches `run` joins after `_set_deploy_list`: the stopping
        steps, then the starting ones. */
    function DeployBatches(): seq<seq<Unit>>
      reads this`isServiceUpdateOnly, this`isTaskDefinitionUpdateOnly, this`deployScheduledTaskList,
        this`primaryStopBeforeDeployServiceList, this`stopBeforeDeployServiceList, this`primaryDeployServiceList, this`remainDeployServiceList
    {
      StopStepBatches() + StartStepBatches()
    }

    /** The batches of `_stop_scheduled_task` and `_stop_before_deploy`. */
    function StopStepBatches(): seq<seq<Unit>>
      reads this`isServiceUpdateOnly, this`isTaskDefinitionUpdateOnly, this`deployScheduledTaskList, this`primaryStopBeforeDeployServiceList, this`stopBeforeDeployServiceList
    {
      var suo := isServiceUpdateOnly;
      var tduo := isTaskDefinitionUpdateOnly;
      (if !(suo || tduo) then TaskBatches(StopScheduledTask) else [])
      + (if !tduo then StopBatches(primaryStopBeforeDeployServiceList, stopBeforeDeployServiceList) else [])
    }

    /** The batches of `_deploy_service`, `_start_after_deploy` and
        `_deploy_scheduled_task`. */
    function StartStepBatches(): seq<seq<Unit>>
      reads this`isServiceUpdateOnly, this`isTaskDefinitionUpdateOnly, this`deployScheduledTaskList,
        this`primaryStopBeforeDeployServiceList, this`stopBeforeDeployServiceList, this`primaryDeployServiceList, this`remainDeployServiceList
    {
      var suo := isServiceUpdateOnly;
      var tduo := isTaskDefinitionUpdateOnly;
      RolloutBatches(primaryDeployServiceList, remainDeployServiceList)
      + (if !tduo then RolloutBatches(primaryStopBeforeDeployServiceList, stopBeforeDeployServiceList) else [])
      + (if !(suo || tduo) then TaskBatches(DeployScheduledTask) else [])
    }

    /** Every batch of a run, in the order `run` joins them. */
    ghost function RunBatches(): seq<seq<Unit>>
      reads this`isServiceUpdateOnly, this`isTaskDefinitionUpdateOnly, this`isDeleteUnusedService,
        this`fetchedServices, this`fetchedRules, this`deleteServiceList, this`allDeployTargetServiceList, this`deployScheduledTaskList,
        this`primaryStopBeforeDeployServiceList, this`stopBeforeDeployServiceList, this`primaryDeployServiceList, this`remainDeployServiceList
    {
      PrepareBatches() + DeployBatches()
    }

    /** The four groups of `_set_deploy_list` are the placement of the
        deploy targets by their flags, each in target order. */
    predicate Grouped()
      reads this`allDeployTargetServiceList, this`isStopBeforeDeploy,
        this`primaryStopBeforeDeployServiceList, this`stopBeforeDeployServiceList, this`primaryDeployServiceList, this`remainDeployServiceList
    {
      && primaryStopBeforeDeployServiceList == Pick(allDeployTargetServiceList, true, true, isStopBeforeDeploy)
      && stopBeforeDeployServiceList == Pick(allDeployTargetServiceList, true, false, isStopBeforeDeploy)
      && primaryDeployServiceList == Pick(allDeployTargetServiceList, false, true, isStopBeforeDeploy)
      && remainDeployServiceList == Pick(allDeployTargetServiceList, false, false, isStopBeforeDeploy)
    }

    /** The deploy groups are drawn from the deploy targets, which are drawn
        from the services; the deploy scheduled tasks from the scheduled
        tasks. */
    ghost predicate Drawn()
      reads this`allDeployTargetServiceList, this`allServiceList, this`deployScheduledTaskList, this`scheduledTaskList,
        this`primaryStopBeforeDeployServiceList, this`stopBeforeDeployServiceList, this`primaryDeployServiceList, this`remainDeployServiceList
    {
      && (forall s :: s in allDeployTargetServiceList ==> s in allServiceList)
      && (forall t :: t in deployScheduledTaskList ==> t in scheduledTaskList)
      && (forall s :: s in primaryStopBeforeDeployServiceList ==> s in allServiceList)
      && (forall s :: s in stopBeforeDeployServiceList ==> s in allServiceList)
      && (forall s :: s in primaryDeployServiceList ==> s in allServiceList)
      && (forall s :: s in remainDeployServiceList ==> s in allServiceList)
    }

    /** `run` from the fetch to `_set_deploy_list`. */
    method Prepare(w: DeployProcess) returns (r: Outcome)
      requires w.cloud == cloud && Drawn()
      requires deleteServiceList == [] && deleteScheduledTaskList == []
      requires primaryStopBeforeDeployServiceList == [] && stopBeforeDeployServiceList == []
      requires primaryDeployServiceList == [] && remainDeployServiceList == []
      modifies this`deleteServiceList, this`deleteScheduledTaskList, this`fetchedServices, this`fetchedRules
      modifies this`observedServices, this`observedRules, this`deleteObserved, this`deleteFaults, this`deleteLog
      modifies this`primaryStopBeforeDeployServiceList, this`stopBeforeDeployServiceList,
        this`primaryDeployServiceList, this`remainDeployServiceList
      modifies cloud, taskQueue, set s | s in allServiceList, set t | t in scheduledTaskList
      ensures r.Fail? <==> InspectionFails(old(cloud.faults), old(cloud.state))
      ensures r.Pass? ==> taskQueue.joined == old(taskQueue.joined) + PrepareBatches() && Drawn()
      ensures r.Pass? ==> Grouped()
      ensures FetchRan(old(cloud.faults), old(cloud.state)) ==> Found(old(cloud.state)) && ReadAsFetched()
    {
      r := Inspect(w);
      if r.Fail? { return; }
      GroupTargets(old(cloud.faults), old(cloud.state));
    }

    /** `_set_deploy_list` on empty groups: the groups are the placement of
        the deploy targets, all drawn from the services. */
    method GroupTargets(ghost faults: seq<Option<Fault>>, ghost state: Cloud.CloudState)
      requires Drawn()
      requires primaryStopBeforeDeployServiceList == [] && stopBeforeDeployServiceList == []
      requires primaryDeployServiceList == [] && remainDeployServiceList == []
      modifies this`primaryStopBeforeDeployServiceList, this`stopBeforeDeployServiceList,
        this`primaryDeployServiceList, this`remainDeployServiceList
      ensures Drawn()
      ensures Grouped()
      ensures PrepareBatches() == old(PrepareBatches())
      ensures InspectionFails(faults, state) == old(InspectionFails(faults, state))
      ensures Found(state) == old(Found(state)) && ReadAsFetched() == old(ReadAsFetched())
    {
      SetDeployList();
      PickDrawn(allDeployTargetServiceList, allServiceList, isStopBeforeDeploy);
    }

    /** The fetch, the deletion and the check, as `run` gates them. */
    method Inspect(w: DeployProcess) returns (r: Outcome)
      requires w.cloud == cloud && Drawn()
      requires deleteServiceList == [] && deleteScheduledTaskList == []
      modifies this`deleteServiceList, this`deleteScheduledTaskList, this`fetchedServices, this`fetchedRules
      modifies this`observedServices, this`observedRules, this`deleteObserved, this`deleteFaults, this`deleteLog
      modifies cloud, taskQueue, set s | s in allServiceList, set t | t in scheduledTaskList
      ensures r.Fail? <==> InspectionFails(old(cloud.faults), old(cloud.state))
      ensures r.Pass? ==> taskQueue.joined == old(taskQueue.joined) + PrepareBatches()
      ensures Drawn() && Groups() == old(Groups())
      ensures FetchRan(old(cloud.faults), old(cloud.state)) ==> Found(old(cloud.state)) && ReadAsFetched()
    {
      ghost var before := taskQueue.joined;
      r := FetchAndDelete(w);
      if r.Fail? { return; }
      ghost var late := taskQueue.joined;
      if !isServiceUpdateOnly {
        CheckDeploy(w);
      } else {
        Canon.AppendNothing(late);
      }
      Canon.AppendAssoc(before, FetchDeleteBatches(), if !isServiceUpdateOnly then [CheckBatch()] else []);
    }

    /** The fetch and the deletion, as `run` gates them: the run stops at
        the first that raises. */
    method FetchAndDelete(w: DeployProcess) returns (r: Outcome)
      requires w.cloud == cloud
      requires deleteServiceList == [] && deleteScheduledTaskList == []
      modifies this`deleteServiceList, this`deleteScheduledTaskList, this`fetchedServices, this`fetchedRules
      modifies this`observedServices, this`observedRules, this`deleteObserved, this`deleteFaults, this`deleteLog
      modifies cloud, taskQueue, set s | s in allServiceList, set t | t in scheduledTaskList
      ensures r.Fail? <==> InspectionFails(old(cloud.faults), old(cloud.state))
      ensures r.Pass? ==> taskQueue.joined == old(taskQueue.joined) + FetchDeleteBatches()
      ensures FetchRan(old(cloud.faults), old(cloud.state)) ==> Found(old(cloud.state)) && ReadAsFetched()
    {
      ghost var before := taskQueue.joined;
      r := FetchStep(w);
      if FetchRan(old(cloud.faults), old(cloud.state)) {
        ReadWhenFetched();
      }
      if r.Fail? { return; }
      r := DeleteStep(w);
      Canon.AppendAssoc(before, if !isServiceUpdateOnly then [FetchBatch()] else [],
        if !(isServiceUpdateOnly || isTaskDefinitionUpdateOnly) && isDeleteUnusedService then [DeleteBatch()] else []);
    }

    /** `_fetch_ecs_information`, unless the run only updates services. */
    method FetchStep(w: DeployProcess) returns (r: Outcome)
      requires w.cloud == cloud
      modifies this`deleteServiceList, this`deleteScheduledTaskList, this`fetchedServices, this`fetchedRules
      modifies this`observedServices, this`observedRules
      modifies cloud, taskQueue, set s | s in allServiceList, set t | t in scheduledTaskList
      ensures r.Fail? <==> FetchStepFails(old(cloud.faults), old(cloud.state))
      ensures FetchRan(old(cloud.faults), old(cloud.state)) ==>
        && Found(old(cloud.state))
        && observedServices == Observations(fetchedServices) && observedRules == RuleObservations(fetchedRules)
      ensures r.Pass? ==> taskQueue.joined == old(taskQueue.joined) + (if !isServiceUpdateOnly then [FetchBatch()] else [])
      ensures forall d :: d in deleteServiceList ==> d in old(deleteServiceList) || fresh(d)
      ensures forall d :: d in deleteServiceList ==> d in old(deleteServiceList) || (d in fetchedServices && d.taskEnvironment.Some?)
    {
      r := Pass;
      if !isServiceUpdateOnly {
        r := FetchEcsInformation(w);
      } else {
        Canon.AppendNothing(taskQueue.joined);
      }
    }

    /** `_delete_unused`, unless the run only updates services or task
        definitions. */
    method DeleteStep(w: DeployProcess) returns (r: Outcome)
      requires w.cloud == cloud
      modifies this`deleteObserved, this`deleteFaults, this`deleteLog, taskQueue, cloud, set d | d in deleteServiceList
      ensures r.Fail? <==> DeleteStepFails()
      ensures !(isServiceUpdateOnly || isTaskDefinitionUpdateOnly) && isDeleteUnusedService ==>
        && deleteObserved == old(RuleObservations(deleteScheduledTaskList))
        && DeletedOnly(old(cloud.faults), old(cloud.log), deleteFaults, deleteLog) && RulesDeletedOnly(deleteLog, cloud.log)
      ensures ReadAsFetched() == old(ReadAsFetched())
      ensures r.Pass? ==>
        taskQueue.joined == old(taskQueue.joined) + (if !(isServiceUpdateOnly || isTaskDefinitionUpdateOnly) && isDeleteUnusedService then [DeleteBatch()] else [])
    {
      r := Pass;
      if !(isServiceUpdateOnly || isTaskDefinitionUpdateOnly) {
        r := DeleteUnused(w);
      }
      if !((isServiceUpdateOnly || isTaskDefinitionUpdateOnly) || isDeleteUnusedService) {
        Canon.AppendNothing(taskQueue.joined);
      }
    }

    /** `run` from `_stop_scheduled_task` to `_result_check`. */
    method Finish(w: DeployProcess) returns (r: Outcome)
      requires w.cloud == cloud && Drawn()
      modifies cloud, taskQueue, set s | s in allServiceList, set t | t in scheduledTaskList
      ensures taskQueue.joined == old(taskQueue.joined) + DeployBatches()
      ensures isTaskDefinitionUpdateOnly ==> r == Pass
      ensures !isTaskDefinitionUpdateOnly ==> (r.Fail? <==> Failed())
      ensures r.Fail? ==> r.error == SystemExit(1)
      ensures ReadAsFetched() == old(ReadAsFetched())
    {
      ghost var before := taskQueue.joined;
      StopSteps(w);
      StartSteps(w);
      Canon.AppendAssoc(before, StopStepBatches(), StartStepBatches());
      r := Pass;
      if !isTaskDefinitionUpdateOnly {
        r := ResultCheck();
      }
    }

    /** `_stop_scheduled_task` and `_stop_before_deploy`, as `run` gates
        them. */
    method StopSteps(w: DeployProcess)
      requires w.cloud == cloud && Drawn()
      modifies cloud, taskQueue, set s | s in allServiceList, set t | t in scheduledTaskList
      ensures taskQueue.joined == old(taskQueue.joined) + StopStepBatches()
    {
      ghost var before := taskQueue.joined;
      var suo := isServiceUpdateOnly;
      var tduo := isTaskDefinitionUpdateOnly;
      if !(suo || tduo) {
        ScheduledTaskStep(w, StopScheduledTask);
      } else {
        Canon.AppendNothing(before);
      }
      ghost var middle := taskQueue.joined;
      if !tduo {
        StopBeforeDeployStep(w);
      } else {
        Canon.AppendNothing(middle);
      }
      Canon.AppendAssoc(before, if !(suo || tduo) then TaskBatches(StopScheduledTask) else [],
        if !tduo then StopBatches(primaryStopBeforeDeployServiceList, stopBeforeDeployServiceList) else []);
    }

    /** `_deploy_service`, `_start_after_deploy` and
        `_deploy_scheduled_task`, as `run` gates them. */
    method StartSteps(w: DeployProcess)
      requires w.cloud == cloud && Drawn()
      modifies cloud, taskQueue, set s | s in allServiceList, set t | t in scheduledTaskList
      ensures taskQueue.joined == old(taskQueue.joined) + StartStepBatches()
    {
      ghost var before := taskQueue.joined;
      var suo := isServiceUpdateOnly;
      var tduo := isTaskDefinitionUpdateOnly;
      Rollout(w, primaryDeployServiceList, remainDeployServiceList);
      ghost var deployed := RolloutBatches(primaryDeployServiceList, remainDeployServiceList);
      ghost var middle := taskQueue.joined;
      if !tduo {
        Rollout(w, primaryStopBeforeDeployServiceList, stopBeforeDeployServiceList);
      } else {
        Canon.AppendNothing(middle);
      }
      ghost var started := if !tduo then RolloutBatches(primaryStopBeforeDeployServiceList, stopBeforeDeployServiceList) else [];
      Canon.AppendAssoc(before, deployed, started);
      ghost var late := taskQueue.joined;
      if !(suo || tduo) {
        ScheduledTaskStep(w, DeployScheduledTask);
      } else {
        Canon.AppendNothing(late);
      }
      Canon.AppendAssoc(before, deployed + started, if !(suo || tduo) then TaskBatches(DeployScheduledTask) else []);
    }

    /** `run`: the configuration, then the steps with the worker pool,
        each step's batch joined before the next step starts. */
    method Run() returns (r: Outcome)
      requires Initial()
      modifies this, cloud, taskQueue
      ensures DeployListError(renderer, args.source, args.deployServiceGroup, args.templateGroup).Some? ==>
        r == Fail(DeployListError(renderer, args.source, args.deployServiceGroup, args.templateGroup).value)
      ensures DeployListError(renderer, args.source, args.deployServiceGroup, args.templateGroup).None? ==>
        && (InspectionFails(old(cloud.faults), old(cloud.state)) ==> r.Fail?)
        && (!InspectionFails(old(cloud.faults), old(cloud.state)) && isTaskDefinitionUpdateOnly ==> r == Pass)
        && (!InspectionFails(old(cloud.faults), old(cloud.state)) && !isTaskDefinitionUpdateOnly ==> (r.Fail? <==> Failed()))
      ensures r.Pass? ==> taskQueue.joined == old(taskQueue.joined) + RunBatches()
      ensures r.Pass? ==> Grouped()
      ensures DeployListError(renderer, args.source, args.deployServiceGroup, args.templateGroup).None? && FetchRan(old(cloud.faults), old(cloud.state)) ==>
        Found(old(cloud.state)) && ReadAsFetched()
    {
      r := ServiceConfig();
      if r.Fail? { return; }
      r := Launch();
    }

    /** `run` once `_service_config` has selected the targets: the worker
        pool is made and the steps follow. */
    method Launch() returns (r: Outcome)
      requires allDeployTargetServiceList == SelectServices(allServiceList, args.deployServiceGroup, args.templateGroup)
      requires deployScheduledTaskList == SelectTasks(scheduledTaskList, args.deployServiceGroup, args.templateGroup)
      requires deleteServiceList == [] && deleteScheduledTaskList == []
      requires primaryStopBeforeDeployServiceList == [] && stopBeforeDeployServiceList == []
      requires primaryDeployServiceList == [] && remainDeployServiceList == []
      modifies this`deleteServiceList, this`deleteScheduledTaskList, this`fetchedServices, this`fetchedRules
      modifies this`observedServices, this`observedRules, this`deleteObserved, this`deleteFaults, this`deleteLog
      modifies this`primaryStopBeforeDeployServiceList, this`stopBeforeDeployServiceList,
        this`primaryDeployServiceList, this`remainDeployServiceList
      modifies cloud, taskQueue, set s | s in allServiceList, set t | t in scheduledTaskList
      ensures InspectionFails(old(cloud.faults), old(cloud.state)) ==> r.Fail?
      ensures !InspectionFails(old(cloud.faults), old(cloud.state)) && isTaskDefinitionUpdateOnly ==> r == Pass
      ensures !InspectionFails(old(cloud.faults), old(cloud.state)) && !isTaskDefinitionUpdateOnly ==> (r.Fail? <==> Failed())
      ensures r.Pass? ==> taskQueue.joined == old(taskQueue.joined) + RunBatches()
      ensures r.Pass? ==> Grouped()
      ensures FetchRan(old(cloud.faults), old(cloud.state)) ==> Found(old(cloud.state)) && ReadAsFetched()
    {
      var w := new DeployProcess(cloud, isServiceZeroKeep, isStopBeforeDeploy, isServiceUpdateOnly, isTaskDefinitionUpdateOnly);
      forall s | s in allDeployTargetServiceList ensures s in allServiceList {
        SelectServicesMembers(allServiceList, args.deployServiceGroup, args.templateGroup, s);
      }
      forall t | t in deployScheduledTaskList ensures t in scheduledTaskList {
        SelectTasksMembers(scheduledTaskList, args.deployServiceGroup, args.templateGroup, t);
      }
      r := Proceed(w);
    }

    /** `run` after the configuration. */
    method Proceed(w: DeployProcess) returns (r: Outcome)
      requires w.cloud == cloud && Drawn()
      requires deleteServiceList == [] && deleteScheduledTaskList == []
      requires primaryStopBeforeDeployServiceList == [] && stopBeforeDeployServiceList == []
      requires primaryDeployServiceList == [] && remainDeployServiceList == []
      modifies this`deleteServiceList, this`deleteScheduledTaskList, this`fetchedServices, this`fetchedRules
      modifies this`observedServices, this`observedRules, this`deleteObserved, this`deleteFaults, this`deleteLog
      modifies this`primaryStopBeforeDeployServiceList, this`stopBeforeDeployServiceList,
        this`primaryDeployServiceList, this`remainDeployServiceList
      modifies cloud, taskQueue, set s | s in allServiceList, set t | t in scheduledTaskList
      ensures InspectionFails(old(cloud.faults), old(cloud.state)) ==> r.Fail?
      ensures !InspectionFails(old(cloud.faults), old(cloud.state)) && isTaskDefinitionUpdateOnly ==> r == Pass
      ensures !InspectionFails(old(cloud.faults), old(cloud.state)) && !isTaskDefinitionUpdateOnly ==> (r.Fail? <==> Failed())
      ensures r.Pass? ==> taskQueue.joined == old(taskQueue.joined) + RunBatches()
      ensures r.Pass? ==> Grouped()
      ensures FetchRan(old(cloud.faults), old(cloud.state)) ==> Found(old(cloud.state)) && ReadAsFetched()
    {
      ghost var before := taskQueue.joined;
      r := Prepare(w);
      if r.Fail? { return; }
      ghost var prepared := PrepareBatches();
      ghost var failing := InspectionFails(old(cloud.faults), old(cloud.state));
      r := Finish(w);
      assert PrepareBatches() == prepared;
      assert InspectionFails(old(cloud.faults), old(cloud.state)) == failing;
      Canon.AppendAssoc(before, PrepareBatches(), DeployBatches());
    }

    lemma PrepareDeploysNothing()
      ensures DeployedAll(PrepareBatches()) == multiset{}
    {
      var suo := isServiceUpdateOnly;
      var tduo := isTaskDefinitionUpdateOnly;
      var fetch := if !suo then [FetchBatch()] else [];
      var delete := if !(suo || tduo) && isDeleteUnusedService then [DeleteBatch()] else [];
      var check := if !suo then [CheckBatch()] else [];
      DeployedAllAppend(fetch + delete, check);
      DeployedAllAppend(fetch, delete);
      FetchDeploysNothing();
      CheckDeploysNothing();
      DeployedSingle(DeleteBatch());
      DescribedDeployNothing(deleteServiceList, DeleteService);
    }

    lemma FetchDeploysNothing()
      ensures DeployedAll([FetchBatch()]) == multiset{}
    {
      DeployedSingle(FetchBatch());
      DeployedAppend(DescribeUnits(fetchedServices, FetchServices), RuleUnits(fetchedRules, FetchCloudwatchEvents));
      DescribedDeployNothing(fetchedServices, FetchServices);
      RulesDeployNothing(fetchedRules, FetchCloudwatchEvents);
    }

    lemma CheckDeploysNothing()
      ensures DeployedAll([CheckBatch()]) == multiset{}
    {
      DeployedSingle(CheckBatch());
      DeployedAppend(ServiceUnits(allDeployTargetServiceList, CheckDeployService), TaskUnits(deployScheduledTaskList, CheckDeployScheduledTask));
      DeployedUnits(allDeployTargetServiceList, CheckDeployService);
      TasksDeployNothing(deployScheduledTaskList, CheckDeployScheduledTask);
    }

    lemma StopStepsDeployNothing()
      ensures DeployedAll(StopStepBatches()) == multiset{}
    {
      var stopTasks := if !(isServiceUpdateOnly || isTaskDefinitionUpdateOnly) then TaskBatches(StopScheduledTask) else [];
      var stops := if !isTaskDefinitionUpdateOnly then StopBatches(primaryStopBeforeDeployServiceList, stopBeforeDeployServiceList) else [];
      DeployedAllAppend(stopTasks, stops);
      DeployedSingle(TaskUnits(deployScheduledTaskList, StopScheduledTask));
      TasksDeployNothing(deployScheduledTaskList, StopScheduledTask);
      StopDeploysNothing(primaryStopBeforeDeployServiceList, stopBeforeDeployServiceList);
    }

    lemma StartStepsDeploy()
      ensures DeployedAll(StartStepBatches())
        == multiset(primaryDeployServiceList) + multiset(remainDeployServiceList)
          + (if isTaskDefinitionUpdateOnly then multiset{}
             else multiset(primaryStopBeforeDeployServiceList) + multiset(stopBeforeDeployServiceList))
    {
      var deploys := RolloutBatches(primaryDeployServiceList, remainDeployServiceList);
      var starts := if !isTaskDefinitionUpdateOnly then RolloutBatches(primaryStopBeforeDeployServiceList, stopBeforeDeployServiceList) else [];
      var deployTasks := if !(isServiceUpdateOnly || isTaskDefinitionUpdateOnly) then TaskBatches(DeployScheduledTask) else [];
      DeployedAllAppend(deploys + starts, deployTasks);
      DeployedAllAppend(deploys, starts);
      DeployedSingle(TaskUnits(deployScheduledTaskList, DeployScheduledTask));
      DeployedNone(TaskUnits(deployScheduledTaskList, DeployScheduledTask));
      RolloutDeploys(primaryDeployServiceList, remainDeployServiceList);
      RolloutDeploys(primaryStopBeforeDeployServiceList, stopBeforeDeployServiceList);
    }

    /** A run deploys the deploy groups, and the stopped groups unless it
        only updates task definitions. */
    lemma RunDeploys()
      ensures DeployedAll(RunBatches())
        == multiset(primaryDeployServiceList) + multiset(remainDeployServiceList)
          + (if isTaskDefinitionUpdateOnly then multiset{}
             else multiset(primaryStopBeforeDeployServiceList) + multiset(stopBeforeDeployServiceList))
    {
      DeployedAllAppend(PrepareBatches(), DeployBatches());
      PrepareDeploysNothing();
      DeployedAllAppend(StopStepBatches(), StartStepBatches());
      StopStepsDeployNothing();
      StartStepsDeploy();
    }

    /** Once the groups are set, a run queues every deploy target for
        deployment exactly once, unless it only updates task definitions
        while services may stop before the deploy. */
    lemma DeployedOnce()
      requires Grouped()
      requires !isTaskDefinitionUpdateOnly || !isStopBeforeDeploy
      ensures DeployedAll(RunBatches()) == multiset(allDeployTargetServiceList)
    {
      RunDeploys();
      PickPartition(allDeployTargetServiceList, isStopBeforeDeploy);
      if !isStopBeforeDeploy {
        PickWithoutStop(allDeployTargetServiceList, true);
        PickWithoutStop(allDeployTargetServiceList, false);
      }
    }

    /** A task-definition-only run never deploys a service that stops
        before the deploy, and deploys every other target. */
    lemma TaskDefinitionOnlySkipsStopped(s: Service)
      requires primaryDeployServiceList == Pick(allDeployTargetServiceList, false, true, isStopBeforeDeploy)
      requires remainDeployServiceList == Pick(allDeployTargetServiceList, false, false, isStopBeforeDeploy)
      requires isTaskDefinitionUpdateOnly && s in allDeployTargetServiceList
      ensures DeployedAll(RunBatches())[s] == 0 <==> StopsFirst(s, isStopBeforeDeploy)
    {
      RunDeploys();
      PickMembers(allDeployTargetServiceList, false, true, isStopBeforeDeploy, s);
      PickMembers(allDeployTargetServiceList, false, false, isStopBeforeDeploy, s);
    }
  }
}
