/** The deploy workers of ecs/deploy.py: `DeployProcess` with the
    operations a queued unit runs, and the module functions
    `wait_for_stable` and `deregister_task_definition`.

    A worker takes `[target, mode]` units from the task queue and runs the
    operation the mode names on the target. A unit whose target has already
    failed is skipped; an exception raised by the operation marks only that
    target as failed, and the unit still counts as done. The pool of worker
    threads is one worker draining each batch in order: every unit queued
    before a `join` has been processed when the `join` returns. All workers
    are made with the same settings and talk to the same cloud, so which
    thread runs a unit does not matter. */
module Deploy {
  import opened Base
  import opened Json
  import opened Services
  import opened ScheduledTasks
  import Cloud
  import Canon

  /** `ProcessMode`. */
  datatype Mode =
    | FetchServices | DeployService | CheckDeployService | WaitForStable
    | DeployScheduledTask | FetchCloudwatchEvents | CheckDeployScheduledTask
    | StopScheduledTask | StopBeforeDeploy | DeleteService

  /** The object a unit is queued with. */
  datatype Target =
    | ServiceTarget(service: Service)
    | DescribeTarget(describe: DescribeService)
    | TaskTarget(task: ScheduledTask)
    | RuleTarget(rule: CloudwatchEventRule)

  /** A queued `[deploy, mode]` pair. */
  datatype Unit = Unit(target: Target, mode: Mode)

  /** The kind of target each mode is queued with. */
  predicate Matches(u: Unit)
  {
    match u.mode
    case FetchServices | DeleteService => u.target.DescribeTarget?
    case DeployService | CheckDeployService | WaitForStable | StopBeforeDeploy => u.target.ServiceTarget?
    case DeployScheduledTask | CheckDeployScheduledTask | StopScheduledTask => u.target.TaskTarget?
    case FetchCloudwatchEvents => u.target.RuleTarget?
  }

  function Object(t: Target): object
  {
    match t
    case ServiceTarget(s) => s
    case DescribeTarget(d) => d
    case TaskTarget(x) => x
    case RuleTarget(c) => c
  }

  /** The targets of a batch. */
  function Objects(batch: seq<Unit>): set<object>
  {
    set u | u in batch :: Object(u.target)
  }

  /** `deploy.status`. */
  function StatusOf(t: Target): ProcessStatus
    reads Object(t)
  {
    match t
    case ServiceTarget(s) => s.status
    case DescribeTarget(d) => d.status
    case TaskTarget(x) => x.status
    case RuleTarget(c) => c.status
  }

  /** The status of a target object, whatever it was queued as. */
  function StatusOfObject(o: object): ProcessStatus
    reads o
  {
    if o is Service then (o as Service).status
    else if o is DescribeService then (o as DescribeService).status
    else if o is ScheduledTask then (o as ScheduledTask).status
    else if o is CloudwatchEventRule then (o as CloudwatchEventRule).status
    else Normal
  }

  /** A target's status is its object's: two targets on the same object
      have the same status. */
  lemma StatusOfObjectOf(t: Target)
    ensures StatusOf(t) == StatusOfObject(Object(t))
  {
  }

  /** The task queue. What the model keeps of it is the batches joined so
      far, each the units queued since the previous `join`. */
  class TaskQueue {
    ghost var joined: seq<seq<Unit>>

    constructor ()
      ensures joined == []
    {
      joined := [];
    }
  }

  /** The task definition an update names: the registered ARN, else the
      definition's `family`, which the cloud client refuses unless it is a
      name. */
  function UpdateDefinition(arn: Option<string>, td: Json): (res: Result<string>)
    ensures arn.Some? ==> res == Ok(arn.value)
    ensures arn.None? && td.JObj? && Get(td.fields, "family").Some? && Get(td.fields, "family").value.JStr? ==>
      res == Ok(Get(td.fields, "family").value.s)
    ensures res.Ok? && arn.None? ==> td.JObj? && Get(td.fields, "family") == Some(JStr(res.value))
  {
    if arn.Some? then Ok(arn.value)
    else match ObjGet(td, "family")
      case Err(e) => Err(e)
      case Ok(f) => if f.Some? && f.value.JStr? then Ok(f.value.s) else Err(TypeError("taskDefinition"))
  }

  /** The desired count an update sends: with zero-keep on, a service whose
      origin count is 0 is kept at 0 whatever was asked. */
  function SentCount(zeroKeep: bool, originDesired: Option<int>, desired: int): (n: int)
    ensures zeroKeep && originDesired == Some(0) ==> n == 0
    ensures !(zeroKeep && originDesired == Some(0)) ==> n == desired
  {
    if zeroKeep && originDesired == Some(0) then 0 else desired
  }

  /** The next call about the service raises `EcsServiceNotFoundException`. */
  predicate ServiceMissing(faults: seq<Option<Fault>>, s: Cloud.CloudState, key: Cloud.ServiceKey)
  {
    Cloud.Head(faults) == Some(NotFound) || (Cloud.Head(faults).None? && key !in s.services)
  }

  /** The describe branch of `check_deploy_service` learns the origin: the
      service and the definition it runs are described without a fault, and
      the definition gives a task environment and a `family`. */
  predicate OriginFound(faults: seq<Option<Fault>>, s: Cloud.CloudState, key: Cloud.ServiceKey)
  {
    && Cloud.Head(faults).None? && key in s.services
    && Cloud.Head(Cloud.Tail(faults)).None? && s.services[key].taskDefinition in s.definitions
    && ServiceEnvironmentOf(s.definitions[s.services[key].taskDefinition]).Ok?
    && Index(s.definitions[s.services[key].taskDefinition], "family").Ok?
  }

  /** The describe branch of `check_deploy_scheduled_task` learns the
      origin: the rule and the definition named after the family are
      described without a fault, the rule has a known state and a
      description, and the definition gives a task environment and a
      `family`. */
  predicate RuleOriginFound(faults: seq<Option<Fault>>, s: Cloud.CloudState, family: string)
  {
    && Cloud.Head(faults).None? && family in s.rules
    && Cloud.Head(Cloud.Tail(faults)).None? && family in s.definitions
    && GetState(s.rules[family].state).Ok? && s.rules[family].description.Some?
    && s.definitions[family].JObj?
    && TaskEnvironmentOf(s.definitions[family]).Ok? && Index(s.definitions[family], "family").Ok?
  }

  /** The next call about the rule raises `CloudwatchEventRuleNotFoundException`. */
  predicate RuleMissing(faults: seq<Option<Fault>>, s: Cloud.CloudState, family: string)
  {
    Cloud.Head(faults) == Some(NotFound) || (Cloud.Head(faults).None? && family !in s.rules)
  }

  /** The settings `__create_service` sends with a service: the
      percentages and distinct flag of its task environment, and the
      placement, load balancers, network configuration and registries it was
      built with. */
  function CreateSettingsOf(s: Service): Cloud.CreateSettings
  {
    Cloud.CreateSettings(
      s.taskEnvironment.maximumPercent, s.taskEnvironment.minimumHealthyPercent, s.taskEnvironment.distinctInstance,
      s.placementStrategy, s.placementConstraints, s.loadBalancers, s.networkConfiguration, s.serviceRegistries)
  }

  /** The `update_service` call for a service: its percentages go with the
      definition, the count and the force flag. */
  function UpdateCall(s: Service, definition: string, desired: int, force: bool): Cloud.Call
  {
    Cloud.Call.UpdateService(s.taskEnvironment.clusterName, s.serviceName, definition,
      s.taskEnvironment.maximumPercent, s.taskEnvironment.minimumHealthyPercent, desired, force)
  }

  /** The key a service is known by in the cloud. */
  function KeyOf(s: Service): Cloud.ServiceKey
  {
    Cloud.ServiceKey(s.taskEnvironment.clusterName, s.serviceName)
  }

  /** Only registered task definitions differ between the two states. */
  predicate OnlyDefinitionsChanged(s0: Cloud.CloudState, s1: Cloud.CloudState)
  {
    s1 == s0.(registered := s1.registered, definitions := s1.definitions)
  }

  /** The calls `stop_scheduled_task` makes for a rule that exists. */
  function StopCalls(enabled: bool, family: string, cluster: Json, arns: seq<string>): seq<Cloud.Call>
  {
    (if enabled then [Cloud.Call.DisableRule(family)] else []) + RunningCalls(cluster, family, arns)
  }

  /** The calls that stop the running tasks of a family: list them, stop
      each, and wait for them when there were any. */
  function RunningCalls(cluster: Json, family: string, arns: seq<string>): seq<Cloud.Call>
  {
    [Cloud.Call.ListRunningTasks(cluster, family)]
    + StopEach(cluster, arns)
    + (if arns == [] then [] else [Cloud.Call.WaitForTaskStopped(cluster, arns)])
  }

  /** One `stop_task` per running task, in order. */
  function StopEach(cluster: Json, arns: seq<string>): (r: seq<Cloud.Call>)
    ensures |r| == |arns|
    ensures forall i :: 0 <= i < |arns| ==> r[i] == Cloud.Call.StopTask(cluster, arns[i])
  {
    if arns == [] then [] else StopEach(cluster, arns[..|arns| - 1]) + [Cloud.Call.StopTask(cluster, arns[|arns| - 1])]
  }

  lemma CallsAssociate(a: seq<Cloud.Call>, b: seq<Cloud.Call>, c: seq<Cloud.Call>, d: seq<Cloud.Call>)
    ensures a + b + c + d == a + (b + c + d)
  {
  }

  lemma StopEachStep(cluster: Json, arns: seq<string>, i: nat)
    requires i < |arns|
    ensures StopEach(cluster, arns[..i + 1]) == StopEach(cluster, arns[..i]) + [Cloud.Call.StopTask(cluster, arns[i])]
  {
    assert arns[..i + 1][..i] == arns[..i];
  }

  /** The first call `deploy_scheduled_task` makes: a registration when
      the definition changed, else the rule, else none when comparing
      raises. */
  function DeployTaskOpening(x: ScheduledTask): Option<Cloud.Call>
    reads x
  {
    var same := SameTaskDefinition(x.originTaskDefinition, x.taskDefinition);
    if same.Err? then None
    else if same == Ok(false) then Some(Cloud.Call.RegisterTaskDefinition(ComparedTaskDefinition(x.originTaskDefinition, x.taskDefinition)))
    else Some(Cloud.Call.CreateScheduledTask(x.family, x.taskDefinitionArn, StateValue(x.state), ManagedDescription))
  }

  /** A deploy worker with the settings of the run. */
  class DeployProcess {
    const cloud: Cloud.Cloud
    const isServiceZeroKeep: bool
    const isStopBeforeDeploy: bool
    const isServiceUpdateOnly: bool
    const isTaskDefinitionUpdateOnly: bool

    constructor (cloud: Cloud.Cloud, zeroKeep: bool, stopBeforeDeploy: bool, serviceUpdateOnly: bool, definitionUpdateOnly: bool)
      ensures this.cloud == cloud && isServiceZeroKeep == zeroKeep && isStopBeforeDeploy == stopBeforeDeploy
      ensures isServiceUpdateOnly == serviceUpdateOnly && isTaskDefinitionUpdateOnly == definitionUpdateOnly
    {
      this.cloud := cloud;
      isServiceZeroKeep := zeroKeep;
      isStopBeforeDeploy := stopBeforeDeploy;
      isServiceUpdateOnly := serviceUpdateOnly;
      isTaskDefinitionUpdateOnly := definitionUpdateOnly;
    }

    // -------------------------------------------------------------------------
    // services

    /** `__register_task_definition`: nothing is registered when the
        definition is the same as the deployed one; otherwise the new
        revision's ARN becomes the service's. */
    method RegisterTaskDefinition(service: Service) returns (r: Outcome)
      modifies cloud, service
      ensures var same := SameDefinition(old(service.originTaskDefinition), old(service.taskDefinition));
        && (same.Err? ==> r == Fail(same.error) && unchanged(cloud))
        && (same == Ok(true) ==> r == Pass && unchanged(cloud) && service.taskDefinitionArn == old(service.taskDefinitionArn))
        && (same == Ok(false) ==>
              && cloud.log == old(cloud.log) + [Cloud.Call.RegisterTaskDefinition(service.taskDefinition)]
              && cloud.faults == Cloud.Tail(old(cloud.faults)))
        && (same == Ok(false) && Cloud.Head(old(cloud.faults)).None? && service.taskDefinition.JObj? ==>
              && r == Pass
              && service.taskDefinitionArn == Some(Cloud.NewArn(old(cloud.state), service.taskDefinition))
              && cloud.state == Cloud.AfterRegistering(old(cloud.state), service.taskDefinition))
      ensures service.desiredCount == old(service.desiredCount) && service.originDesiredCount == old(service.originDesiredCount)
      ensures service.runningCount == old(service.runningCount) && service.originServiceExists == old(service.originServiceExists)
      ensures service.originTaskDefinitionArn == old(service.originTaskDefinitionArn) && service.status == old(service.status)
      ensures old(cloud.log) <= cloud.log && OnlyDefinitionsChanged(old(cloud.state), cloud.state)
      ensures service.taskDefinition == ComparedDefinition(old(service.originTaskDefinition), old(service.taskDefinition))
    {
      var same := service.IsSameTaskDefinition();
      if same.Err? { return Fail(same.error); }
      if same.value { return Pass; }
      var registered := cloud.RegisterTaskDefinition(service.taskDefinition);
      if registered.Err? { return Fail(registered.error); }
      if service.taskDefinition.JObj? {
        Cloud.RegisteredArn(service.taskDefinition, Cloud.NewArn(old(cloud.state), service.taskDefinition));
      }
      r := service.SetTaskDefinitionArn(registered.value);
    }

    /** `__create_service`: the service is created with its configured
        count, or 0 for a stop-before-deploy; its origin count becomes the
        count the cloud reports. */
    method CreateService(service: Service, isStopBeforeDeploy: bool) returns (r: Result<Cloud.ServiceReply>)
      modifies cloud, service
      ensures var count := if isStopBeforeDeploy then 0 else service.taskEnvironment.desiredCount;
        && cloud.log == old(cloud.log) + [Cloud.Call.CreateService(KeyOf(service).cluster, service.serviceName, old(service.taskDefinitionArn), count, CreateSettingsOf(service))]
        && cloud.faults == Cloud.Tail(old(cloud.faults))
        && (r.Ok? <==> Cloud.Head(old(cloud.faults)).None? && old(service.taskDefinitionArn).Some?)
        && (r.Err? ==> cloud.state == old(cloud.state) && unchanged(service))
        && (r.Ok? ==>
              && r.value == Cloud.ServiceReply(Some(0), Some(count))
              && KeyOf(service) in cloud.state.services
              && cloud.state.services[KeyOf(service)] == Cloud.ServiceState("ACTIVE", old(service.taskDefinitionArn).value, count, 0)
              && service.desiredCount == Some(count) && service.originDesiredCount == Some(count)
              && service.runningCount == Some(0))
      ensures service.status == old(service.status)
    {
      var count := service.taskEnvironment.desiredCount;
      if isStopBeforeDeploy {
        count := 0;
      }
      r := cloud.CreateService(service.taskEnvironment.clusterName, service.serviceName, service.taskDefinitionArn, count, CreateSettingsOf(service));
      if r.Ok? {
        service.UpdateRunCount(r.value, false, true);
      }
    }

    /** The `except EcsServiceNotFoundException` branch of
        `__update_service`: register unless the same, then create with the
        configured count (the stop-before-deploy flag is not passed on). */
    method Recreate(service: Service) returns (r: Result<Cloud.ServiceReply>)
      modifies cloud, service
      ensures r.Ok? ==>
        && r.value == Cloud.ServiceReply(Some(0), Some(service.taskEnvironment.desiredCount))
        && KeyOf(service) in cloud.state.services
        && cloud.state.services[KeyOf(service)].desiredCount == service.taskEnvironment.desiredCount
        && service.desiredCount == Some(service.taskEnvironment.desiredCount)
        && service.originDesiredCount == Some(service.taskEnvironment.desiredCount)
      ensures SameDefinition(old(service.originTaskDefinition), old(service.taskDefinition)) == Ok(true) ==>
        cloud.log == old(cloud.log) + [Cloud.Call.CreateService(KeyOf(service).cluster, service.serviceName,
                                                               old(service.taskDefinitionArn), service.taskEnvironment.desiredCount,
                                                               CreateSettingsOf(service))]
      ensures old(cloud.log) <= cloud.log && service.status == old(service.status)
    {
      var registered := RegisterTaskDefinition(service);
      if registered.Fail? { return Err(registered.error); }
      r := CreateService(service, false);
    }

    /** `__update_service`. The update names the registered ARN (else the
        family) and sends the requested count, or 0 under zero-keep; a
        service the cloud does not know is registered and created instead,
        at its configured count. */
    method UpdateService(service: Service, desired: int, force: bool, isStopBeforeDeploy: bool) returns (r: Outcome)
      modifies cloud, service
      ensures var def := UpdateDefinition(old(service.taskDefinitionArn), old(service.taskDefinition));
        def.Err? ==> r == Fail(def.error) && unchanged(cloud) && unchanged(service)
      ensures var def := UpdateDefinition(old(service.taskDefinitionArn), old(service.taskDefinition));
        var sent := SentCount(isServiceZeroKeep, old(service.originDesiredCount), desired);
        def.Ok? ==>
          old(cloud.log) + [UpdateCall(service, def.value, sent, force)] <= cloud.log
      ensures var def := UpdateDefinition(old(service.taskDefinitionArn), old(service.taskDefinition));
        var sent := SentCount(isServiceZeroKeep, old(service.originDesiredCount), desired);
        def.Ok? && Cloud.Head(old(cloud.faults)).None? && KeyOf(service) in old(cloud.state.services) ==>
          var s0 := old(cloud.state.services[KeyOf(service)]);
          && r == Pass
          && cloud.log == old(cloud.log) + [UpdateCall(service, def.value, sent, force)]
          && cloud.state == old(cloud.state).(services := old(cloud.state.services)[KeyOf(service) := s0.(taskDefinition := def.value, desiredCount := sent)])
          && service.desiredCount == Some(sent) && service.runningCount == Some(s0.runningCount)
          && service.originDesiredCount ==
               (if isStopBeforeDeploy && old(service.originDesiredCount).None? then Some(s0.runningCount) else old(service.originDesiredCount))
      ensures var def := UpdateDefinition(old(service.taskDefinitionArn), old(service.taskDefinition));
        var fault := Cloud.Head(old(cloud.faults));
        def.Ok? && fault.Some? && fault != Some(NotFound) ==>
          r == Fail(CloudFailure(Cloud.Head(old(cloud.faults)).value)) && cloud.state == old(cloud.state) && unchanged(service)
      ensures var def := UpdateDefinition(old(service.taskDefinitionArn), old(service.taskDefinition));
        def.Ok? && ServiceMissing(old(cloud.faults), old(cloud.state), KeyOf(service)) && r.Pass? ==>
          && KeyOf(service) in cloud.state.services
          && cloud.state.services[KeyOf(service)].desiredCount == service.taskEnvironment.desiredCount
          && service.desiredCount == Some(service.taskEnvironment.desiredCount)
          && service.originDesiredCount == Some(service.taskEnvironment.desiredCount)
      ensures service.status == old(service.status)
    {
      var count := desired;
      if isServiceZeroKeep && service.originDesiredCount == Some(0) {
        count := 0;
      }
      var definition := UpdateDefinition(service.taskDefinitionArn, service.taskDefinition);
      if definition.Err? { return Fail(definition.error); }
      var reply := cloud.UpdateService(service.taskEnvironment.clusterName, service.serviceName, definition.value,
        service.taskEnvironment.maximumPercent, service.taskEnvironment.minimumHealthyPercent, count, force);
      if reply.Err? {
        if reply.error != CloudFailure(NotFound) { return Fail(reply.error); }
        var created := Recreate(service);
        if created.Err? { return Fail(created.error); }
        service.UpdateRunCount(created.value, isStopBeforeDeploy, false);
        return Pass;
      }
      service.UpdateRunCount(reply.value, isStopBeforeDeploy, false);
      r := Pass;
    }

    /** `stop_before_deploy`: an update to 0 tasks without forcing a new
        deployment; the first stop of a service remembers how many tasks it
        ran. */
    method StopBeforeDeploy(service: Service) returns (r: Outcome)
      modifies cloud, service
      ensures var def := UpdateDefinition(old(service.taskDefinitionArn), old(service.taskDefinition));
        def.Err? ==> r == Fail(def.error) && unchanged(cloud) && unchanged(service)
      ensures var def := UpdateDefinition(old(service.taskDefinitionArn), old(service.taskDefinition));
        def.Ok? ==> old(cloud.log) + [UpdateCall(service, def.value, 0, false)] <= cloud.log
      ensures var def := UpdateDefinition(old(service.taskDefinitionArn), old(service.taskDefinition));
        def.Ok? && Cloud.Head(old(cloud.faults)).None? && KeyOf(service) in old(cloud.state.services) ==>
          var s0 := old(cloud.state.services[KeyOf(service)]);
          && r == Pass && KeyOf(service) in cloud.state.services && cloud.state.services[KeyOf(service)].desiredCount == 0
          && service.desiredCount == Some(0)
          && service.originDesiredCount == (if old(service.originDesiredCount).None? then Some(s0.runningCount) else old(service.originDesiredCount))
      ensures var def := UpdateDefinition(old(service.taskDefinitionArn), old(service.taskDefinition));
        def.Ok? && ServiceMissing(old(cloud.faults), old(cloud.state), KeyOf(service)) && r.Pass? ==>
          && KeyOf(service) in cloud.state.services
          && cloud.state.services[KeyOf(service)].desiredCount == service.taskEnvironment.desiredCount
          && service.desiredCount == Some(service.taskEnvironment.desiredCount)
      ensures service.status == old(service.status)
    {
      r := UpdateService(service, 0, false, true);
    }

    /** `process_service`: register unless only the service is updated,
        update unless only the definition is registered. */
    method ProcessService(service: Service) returns (r: Outcome)
      modifies cloud, service
      ensures var def := UpdateDefinition(old(service.taskDefinitionArn), old(service.taskDefinition));
        isServiceUpdateOnly && !isTaskDefinitionUpdateOnly && def.Ok? ==>
          old(cloud.log) + [UpdateCall(service, def.value,
                              SentCount(isServiceZeroKeep, old(service.originDesiredCount), service.taskEnvironment.desiredCount), true)] <= cloud.log
      ensures isTaskDefinitionUpdateOnly ==> OnlyDefinitionsChanged(old(cloud.state), cloud.state)
      ensures isTaskDefinitionUpdateOnly ==>
        service.desiredCount == old(service.desiredCount) && service.originDesiredCount == old(service.originDesiredCount)
      ensures var same := SameDefinition(old(service.originTaskDefinition), old(service.taskDefinition));
        isTaskDefinitionUpdateOnly && !isServiceUpdateOnly && same == Ok(true) ==> unchanged(cloud)
      ensures isTaskDefinitionUpdateOnly && isServiceUpdateOnly ==> r == Pass && unchanged(cloud) && unchanged(service)
      ensures !isServiceUpdateOnly && SameDefinition(old(service.originTaskDefinition), old(service.taskDefinition)).Err? ==>
        r.Fail? && unchanged(cloud)
      ensures var def := UpdateDefinition(old(service.taskDefinitionArn), old(service.taskDefinition));
        isServiceUpdateOnly && !isTaskDefinitionUpdateOnly && def.Err? ==> r.Fail? && unchanged(cloud)
      ensures var same := SameDefinition(old(service.originTaskDefinition), old(service.taskDefinition));
        var td := ComparedDefinition(old(service.originTaskDefinition), old(service.taskDefinition));
        !isServiceUpdateOnly && same == Ok(false) ==>
          old(cloud.log) + [Cloud.Call.RegisterTaskDefinition(td)] <= cloud.log
      ensures var same := SameDefinition(old(service.originTaskDefinition), old(service.taskDefinition));
        var td := ComparedDefinition(old(service.originTaskDefinition), old(service.taskDefinition));
        var sent := SentCount(isServiceZeroKeep, old(service.originDesiredCount), service.taskEnvironment.desiredCount);
        !isServiceUpdateOnly && !isTaskDefinitionUpdateOnly && same == Ok(false) && Cloud.Head(old(cloud.faults)).None? && td.JObj? ==>
          && old(cloud.log) + [Cloud.Call.RegisterTaskDefinition(td),
                               UpdateCall(service, Cloud.NewArn(old(cloud.state), td), sent, true)] <= cloud.log
      ensures var same := SameDefinition(old(service.originTaskDefinition), old(service.taskDefinition));
        var td := ComparedDefinition(old(service.originTaskDefinition), old(service.taskDefinition));
        var def := UpdateDefinition(old(service.taskDefinitionArn), td);
        var sent := SentCount(isServiceZeroKeep, old(service.originDesiredCount), service.taskEnvironment.desiredCount);
        !isServiceUpdateOnly && !isTaskDefinitionUpdateOnly && same == Ok(true) ==>
          && (def.Ok? ==> old(cloud.log) + [UpdateCall(service, def.value, sent, true)] <= cloud.log)
          && (def.Err? ==> r.Fail? && unchanged(cloud))
      ensures old(DeployOpening(service)).Some? ==> old(cloud.log) + [old(DeployOpening(service)).value] <= cloud.log
      ensures old(DeployOpening(service)).None? ==> cloud.log == old(cloud.log)
      ensures service.status == old(service.status)
    {
      BoolResultCases(SameDefinition(service.originTaskDefinition, service.taskDefinition));
      if !isServiceUpdateOnly {
        var registered := RegisterTaskDefinition(service);
        if registered.Fail? { return registered; }
      }
      if !isTaskDefinitionUpdateOnly {
        var updated := UpdateService(service, service.taskEnvironment.desiredCount, true, false);
        if updated.Fail? { return updated; }
      }
      if !isServiceUpdateOnly {
        var same := service.IsSameTaskDefinition();
        if same.Err? { return Fail(same.error); }
      }
      r := Pass;
    }

    /** `fetch_service`: the deployed definition of an observed service. */
    method FetchService(d: DescribeService) returns (r: Outcome)
      modifies cloud, d
      ensures cloud.log == old(cloud.log) + [Cloud.Call.DescribeTaskDefinition(d.taskDefinitionArn)]
      ensures cloud.state == old(cloud.state) && d.status == old(d.status)
      ensures var fetched := d.taskDefinitionArn in cloud.state.definitions && Cloud.Head(old(cloud.faults)).None?;
        && (fetched ==> d.taskDefinition == Some(cloud.state.definitions[d.taskDefinitionArn]))
        && (!fetched ==> r.Fail? && unchanged(d))
    {
      var td := cloud.DescribeTaskDefinition(d.taskDefinitionArn);
      if td.Err? { return Fail(td.error); }
      r := d.SetFromTaskDefinition(td.value);
    }

    /** The describe branch of `check_deploy_service`: the origin of a
        service the run has not seen yet. */
    method DescribeOrigin(service: Service) returns (r: Outcome, found: bool)
      modifies cloud, service
      ensures cloud.state == old(cloud.state) && service.status == old(service.status)
      ensures |old(cloud.log)| < |cloud.log| && old(cloud.log) + [Cloud.Call.DescribeService(KeyOf(service).cluster, service.serviceName)] <= cloud.log
      ensures found ==> r == Pass
      ensures !found || r.Fail? ==> unchanged(service)
      ensures !found && r.Pass? <==> ServiceMissing(old(cloud.faults), old(cloud.state), KeyOf(service))
      ensures found ==>
        && KeyOf(service) in cloud.state.services
        && service.originTaskDefinitionArn == Some(cloud.state.services[KeyOf(service)].taskDefinition)
        && service.originDesiredCount == Some(cloud.state.services[KeyOf(service)].desiredCount)
        && service.originServiceExists == (cloud.state.services[KeyOf(service)].status == "ACTIVE")
        && service.taskDefinition == old(service.taskDefinition) && service.taskDefinitionArn == old(service.taskDefinitionArn)
      ensures found <==> OriginFound(old(cloud.faults), old(cloud.state), KeyOf(service))
      ensures found ==>
        var arn := old(cloud.state).services[KeyOf(service)].taskDefinition;
        && cloud.log == old(cloud.log) + [Cloud.Call.DescribeService(KeyOf(service).cluster, service.serviceName),
                                          Cloud.Call.DescribeTaskDefinition(arn)]
        && service.originTaskDefinition == Some(old(cloud.state).definitions[arn])
    {
      var described := cloud.DescribeService(service.taskEnvironment.clusterName, service.serviceName);
      if described.Err? {
        if described.error == CloudFailure(NotFound) { return Pass, false; }
        return Fail(described.error), false;
      }
      var d := new DescribeService(described.value);
      var td := cloud.DescribeTaskDefinition(d.taskDefinitionArn);
      if td.Err? { return Fail(td.error), false; }
      var loaded := d.SetFromTaskDefinition(td.value);
      if loaded.Fail? { return loaded, false; }
      service.SetFromDescribeService(d);
      r, found := Pass, true;
    }

    /** `check_deploy_service`: learn the origin if the run has not, then
        reuse the deployed ARN when the definition is unchanged. A service
        that is not found, or not active, is left to be created. */
    method CheckDeployService(service: Service) returns (r: Outcome)
      modifies cloud, service
      ensures cloud.state == old(cloud.state) && service.status == old(service.status)
      ensures old(service.originTaskDefinitionArn).Some? ==> cloud.log == old(cloud.log)
      ensures old(service.originTaskDefinitionArn).Some? && !old(service.originServiceExists) ==> r == Pass && unchanged(service)
      ensures old(service.originTaskDefinitionArn).Some? && old(service.originServiceExists) ==>
        var same := SameDefinition(old(service.originTaskDefinition), old(service.taskDefinition));
        && (r.Pass? <==> same.Ok?)
        && (same == Ok(true) ==> service.taskDefinitionArn == old(service.originTaskDefinitionArn))
        && (same != Ok(true) ==> service.taskDefinitionArn == old(service.taskDefinitionArn))
      ensures old(service.originTaskDefinitionArn).None? ==>
        old(cloud.log) + [Cloud.Call.DescribeService(KeyOf(service).cluster, service.serviceName)] <= cloud.log
      ensures var missing := ServiceMissing(old(cloud.faults), old(cloud.state), KeyOf(service));
        old(service.originTaskDefinitionArn).None? && missing ==> r == Pass && unchanged(service)
      ensures old(service.originTaskDefinitionArn).None? && OriginFound(old(cloud.faults), old(cloud.state), KeyOf(service)) ==>
        var s0 := old(cloud.state).services[KeyOf(service)];
        var same := SameDefinition(Some(old(cloud.state).definitions[s0.taskDefinition]), old(service.taskDefinition));
        && cloud.log == old(cloud.log) + [Cloud.Call.DescribeService(KeyOf(service).cluster, service.serviceName),
                                          Cloud.Call.DescribeTaskDefinition(s0.taskDefinition)]
        && service.originTaskDefinitionArn == Some(s0.taskDefinition)
        && (s0.status != "ACTIVE" ==> r == Pass && service.taskDefinitionArn == old(service.taskDefinitionArn))
        && (s0.status == "ACTIVE" ==>
              && (r.Pass? <==> same.Ok?)
              && (same == Ok(true) ==> service.taskDefinitionArn == Some(s0.taskDefinition))
              && (same != Ok(true) ==> service.taskDefinitionArn == old(service.taskDefinitionArn)))
      ensures var missing := ServiceMissing(old(cloud.faults), old(cloud.state), KeyOf(service));
        old(service.originTaskDefinitionArn).None? && !missing && !OriginFound(old(cloud.faults), old(cloud.state), KeyOf(service)) ==>
          r.Fail? && unchanged(service)
    {
      if service.originTaskDefinitionArn.None? {
        var found;
        r, found := DescribeOrigin(service);
        if !found { return; }
      }
      if !service.originServiceExists { return Pass; }
      var checks := service.CompareContainerDefinition();
      if checks.Err? { return Fail(checks.error); }
      r := Pass;
    }

    /** `delete_service`. */
    method DeleteService(d: DescribeService) returns (r: Outcome)
      modifies cloud
      ensures cloud.log == old(cloud.log) + [Cloud.Call.DeleteService(d.clusterName, d.serviceName)]
      ensures cloud.faults == Cloud.Tail(old(cloud.faults))
      ensures Cloud.Head(old(cloud.faults)).Some? ==> r.Fail? && cloud.state == old(cloud.state)
      ensures Cloud.Head(old(cloud.faults)).None? ==> r == Pass && Cloud.ServiceKey(JStr(d.clusterName), d.serviceName) !in cloud.state.services
    {
      r := cloud.DeleteService(d.clusterName, d.serviceName);
    }

    // -------------------------------------------------------------------------
    // scheduled tasks

    /** The `stop_task` loop of `stop_scheduled_task`: one call per running
        task, stopping at the first that raises. */
    method StopTasks(cluster: Json, arns: seq<string>) returns (r: Outcome)
      modifies cloud
      ensures cloud.state == old(cloud.state)
      ensures r.Pass? <==> Cloud.Clear(old(cloud.faults), |arns|)
      ensures r.Pass? ==> cloud.log == old(cloud.log) + StopEach(cluster, arns) && cloud.faults == Cloud.Drop(old(cloud.faults), |arns|)
      ensures old(cloud.log) <= cloud.log
    {
      var i := 0;
      while i < |arns|
        invariant 0 <= i <= |arns|
        invariant cloud.state == old(cloud.state)
        invariant Cloud.Clear(old(cloud.faults), i) && cloud.faults == Cloud.Drop(old(cloud.faults), i)
        invariant cloud.log == old(cloud.log) + StopEach(cluster, arns[..i])
      {
        var stopped := StopOne(cluster, arns, i, old(cloud.faults), old(cloud.log));
        if stopped.Fail? { return stopped; }
        i := i + 1;
      }
      Canon.TakeAll(arns);
      r := Pass;
    }

    /** One turn of the stopping loop of `stop_scheduled_task`: the i-th running task is stopped. */
    method StopOne(cluster: Json, arns: seq<string>, i: nat, ghost faults: seq<Option<Fault>>, ghost log: seq<Cloud.Call>) returns (r: Outcome)
      requires i < |arns|
      requires Cloud.Clear(faults, i) && cloud.faults == Cloud.Drop(faults, i)
      requires cloud.log == log + StopEach(cluster, arns[..i])
      modifies cloud
      ensures cloud.state == old(cloud.state) && old(cloud.log) <= cloud.log
      ensures r.Fail? ==> !Cloud.Clear(faults, |arns|)
      ensures r.Pass? ==> Cloud.Clear(faults, i + 1) && cloud.faults == Cloud.Drop(faults, i + 1)
      ensures r.Pass? ==> cloud.log == log + StopEach(cluster, arns[..i + 1])
    {
      Cloud.DropStep(faults, i);
      r := cloud.StopTask(cluster, arns[i]);
      if r.Fail? {
        Cloud.ClearShorter(faults, i + 1, |arns|);
        return;
      }
      StopEachStep(cluster, arns, i);
    }

    /** The second half of `stop_scheduled_task`: the family's running
        tasks are stopped, and waited for when there were any. */
    method StopRunning(cluster: Json, family: string) returns (r: Outcome)
      modifies cloud
      ensures cloud.state.rules == old(cloud.state.rules)
      ensures old(cloud.log) + [Cloud.Call.ListRunningTasks(cluster, family)] <= cloud.log
      ensures r.Pass? ==>
        && cloud.log == old(cloud.log) + RunningCalls(cluster, family, Cloud.RunningTasks(old(cloud.state).running, Cloud.TaskKey(cluster, family)))
        && Cloud.RunningTasks(cloud.state.running, Cloud.TaskKey(cluster, family)) == []
    {
      ghost var log0 := cloud.log;
      var listed := cloud.ListRunningTasks(cluster, family);
      if listed.Err? { return Fail(listed.error); }
      var arns := listed.value;
      if |arns| > 0 {
        var stopped := StopTasks(cluster, arns);
        if stopped.Fail? { return stopped; }
        r := cloud.WaitForTaskStopped(cluster, family, arns);
        CallsAssociate(log0, [Cloud.Call.ListRunningTasks(cluster, family)], StopEach(cluster, arns), [Cloud.Call.WaitForTaskStopped(cluster, arns)]);
      } else {
        r := Pass;
      }
    }

    /** The first half of `stop_scheduled_task`: an enabled rule is disabled. */
    method DisableIfEnabled(task: ScheduledTask) returns (r: Outcome)
      modifies cloud
      ensures cloud.log == old(cloud.log) + (if task.state == Enabled then [Cloud.Call.DisableRule(task.family)] else [])
      ensures cloud.state.running == old(cloud.state).running
      ensures task.state != Enabled ==> r == Pass && unchanged(cloud)
      ensures task.state == Enabled && r.Pass? ==> task.family in cloud.state.rules && cloud.state.rules[task.family].state == "DISABLED"
    {
      r := Pass;
      if task.state == Enabled {
        r := cloud.DisableRule(task.family);
      }
    }

    /** `stop_scheduled_task`: a rule that exists is disabled when enabled,
        and its running tasks are stopped and waited for. */
    method StopScheduledTask(task: ScheduledTask) returns (r: Outcome)
      modifies cloud
      ensures !task.taskExists ==> r == Pass && unchanged(cloud)
      ensures task.taskExists && task.originTaskEnvironment.None? ==> r.Fail?
      ensures task.taskExists && task.state == Enabled ==> old(cloud.log) + [Cloud.Call.DisableRule(task.family)] <= cloud.log
      ensures task.taskExists && task.state != Enabled && task.originTaskEnvironment.None? ==> unchanged(cloud)
      ensures task.taskExists && task.state != Enabled && task.originTaskEnvironment.Some? ==>
        old(cloud.log) + [Cloud.Call.ListRunningTasks(task.originTaskEnvironment.value.clusterName, task.family)] <= cloud.log
      ensures task.taskExists && task.originTaskEnvironment.Some? && r.Pass? ==>
        var cluster := task.originTaskEnvironment.value.clusterName;
        var running := Cloud.RunningTasks(old(cloud.state).running, Cloud.TaskKey(cluster, task.family));
        && cloud.log == old(cloud.log) + StopCalls(task.state == Enabled, task.family, cluster, running)
        && Cloud.RunningTasks(cloud.state.running, Cloud.TaskKey(cluster, task.family)) == []
      ensures task.taskExists && task.state == Enabled && r.Pass? ==>
        task.family in cloud.state.rules && cloud.state.rules[task.family].state == "DISABLED"
    {
      if !task.taskExists { return Pass; }
      ghost var log0 := cloud.log;
      var disabled := DisableIfEnabled(task);
      if disabled.Fail? { return disabled; }
      if task.originTaskEnvironment.None? { return Fail(AttributeError("cluster_name")); }
      var cluster := task.originTaskEnvironment.value.clusterName;
      r := StopRunning(cluster, task.family);
      CallsAssociate(log0, if task.state == Enabled then [Cloud.Call.DisableRule(task.family)] else [],
                     RunningCalls(cluster, task.family, Cloud.RunningTasks(old(cloud.state).running, Cloud.TaskKey(cluster, task.family))), []);
    }

    /** `fetch_cloudwatch_event`: the definition the managed rule runs, by
        the rule's name. */
    method FetchCloudwatchEvent(rule: CloudwatchEventRule) returns (r: Outcome)
      modifies cloud, rule
      ensures cloud.log == old(cloud.log) + [Cloud.Call.DescribeTaskDefinition(rule.name)]
      ensures cloud.state == old(cloud.state) && rule.status == old(rule.status)
      ensures var fetched := rule.name in cloud.state.definitions && Cloud.Head(old(cloud.faults)).None?;
        && (fetched ==> rule.taskDefinition == Some(cloud.state.definitions[rule.name]))
        && (!fetched ==> r.Fail? && unchanged(rule))
    {
      var td := cloud.DescribeTaskDefinition(rule.name);
      if td.Err? { return Fail(td.error); }
      r := rule.SetFromTaskDefinition(td.value);
    }

    /** The registration in `deploy_scheduled_task`: the task's ARN is the
        `taskDefinitionArn` of the registered revision. */
    method RegisterTaskRevision(task: ScheduledTask) returns (r: Outcome)
      modifies cloud, task`taskDefinitionArn
      ensures cloud.log == old(cloud.log) + [Cloud.Call.RegisterTaskDefinition(task.taskDefinition)]
      ensures OnlyDefinitionsChanged(old(cloud.state), cloud.state)
      ensures r.Pass? <==> Cloud.Head(old(cloud.faults)).None? && task.taskDefinition.JObj?
      ensures r.Pass? ==>
        && task.taskDefinitionArn == Some(Cloud.NewArn(old(cloud.state), task.taskDefinition))
        && task.taskDefinitionArn.value in cloud.state.definitions
      ensures r.Fail? ==> task.taskDefinitionArn == old(task.taskDefinitionArn)
    {
      var registered := cloud.RegisterTaskDefinition(task.taskDefinition);
      if registered.Err? { return Fail(registered.error); }
      if task.taskDefinition.JObj? {
        Cloud.RegisteredArn(task.taskDefinition, Cloud.NewArn(old(cloud.state), task.taskDefinition));
      }
      var arn := Index(registered.value, "taskDefinitionArn");
      if arn.Err? { return Fail(arn.error); }
      task.taskDefinitionArn := ArnOf(Some(arn.value));
      r := Pass;
    }

    /** The first half of `deploy_scheduled_task`: a new revision is
        registered unless the definition is the same as the origin's. */
    method ReviseDefinition(task: ScheduledTask) returns (r: Outcome)
      modifies cloud, task
      ensures var same := SameTaskDefinition(old(task.originTaskDefinition), old(task.taskDefinition));
        same.Err? ==> r.Fail? && unchanged(cloud)
      ensures var same := SameTaskDefinition(old(task.originTaskDefinition), old(task.taskDefinition));
        same == Ok(true) ==> r.Pass? && unchanged(cloud) && task.taskDefinitionArn == old(task.taskDefinitionArn)
      ensures old(task.originTaskDefinition).None? && Cloud.Clear(old(cloud.faults), 1) && old(task.taskDefinition).JObj? ==>
        && r.Pass?
        && task.taskDefinitionArn == Some(Cloud.NewArn(old(cloud.state), old(task.taskDefinition)))
        && cloud.log == old(cloud.log) + [Cloud.Call.RegisterTaskDefinition(old(task.taskDefinition))]
      ensures var same := SameTaskDefinition(old(task.originTaskDefinition), old(task.taskDefinition));
        var td := ComparedTaskDefinition(old(task.originTaskDefinition), old(task.taskDefinition));
        same == Ok(false) ==> cloud.log == old(cloud.log) + [Cloud.Call.RegisterTaskDefinition(td)]
      ensures task.taskDefinition == ComparedTaskDefinition(old(task.originTaskDefinition), old(task.taskDefinition))
      ensures task.state == old(task.state) && task.status == old(task.status) && task.taskExists == old(task.taskExists)
    {
      var same := task.IsSameTaskDefinition();
      if same.Err? { return Fail(same.error); }
      r := Pass;
      if !same.value {
        r := RegisterTaskRevision(task);
      }
    }

    /** `deploy_scheduled_task`: register unless the definition is the same,
        then put the managed rule for the family with the task's state. */
    method DeployScheduledTask(task: ScheduledTask) returns (r: Outcome)
      modifies cloud, task
      ensures var same := SameTaskDefinition(old(task.originTaskDefinition), old(task.taskDefinition));
        same.Err? ==> r.Fail? && unchanged(cloud)
      ensures var same := SameTaskDefinition(old(task.originTaskDefinition), old(task.taskDefinition));
        same == Ok(true) ==>
          && task.taskDefinitionArn == old(task.taskDefinitionArn)
          && cloud.log == old(cloud.log) + [Cloud.Call.CreateScheduledTask(task.family, old(task.taskDefinitionArn), StateValue(task.state), ManagedDescription)]
      ensures old(task.originTaskDefinition).None? && Cloud.Clear(old(cloud.faults), 1) && old(task.taskDefinition).JObj? ==>
        var arn := Cloud.NewArn(old(cloud.state), old(task.taskDefinition));
        && task.taskDefinitionArn == Some(arn)
        && cloud.log == old(cloud.log) + [Cloud.Call.RegisterTaskDefinition(old(task.taskDefinition)),
                                          Cloud.Call.CreateScheduledTask(task.family, Some(arn), StateValue(task.state), ManagedDescription)]
      ensures var same := SameTaskDefinition(old(task.originTaskDefinition), old(task.taskDefinition));
        var td := ComparedTaskDefinition(old(task.originTaskDefinition), old(task.taskDefinition));
        same == Ok(false) ==> old(cloud.log) + [Cloud.Call.RegisterTaskDefinition(td)] <= cloud.log
      ensures old(DeployTaskOpening(task)).Some? ==> old(cloud.log) + [old(DeployTaskOpening(task)).value] <= cloud.log
      ensures old(DeployTaskOpening(task)).None? ==> unchanged(cloud)
      ensures r.Pass? ==>
        && task.family in cloud.state.rules
        && cloud.state.rules[task.family].description == Some(ManagedDescription)
        && cloud.state.rules[task.family].state == StateValue(task.state)
        && cloud.state.rules[task.family].scheduleExpression == task.scheduleExpression
      ensures task.state == old(task.state) && task.status == old(task.status) && task.taskExists == old(task.taskExists)
    {
      BoolResultCases(SameTaskDefinition(task.originTaskDefinition, task.taskDefinition));
      r := ReviseDefinition(task);
      if r.Fail? { return; }
      var created := cloud.CreateScheduledTask(task.family, task.taskDefinitionArn, StateValue(task.state), task.scheduleExpression, ManagedDescription);
      if created.Fail? { return created; }
      var again := task.IsSameTaskDefinition();
      if again.Err? { return Fail(again.error); }
      r := Pass;
    }

    /** The describe branch of `check_deploy_scheduled_task`: the origin of
        a scheduled task from its rule and the definition named after it. */
    method DescribeRuleOrigin(task: ScheduledTask) returns (r: Outcome, found: bool)
      modifies cloud, task
      ensures cloud.state == old(cloud.state) && task.status == old(task.status)
      ensures old(cloud.log) + [Cloud.Call.DescribeRule(task.family)] <= cloud.log
      ensures found ==> r == Pass
      ensures !found || r.Fail? ==> unchanged(task)
      ensures !found && r.Pass? <==> RuleMissing(old(cloud.faults), old(cloud.state), task.family)
      ensures found ==>
        && task.taskExists && task.family in cloud.state.definitions
        && task.originTaskDefinition == Some(cloud.state.definitions[task.family])
        && task.taskDefinition == old(task.taskDefinition) && task.taskDefinitionArn == old(task.taskDefinitionArn)
      ensures found <==> RuleOriginFound(old(cloud.faults), old(cloud.state), task.family)
      ensures found ==>
        var td := old(cloud.state).definitions[task.family];
        && cloud.log == old(cloud.log) + [Cloud.Call.DescribeRule(task.family), Cloud.Call.DescribeTaskDefinition(task.family)]
        && td.JObj? && task.originTaskDefinitionArn == ArnOf(Get(td.fields, "taskDefinitionArn"))
        && task.originTaskEnvironment == Some(TaskEnvironmentOf(td).value)
        && task.state == GetState(old(cloud.state).rules[task.family].state).value
    {
      var rule := cloud.DescribeRule(task.family);
      if rule.Err? {
        if rule.error == CloudFailure(NotFound) { return Pass, false; }
        return Fail(rule.error), false;
      }
      var td := cloud.DescribeTaskDefinition(task.family);
      if td.Err? { return Fail(td.error), false; }
      var c := CloudwatchEventRule.Create(rule.value);
      if c.Err? { return Fail(c.error), false; }
      var loaded := c.value.SetFromTaskDefinition(td.value);
      if loaded.Fail? { return loaded, false; }
      task.SetFromCloudwatchEventRule(c.value);
      r, found := Pass, true;
    }

    /** `check_deploy_scheduled_task`: learn the origin if the run has not,
        then reuse the deployed ARN when the definition is unchanged. A task
        whose rule is not found is left to be created. */
    method CheckDeployScheduledTask(task: ScheduledTask) returns (r: Outcome)
      modifies cloud, task
      ensures cloud.state == old(cloud.state) && task.status == old(task.status)
      ensures old(task.originTaskDefinitionArn).Some? ==>
        var same := SameTaskDefinition(old(task.originTaskDefinition), old(task.taskDefinition));
        && cloud.log == old(cloud.log)
        && (r.Pass? <==> same.Ok?)
        && (same == Ok(true) ==> task.taskDefinitionArn == old(task.originTaskDefinitionArn))
        && (same != Ok(true) ==> task.taskDefinitionArn == old(task.taskDefinitionArn))
      ensures old(task.originTaskDefinitionArn).None? ==> old(cloud.log) + [Cloud.Call.DescribeRule(task.family)] <= cloud.log
      ensures old(task.originTaskDefinitionArn).None? && RuleMissing(old(cloud.faults), old(cloud.state), task.family) ==>
        r == Pass && unchanged(task)
      ensures old(task.originTaskDefinitionArn).None? && RuleOriginFound(old(cloud.faults), old(cloud.state), task.family) ==>
        var td := old(cloud.state).definitions[task.family];
        var same := SameTaskDefinition(Some(td), old(task.taskDefinition));
        && cloud.log == old(cloud.log) + [Cloud.Call.DescribeRule(task.family), Cloud.Call.DescribeTaskDefinition(task.family)]
        && td.JObj? && task.taskExists && task.originTaskDefinitionArn == ArnOf(Get(td.fields, "taskDefinitionArn"))
        && task.state == GetState(old(cloud.state).rules[task.family].state).value
        && (r.Pass? <==> same.Ok?)
        && (same == Ok(true) ==> task.taskDefinitionArn == ArnOf(Get(td.fields, "taskDefinitionArn")))
        && (same != Ok(true) ==> task.taskDefinitionArn == old(task.taskDefinitionArn))
      ensures old(task.originTaskDefinitionArn).None? && !RuleMissing(old(cloud.faults), old(cloud.state), task.family)
                && !RuleOriginFound(old(cloud.faults), old(cloud.state), task.family) ==>
        r.Fail? && unchanged(task)
    {
      if task.originTaskDefinitionArn.None? {
        var found;
        r, found := DescribeRuleOrigin(task);
        if !found { return; }
      }
      var checks := task.CompareContainerDefinition();
      if checks.Err? { return Fail(checks.error); }
      r := Pass;
    }

    // -------------------------------------------------------------------------
    // the worker

    /** The first call `process_service` makes: a registration when the
        definition changed, else the update, else none. */
    function DeployOpening(s: Service): Option<Cloud.Call>
      reads s
    {
      var same := SameDefinition(s.originTaskDefinition, s.taskDefinition);
      var td := ComparedDefinition(s.originTaskDefinition, s.taskDefinition);
      var sent := SentCount(isServiceZeroKeep, s.originDesiredCount, s.taskEnvironment.desiredCount);
      if !isServiceUpdateOnly && same.Err? then None
      else if !isServiceUpdateOnly && same == Ok(false) then Some(Cloud.Call.RegisterTaskDefinition(td))
      else if isTaskDefinitionUpdateOnly then None
      else
        var def := UpdateDefinition(s.taskDefinitionArn, if isServiceUpdateOnly then s.taskDefinition else td);
        if def.Ok? then Some(UpdateCall(s, def.value, sent, true)) else None
    }

    /** The first call the operation a unit names makes on a target that has
        not failed, or none when it makes no call at all. */
    function Opening(u: Unit): Option<Cloud.Call>
      requires Matches(u)
      reads Object(u.target)
    {
      match u.mode
      case FetchServices => Some(Cloud.Call.DescribeTaskDefinition(u.target.describe.taskDefinitionArn))
      case DeleteService => Some(Cloud.Call.DeleteService(u.target.describe.clusterName, u.target.describe.serviceName))
      case DeployService => DeployOpening(u.target.service)
      case CheckDeployService =>
        var s := u.target.service;
        if s.originTaskDefinitionArn.None? then Some(Cloud.Call.DescribeService(KeyOf(s).cluster, s.serviceName)) else None
      case WaitForStable => Some(Cloud.Call.WaitForStable(KeyOf(u.target.service).cluster, u.target.service.serviceName))
      case StopBeforeDeploy =>
        var s := u.target.service;
        var def := UpdateDefinition(s.taskDefinitionArn, s.taskDefinition);
        if def.Ok? then Some(UpdateCall(s, def.value, 0, false)) else None
      case DeployScheduledTask => DeployTaskOpening(u.target.task)
      case FetchCloudwatchEvents => Some(Cloud.Call.DescribeTaskDefinition(u.target.rule.name))
      case CheckDeployScheduledTask =>
        if u.target.task.originTaskDefinitionArn.None? then Some(Cloud.Call.DescribeRule(u.target.task.family)) else None
      case StopScheduledTask =>
        var x := u.target.task;
        if !x.taskExists then None
        else if x.state == Enabled then Some(Cloud.Call.DisableRule(x.family))
        else if x.originTaskEnvironment.Some? then Some(Cloud.Call.ListRunningTasks(x.originTaskEnvironment.value.clusterName, x.family))
        else None
    }

    /** `process`: a target that has already failed is skipped; otherwise
        the mode names the operation, whose first call goes to the cloud
        first. Only waiting for a service marks it as failed without
        raising. */
    method Process(u: Unit) returns (r: Outcome)
      requires Matches(u)
      modifies cloud, Object(u.target)
      ensures old(StatusOf(u.target)) == Error ==> r == Pass && unchanged(cloud) && unchanged(Object(u.target))
      ensures old(StatusOf(u.target)) == Normal && old(Opening(u)).Some? ==> old(cloud.log) + [old(Opening(u)).value] <= cloud.log
      ensures old(Opening(u)).None? ==> cloud.log == old(cloud.log)
      ensures old(cloud.log) <= cloud.log
      ensures u.mode != WaitForStable ==> StatusOf(u.target) == old(StatusOf(u.target))
      ensures StatusOf(u.target) == Error ==> old(StatusOf(u.target)) == Error || r == Pass
      ensures StatusOf(u.target) == Normal ==> old(StatusOf(u.target)) == Normal
      ensures u.mode.DeleteService? ==> DeletedOnly(old(cloud.faults), old(cloud.log), cloud.faults, cloud.log)
      ensures u.mode.DeleteService? ==> unchanged(Object(u.target))
    {
      if StatusOf(u.target) == Error { return Pass; }
      match u.mode
      case FetchServices => r := FetchService(u.target.describe);
      case DeployService => r := ProcessService(u.target.service);
       
      case CheckDeployService => r := CheckDeployService(u.target.service);
       
      case WaitForStable => r := WaitForStableService(cloud, u.target.service);
      case DeployScheduledTask => r := DeployScheduledTask(u.target.task);
      case FetchCloudwatchEvents => r := FetchCloudwatchEvent(u.target.rule);
      case CheckDeployScheduledTask => r := CheckDeployScheduledTask(u.target.task);
      case StopScheduledTask => r := StopScheduledTask(u.target.task);
      case StopBeforeDeploy => r := StopBeforeDeploy(u.target.service);
      case DeleteService =>
        r := DeleteService(u.target.describe);
        Cloud.DropStep(old(cloud.faults), 0);
    }

    /** One unit of `run`: whatever the operation raises marks only this
        target as failed, and the unit is done either way. */
    method RunUnit(u: Unit) returns (r: Outcome)
      requires Matches(u)
      modifies cloud, Object(u.target)
      ensures r.Fail? || old(StatusOf(u.target)) == Error ==> StatusOf(u.target) == Error
      ensures old(StatusOf(u.target)) == Error ==> r == Pass && unchanged(cloud) && unchanged(Object(u.target))
      ensures StatusOf(u.target) == Normal ==> old(StatusOf(u.target)) == Normal
      ensures old(StatusOf(u.target)) == Normal && old(Opening(u)).Some? ==> old(cloud.log) + [old(Opening(u)).value] <= cloud.log
      ensures old(Opening(u)).None? ==> cloud.log == old(cloud.log)
      ensures old(cloud.log) <= cloud.log
      ensures r.Pass? && u.mode != WaitForStable ==> StatusOf(u.target) == old(StatusOf(u.target))
      ensures u.mode.DeleteService? ==> DeletedOnly(old(cloud.faults), old(cloud.log), cloud.faults, cloud.log)
    {
      r := Process(u);
      if r.Fail? {
        MarkError(u.target);
      }
    }

    /** The worker pool drains the queue: every unit put since the last
        `join` is run, in order, before `join` returns. Each step of the
        trace is one unit run on its target as the earlier units of the
        batch left it. */
    method Drain(queue: TaskQueue, batch: seq<Unit>) returns (ghost steps: seq<Step>)
      requires forall u :: u in batch ==> Matches(u)
      modifies queue, cloud, Objects(batch)
      ensures queue.joined == old(queue.joined) + [batch]
      ensures |steps| == |batch|
      ensures cloud.log == old(cloud.log) + Calls(steps)
      ensures forall i :: 0 <= i < |batch| ==> Ran(batch[i], steps[i])
      ensures forall i :: 0 <= i < |batch| && FirstOn(Targets(batch), i) ==>
        steps[i].before == old(StatusOf(batch[i].target)) && steps[i].opening == old(Opening(batch[i]))
      ensures forall j, i :: 0 <= j < i < |batch| && Targets(batch)[j] == Targets(batch)[i] && NoneBetween(Targets(batch), j, i) ==>
        steps[i].before == steps[j].after
      ensures forall j :: 0 <= j < |batch| && NoneBetween(Targets(batch), j, |batch|) ==> StatusOf(batch[j].target) == steps[j].after
      ensures forall i :: 0 <= i < |batch| && steps[i].outcome.Fail? ==> StatusOf(batch[i].target) == Error
      ensures forall i :: 0 <= i < |batch| && old(StatusOf(batch[i].target)) == Error ==> StatusOf(batch[i].target) == Error
      ensures forall i :: 0 <= i < |batch| && Quiet(batch, Targets(batch), steps, i, |batch|) ==> StatusOf(batch[i].target) == old(StatusOf(batch[i].target))
      ensures DeletesServices(batch) ==> cloud.faults == Cloud.Drop(old(cloud.faults), |Calls(steps)|)
    {
      ghost var start, open0, cur;
      steps, start, open0, cur := RunBatch(batch);
      Finished(batch, Targets(batch), steps, start, open0, cur);
      OthersThanQueue(batch, queue);
      queue.joined := queue.joined + [batch];
    }

    /** Every unit of a batch run in order, each on its target as the
        earlier units of the batch left it: the trace is `Consistent` with
        the statuses and first calls the batch began with and the statuses
        it ends with. */
    method RunBatch(batch: seq<Unit>)
      returns (ghost steps: seq<Step>, ghost start: map<object, ProcessStatus>, ghost open0: seq<Option<Cloud.Call>>,
               ghost cur: map<object, ProcessStatus>)
      requires forall u :: u in batch ==> Matches(u)
      modifies cloud, Objects(batch)
      ensures |steps| == |batch|
      ensures cloud.log == old(cloud.log) + Calls(steps)
      ensures Consistent(batch, Targets(batch), steps, start, open0, cur)
      ensures forall j :: 0 <= j < |batch| ==>
        old(StatusOf(batch[j].target)) == start[Targets(batch)[j]] && old(Opening(batch[j])) == open0[j]
      ensures forall j :: 0 <= j < |batch| ==> StatusOf(batch[j].target) == cur[Targets(batch)[j]]
      ensures DeletesServices(batch) ==> cloud.faults == Cloud.Drop(old(cloud.faults), |Calls(steps)|)
    {
      ghost var objs := Targets(batch);
      start := Statuses(batch);
      open0 := Openings(batch);
      cur := start;
      forall j | 0 <= j < |batch|
        ensures objs[j] != cloud && StatusOf(batch[j].target) == start[objs[j]]
      {
        StatusOfObjectOf(batch[j].target);
      }
      steps := [];
      Begun(batch, objs, start, open0);
      var i := 0;
      while i < |batch|
        invariant 0 <= i <= |batch| && |steps| == i
        invariant cloud.log == old(cloud.log) + Calls(steps)
        invariant Consistent(batch, objs, steps, start, open0, cur)
        invariant forall j :: 0 <= j < |batch| ==> StatusOfObject(objs[j]) == cur[objs[j]]
        invariant forall j :: i <= j < |batch| && NoneBefore(objs, j, i) ==> unchanged(objs[j])
        invariant DeletesServices(batch) ==> cloud.faults == Cloud.Drop(old(cloud.faults), |Calls(steps)|)
      {
        assert FirstOn(objs, i) ==> Opening(batch[i]) == open0[i] by {
          if FirstOn(objs, i) {
            assert NoneBefore(objs, i, i);
          }
        }
        steps, cur := RunNext(batch, i, objs, steps, start, open0, cur, old(cloud.log), old(cloud.faults));
        i := i + 1;
      }
      forall j | 0 <= j < |batch|
        ensures StatusOf(batch[j].target) == cur[objs[j]]
      {
        StatusOfObjectOf(batch[j].target);
      }
    }

    /** The next unit of a batch run, extending the trace by its step. */
    method RunNext(batch: seq<Unit>, i: nat, ghost objs: seq<object>, ghost steps: seq<Step>, ghost start: map<object, ProcessStatus>,
                   ghost open0: seq<Option<Cloud.Call>>, ghost cur: map<object, ProcessStatus>, ghost log0: seq<Cloud.Call>,
                   ghost faults0: seq<Option<Fault>>)
      returns (ghost steps': seq<Step>, ghost cur': map<object, ProcessStatus>)
      requires forall u :: u in batch ==> Matches(u)
      requires cloud.log == log0 + Calls(steps)
      requires DeletesServices(batch) ==> cloud.faults == Cloud.Drop(faults0, |Calls(steps)|)
      requires i == |steps| < |batch| && objs == Targets(batch)
      requires Consistent(batch, objs, steps, start, open0, cur)
      requires forall j :: 0 <= j < |batch| ==> objs[j] != cloud
      requires forall j :: 0 <= j < |batch| ==> StatusOfObject(objs[j]) == cur[objs[j]]
      requires FirstOn(objs, |steps|) ==> Opening(batch[|steps|]) == open0[|steps|]
      modifies cloud, objs[|steps|]
      ensures |steps'| == |steps| + 1
      ensures cloud.log == log0 + Calls(steps')
      ensures Consistent(batch, objs, steps', start, open0, cur')
      ensures forall j :: 0 <= j < |batch| ==> StatusOfObject(objs[j]) == cur'[objs[j]]
      ensures DeletesServices(batch) ==> cloud.faults == Cloud.Drop(faults0, |Calls(steps')|)
    {
      var u := batch[i];
      assert u in batch;
      StatusOfObjectOf(u.target);
      assert FirstOn(objs, i) ==> NoneBefore(objs, i, i);
      ghost var faults1 := cloud.faults;
      var r, step := RunStep(u);
      if DeletesServices(batch) {
        FaultsStep(faults0, steps, step, faults1, cloud.faults);
      }
      StatusOfObjectOf(u.target);
      CallsAppend(log0, steps, step);
      Stepped(batch, objs, steps, start, open0, cur, step);
      cur' := cur[objs[i] := step.after];
      steps' := steps + [step];
    }

    /** `RunUnit` with the step it makes in the trace. */
    method RunStep(u: Unit) returns (r: Outcome, ghost st: Step)
      requires Matches(u)
      modifies cloud, Object(u.target)
      ensures st.before == old(StatusOf(u.target)) && st.opening == old(Opening(u))
      ensures st.outcome == r && st.after == StatusOf(u.target)
      ensures cloud.log == old(cloud.log) + st.calls && Ran(u, st)
      ensures u.mode.DeleteService? ==> cloud.faults == Cloud.Drop(old(cloud.faults), |st.calls|)
    {
      ghost var before := StatusOf(u.target);
      ghost var opening := Opening(u);
      ghost var log0 := cloud.log;
      r := RunUnit(u);
      st := Step(before, opening, r, StatusOf(u.target), cloud.log[|log0|..]);
    }

    /** The first call of every unit of a batch, as it stands. */
    function Openings(batch: seq<Unit>): (r: seq<Option<Cloud.Call>>)
      requires forall u :: u in batch ==> Matches(u)
      reads Objects(batch)
      ensures |r| == |batch| && forall j :: 0 <= j < |batch| ==> r[j] == Opening(batch[j])
    {
      seq(|batch|, j requires 0 <= j < |batch| reads Objects(batch) => assert batch[j] in batch; Opening(batch[j]))
    }
  }

  /** The status of every target of a batch, as it stands. */
  function Statuses(batch: seq<Unit>): (r: map<object, ProcessStatus>)
    reads Objects(batch)
    ensures forall j :: 0 <= j < |batch| ==> Object(batch[j].target) in r && r[Object(batch[j].target)] == StatusOfObject(Object(batch[j].target))
  {
    assert forall j :: 0 <= j < |batch| ==> batch[j] in batch;
    map o | o in Objects(batch) :: StatusOfObject(o)
  }

  /** The sizes the trace predicates need: `start` and `cur` hold every
      target of the batch, and `open0` one first call per unit. */
  ghost predicate Shaped(batch: seq<Unit>, objs: seq<object>, steps: seq<Step>, start: map<object, ProcessStatus>,
                         open0: seq<Option<Cloud.Call>>, cur: map<object, ProcessStatus>)
  {
    && |steps| <= |batch| && |open0| == |batch| && |objs| == |batch|
    && (forall j :: 0 <= j < |batch| ==> objs[j] in cur && objs[j] in start)
  }

  /** Every step so far is its unit run. */
  ghost predicate AllRan(batch: seq<Unit>, steps: seq<Step>)
    requires |steps| <= |batch|
  {
    forall j :: 0 <= j < |steps| ==> Ran(batch[j], steps[j])
  }

  /** The first unit on a target saw it as the batch began. */
  ghost predicate FirstSawStart(batch: seq<Unit>, objs: seq<object>, steps: seq<Step>, start: map<object, ProcessStatus>,
                                open0: seq<Option<Cloud.Call>>, cur: map<object, ProcessStatus>)
    requires Shaped(batch, objs, steps, start, open0, cur)
  {
    forall j :: 0 <= j < |steps| && FirstOn(objs, j) ==> steps[j].before == start[objs[j]] && steps[j].opening == open0[j]
  }

  /** A later unit on a target saw it as the previous unit on it left it. */
  ghost predicate Chained(objs: seq<object>, steps: seq<Step>)
    requires |steps| <= |objs|
  {
    forall j, k :: 0 <= j < k < |steps| && objs[j] == objs[k] && NoneBetween(objs, j, k) ==> steps[k].before == steps[j].after
  }

  /** A target stands as the last unit run on it left it. */
  ghost predicate Current(batch: seq<Unit>, objs: seq<object>, steps: seq<Step>, start: map<object, ProcessStatus>,
                          open0: seq<Option<Cloud.Call>>, cur: map<object, ProcessStatus>)
    requires Shaped(batch, objs, steps, start, open0, cur)
  {
    forall k :: 0 <= k < |steps| && NoneBetween(objs, k, |steps|) ==> cur[objs[k]] == steps[k].after
  }

  /** A target no unit has run on yet stands as the batch began. */
  ghost predicate Untouched(batch: seq<Unit>, objs: seq<object>, steps: seq<Step>, start: map<object, ProcessStatus>,
                            open0: seq<Option<Cloud.Call>>, cur: map<object, ProcessStatus>)
    requires Shaped(batch, objs, steps, start, open0, cur)
  {
    forall j :: 0 <= j < |batch| && NoneBefore(objs, j, |steps|) ==> cur[objs[j]] == start[objs[j]]
  }

  /** A target a unit failed on, or that began in error, is in error. */
  ghost predicate Marked(batch: seq<Unit>, objs: seq<object>, steps: seq<Step>, start: map<object, ProcessStatus>,
                         open0: seq<Option<Cloud.Call>>, cur: map<object, ProcessStatus>)
    requires Shaped(batch, objs, steps, start, open0, cur)
  {
    && (forall k :: 0 <= k < |steps| && steps[k].outcome.Fail? ==> cur[objs[k]] == Error)
    && (forall j :: 0 <= j < |batch| && start[objs[j]] == Error ==> cur[objs[j]] == Error)
  }

  /** A target whose every unit so far passed without a wait stands as
      the batch began. */
  ghost predicate Kept(batch: seq<Unit>, objs: seq<object>, steps: seq<Step>, start: map<object, ProcessStatus>,
                       open0: seq<Option<Cloud.Call>>, cur: map<object, ProcessStatus>)
    requires Shaped(batch, objs, steps, start, open0, cur)
  {
    forall j :: 0 <= j < |batch| && Quiet(batch, objs, steps, j, |steps|) ==> cur[objs[j]] == start[objs[j]]
  }

  /** What the trace of the first |steps| units says, with `start` the
      statuses the batch began with, `open0` the first calls as they
      stood then, and `cur` the statuses now. */
  ghost predicate Consistent(batch: seq<Unit>, objs: seq<object>, steps: seq<Step>, start: map<object, ProcessStatus>,
                             open0: seq<Option<Cloud.Call>>, cur: map<object, ProcessStatus>)
  {
    && Shaped(batch, objs, steps, start, open0, cur)
    && AllRan(batch, steps)
    && FirstSawStart(batch, objs, steps, start, open0, cur)
    && Chained(objs, steps)
    && Current(batch, objs, steps, start, open0, cur)
    && Untouched(batch, objs, steps, start, open0, cur)
    && Marked(batch, objs, steps, start, open0, cur)
    && Kept(batch, objs, steps, start, open0, cur)
  }

  lemma Begun(batch: seq<Unit>, objs: seq<object>, start: map<object, ProcessStatus>, open0: seq<Option<Cloud.Call>>)
    requires |open0| == |batch| && |objs| == |batch|
    requires forall j :: 0 <= j < |batch| ==> objs[j] in start
    ensures Consistent(batch, objs, [], start, open0, start)
  {
  }

  /** Running the next unit extends the trace by its step. */
  lemma Stepped(batch: seq<Unit>, objs: seq<object>, steps: seq<Step>, start: map<object, ProcessStatus>,
                open0: seq<Option<Cloud.Call>>, cur: map<object, ProcessStatus>, step: Step)
    requires Consistent(batch, objs, steps, start, open0, cur) && |steps| < |batch|
    requires step.before == cur[objs[|steps|]]
    requires FirstOn(objs, |steps|) ==> step.opening == open0[|steps|]
    requires Ran(batch[|steps|], step)
    ensures Consistent(batch, objs, steps + [step], start, open0, cur[objs[|steps|] := step.after])
  {
    var i := |steps|;
    var steps', cur' := steps + [step], cur[objs[i] := step.after];
    assert Shaped(batch, objs, steps', start, open0, cur');
    assert AllRan(batch, steps') by {
      assert forall k :: 0 <= k < i ==> steps'[k] == steps[k];
    }
    SteppedFirst(batch, objs, steps, start, open0, cur, step);
    SteppedChained(batch, objs, steps, start, open0, cur, step);
    SteppedCurrent(batch, objs, steps, start, open0, cur, step);
    SteppedUntouched(batch, objs, steps, start, open0, cur, step);
    SteppedMarked(batch, objs, steps, start, open0, cur, step);
    SteppedKept(batch, objs, steps, start, open0, cur, step);
  }

  lemma SteppedFirst(batch: seq<Unit>, objs: seq<object>, steps: seq<Step>, start: map<object, ProcessStatus>,
                     open0: seq<Option<Cloud.Call>>, cur: map<object, ProcessStatus>, step: Step)
    requires Shaped(batch, objs, steps, start, open0, cur) && |steps| < |batch|
    requires FirstSawStart(batch, objs, steps, start, open0, cur) && Untouched(batch, objs, steps, start, open0, cur)
    requires step.before == cur[objs[|steps|]]
    requires FirstOn(objs, |steps|) ==> step.opening == open0[|steps|]
    ensures Shaped(batch, objs, steps + [step], start, open0, cur[objs[|steps|] := step.after])
    ensures FirstSawStart(batch, objs, steps + [step], start, open0, cur[objs[|steps|] := step.after])
  {
    var i := |steps|;
    var steps', cur' := steps + [step], cur[objs[i] := step.after];
    assert Shaped(batch, objs, steps', start, open0, cur');
    forall j | 0 <= j < i + 1 && FirstOn(objs, j)
      ensures steps'[j].before == start[objs[j]] && steps'[j].opening == open0[j]
    {
      if j == i {
        assert NoneBefore(objs, i, i);
      } else {
        assert steps'[j] == steps[j];
      }
    }
  }

  lemma SteppedChained(batch: seq<Unit>, objs: seq<object>, steps: seq<Step>, start: map<object, ProcessStatus>,
                       open0: seq<Option<Cloud.Call>>, cur: map<object, ProcessStatus>, step: Step)
    requires Shaped(batch, objs, steps, start, open0, cur) && |steps| < |batch|
    requires Chained(objs, steps) && Current(batch, objs, steps, start, open0, cur)
    requires step.before == cur[objs[|steps|]]
    ensures Chained(objs, steps + [step])
  {
    var i := |steps|;
    var steps' := steps + [step];
    forall j, k | 0 <= j < k < i + 1 && objs[j] == objs[k] && NoneBetween(objs, j, k)
      ensures steps'[k].before == steps'[j].after
    {
      assert steps'[j] == steps[j];
      if k < i {
        assert steps'[k] == steps[k];
      }
    }
  }

  lemma SteppedCurrent(batch: seq<Unit>, objs: seq<object>, steps: seq<Step>, start: map<object, ProcessStatus>,
                       open0: seq<Option<Cloud.Call>>, cur: map<object, ProcessStatus>, step: Step)
    requires Shaped(batch, objs, steps, start, open0, cur) && |steps| < |batch|
    requires Current(batch, objs, steps, start, open0, cur)
    ensures Shaped(batch, objs, steps + [step], start, open0, cur[objs[|steps|] := step.after])
    ensures Current(batch, objs, steps + [step], start, open0, cur[objs[|steps|] := step.after])
  {
    var i := |steps|;
    var steps', cur' := steps + [step], cur[objs[i] := step.after];
    assert Shaped(batch, objs, steps', start, open0, cur');
    forall k | 0 <= k < i + 1 && NoneBetween(objs, k, i + 1)
      ensures cur'[objs[k]] == steps'[k].after
    {
      if k < i {
        assert NoneBetween(objs, k, i);
        assert steps'[k] == steps[k];
      }
    }
  }

  lemma SteppedUntouched(batch: seq<Unit>, objs: seq<object>, steps: seq<Step>, start: map<object, ProcessStatus>,
                         open0: seq<Option<Cloud.Call>>, cur: map<object, ProcessStatus>, step: Step)
    requires Shaped(batch, objs, steps, start, open0, cur) && |steps| < |batch|
    requires Untouched(batch, objs, steps, start, open0, cur)
    ensures Shaped(batch, objs, steps + [step], start, open0, cur[objs[|steps|] := step.after])
    ensures Untouched(batch, objs, steps + [step], start, open0, cur[objs[|steps|] := step.after])
  {
    var i := |steps|;
    var steps', cur' := steps + [step], cur[objs[i] := step.after];
    assert Shaped(batch, objs, steps', start, open0, cur');
    forall j | 0 <= j < |batch| && NoneBefore(objs, j, i + 1)
      ensures cur'[objs[j]] == start[objs[j]]
    {
      assert NoneBefore(objs, j, i);
    }
  }

  lemma SteppedMarked(batch: seq<Unit>, objs: seq<object>, steps: seq<Step>, start: map<object, ProcessStatus>,
                      open0: seq<Option<Cloud.Call>>, cur: map<object, ProcessStatus>, step: Step)
    requires Shaped(batch, objs, steps, start, open0, cur) && |steps| < |batch|
    requires Marked(batch, objs, steps, start, open0, cur)
    requires step.before == cur[objs[|steps|]]
    requires Ran(batch[|steps|], step)
    ensures Shaped(batch, objs, steps + [step], start, open0, cur[objs[|steps|] := step.after])
    ensures Marked(batch, objs, steps + [step], start, open0, cur[objs[|steps|] := step.after])
  {
    var i := |steps|;
    var steps', cur' := steps + [step], cur[objs[i] := step.after];
    assert Shaped(batch, objs, steps', start, open0, cur');
    forall k | 0 <= k < i + 1 && steps'[k].outcome.Fail?
      ensures cur'[objs[k]] == Error
    {
      if k < i {
        assert steps'[k] == steps[k];
      }
    }
  }

  lemma SteppedKept(batch: seq<Unit>, objs: seq<object>, steps: seq<Step>, start: map<object, ProcessStatus>,
                    open0: seq<Option<Cloud.Call>>, cur: map<object, ProcessStatus>, step: Step)
    requires Shaped(batch, objs, steps, start, open0, cur) && |steps| < |batch|
    requires Kept(batch, objs, steps, start, open0, cur)
    requires step.before == cur[objs[|steps|]]
    requires Ran(batch[|steps|], step)
    ensures Shaped(batch, objs, steps + [step], start, open0, cur[objs[|steps|] := step.after])
    ensures Kept(batch, objs, steps + [step], start, open0, cur[objs[|steps|] := step.after])
  {
    var i := |steps|;
    var steps', cur' := steps + [step], cur[objs[i] := step.after];
    assert Shaped(batch, objs, steps', start, open0, cur');
    forall j | 0 <= j < |batch| && Quiet(batch, objs, steps', j, i + 1)
      ensures cur'[objs[j]] == start[objs[j]]
    {
      assert forall k :: 0 <= k < i ==> steps'[k] == steps[k];
      assert Quiet(batch, objs, steps, j, i);
      if objs[j] == objs[i] {
        assert steps'[i] == step;
      }
    }
  }

  /** The whole trace, stated for the final statuses. */
  lemma Finished(batch: seq<Unit>, objs: seq<object>, steps: seq<Step>, start: map<object, ProcessStatus>,
                 open0: seq<Option<Cloud.Call>>, cur: map<object, ProcessStatus>)
    requires Consistent(batch, objs, steps, start, open0, cur) && |steps| == |batch|
    ensures forall j :: 0 <= j < |batch| && NoneBetween(objs, j, |batch|) ==> cur[objs[j]] == steps[j].after
    ensures forall i :: 0 <= i < |batch| && steps[i].outcome.Fail? ==> cur[objs[i]] == Error
    ensures forall i :: 0 <= i < |batch| && start[objs[i]] == Error ==> cur[objs[i]] == Error
    ensures forall i :: 0 <= i < |batch| && Quiet(batch, objs, steps, i, |batch|) ==> cur[objs[i]] == start[objs[i]]
  {
  }

  /** One unit as the worker ran it: the target's status before and after,
      the first call its operation was to make, what it returned, and the
      calls it made. */
  /** Every unit of the batch deletes a service. */
  predicate DeletesServices(batch: seq<Unit>)
  {
    forall k :: 0 <= k < |batch| ==> batch[k].mode.DeleteService?
  }

  /** Calls that all delete a service. */
  predicate ServiceDeletes(calls: seq<Cloud.Call>)
  {
    forall k :: 0 <= k < |calls| ==> calls[k].DeleteService?
  }

  /** A batch of deletions calls the cloud only to delete services. */
  lemma {:induction false} CallsOfDeletes(batch: seq<Unit>, steps: seq<Step>)
    requires |steps| == |batch| && DeletesServices(batch)
    requires forall i :: 0 <= i < |batch| ==> Ran(batch[i], steps[i])
    ensures ServiceDeletes(Calls(steps))
  {
    if steps != [] {
      var n := |steps| - 1;
      CallsOfDeletes(batch[..n], steps[..n]);
      assert Ran(batch[n], steps[n]);
    }
  }

  /** One more deletion step meets the next entries of the script. */
  lemma FaultsStep(faults0: seq<Option<Fault>>, steps: seq<Step>, st: Step, f1: seq<Option<Fault>>, f2: seq<Option<Fault>>)
    requires f1 == Cloud.Drop(faults0, |Calls(steps)|) && f2 == Cloud.Drop(f1, |st.calls|)
    ensures f2 == Cloud.Drop(faults0, |Calls(steps + [st])|)
  {
    CallsAppend([], steps, st);
    Cloud.DropDrop(faults0, |Calls(steps)|, |st.calls|);
  }

  /** From `log0` to `log` the cloud was asked only to delete services,
      each call meeting the next entry of the fault script. */
  predicate DeletedOnly(faults0: seq<Option<Fault>>, log0: seq<Cloud.Call>, faults: seq<Option<Fault>>, log: seq<Cloud.Call>)
  {
    && log0 <= log
    && faults == Cloud.Drop(faults0, |log| - |log0|)
    && forall k :: |log0| <= k < |log| ==> log[k].DeleteService?
  }

  datatype Step = Step(before: ProcessStatus, opening: Option<Cloud.Call>, outcome: Outcome, after: ProcessStatus, calls: seq<Cloud.Call>)

  /** What running one unit does: a failed target is skipped without a
      call; otherwise the operation starts with its first call, a raise
      marks the target, and only a wait can mark it without raising. */
  predicate Ran(u: Unit, st: Step)
  {
    && (st.before == Error ==> st.outcome == Pass && st.calls == [] && st.after == Error)
    && (st.before == Normal && st.opening.Some? ==> [st.opening.value] <= st.calls)
    && (st.opening.None? ==> st.calls == [])
    && (st.outcome.Fail? ==> st.after == Error)
    && (st.outcome.Pass? && u.mode != WaitForStable ==> st.after == st.before)
    && (st.after == Normal ==> st.before == Normal)
    && (u.mode.DeleteService? ==> ServiceDeletes(st.calls))
  }

  /** The calls of a trace, in order. */
  function Calls(steps: seq<Step>): seq<Cloud.Call>
  {
    if steps == [] then [] else Calls(steps[..|steps| - 1]) + steps[|steps| - 1].calls
  }

  lemma CallsAppend(log0: seq<Cloud.Call>, steps: seq<Step>, st: Step)
    ensures Calls(steps + [st]) == Calls(steps) + st.calls
    ensures log0 + Calls(steps + [st]) == log0 + Calls(steps) + st.calls
  {
    assert (steps + [st])[..|steps|] == steps;
  }

  /** No target of a batch is the queue it was put on. */
  lemma OthersThanQueue(batch: seq<Unit>, queue: TaskQueue)
    ensures forall j :: 0 <= j < |batch| ==> Object(batch[j].target) != queue
  {
  }

  /** The object each unit of a batch is queued with. */
  function Targets(batch: seq<Unit>): (r: seq<object>)
    ensures |r| == |batch| && forall j :: 0 <= j < |batch| ==> r[j] == Object(batch[j].target)
  {
    seq(|batch|, j requires 0 <= j < |batch| => Object(batch[j].target))
  }

  /** No unit before the i-th is on the same target. */
  predicate FirstOn(objs: seq<object>, i: int)
    requires 0 <= i < |objs|
  {
    forall k :: 0 <= k < i ==> objs[k] != objs[i]
  }

  /** No unit among the first `n` is on the same target as unit j. */
  predicate NoneBefore(objs: seq<object>, j: int, n: int)
    requires 0 <= j < |objs| && n <= |objs|
  {
    forall k :: 0 <= k < n ==> objs[k] != objs[j]
  }

  /** No unit strictly between j and n is on the same target as unit j. */
  predicate NoneBetween(objs: seq<object>, j: int, n: int)
    requires 0 <= j < |objs| && n <= |objs|
  {
    forall k :: j < k < n ==> objs[k] != objs[j]
  }

  /** Every unit among the first `n` on the same target as unit j passed
      and was not a wait. */
  predicate Quiet(batch: seq<Unit>, objs: seq<object>, steps: seq<Step>, j: int, n: int)
    requires |objs| == |batch| && 0 <= j < |batch| && n <= |batch| && n <= |steps|
  {
    forall k :: 0 <= k < n && objs[k] == objs[j] ==> steps[k].outcome.Pass? && batch[k].mode != WaitForStable
  }

  /** `deploy.status = ProcessStatus.error`. */
  method MarkError(t: Target)
    modifies Object(t)
    ensures StatusOf(t) == Error
  {
    match t
    case ServiceTarget(s) => s.status := Error;
    case DescribeTarget(d) => d.status := Error;
    case TaskTarget(x) => x.status := Error;
    case RuleTarget(c) => c.status := Error;
  }

  /** The calls `deregister_task_definition` makes: the origin revision is
      deregistered only when there is one and the new definition differs. */
  function DeregisterCalls(originArn: Option<string>, same: Result<bool>): seq<Cloud.Call>
  {
    if originArn.Some? && same == Ok(false) then [Cloud.Call.DeregisterTaskDefinition(originArn.value)] else []
  }

  /** `deregister_task_definition`. */
  method DeregisterTaskDefinition(cloud: Cloud.Cloud, service: Service) returns (r: Outcome)
    modifies cloud, service
    ensures var same := SameDefinition(old(service.originTaskDefinition), old(service.taskDefinition));
      && cloud.log == old(cloud.log) + DeregisterCalls(old(service.originTaskDefinitionArn), same)
      && cloud.state == old(cloud.state)
      && (r.Fail? <==> old(service.originTaskDefinitionArn).Some? && (same.Err? || (same == Ok(false) && Cloud.Head(old(cloud.faults)).Some?)))
    ensures old(service.originTaskDefinitionArn).None? ==> unchanged(service)
    ensures service.runningCount == old(service.runningCount) && service.desiredCount == old(service.desiredCount)
    ensures service.originDesiredCount == old(service.originDesiredCount) && service.status == old(service.status)
  {
    if service.originTaskDefinitionArn.None? { return Pass; }
    var same := service.IsSameTaskDefinition();
    if same.Err? { return Fail(same.error); }
    if same.value { return Pass; }
    r := cloud.DeregisterTaskDefinition(service.originTaskDefinitionArn.value);
  }

  /** `wait_for_stable`: once the service is stable its counts are taken
      from the cloud and the replaced revision is deregistered; a waiter
      timeout marks the service as failed and deregisters nothing. */
  method WaitForStableService(cloud: Cloud.Cloud, service: Service) returns (r: Outcome)
    modifies cloud, service
    ensures old(cloud.log) + [Cloud.Call.WaitForStable(KeyOf(service).cluster, service.serviceName)] <= cloud.log
    ensures var fault := Cloud.Head(old(cloud.faults));
      fault == Some(WaiterTimeout) || (fault.None? && KeyOf(service) !in old(cloud.state.services)) ==>
        && r == Pass && service.status == Error
        && cloud.log == old(cloud.log) + [Cloud.Call.WaitForStable(KeyOf(service).cluster, service.serviceName)]
    ensures var fault := Cloud.Head(old(cloud.faults));
      fault.Some? && fault != Some(WaiterTimeout) ==> r.Fail? && unchanged(service)
    ensures Cloud.Head(old(cloud.faults)).None? && KeyOf(service) in old(cloud.state.services) ==>
      var desired := old(cloud.state.services[KeyOf(service)]).desiredCount;
      var same := SameDefinition(old(service.originTaskDefinition), old(service.taskDefinition));
      && service.runningCount == Some(desired) && service.desiredCount == Some(desired)
      && service.originDesiredCount == old(service.originDesiredCount)
      && service.status == old(service.status)
      && cloud.log == old(cloud.log) + [Cloud.Call.WaitForStable(KeyOf(service).cluster, service.serviceName)]
                                     + DeregisterCalls(old(service.originTaskDefinitionArn), same)
    ensures service.status == Error ==> old(service.status) == Error || r == Pass
    ensures service.status == Normal ==> old(service.status) == Normal
  {
    var reply := cloud.WaitForStable(service.taskEnvironment.clusterName, service.serviceName);
    if reply.Err? {
      if reply.error == CloudFailure(WaiterTimeout) {
        service.status := Error;
        return Pass;
      }
      return Fail(reply.error);
    }
    service.UpdateRunCount(reply.value, false, false);
    r := DeregisterTaskDefinition(cloud, service);
  }
}
