/** The cloud the deploy tool talks to, in place of `AwsUtils` (the `aws`
    module is not part of this model).

    The cloud is an abstract state (services by cluster and name, registered
    task definitions, CloudWatch event rules, running scheduled tasks) plus a
    script of injected faults: the k-th call made consumes the k-th entry,
    `Some(f)` making that call raise `f` without effect. Every call is logged
    with its arguments, so properties about which calls the deploy logic makes
    (and with what) can be stated on the log. What each call does to the state
    is an assumption about the ECS and CloudWatch APIs, kept deliberately
    small. */
module Cloud {
  import opened Base
  import opened Text
  import opened Json

  datatype ServiceKey = ServiceKey(cluster: Json, name: string)

  datatype ServiceState = ServiceState(status: string, taskDefinition: string, desiredCount: int, runningCount: int)

  /** The fields of a `describe_service(s)` reply the source reads. */
  datatype ServiceDescription = ServiceDescription(
    serviceName: string, clusterArn: string, taskDefinition: string,
    runningCount: int, desiredCount: int, status: string)

  /** `runningCount` and `desiredCount` of a create/update/wait reply. */
  datatype ServiceReply = ServiceReply(runningCount: Option<int>, desiredCount: Option<int>)

  /** The fields of a CloudWatch event rule listing the source reads. */
  datatype RuleDescription = RuleDescription(
    name: string, arn: string, state: string, description: Option<string>, scheduleExpression: string)

  datatype TaskKey = TaskKey(cluster: Json, family: string)

  datatype CloudState = CloudState(
    clusters: seq<string>,
    services: map<ServiceKey, ServiceState>,
    listing: seq<ServiceKey>,              // the order `list_services` reports
    definitions: map<string, Json>,        // by ARN, and by family for the latest revision
    registered: nat,                       // revisions registered so far
    rules: map<string, RuleDescription>,
    ruleListing: seq<string>,
    running: map<TaskKey, seq<string>>)

  /** What `create_service` sends besides the cluster, name, definition and
      count: the deployment percentages, the distinct-instance flag, and the
      placement, load balancers, network configuration and registries. */
  datatype CreateSettings = CreateSettings(
    maximumPercent: int, minimumHealthyPercent: int, distinctInstance: bool,
    placementStrategy: Json, placementConstraints: Json, loadBalancers: Json,
    networkConfiguration: Json, serviceRegistries: Json)

  datatype Call =
    | ListClusters
    | ListServices(clusterName: string)
    | DescribeServices(clusterName: string, names: seq<string>)
    | DescribeService(cluster: Json, service: string)
    | DescribeTaskDefinition(name: string)
    | RegisterTaskDefinition(definition: Json)
    | DeregisterTaskDefinition(arn: string)
    | CreateService(cluster: Json, service: string, createDefinition: Option<string>, desiredCount: int, settings: CreateSettings)
    | UpdateService(cluster: Json, service: string, taskDefinition: string, maximumPercent: int, minimumHealthyPercent: int,
                    desiredCount: int, forceNewDeployment: bool)
    | WaitForStable(cluster: Json, service: string)
    | DeleteService(clusterName: string, service: string)
    | ListRules
    | DescribeRule(name: string)
    | DisableRule(name: string)
    | ListRunningTasks(cluster: Json, family: string)
    | StopTask(cluster: Json, task: string)
    | WaitForTaskStopped(cluster: Json, tasks: seq<string>)
    | CreateScheduledTask(family: string, taskDefinitionArn: Option<string>, state: string, description: string)
    | DeleteScheduledTask(name: string, target: Json)

  /** The fault the next call raises, if any. */
  function Head(faults: seq<Option<Fault>>): Option<Fault>
  {
    if faults == [] then None else faults[0]
  }

  function Tail(faults: seq<Option<Fault>>): seq<Option<Fault>>
  {
    if faults == [] then [] else faults[1..]
  }

  /** The script after n calls. */
  function Drop(faults: seq<Option<Fault>>, n: nat): seq<Option<Fault>>
  {
    if n <= |faults| then faults[n..] else []
  }

  /** The next n calls all succeed. */
  predicate Clear(faults: seq<Option<Fault>>, n: nat)
  {
    forall k :: 0 <= k < n && k < |faults| ==> faults[k].None?
  }

  lemma DropStep(faults: seq<Option<Fault>>, n: nat)
    ensures Drop(faults, n + 1) == Tail(Drop(faults, n))
    ensures Clear(faults, n + 1) <==> Clear(faults, n) && Head(Drop(faults, n)).None?
  {
    if n < |faults| {
      assert Drop(faults, n)[0] == faults[n];
    }
  }

  /** n calls and then m more leave the script n + m calls leave. */
  lemma DropDrop(faults: seq<Option<Fault>>, n: nat, m: nat)
    ensures Drop(Drop(faults, n), m) == Drop(faults, n + m)
  {
  }

  /** A call that fails within the first n calls makes them not all clear. */
  lemma ClearShorter(faults: seq<Option<Fault>>, n: nat, m: nat)
    requires n <= m && !Clear(faults, n)
    ensures !Clear(faults, m)
  {
  }

  /** The ARN ECS gives the n-th registered revision of a family. */
  function RevisionArn(family: string, n: nat): string
  {
    "arn:aws:ecs:task-definition/" + family + ":" + NatToString(n)
  }

  function ClusterArn(cluster: string): string
  {
    "arn:aws:ecs:cluster/" + cluster
  }

  /** The family a definition names (`""` when it does not name one). */
  function FamilyOf(definition: Json): string
  {
    if definition.JObj? then
      match Get(definition.fields, "family")
      case Some(JStr(f)) => f
      case _ => ""
    else ""
  }

  function Describe(key: ServiceKey, s: ServiceState, cluster: string): ServiceDescription
  {
    ServiceDescription(key.name, ClusterArn(cluster), s.taskDefinition, s.runningCount, s.desiredCount, s.status)
  }

  /** The registered revision as `register_task_definition` returns it: the
      definition with its new `taskDefinitionArn`. */
  function Registered(definition: Json, arn: string): Json
  {
    if definition.JObj? then JObj(Put(definition.fields, "taskDefinitionArn", JStr(arn))) else definition
  }

  lemma RegisteredArn(definition: Json, arn: string)
    requires definition.JObj?
    ensures Registered(definition, arn).JObj?
    ensures Get(Registered(definition, arn).fields, "taskDefinitionArn") == Some(JStr(arn))
  {
  }

  /** The ARN the next registration of a definition gets. */
  function NewArn(s: CloudState, definition: Json): string
  {
    RevisionArn(FamilyOf(definition), s.registered + 1)
  }

  /** The state after registering a definition: the new revision is stored
      under its ARN and as its family's latest. */
  function AfterRegistering(s: CloudState, definition: Json): CloudState
  {
    var stored := Registered(definition, NewArn(s, definition));
    s.(registered := s.registered + 1,
       definitions := s.definitions[NewArn(s, definition) := stored][FamilyOf(definition) := stored])
  }

  function Reply(s: ServiceState): ServiceReply
  {
    ServiceReply(Some(s.runningCount), Some(s.desiredCount))
  }

  function UpdateListing(listing: seq<ServiceKey>, key: ServiceKey): seq<ServiceKey>
  {
    if key in listing then listing else listing + [key]
  }

  class Cloud {
    var state: CloudState
    var faults: seq<Option<Fault>>
    var log: seq<Call>

    constructor (initial: CloudState, script: seq<Option<Fault>>)
      ensures state == initial && faults == script && log == []
    {
      state := initial;
      faults := script;
      log := [];
    }

    /** Consumes the next scripted outcome and logs the call. */
    method Begin(call: Call) returns (fault: Option<Fault>)
      modifies this
      ensures fault == Head(old(faults)) && faults == Tail(old(faults))
      ensures log == old(log) + [call] && state == old(state)
    {
      fault := Head(faults);
      faults := Tail(faults);
      log := log + [call];
    }

    method ListClusters() returns (r: Result<seq<string>>)
      modifies this
      ensures faults == Tail(old(faults)) && log == old(log) + [Call.ListClusters] && state == old(state)
      ensures r == if Head(old(faults)).Some? then Err(CloudFailure(Head(old(faults)).value)) else Ok(state.clusters)
    {
      var f := Begin(Call.ListClusters);
      if f.Some? { return Err(CloudFailure(f.value)); }
      r := Ok(state.clusters);
    }

    method ListServices(cluster: string) returns (r: Result<seq<string>>)
      modifies this
      ensures faults == Tail(old(faults)) && log == old(log) + [Call.ListServices(cluster)] && state == old(state)
      ensures r == if Head(old(faults)).Some? then Err(CloudFailure(Head(old(faults)).value))
        else Ok(ListedNames(state.listing, cluster))
    {
      var f := Begin(Call.ListServices(cluster));
      if f.Some? { return Err(CloudFailure(f.value)); }
      r := Ok(ListedNames(state.listing, cluster));
    }

    method DescribeServices(cluster: string, names: seq<string>) returns (r: Result<seq<ServiceDescription>>)
      modifies this
      ensures faults == Tail(old(faults)) && log == old(log) + [Call.DescribeServices(cluster, names)] && state == old(state)
      ensures r == if Head(old(faults)).Some? then Err(CloudFailure(Head(old(faults)).value))
        else Ok(Descriptions(state.services, cluster, names))
    {
      var f := Begin(Call.DescribeServices(cluster, names));
      if f.Some? { return Err(CloudFailure(f.value)); }
      r := Ok(Descriptions(state.services, cluster, names));
    }

    /** `describe_service`: `EcsServiceNotFoundException` when there is none. */
    method DescribeService(cluster: Json, name: string) returns (r: Result<ServiceDescription>)
      modifies this
      ensures faults == Tail(old(faults)) && log == old(log) + [Call.DescribeService(cluster, name)] && state == old(state)
      ensures r == if Head(old(faults)).Some? then Err(CloudFailure(Head(old(faults)).value))
        else if ServiceKey(cluster, name) !in state.services then Err(CloudFailure(NotFound))
        else Ok(Describe(ServiceKey(cluster, name), state.services[ServiceKey(cluster, name)], ClusterText(cluster)))
    {
      var f := Begin(Call.DescribeService(cluster, name));
      if f.Some? { return Err(CloudFailure(f.value)); }
      var key := ServiceKey(cluster, name);
      if key !in state.services { return Err(CloudFailure(NotFound)); }
      r := Ok(Describe(key, state.services[key], ClusterText(cluster)));
    }

    method DescribeTaskDefinition(name: string) returns (r: Result<Json>)
      modifies this
      ensures faults == Tail(old(faults)) && log == old(log) + [Call.DescribeTaskDefinition(name)] && state == old(state)
      ensures r == if Head(old(faults)).Some? then Err(CloudFailure(Head(old(faults)).value))
        else if name !in state.definitions then Err(CloudFailure(OtherClientError))
        else Ok(state.definitions[name])
    {
      var f := Begin(Call.DescribeTaskDefinition(name));
      if f.Some? { return Err(CloudFailure(f.value)); }
      if name !in state.definitions { return Err(CloudFailure(OtherClientError)); }
      r := Ok(state.definitions[name]);
    }

    /** `register_task_definition`: a new revision of the definition's family. */
    method RegisterTaskDefinition(definition: Json) returns (r: Result<Json>)
      modifies this
      ensures faults == Tail(old(faults)) && log == old(log) + [Call.RegisterTaskDefinition(definition)]
      ensures Head(old(faults)).Some? ==> r == Err(CloudFailure(Head(old(faults)).value)) && state == old(state)
      ensures Head(old(faults)).None? ==>
        r == Ok(Registered(definition, NewArn(old(state), definition))) && state == AfterRegistering(old(state), definition)
    {
      var f := Begin(Call.RegisterTaskDefinition(definition));
      if f.Some? { return Err(CloudFailure(f.value)); }
      var stored := Registered(definition, NewArn(state, definition));
      state := AfterRegistering(state, definition);
      r := Ok(stored);
    }

    method DeregisterTaskDefinition(arn: string) returns (r: Outcome)
      modifies this
      ensures faults == Tail(old(faults)) && log == old(log) + [Call.DeregisterTaskDefinition(arn)] && state == old(state)
      ensures r == if Head(old(faults)).Some? then Fail(CloudFailure(Head(old(faults)).value)) else Pass
    {
      var f := Begin(Call.DeregisterTaskDefinition(arn));
      if f.Some? { return Fail(CloudFailure(f.value)); }
      r := Pass;
    }

    /** `create_service`: the service becomes active with the given count,
        none of its tasks running yet; a missing definition is refused. */
    method CreateService(cluster: Json, name: string, definition: Option<string>, desired: int, settings: CreateSettings) returns (r: Result<ServiceReply>)
      modifies this
      ensures faults == Tail(old(faults)) && log == old(log) + [Call.CreateService(cluster, name, definition, desired, settings)]
      ensures Head(old(faults)).Some? || definition.None? ==> state == old(state) && r.Err?
      ensures Head(old(faults)).None? && definition.Some? ==>
        var s := ServiceState("ACTIVE", definition.value, desired, 0);
        && r == Ok(Reply(s))
        && state == old(state).(services := old(state).services[ServiceKey(cluster, name) := s],
             listing := UpdateListing(old(state).listing, ServiceKey(cluster, name)))
    {
      var f := Begin(Call.CreateService(cluster, name, definition, desired, settings));
      if f.Some? { return Err(CloudFailure(f.value)); }
      if definition.None? { return Err(CloudFailure(OtherClientError)); }
      var key := ServiceKey(cluster, name);
      var s := ServiceState("ACTIVE", definition.value, desired, 0);
      state := state.(services := state.services[key := s], listing := UpdateListing(state.listing, key));
      r := Ok(Reply(s));
    }

    /** `update_service`: `EcsServiceNotFoundException` when there is none. */
    method UpdateService(cluster: Json, name: string, definition: string, maximum: int, minimum: int, desired: int, force: bool) returns (r: Result<ServiceReply>)
      modifies this
      ensures faults == Tail(old(faults)) && log == old(log) + [Call.UpdateService(cluster, name, definition, maximum, minimum, desired, force)]
      ensures Head(old(faults)).Some? ==> r == Err(CloudFailure(Head(old(faults)).value)) && state == old(state)
      ensures Head(old(faults)).None? && ServiceKey(cluster, name) !in old(state).services ==>
        r == Err(CloudFailure(NotFound)) && state == old(state)
      ensures Head(old(faults)).None? && ServiceKey(cluster, name) in old(state).services ==>
        var s := old(state).services[ServiceKey(cluster, name)].(taskDefinition := definition, desiredCount := desired);
        && r == Ok(Reply(s))
        && state == old(state).(services := old(state).services[ServiceKey(cluster, name) := s])
    {
      var f := Begin(Call.UpdateService(cluster, name, definition, maximum, minimum, desired, force));
      if f.Some? { return Err(CloudFailure(f.value)); }
      var key := ServiceKey(cluster, name);
      if key !in state.services { return Err(CloudFailure(NotFound)); }
      var s := state.services[key].(taskDefinition := definition, desiredCount := desired);
      state := state.(services := state.services[key := s]);
      r := Ok(Reply(s));
    }

    /** The services waiter: once stable, as many tasks run as are desired.
        A scripted `WaiterTimeout` is botocore's `WaiterError`. */
    method WaitForStable(cluster: Json, name: string) returns (r: Result<ServiceReply>)
      modifies this
      ensures faults == Tail(old(faults)) && log == old(log) + [Call.WaitForStable(cluster, name)]
      ensures Head(old(faults)).Some? ==> r == Err(CloudFailure(Head(old(faults)).value)) && state == old(state)
      ensures Head(old(faults)).None? && ServiceKey(cluster, name) !in old(state).services ==>
        r == Err(CloudFailure(WaiterTimeout)) && state == old(state)
      ensures Head(old(faults)).None? && ServiceKey(cluster, name) in old(state).services ==>
        var s0 := old(state).services[ServiceKey(cluster, name)];
        var s := s0.(runningCount := s0.desiredCount);
        && r == Ok(Reply(s))
        && state == old(state).(services := old(state).services[ServiceKey(cluster, name) := s])
    {
      var f := Begin(Call.WaitForStable(cluster, name));
      if f.Some? { return Err(CloudFailure(f.value)); }
      var key := ServiceKey(cluster, name);
      if key !in state.services { return Err(CloudFailure(WaiterTimeout)); }
      var s := state.services[key].(runningCount := state.services[key].desiredCount);
      state := state.(services := state.services[key := s]);
      r := Ok(Reply(s));
    }

    method DeleteService(cluster: string, name: string) returns (r: Outcome)
      modifies this
      ensures faults == Tail(old(faults)) && log == old(log) + [Call.DeleteService(cluster, name)]
      ensures Head(old(faults)).Some? ==> r == Fail(CloudFailure(Head(old(faults)).value)) && state == old(state)
      ensures Head(old(faults)).None? ==>
        r == Pass && state == old(state).(services := old(state).services - {ServiceKey(JStr(cluster), name)})
    {
      var f := Begin(Call.DeleteService(cluster, name));
      if f.Some? { return Fail(CloudFailure(f.value)); }
      state := state.(services := state.services - {ServiceKey(JStr(cluster), name)});
      r := Pass;
    }

    method ListRules() returns (r: Result<seq<RuleDescription>>)
      modifies this
      ensures faults == Tail(old(faults)) && log == old(log) + [Call.ListRules] && state == old(state)
      ensures r == if Head(old(faults)).Some? then Err(CloudFailure(Head(old(faults)).value))
        else Ok(RuleDescriptions(state.rules, state.ruleListing))
    {
      var f := Begin(Call.ListRules);
      if f.Some? { return Err(CloudFailure(f.value)); }
      r := Ok(RuleDescriptions(state.rules, state.ruleListing));
    }

    /** `describe_rule`: `CloudwatchEventRuleNotFoundException` when there is none. */
    method DescribeRule(name: string) returns (r: Result<RuleDescription>)
      modifies this
      ensures faults == Tail(old(faults)) && log == old(log) + [Call.DescribeRule(name)] && state == old(state)
      ensures r == if Head(old(faults)).Some? then Err(CloudFailure(Head(old(faults)).value))
        else if name !in state.rules then Err(CloudFailure(NotFound))
        else Ok(state.rules[name])
    {
      var f := Begin(Call.DescribeRule(name));
      if f.Some? { return Err(CloudFailure(f.value)); }
      if name !in state.rules { return Err(CloudFailure(NotFound)); }
      r := Ok(state.rules[name]);
    }

    method DisableRule(name: string) returns (r: Outcome)
      modifies this
      ensures faults == Tail(old(faults)) && log == old(log) + [Call.DisableRule(name)]
      ensures Head(old(faults)).Some? || name !in old(state).rules ==> r.Fail? && state == old(state)
      ensures Head(old(faults)).None? && name in old(state).rules ==>
        r == Pass && state == old(state).(rules := old(state).rules[name := old(state).rules[name].(state := "DISABLED")])
    {
      var f := Begin(Call.DisableRule(name));
      if f.Some? { return Fail(CloudFailure(f.value)); }
      if name !in state.rules { return Fail(CloudFailure(NotFound)); }
      state := state.(rules := state.rules[name := state.rules[name].(state := "DISABLED")]);
      r := Pass;
    }

    method ListRunningTasks(cluster: Json, family: string) returns (r: Result<seq<string>>)
      modifies this
      ensures faults == Tail(old(faults)) && log == old(log) + [Call.ListRunningTasks(cluster, family)] && state == old(state)
      ensures r == if Head(old(faults)).Some? then Err(CloudFailure(Head(old(faults)).value))
        else Ok(RunningTasks(state.running, TaskKey(cluster, family)))
    {
      var f := Begin(Call.ListRunningTasks(cluster, family));
      if f.Some? { return Err(CloudFailure(f.value)); }
      r := Ok(RunningTasks(state.running, TaskKey(cluster, family)));
    }

    method StopTask(cluster: Json, task: string) returns (r: Outcome)
      modifies this
      ensures faults == Tail(old(faults)) && log == old(log) + [Call.StopTask(cluster, task)] && state == old(state)
      ensures r == if Head(old(faults)).Some? then Fail(CloudFailure(Head(old(faults)).value)) else Pass
    {
      var f := Begin(Call.StopTask(cluster, task));
      if f.Some? { return Fail(CloudFailure(f.value)); }
      r := Pass;
    }

    /** The tasks-stopped waiter: afterwards none of the given tasks runs. */
    method WaitForTaskStopped(cluster: Json, family: string, tasks: seq<string>) returns (r: Outcome)
      modifies this
      ensures faults == Tail(old(faults)) && log == old(log) + [Call.WaitForTaskStopped(cluster, tasks)]
      ensures Head(old(faults)).Some? ==> r == Fail(CloudFailure(Head(old(faults)).value)) && state == old(state)
      ensures Head(old(faults)).None? ==>
        r == Pass && state == old(state).(running := old(state).running[TaskKey(cluster, family) := []])
    {
      var f := Begin(Call.WaitForTaskStopped(cluster, tasks));
      if f.Some? { return Fail(CloudFailure(f.value)); }
      state := state.(running := state.running[TaskKey(cluster, family) := []]);
      r := Pass;
    }

    /** `create_scheduled_task`: puts the rule named after the family. */
    method CreateScheduledTask(family: string, arn: Option<string>, ruleState: string, schedule: string, description: string)
      returns (r: Outcome)
      modifies this
      ensures faults == Tail(old(faults)) && log == old(log) + [Call.CreateScheduledTask(family, arn, ruleState, description)]
      ensures Head(old(faults)).Some? ==> r == Fail(CloudFailure(Head(old(faults)).value)) && state == old(state)
      ensures Head(old(faults)).None? ==>
        r == Pass && state == old(state).(
          rules := old(state).rules[family := RuleDescription(family, "arn:aws:events:rule/" + family, ruleState, Some(description), schedule)],
          ruleListing := if family in old(state).ruleListing then old(state).ruleListing else old(state).ruleListing + [family])
    {
      var f := Begin(Call.CreateScheduledTask(family, arn, ruleState, description));
      if f.Some? { return Fail(CloudFailure(f.value)); }
      state := state.(
        rules := state.rules[family := RuleDescription(family, "arn:aws:events:rule/" + family, ruleState, Some(description), schedule)],
        ruleListing := if family in state.ruleListing then state.ruleListing else state.ruleListing + [family]);
      r := Pass;
    }

    method DeleteScheduledTask(name: string, target: Json) returns (r: Outcome)
      modifies this
      ensures faults == Tail(old(faults)) && log == old(log) + [Call.DeleteScheduledTask(name, target)]
      ensures Head(old(faults)).Some? ==> r == Fail(CloudFailure(Head(old(faults)).value)) && state == old(state)
      ensures Head(old(faults)).None? ==> r == Pass && state == old(state).(rules := old(state).rules - {name})
    {
      var f := Begin(Call.DeleteScheduledTask(name, target));
      if f.Some? { return Fail(CloudFailure(f.value)); }
      state := state.(rules := state.rules - {name});
      r := Pass;
    }
  }

  /** The cluster name a cluster argument stands for. */
  function ClusterText(cluster: Json): string
  {
    if cluster.JStr? then cluster.s else ""
  }

  /** `list_services(cluster)`: the names listed in that cluster, in order. */
  function ListedNames(listing: seq<ServiceKey>, cluster: string): (r: seq<string>)
    ensures forall n :: n in r ==> ServiceKey(JStr(cluster), n) in listing
  {
    if listing == [] then []
    else (if listing[0].cluster == JStr(cluster) then [listing[0].name] else []) + ListedNames(listing[1..], cluster)
  }

  /** `describe_services(cluster, names)`: one description per known name. */
  function Descriptions(services: map<ServiceKey, ServiceState>, cluster: string, names: seq<string>): (r: seq<ServiceDescription>)
    ensures |r| <= |names|
    ensures forall d :: d in r ==> ServiceKey(JStr(cluster), d.serviceName) in services
  {
    if names == [] then []
    else
      var key := ServiceKey(JStr(cluster), names[0]);
      (if key in services then [Describe(key, services[key], cluster)] else []) + Descriptions(services, cluster, names[1..])
  }

  function RuleDescriptions(rules: map<string, RuleDescription>, listing: seq<string>): (r: seq<RuleDescription>)
    ensures forall d :: d in r ==> exists n :: n in rules && rules[n] == d
  {
    if listing == [] then []
    else (if listing[0] in rules then [rules[listing[0]]] else []) + RuleDescriptions(rules, listing[1..])
  }

  function RunningTasks(running: map<TaskKey, seq<string>>, key: TaskKey): seq<string>
  {
    if key in running then running[key] else []
  }
}
