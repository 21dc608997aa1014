/** Deploy targets for scheduled tasks (ecs/scheduled_tasks.py): the state
    of a CloudWatch Event rule, the task environment a scheduled task's
    definition carries, the observed rule (`CloudwatchEventRule`), the
    desired task (`ScheduledTask`) and the group filter. */
module ScheduledTasks {
  import opened Base
  import opened Json
  import opened Py
  import opened Canon
  import opened Services
  import Cloud

  /** The description that marks a CloudWatch Event rule as one this tool
      manages. */
  const ManagedDescription := "MANAGED BY TASK MANAGER"

  // ---------------------------------------------------------------------------
  // CloudWatchEventState

  datatype RuleState = Enabled | Disabled

  /** The enum member's value, as the cloud spells it. */
  function StateValue(s: RuleState): string
  {
    match s
    case Enabled => "ENABLED"
    case Disabled => "DISABLED"
  }

  /** `get_state`: the member with that value; any other text raises. */
  function GetState(state: string): (r: Result<RuleState>)
    ensures r.Err? ==> r.error == UnknownState(state)
  {
    if state == "ENABLED" then Ok(Enabled)
    else if state == "DISABLED" then Ok(Disabled)
    else Err(UnknownState(state))
  }

  /** `get_state(s.value) == s` for every member ... */
  lemma GetStateOfValue(s: RuleState)
    ensures GetState(StateValue(s)) == Ok(s)
  {
  }

  /** ... and only the two values are accepted. */
  lemma GetStateAccepts(state: string)
    ensures GetState(state).Ok? <==> exists s :: StateValue(s) == state
    ensures GetState(state).Ok? ==> StateValue(GetState(state).value) == state
  {
    if GetState(state).Ok? {
      assert StateValue(GetState(state).value) == state;
    }
  }

  // ---------------------------------------------------------------------------
  // TaskEnvironment

  /** What a scheduled task's definition says about it through the
      environment of its first container. */
  datatype TaskEnvironment = TaskEnvironment(
    environment: Json, clusterName: Json, serviceGroup: Json, templateGroup: Json,
    taskCount: int, targetLambdaArn: Json)

  /** The fields while the environment list is read; `target_lambda_arn` has
      no initial value, so it is absent until an entry sets it. */
  datatype TaskScan = TaskScan(
    environment: Json, clusterName: Json, serviceGroup: Json, templateGroup: Json,
    taskCount: Option<int>, targetLambdaArn: Option<Json>)

  const InitialTaskScan := TaskScan(JNull, JNull, JNull, JNull, None, None)

  /** One iteration of the `TaskEnvironment` loop. */
  function TaskStep(acc: TaskScan, e: Json): Result<TaskScan>
  {
    var name :- Index(e, "name");
    if name == JStr("ENVIRONMENT") then
      var v :- Index(e, "value"); Ok(acc.(environment := v))
    else if name == JStr("CLUSTER_NAME") then
      var v :- Index(e, "value"); Ok(acc.(clusterName := v))
    else if name == JStr("SERVICE_GROUP") then
      var v :- Index(e, "value"); Ok(acc.(serviceGroup := v))
    else if name == JStr("TEMPLATE_GROUP") then
      var v :- Index(e, "value"); Ok(acc.(templateGroup := v))
    else if name == JStr("TASK_COUNT") then
      var v :- Index(e, "value"); var n :- PyInt(v); Ok(acc.(taskCount := Some(n)))
    else if name == JStr("TARGET_LAMBDA_ARN") then
      var v :- Index(e, "value"); Ok(acc.(targetLambdaArn := Some(v)))
    else Ok(acc)
  }

  function TaskScanFrom(acc: TaskScan, entries: seq<Json>): Result<TaskScan>
    decreases |entries|
  {
    if entries == [] then Ok(acc)
    else
      var next :- TaskStep(acc, entries[0]);
      TaskScanFrom(next, entries[1..])
  }

  /** The checks after the loop, in the source's order; reading the
      `target_lambda_arn` attribute that no entry set is an AttributeError. */
  function FinishTask(s: TaskScan): Result<TaskEnvironment>
  {
    if s.environment == JNull then Err(EnvironmentValueNotFound("ENVIRONMENT"))
    else if s.clusterName == JNull then Err(EnvironmentValueNotFound("CLUSTER_NAME"))
    else if s.taskCount.None? then Err(EnvironmentValueNotFound("TASK_COUNT"))
    else if s.targetLambdaArn.None? then Err(AttributeError("target_lambda_arn"))
    else if s.targetLambdaArn.value == JNull then Err(EnvironmentValueNotFound("TARGET_LAMBDA_ARN"))
    else Ok(TaskEnvironment(s.environment, s.clusterName, s.serviceGroup, s.templateGroup,
      s.taskCount.value, s.targetLambdaArn.value))
  }

  /** `TaskEnvironment(task_definition)` of ecs/scheduled_tasks.py. */
  function TaskEnvironmentOf(td: Json): Result<TaskEnvironment>
  {
    var list :- FirstEnvironment(td);
    var entries :- Iterate(list);
    var s :- TaskScanFrom(InitialTaskScan, entries);
    FinishTask(s)
  }

  /** One entry sets at most the field its name selects. */
  lemma TaskStepMeaning(acc: TaskScan, e: Json)
    requires TaskStep(acc, e).Ok?
    ensures var a := TaskStep(acc, e).value;
      && a.environment == (if NamedEntry(e, "ENVIRONMENT") then Get(e.fields, "value").value else acc.environment)
      && a.clusterName == (if NamedEntry(e, "CLUSTER_NAME") then Get(e.fields, "value").value else acc.clusterName)
      && a.serviceGroup == (if NamedEntry(e, "SERVICE_GROUP") then Get(e.fields, "value").value else acc.serviceGroup)
      && a.templateGroup == (if NamedEntry(e, "TEMPLATE_GROUP") then Get(e.fields, "value").value else acc.templateGroup)
      && (if NamedEntry(e, "TASK_COUNT") then a.taskCount.Some? && PyInt(Get(e.fields, "value").value) == Ok(a.taskCount.value)
          else a.taskCount == acc.taskCount)
      && a.targetLambdaArn == (if NamedEntry(e, "TARGET_LAMBDA_ARN") then Get(e.fields, "value") else acc.targetLambdaArn)
  {
    var name := Index(e, "name").value;
    assert e.JObj? && Get(e.fields, "name") == Some(name);
    if name == JStr("ENVIRONMENT") {
    } else if name == JStr("CLUSTER_NAME") {
    } else if name == JStr("SERVICE_GROUP") {
    } else if name == JStr("TEMPLATE_GROUP") {
    } else if name == JStr("TASK_COUNT") {
    } else if name == JStr("TARGET_LAMBDA_ARN") {
    } else {
      assert TaskStep(acc, e) == Ok(acc);
    }
  }

  /** The fields the loop leaves come from the last entry with their name,
      or keep what they held. */
  lemma {:induction false} TaskScanLastWins(acc: TaskScan, entries: seq<Json>)
    requires TaskScanFrom(acc, entries).Ok?
    ensures var s := TaskScanFrom(acc, entries).value;
      && s.environment == OrElse(LastValue(entries, "ENVIRONMENT"), acc.environment)
      && s.clusterName == OrElse(LastValue(entries, "CLUSTER_NAME"), acc.clusterName)
      && s.serviceGroup == OrElse(LastValue(entries, "SERVICE_GROUP"), acc.serviceGroup)
      && s.templateGroup == OrElse(LastValue(entries, "TEMPLATE_GROUP"), acc.templateGroup)
      && (if LastValue(entries, "TASK_COUNT").Some?
          then s.taskCount.Some? && PyInt(LastValue(entries, "TASK_COUNT").value) == Ok(s.taskCount.value)
          else s.taskCount == acc.taskCount)
      && s.targetLambdaArn == (if LastValue(entries, "TARGET_LAMBDA_ARN").Some? then LastValue(entries, "TARGET_LAMBDA_ARN")
                               else acc.targetLambdaArn)
    decreases |entries|
  {
    if entries != [] {
      TaskStepMeaning(acc, entries[0]);
      TaskScanLastWins(TaskStep(acc, entries[0]).value, entries[1..]);
    }
  }

  /** Given a readable environment list: ENVIRONMENT, CLUSTER_NAME, TASK_COUNT
      and TARGET_LAMBDA_ARN are required in that order, the last of them
      missing altogether being an AttributeError; the result holds the last
      entry's value for each field. */
  lemma TaskEnvironmentOfEntries(entries: seq<Json>)
    requires TaskScanFrom(InitialTaskScan, entries).Ok?
    ensures var r := FinishTask(TaskScanFrom(InitialTaskScan, entries).value);
      && (!Present(LastValue(entries, "ENVIRONMENT")) ==> r == Err(EnvironmentValueNotFound("ENVIRONMENT")))
      && (Present(LastValue(entries, "ENVIRONMENT")) && !Present(LastValue(entries, "CLUSTER_NAME")) ==>
            r == Err(EnvironmentValueNotFound("CLUSTER_NAME")))
      && ((Present(LastValue(entries, "ENVIRONMENT")) && Present(LastValue(entries, "CLUSTER_NAME"))
           && LastValue(entries, "TASK_COUNT").None?) ==> r == Err(EnvironmentValueNotFound("TASK_COUNT")))
      && ((Present(LastValue(entries, "ENVIRONMENT")) && Present(LastValue(entries, "CLUSTER_NAME"))
           && LastValue(entries, "TASK_COUNT").Some? && LastValue(entries, "TARGET_LAMBDA_ARN").None?) ==>
            r == Err(AttributeError("target_lambda_arn")))
      && (r.Ok? <==> Present(LastValue(entries, "ENVIRONMENT")) && Present(LastValue(entries, "CLUSTER_NAME"))
                     && LastValue(entries, "TASK_COUNT").Some? && Present(LastValue(entries, "TARGET_LAMBDA_ARN")))
      && (r.Ok? ==>
            && r.value.environment == LastValue(entries, "ENVIRONMENT").value
            && r.value.clusterName == LastValue(entries, "CLUSTER_NAME").value
            && PyInt(LastValue(entries, "TASK_COUNT").value) == Ok(r.value.taskCount)
            && r.value.targetLambdaArn == LastValue(entries, "TARGET_LAMBDA_ARN").value)
  {
    TaskScanLastWins(InitialTaskScan, entries);
  }

  /** A task environment read from a list holds, for each required name,
      the value of the last entry with that name. */
  lemma TaskEnvironmentReads(entries: seq<Json>)
    requires TaskScanFrom(InitialTaskScan, entries).Ok?
    requires FinishTask(TaskScanFrom(InitialTaskScan, entries).value).Ok?
    ensures var id := FinishTask(TaskScanFrom(InitialTaskScan, entries).value).value;
      && LastValue(entries, "ENVIRONMENT").Some? && LastValue(entries, "CLUSTER_NAME").Some?
      && LastValue(entries, "TASK_COUNT").Some? && LastValue(entries, "TARGET_LAMBDA_ARN").Some?
      && id.environment == LastValue(entries, "ENVIRONMENT").value
      && id.clusterName == LastValue(entries, "CLUSTER_NAME").value
      && PyInt(LastValue(entries, "TASK_COUNT").value) == Ok(id.taskCount)
      && id.targetLambdaArn == LastValue(entries, "TARGET_LAMBDA_ARN").value
  {
    TaskScanLastWins(InitialTaskScan, entries);
  }

  /** A definition whose first container's environment is a list is read
      by scanning that list. */
  lemma TaskEnvironmentOfList(td: Json, entries: seq<Json>)
    requires FirstEnvironment(td) == Ok(JList(entries)) && TaskEnvironmentOf(td).Ok?
    ensures TaskScanFrom(InitialTaskScan, entries).Ok?
    ensures TaskEnvironmentOf(td) == FinishTask(TaskScanFrom(InitialTaskScan, entries).value)
  {
    assert Iterate(JList(entries)) == Ok(entries);
  }

  lemma TaskScanStep(acc: TaskScan, entries: seq<Json>, i: nat)
    requires i < |entries|
    ensures TaskStep(acc, entries[i]).Ok? ==>
      TaskScanFrom(acc, entries[i..]) == TaskScanFrom(TaskStep(acc, entries[i]).value, entries[i + 1..])
    ensures TaskStep(acc, entries[i]).Err? ==> TaskScanFrom(acc, entries[i..]).Err?
  {
    assert entries[i..][1..] == entries[i + 1..];
  }

  /** The `TaskEnvironment` constructor: one pass over the first container's
      environment list, assigning fields as entries are met. */
  method LoadTaskEnvironment(td: Json) returns (r: Result<TaskEnvironment>)
    ensures r == TaskEnvironmentOf(td)
  {
    var list := FirstEnvironment(td);
    if list.Err? { return Err(list.error); }
    var entries := Iterate(list.value);
    if entries.Err? { return Err(entries.error); }
    var xs := entries.value;
    var scan := InitialTaskScan;
    var i := 0;
    assert xs[0..] == xs;
    while i < |xs|
      invariant 0 <= i <= |xs|
      invariant TaskScanFrom(InitialTaskScan, xs) == TaskScanFrom(scan, xs[i..])
    {
      TaskScanStep(scan, xs, i);
      var next := TaskStep(scan, xs[i]);
      if next.Err? { return Err(next.error); }
      scan := next.value;
      i := i + 1;
    }
    r := FinishTask(scan);
  }

  // ---------------------------------------------------------------------------
  // is_same_task_definition

  /** `adjust_container_definition(td['containerDefinitions'])`. */
  function IndexedContainers(td: Json): Result<seq<Json>>
  {
    var c :- Index(td, "containerDefinitions");
    Adjust(c)
  }

  /** `ScheduledTask.is_same_task_definition` as written: the origin is
      subscripted whether or not there is one. */
  function SameTaskDefinitionAsWritten(origin: Option<Json>, td: Json): Result<bool>
  {
    var o := if origin.Some? then origin.value else JNull;
    var ad :- IndexedContainers(o);
    var bd :- IndexedContainers(td);
    PairwiseSame(ad, bd)
  }

  /** `is_same_task_definition` with the guard `Service` has: False without
      an origin definition. */
  function SameTaskDefinition(origin: Option<Json>, td: Json): Result<bool>
  {
    if origin.None? then Ok(false)
    else
      var ad :- IndexedContainers(origin.value);
      var bd :- IndexedContainers(td);
      PairwiseSame(ad, bd)
  }

  /** As written, a task with no deployed rule cannot be compared: the
      check raises a TypeError for every definition. */
  lemma SameTaskDefinitionAsWrittenFailsWithoutOrigin(td: Json)
    ensures SameTaskDefinitionAsWritten(None, td) == Err(TypeError("subscript"))
    ensures SameTaskDefinition(None, td) == Ok(false)
  {
  }

  /** With an origin the two agree, so the guard changes only the case
      without one. */
  lemma SameTaskDefinitionAgrees(origin: Json, td: Json)
    ensures SameTaskDefinitionAsWritten(Some(origin), td) == SameTaskDefinition(Some(origin), td)
  {
  }

  /** A definition after the in-place adjustment of its containers. */
  function AdjustedInPlaceIndexed(td: Json): Json
  {
    match IndexedContainers(td)
    case Ok(cs) => WithContainers(td, cs)
    case Err(_) => td
  }

  /** The definition a scheduled task holds once `is_same_task_definition`
      has run. */
  function ComparedTaskDefinition(origin: Option<Json>, td: Json): Json
  {
    if origin.Some? && IndexedContainers(origin.value).Ok? then AdjustedInPlaceIndexed(td) else td
  }

  /** Comparing again after the in-place adjustment gives the same answer. */
  lemma SameTaskDefinitionAfterAdjusting(origin: Json, td: Json)
    requires SameTaskDefinition(Some(origin), td).Ok?
    ensures SameTaskDefinition(Some(AdjustedInPlaceIndexed(origin)), AdjustedInPlaceIndexed(td)) == SameTaskDefinition(Some(origin), td)
  {
    var a := IndexedContainers(origin).value;
    var b := IndexedContainers(td).value;
    AdjustIdempotent(Index(origin, "containerDefinitions").value);
    AdjustIdempotent(Index(td, "containerDefinitions").value);
    assert Get(WithContainers(origin, a).fields, "containerDefinitions") == Some(JList(a));
    assert Get(WithContainers(td, b).fields, "containerDefinitions") == Some(JList(b));
  }

  // ---------------------------------------------------------------------------
  // CloudwatchEventRule

  /** A CloudWatch Event rule as the cloud reports it, with the task
      definition it runs once that has been fetched. Like every deploy
      target it has a process status, normal when made. */
  class CloudwatchEventRule {
    const name: string
    const arn: string
    const state: RuleState
    const description: string
    const scheduledExpression: string
    var taskDefinition: Option<Json>
    var taskDefinitionArn: Option<string>
    var taskEnvironment: Option<TaskEnvironment>
    var family: Option<Json>
    var status: ProcessStatus

    constructor (d: Cloud.RuleDescription, s: RuleState, text: string)
      ensures name == d.name && arn == d.arn && state == s && description == text
      ensures scheduledExpression == d.scheduleExpression
      ensures taskDefinition.None? && taskDefinitionArn.None? && taskEnvironment.None? && family.None?
      ensures status == Normal
    {
      name := d.name;
      arn := d.arn;
      state := s;
      description := text;
      scheduledExpression := d.scheduleExpression;
      taskDefinition := None;
      taskDefinitionArn := None;
      taskEnvironment := None;
      family := None;
      status := Normal;
    }

    /** `CloudwatchEventRule(rule)`: an unknown state raises, then a missing
        `Description`. */
    static method Create(d: Cloud.RuleDescription) returns (r: Result<CloudwatchEventRule>)
      ensures GetState(d.state).Err? ==> r == Err(UnknownState(d.state))
      ensures GetState(d.state).Ok? && d.description.None? ==> r == Err(KeyError("Description"))
      ensures r.Ok? <==> GetState(d.state).Ok? && d.description.Some?
      ensures r.Ok? ==>
        && fresh(r.value)
        && r.value.name == d.name && r.value.arn == d.arn && r.value.state == GetState(d.state).value
        && r.value.description == d.description.value && r.value.scheduledExpression == d.scheduleExpression
        && r.value.taskDefinition.None? && r.value.taskEnvironment.None? && r.value.family.None?
        && r.value.status == Normal
    {
      var s := GetState(d.state);
      if s.Err? { return Err(s.error); }
      if d.description.None? { return Err(KeyError("Description")); }
      var c := new CloudwatchEventRule(d, s.value, d.description.value);
      r := Ok(c);
    }

    /** `set_from_task_definition`: the definition and its ARN are stored
        before its environment and family are read, and stay stored when
        reading those raises. */
    method SetFromTaskDefinition(td: Json) returns (r: Outcome)
      modifies this
      ensures taskDefinition == Some(td) && status == old(status)
      ensures !td.JObj? ==> r == Fail(AttributeError("get")) && taskDefinitionArn == old(taskDefinitionArn)
      ensures !td.JObj? ==> taskEnvironment == old(taskEnvironment) && family == old(family)
      ensures td.JObj? ==> taskDefinitionArn == ArnOf(Get(td.fields, "taskDefinitionArn"))
      ensures td.JObj? && TaskEnvironmentOf(td).Err? ==>
        r == Fail(TaskEnvironmentOf(td).error) && taskEnvironment == old(taskEnvironment) && family == old(family)
      ensures td.JObj? && TaskEnvironmentOf(td).Ok? ==>
        && taskEnvironment == Some(TaskEnvironmentOf(td).value)
        && (Index(td, "family").Ok? ==> r == Pass && family == Some(Index(td, "family").value))
        && (Index(td, "family").Err? ==> r == Fail(Index(td, "family").error) && family == old(family))
    {
      taskDefinition := Some(td);
      if !td.JObj? { return Fail(AttributeError("get")); }
      taskDefinitionArn := ArnOf(Get(td.fields, "taskDefinitionArn"));
      var env := LoadTaskEnvironment(td);
      if env.Err? { return Fail(env.error); }
      taskEnvironment := Some(env.value);
      var f := Index(td, "family");
      if f.Err? { return Fail(f.error); }
      family := Some(f.value);
      r := Pass;
    }
  }

  // ---------------------------------------------------------------------------
  // ScheduledTask

  /** What the configuration builder hands to the `ScheduledTask`
      constructor. */
  datatype TaskSpec = TaskSpec(
    taskDefinition: Json, targetLambdaArn: string, scheduleExpression: string,
    placementStrategy: Json, placementConstraints: Json)

  /** The family and task environment the constructor reads: a missing
      family is reported first; the family must be a name. */
  function TaskIdentity(td: Json): (r: Result<(TaskEnvironment, string)>)
    ensures !td.JObj? ==> r == Err(AttributeError("get"))
    ensures td.JObj? && (Get(td.fields, "family").None? || Get(td.fields, "family") == Some(JNull)) ==>
      r == Err(EnvironmentValueNotFound("family"))
    ensures td.JObj? && Get(td.fields, "family").Some? && Get(td.fields, "family") != Some(JNull) && TaskEnvironmentOf(td).Err? ==>
      r == Err(TaskEnvironmentOf(td).error)
    ensures r.Ok? <==> td.JObj? && Get(td.fields, "family").Some? && Get(td.fields, "family").value.JStr? && TaskEnvironmentOf(td).Ok?
    ensures r.Ok? ==> r.value.0 == TaskEnvironmentOf(td).value && Get(td.fields, "family") == Some(JStr(r.value.1))
  {
    var f :- ObjGet(td, "family");
    if f.None? || f.value == JNull then Err(EnvironmentValueNotFound("family"))
    else
      var env :- TaskEnvironmentOf(td);
      if f.value.JStr? then Ok((env, f.value.s)) else Err(TypeError("family"))
  }

  /** A scheduled task to deploy: desired state and what is known of the
      rule that runs it now. */
  class ScheduledTask {
    const family: string
    const taskEnvironment: TaskEnvironment
    const targetLambdaArn: string
    const scheduleExpression: string
    const placementStrategy: Json
    const placementConstraints: Json
    var taskDefinition: Json
    var status: ProcessStatus
    var state: RuleState
    var taskExists: bool
    var originTaskDefinitionArn: Option<string>
    var originTaskDefinition: Option<Json>
    var originTaskEnvironment: Option<TaskEnvironment>
    var taskDefinitionArn: Option<string>

    constructor (spec: TaskSpec, env: TaskEnvironment, fam: string)
      ensures taskDefinition == spec.taskDefinition && taskEnvironment == env && family == fam
      ensures targetLambdaArn == spec.targetLambdaArn && scheduleExpression == spec.scheduleExpression
      ensures placementStrategy == spec.placementStrategy && placementConstraints == spec.placementConstraints
      ensures NoOrigin() && status == Normal && state == Enabled
    {
      taskDefinition := spec.taskDefinition;
      family := fam;
      taskEnvironment := env;
      targetLambdaArn := spec.targetLambdaArn;
      scheduleExpression := spec.scheduleExpression;
      placementStrategy := spec.placementStrategy;
      placementConstraints := spec.placementConstraints;
      status := Normal;
      state := Enabled;
      taskExists := false;
      originTaskDefinitionArn := None;
      originTaskDefinition := None;
      originTaskEnvironment := None;
      taskDefinitionArn := None;
    }

    /** A new task knows of no rule. */
    predicate NoOrigin()
      reads this
    {
      !taskExists && originTaskDefinitionArn.None? && originTaskDefinition.None?
      && originTaskEnvironment.None? && taskDefinitionArn.None?
    }

    /** `ScheduledTask(...)`: a missing family, then the task environment,
        can raise. */
    static method Create(spec: TaskSpec) returns (r: Result<ScheduledTask>)
      ensures r.Err? <==> TaskIdentity(spec.taskDefinition).Err?
      ensures r.Err? ==> r.error == TaskIdentity(spec.taskDefinition).error
      ensures r.Ok? ==> fresh(r.value)
      ensures r.Ok? ==>
        var id := TaskIdentity(spec.taskDefinition).value;
        && r.value.taskEnvironment == id.0 && r.value.family == id.1
        && r.value.taskDefinition == spec.taskDefinition
        && r.value.targetLambdaArn == spec.targetLambdaArn && r.value.scheduleExpression == spec.scheduleExpression
        && r.value.placementStrategy == spec.placementStrategy && r.value.placementConstraints == spec.placementConstraints
        && r.value.NoOrigin() && r.value.status == Normal && r.value.state == Enabled
    {
      var td := spec.taskDefinition;
      var f := ObjGet(td, "family");
      if f.Err? { return Err(f.error); }
      if f.value.None? || f.value.value == JNull { return Err(EnvironmentValueNotFound("family")); }
      var env := LoadTaskEnvironment(td);
      if env.Err? { return Err(env.error); }
      if !f.value.value.JStr? { return Err(TypeError("family")); }
      var t := new ScheduledTask(spec, env.value, f.value.value.s);
      r := Ok(t);
    }

    /** `set_from_cloudwatch_event_rule`: the rule's definition, ARN,
        environment and state become the origin, and the task exists. */
    method SetFromCloudwatchEventRule(c: CloudwatchEventRule)
      modifies this
      ensures originTaskDefinition == c.taskDefinition && originTaskDefinitionArn == c.taskDefinitionArn
      ensures originTaskEnvironment == c.taskEnvironment && state == c.state && taskExists
      ensures taskDefinition == old(taskDefinition) && taskDefinitionArn == old(taskDefinitionArn)
      ensures status == old(status)
    {
      originTaskDefinition := c.taskDefinition;
      originTaskDefinitionArn := c.taskDefinitionArn;
      originTaskEnvironment := c.taskEnvironment;
      state := c.state;
      taskExists := true;
    }

    /** `is_same_task_definition`, with the guard for a task without origin;
        both definitions' container definitions are adjusted in place. */
    method IsSameTaskDefinition() returns (r: Result<bool>)
      modifies this
      ensures r == SameTaskDefinition(old(originTaskDefinition), old(taskDefinition))
      ensures old(originTaskDefinition).None? ==> originTaskDefinition == old(originTaskDefinition) && taskDefinition == old(taskDefinition)
      ensures old(originTaskDefinition).Some? ==>
        && originTaskDefinition == Some(AdjustedInPlaceIndexed(old(originTaskDefinition).value))
        && taskDefinition == (if IndexedContainers(old(originTaskDefinition).value).Ok?
                              then AdjustedInPlaceIndexed(old(taskDefinition)) else old(taskDefinition))
      ensures taskDefinitionArn == old(taskDefinitionArn) && originTaskDefinitionArn == old(originTaskDefinitionArn)
      ensures originTaskEnvironment == old(originTaskEnvironment) && taskExists == old(taskExists)
      ensures state == old(state) && status == old(status)
    {
      if originTaskDefinition.None? { return Ok(false); }
      var origin := originTaskDefinition.value;
      var ad := IndexedContainers(origin);
      if ad.Err? { return Err(ad.error); }
      originTaskDefinition := Some(WithContainers(origin, ad.value));
      var bd := IndexedContainers(taskDefinition);
      if bd.Err? { return Err(bd.error); }
      taskDefinition := WithContainers(taskDefinition, bd.value);
      r := IsSameContainerDefinition(ad.value, bd.value);
    }

    /** `compare_container_definition`: an unchanged definition reuses the
        origin's ARN; a changed one leaves the ARN to the registration. */
    method CompareContainerDefinition() returns (r: Result<bool>)
      modifies this
      ensures r == SameTaskDefinition(old(originTaskDefinition), old(taskDefinition))
      ensures r == Ok(true) ==> taskDefinitionArn == originTaskDefinitionArn
      ensures r != Ok(true) ==> taskDefinitionArn == old(taskDefinitionArn)
      ensures originTaskDefinitionArn == old(originTaskDefinitionArn) && originTaskEnvironment == old(originTaskEnvironment)
      ensures taskExists == old(taskExists) && state == old(state) && status == old(status)
    {
      r := IsSameTaskDefinition();
      if r == Ok(true) {
        taskDefinitionArn := originTaskDefinitionArn;
      }
    }
  }

  // ---------------------------------------------------------------------------
  // get_deploy_scheduled_task_list

  predicate TaskSelected(t: ScheduledTask, serviceGroup: Option<string>, templateGroup: Option<string>)
  {
    GroupMatches(t.taskEnvironment.serviceGroup, serviceGroup) && GroupMatches(t.taskEnvironment.templateGroup, templateGroup)
  }

  /** The tasks both filters keep, in their original order. */
  function SelectTasks(tasks: seq<ScheduledTask>, serviceGroup: Option<string>, templateGroup: Option<string>): seq<ScheduledTask>
  {
    if tasks == [] then []
    else
      var head := if TaskSelected(tasks[0], serviceGroup, templateGroup) then [tasks[0]] else [];
      head + SelectTasks(tasks[1..], serviceGroup, templateGroup)
  }

  /** `get_deploy_scheduled_task_list`: a filter by service group, then one
      by template group, each only when set. */
  function GetDeployScheduledTaskList(tasks: seq<ScheduledTask>, serviceGroup: Option<string>, templateGroup: Option<string>)
    : (r: seq<ScheduledTask>)
    ensures r == SelectTasks(tasks, serviceGroup, templateGroup)
  {
    SelectTasksTwice(tasks, serviceGroup, templateGroup);
    SelectTasks(SelectTasks(tasks, serviceGroup, None), None, templateGroup)
  }

  lemma {:induction false} SelectTasksAppend(a: seq<ScheduledTask>, b: seq<ScheduledTask>, g: Option<string>, t: Option<string>)
    ensures SelectTasks(a + b, g, t) == SelectTasks(a, g, t) + SelectTasks(b, g, t)
  {
    if a != [] {
      ConsAppend(a, b);
      SelectTasksAppend(a[1..], b, g, t);
      var h := if TaskSelected(a[0], g, t) then [a[0]] else [];
      assert SelectTasks(a + b, g, t) == h + SelectTasks(a[1..] + b, g, t);
      assert h + (SelectTasks(a[1..], g, t) + SelectTasks(b, g, t)) == (h + SelectTasks(a[1..], g, t)) + SelectTasks(b, g, t);
    } else {
      assert a + b == b;
    }
  }

  lemma {:induction false} SelectTasksTwice(tasks: seq<ScheduledTask>, g: Option<string>, t: Option<string>)
    ensures SelectTasks(SelectTasks(tasks, g, None), None, t) == SelectTasks(tasks, g, t)
  {
    if tasks != [] {
      SelectTasksTwice(tasks[1..], g, t);
      SelectTasksAppend(if TaskSelected(tasks[0], g, None) then [tasks[0]] else [],
        SelectTasks(tasks[1..], g, None), None, t);
    }
  }

  /** A task is kept exactly when it is listed and both set filters admit
      it. */
  lemma {:induction false} SelectTasksMembers(tasks: seq<ScheduledTask>, g: Option<string>, t: Option<string>, x: ScheduledTask)
    ensures x in SelectTasks(tasks, g, t) <==> x in tasks && TaskSelected(x, g, t)
  {
    if tasks != [] {
      SelectTasksMembers(tasks[1..], g, t, x);
    }
  }

  /** With no filter set, every task is deployed. */
  lemma {:induction false} SelectTasksUnfiltered(tasks: seq<ScheduledTask>)
    ensures SelectTasks(tasks, None, None) == tasks
  {
    if tasks != [] {
      SelectTasksUnfiltered(tasks[1..]);
    }
  }
}
