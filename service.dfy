/** Deploy targets for ECS services: the task environment a task definition
    carries, the observed service (`DescribeService`), the desired service
    (`Service`) and the service-group and template-group filter. */
module Services {
  import opened Base
  import opened Text
  import opened Json
  import opened Py
  import opened Canon
  import Cloud

  // ---------------------------------------------------------------------------
  // TaskEnvironment

  /** What a service's task definition says about it through the environment
      of its first container (`JNull` is Python's `None`). */
  datatype ServiceEnvironment = ServiceEnvironment(
    environment: Json, clusterName: Json, serviceGroup: Json, templateGroup: Json,
    desiredCount: int, minimumHealthyPercent: int, maximumPercent: int, distinctInstance: bool)

  /** The fields while the environment list is read: `desiredCount` is `None`
      until a `DESIRED_COUNT` entry is seen. */
  datatype ServiceScan = ServiceScan(
    environment: Json, clusterName: Json, serviceGroup: Json, templateGroup: Json,
    desiredCount: Option<int>, minimumHealthyPercent: int, maximumPercent: int, distinctInstance: bool)

  const InitialServiceScan := ServiceScan(JNull, JNull, JNull, JNull, None, 50, 200, false)

  /** `task_definition['containerDefinitions'][0]['environment']`; whatever
      goes wrong on the way is `EnvironmentValueNotFoundException`. */
  function FirstEnvironment(td: Json): Result<Json>
  {
    if td.JObj? then
      match Get(td.fields, "containerDefinitions")
      case Some(JList(cs)) =>
        if cs != [] && cs[0].JObj? && Get(cs[0].fields, "environment").Some? then
          Ok(Get(cs[0].fields, "environment").value)
        else Err(EnvironmentValueNotFound(""))
      case _ => Err(EnvironmentValueNotFound(""))
    else Err(EnvironmentValueNotFound(""))
  }

  /** The definition with its `containerDefinitions` replaced. */
  function WithContainers(td: Json, cs: seq<Json>): Json
  {
    if td.JObj? then JObj(Put(td.fields, "containerDefinitions", JList(cs))) else td
  }

  /** An entry `{"name": n, ...}`. */
  predicate NamedEntry(e: Json, n: string)
  {
    e.JObj? && Get(e.fields, "name") == Some(JStr(n))
  }

  /** The value of the last entry named n: later entries win. */
  function LastValue(entries: seq<Json>, n: string): Option<Json>
  {
    if entries == [] then None
    else match LastValue(entries[1..], n)
      case Some(v) => Some(v)
      case None => if NamedEntry(entries[0], n) then Get(entries[0].fields, "value") else None
  }

  /** A required value counts as missing when absent or `None`. */
  predicate Present(v: Option<Json>)
  {
    v.Some? && v.value != JNull
  }

  function OrElse(v: Option<Json>, d: Json): Json
  {
    if v.Some? then v.value else d
  }

  /** One iteration of the `TaskEnvironment` loop. */
  function ServiceStep(acc: ServiceScan, e: Json): Result<ServiceScan>
  {
    var name :- Index(e, "name");
    if name == JStr("ENVIRONMENT") then
      var v :- Index(e, "value"); Ok(acc.(environment := v))
    else if name == JStr("CLUSTER_NAME") then
      var v :- Index(e, "value"); Ok(acc.(clusterName := v))
    else if name == JStr("SERVICE_GROUP") then
      var v :- Index(e, "value"); Ok(acc.(serviceGroup := v))
    else if name == JStr("TEMPLATE_GROUP") then
      var v :- Index(e, "value"); Ok(acc.(templateGroup := v))
    else if name == JStr("DESIRED_COUNT") then
      var v :- Index(e, "value"); var n :- PyInt(v); Ok(acc.(desiredCount := Some(n)))
    else if name == JStr("MINIMUM_HEALTHY_PERCENT") then
      var v :- Index(e, "value"); var n :- PyInt(v); Ok(acc.(minimumHealthyPercent := n))
    else if name == JStr("MAXIMUM_PERCENT") then
      var v :- Index(e, "value"); var n :- PyInt(v); Ok(acc.(maximumPercent := n))
    else if name == JStr("DISTINCT_INSTANCE") then
      var v :- Index(e, "value"); var b :- PyStrToBool(v); Ok(acc.(distinctInstance := b))
    else Ok(acc)
  }

  function ServiceScanFrom(acc: ServiceScan, entries: seq<Json>): Result<ServiceScan>
    decreases |entries|
  {
    if entries == [] then Ok(acc)
    else
      var next :- ServiceStep(acc, entries[0]);
      ServiceScanFrom(next, entries[1..])
  }

  /** The `None` checks after the loop, in the source's order. */
  function FinishService(s: ServiceScan): Result<ServiceEnvironment>
  {
    if s.environment == JNull then Err(EnvironmentValueNotFound("ENVIRONMENT"))
    else if s.clusterName == JNull then Err(EnvironmentValueNotFound("CLUSTER_NAME"))
    else if s.desiredCount.None? then Err(EnvironmentValueNotFound("DESIRED_COUNT"))
    else Ok(ServiceEnvironment(s.environment, s.clusterName, s.serviceGroup, s.templateGroup,
      s.desiredCount.value, s.minimumHealthyPercent, s.maximumPercent, s.distinctInstance))
  }

  /** `TaskEnvironment(task_definition)` of `ecs/service.py`. */
  function ServiceEnvironmentOf(td: Json): Result<ServiceEnvironment>
  {
    var list :- FirstEnvironment(td);
    var entries :- Iterate(list);
    var s :- ServiceScanFrom(InitialServiceScan, entries);
    FinishService(s)
  }

  /** One entry sets at most the field its name selects, converted. */
  lemma ServiceStepMeaning(acc: ServiceScan, e: Json)
    requires ServiceStep(acc, e).Ok?
    ensures var a := ServiceStep(acc, e).value;
      && a.environment == (if NamedEntry(e, "ENVIRONMENT") then Get(e.fields, "value").value else acc.environment)
      && a.clusterName == (if NamedEntry(e, "CLUSTER_NAME") then Get(e.fields, "value").value else acc.clusterName)
      && a.serviceGroup == (if NamedEntry(e, "SERVICE_GROUP") then Get(e.fields, "value").value else acc.serviceGroup)
      && a.templateGroup == (if NamedEntry(e, "TEMPLATE_GROUP") then Get(e.fields, "value").value else acc.templateGroup)
      && (if NamedEntry(e, "DESIRED_COUNT") then a.desiredCount.Some? && PyInt(Get(e.fields, "value").value) == Ok(a.desiredCount.value)
          else a.desiredCount == acc.desiredCount)
      && (if NamedEntry(e, "MINIMUM_HEALTHY_PERCENT") then PyInt(Get(e.fields, "value").value) == Ok(a.minimumHealthyPercent)
          else a.minimumHealthyPercent == acc.minimumHealthyPercent)
      && (if NamedEntry(e, "MAXIMUM_PERCENT") then PyInt(Get(e.fields, "value").value) == Ok(a.maximumPercent)
          else a.maximumPercent == acc.maximumPercent)
      && (if NamedEntry(e, "DISTINCT_INSTANCE") then PyStrToBool(Get(e.fields, "value").value) == Ok(a.distinctInstance)
          else a.distinctInstance == acc.distinctInstance)
  {
    var name := Index(e, "name").value;
    assert e.JObj? && Get(e.fields, "name") == Some(name);
    if name == JStr("ENVIRONMENT") {
    } else if name == JStr("CLUSTER_NAME") {
    } else if name == JStr("SERVICE_GROUP") {
    } else if name == JStr("TEMPLATE_GROUP") {
    } else if name == JStr("DESIRED_COUNT") {
    } else if name == JStr("MINIMUM_HEALTHY_PERCENT") {
    } else if name == JStr("MAXIMUM_PERCENT") {
    } else if name == JStr("DISTINCT_INSTANCE") {
    } else {
      assert ServiceStep(acc, e) == Ok(acc);
    }
  }

  /** The text fields the loop leaves hold the value of the last entry with
      their name, or what they held before. */
  lemma {:induction false} ServiceScanLastWinsText(acc: ServiceScan, entries: seq<Json>)
    requires ServiceScanFrom(acc, entries).Ok?
    ensures var s := ServiceScanFrom(acc, entries).value;
      && s.environment == OrElse(LastValue(entries, "ENVIRONMENT"), acc.environment)
      && s.clusterName == OrElse(LastValue(entries, "CLUSTER_NAME"), acc.clusterName)
      && s.serviceGroup == OrElse(LastValue(entries, "SERVICE_GROUP"), acc.serviceGroup)
      && s.templateGroup == OrElse(LastValue(entries, "TEMPLATE_GROUP"), acc.templateGroup)
    decreases |entries|
  {
    if entries != [] {
      ServiceStepMeaning(acc, entries[0]);
      ServiceScanLastWinsText(ServiceStep(acc, entries[0]).value, entries[1..]);
    }
  }

  /** The converted fields the loop leaves come from the last entry with
      their name (through `int()` or `strtobool`), or keep what they held. */
  lemma ServiceScanLastWinsConverted(acc: ServiceScan, entries: seq<Json>)
    requires ServiceScanFrom(acc, entries).Ok?
    ensures var s := ServiceScanFrom(acc, entries).value;
      && (if LastValue(entries, "DESIRED_COUNT").Some?
          then s.desiredCount.Some? && PyInt(LastValue(entries, "DESIRED_COUNT").value) == Ok(s.desiredCount.value)
          else s.desiredCount == acc.desiredCount)
      && (if LastValue(entries, "MINIMUM_HEALTHY_PERCENT").Some?
          then PyInt(LastValue(entries, "MINIMUM_HEALTHY_PERCENT").value) == Ok(s.minimumHealthyPercent)
          else s.minimumHealthyPercent == acc.minimumHealthyPercent)
      && (if LastValue(entries, "MAXIMUM_PERCENT").Some?
          then PyInt(LastValue(entries, "MAXIMUM_PERCENT").value) == Ok(s.maximumPercent)
          else s.maximumPercent == acc.maximumPercent)
      && (if LastValue(entries, "DISTINCT_INSTANCE").Some?
          then PyStrToBool(LastValue(entries, "DISTINCT_INSTANCE").value) == Ok(s.distinctInstance)
          else s.distinctInstance == acc.distinctInstance)
  {
    LastWinsCount(acc, entries);
    LastWinsMinimum(acc, entries);
    LastWinsMaximum(acc, entries);
    LastWinsDistinct(acc, entries);
  }

  lemma {:induction false} LastWinsCount(acc: ServiceScan, entries: seq<Json>)
    requires ServiceScanFrom(acc, entries).Ok?
    ensures var s := ServiceScanFrom(acc, entries).value;
      if LastValue(entries, "DESIRED_COUNT").Some?
      then s.desiredCount.Some? && PyInt(LastValue(entries, "DESIRED_COUNT").value) == Ok(s.desiredCount.value)
      else s.desiredCount == acc.desiredCount
    decreases |entries|
  {
    if entries != [] {
      ServiceStepMeaning(acc, entries[0]);
      LastWinsCount(ServiceStep(acc, entries[0]).value, entries[1..]);
    }
  }

  lemma {:induction false} LastWinsMinimum(acc: ServiceScan, entries: seq<Json>)
    requires ServiceScanFrom(acc, entries).Ok?
    ensures var s := ServiceScanFrom(acc, entries).value;
      if LastValue(entries, "MINIMUM_HEALTHY_PERCENT").Some?
      then PyInt(LastValue(entries, "MINIMUM_HEALTHY_PERCENT").value) == Ok(s.minimumHealthyPercent)
      else s.minimumHealthyPercent == acc.minimumHealthyPercent
    decreases |entries|
  {
    if entries != [] {
      ServiceStepMeaning(acc, entries[0]);
      LastWinsMinimum(ServiceStep(acc, entries[0]).value, entries[1..]);
    }
  }

  lemma {:induction false} LastWinsMaximum(acc: ServiceScan, entries: seq<Json>)
    requires ServiceScanFrom(acc, entries).Ok?
    ensures var s := ServiceScanFrom(acc, entries).value;
      if LastValue(entries, "MAXIMUM_PERCENT").Some?
      then PyInt(LastValue(entries, "MAXIMUM_PERCENT").value) == Ok(s.maximumPercent)
      else s.maximumPercent == acc.maximumPercent
    decreases |entries|
  {
    if entries != [] {
      ServiceStepMeaning(acc, entries[0]);
      LastWinsMaximum(ServiceStep(acc, entries[0]).value, entries[1..]);
    }
  }

  lemma {:induction false} LastWinsDistinct(acc: ServiceScan, entries: seq<Json>)
    requires ServiceScanFrom(acc, entries).Ok?
    ensures var s := ServiceScanFrom(acc, entries).value;
      if LastValue(entries, "DISTINCT_INSTANCE").Some?
      then PyStrToBool(LastValue(entries, "DISTINCT_INSTANCE").value) == Ok(s.distinctInstance)
      else s.distinctInstance == acc.distinctInstance
    decreases |entries|
  {
    if entries != [] {
      ServiceStepMeaning(acc, entries[0]);
      LastWinsDistinct(ServiceStep(acc, entries[0]).value, entries[1..]);
    }
  }

  /** Given a readable environment list: the result has every field of the
      last entry with that name, the defaults 50, 200 and False for the
      optional ones, and a missing ENVIRONMENT, CLUSTER_NAME or DESIRED_COUNT
      is reported in that order. */
  lemma ServiceEnvironmentOfEntries(entries: seq<Json>)
    requires ServiceScanFrom(InitialServiceScan, entries).Ok?
    ensures var r := FinishService(ServiceScanFrom(InitialServiceScan, entries).value);
      && (!Present(LastValue(entries, "ENVIRONMENT")) ==> r == Err(EnvironmentValueNotFound("ENVIRONMENT")))
      && (Present(LastValue(entries, "ENVIRONMENT")) && !Present(LastValue(entries, "CLUSTER_NAME")) ==>
            r == Err(EnvironmentValueNotFound("CLUSTER_NAME")))
      && ((Present(LastValue(entries, "ENVIRONMENT")) && Present(LastValue(entries, "CLUSTER_NAME"))
           && LastValue(entries, "DESIRED_COUNT").None?) ==> r == Err(EnvironmentValueNotFound("DESIRED_COUNT")))
      && (r.Ok? <==> (Present(LastValue(entries, "ENVIRONMENT")) && Present(LastValue(entries, "CLUSTER_NAME"))
                      && LastValue(entries, "DESIRED_COUNT").Some?))
      && (r.Ok? ==>
            && r.value.environment == LastValue(entries, "ENVIRONMENT").value
            && r.value.clusterName == LastValue(entries, "CLUSTER_NAME").value
            && PyInt(LastValue(entries, "DESIRED_COUNT").value) == Ok(r.value.desiredCount)
            && (LastValue(entries, "MINIMUM_HEALTHY_PERCENT").None? ==> r.value.minimumHealthyPercent == 50)
            && (LastValue(entries, "MAXIMUM_PERCENT").None? ==> r.value.maximumPercent == 200)
            && (LastValue(entries, "DISTINCT_INSTANCE").None? ==> !r.value.distinctInstance))
  {
    ServiceScanLastWinsText(InitialServiceScan, entries);
    ServiceScanLastWinsConverted(InitialServiceScan, entries);
  }

  /** Only the first container's environment is read: the other containers
      can be anything. */
  lemma OnlyFirstContainerRead(td: Json, c: Json, rest1: seq<Json>, rest2: seq<Json>)
    requires td.JObj?
    ensures ServiceEnvironmentOf(WithContainers(td, [c] + rest1)) == ServiceEnvironmentOf(WithContainers(td, [c] + rest2))
  {
    assert FirstEnvironment(WithContainers(td, [c] + rest1)) == FirstEnvironment(WithContainers(td, [c] + rest2));
  }

  lemma ServiceScanStep(acc: ServiceScan, entries: seq<Json>, i: nat)
    requires i < |entries|
    ensures ServiceStep(acc, entries[i]).Ok? ==>
      ServiceScanFrom(acc, entries[i..]) == ServiceScanFrom(ServiceStep(acc, entries[i]).value, entries[i + 1..])
    ensures ServiceStep(acc, entries[i]).Err? ==> ServiceScanFrom(acc, entries[i..]).Err?
  {
    assert entries[i..][1..] == entries[i + 1..];
  }

  /** The `TaskEnvironment` constructor: one pass over the first container's
      environment list, assigning fields as entries are met. */
  method LoadServiceEnvironment(td: Json) returns (r: Result<ServiceEnvironment>)
    ensures r == ServiceEnvironmentOf(td)
  {
    var list := FirstEnvironment(td);
    if list.Err? { return Err(list.error); }
    var entries := Iterate(list.value);
    if entries.Err? { return Err(entries.error); }
    var xs := entries.value;
    var scan := InitialServiceScan;
    var i := 0;
    assert xs[0..] == xs;
    while i < |xs|
      invariant 0 <= i <= |xs|
      invariant ServiceScanFrom(InitialServiceScan, xs) == ServiceScanFrom(scan, xs[i..])
    {
      ServiceScanStep(scan, xs, i);
      var next := ServiceStep(scan, xs[i]);
      if next.Err? { return Err(next.error); }
      scan := next.value;
      i := i + 1;
    }
    r := FinishService(scan);
  }

  // ---------------------------------------------------------------------------
  // arn_to_name

  /** `arn.split('/')[-1]`. */
  function ArnToName(arn: string): (r: string)
    ensures '/' !in r && |r| <= |arn| && r == arn[|arn| - |r|..]
    ensures |r| < |arn| ==> arn[|arn| - |r| - 1] == '/'
  {
    LastSegmentIsLastSlashSuffix(arn);
    LastSegment(arn)
  }

  /** The cluster name is recovered from the cluster ARN the cloud reports. */
  lemma ArnToNameOfClusterArn(cluster: string)
    requires '/' !in cluster
    ensures ArnToName(Cloud.ClusterArn(cluster)) == cluster
  {
    LastSegmentOfSlashJoin("arn:aws:ecs:cluster", cluster);
    assert Cloud.ClusterArn(cluster) == "arn:aws:ecs:cluster" + "/" + cluster;
  }

  // ---------------------------------------------------------------------------
  // is_same_task_definition

  /** `adjust_container_definition(td.get('containerDefinitions'))`. */
  function AdjustedContainers(td: Json): Result<seq<Json>>
  {
    var c :- ObjGet(td, "containerDefinitions");
    Adjust(if c.Some? then c.value else JNull)
  }

  /** `Service.is_same_task_definition`: False without an origin definition,
      else whether the adjusted container definitions are the same. */
  function SameDefinition(origin: Option<Json>, td: Json): Result<bool>
  {
    if origin.None? then Ok(false)
    else
      var ad :- AdjustedContainers(origin.value);
      var bd :- AdjustedContainers(td);
      PairwiseSame(ad, bd)
  }

  /** A definition after `adjust_container_definition` has rewritten its
      container definitions in place (unchanged if that raised). */
  function AdjustedInPlace(td: Json): Json
  {
    match AdjustedContainers(td)
    case Ok(cs) => WithContainers(td, cs)
    case Err(_) => td
  }

  /** The definition a service holds once `is_same_task_definition` has
      run: adjusted in place when the origin's containers could be
      adjusted, untouched otherwise. */
  function ComparedDefinition(origin: Option<Json>, td: Json): Json
  {
    if origin.Some? && AdjustedContainers(origin.value).Ok? then AdjustedInPlace(td) else td
  }

  lemma AdjustedContainersOfAdjusted(td: Json)
    requires AdjustedContainers(td).Ok?
    ensures AdjustedContainers(AdjustedInPlace(td)) == AdjustedContainers(td)
  {
    var cs := AdjustedContainers(td).value;
    AdjustIdempotent(GetOrNull(td.fields, "containerDefinitions"));
    assert Get(WithContainers(td, cs).fields, "containerDefinitions") == Some(JList(cs));
  }

  /** Checking again after the in-place adjustment gives the same answer: the
      write-back changes nothing that the comparison looks at. */
  lemma SameDefinitionAfterAdjusting(origin: Option<Json>, td: Json)
    requires SameDefinition(origin, td).Ok? && origin.Some?
    ensures SameDefinition(Some(AdjustedInPlace(origin.value)), AdjustedInPlace(td)) == SameDefinition(origin, td)
  {
    AdjustedContainersOfAdjusted(origin.value);
    AdjustedContainersOfAdjusted(td);
  }

  /** Two definitions that differ only in the order of their containers'
      environment entries (same-named entries keeping their relative order)
      are the same. */
  lemma SameDefinitionIgnoresEnvironmentOrder(origin: Json, td: Json, a: seq<Json>, b: seq<Json>)
    requires origin.JObj? && td.JObj?
    requires |a| == |b|
    requires forall i :: 0 <= i < |a| ==> SameUpToEnvironmentOrder(a[i], b[i]) && WellFormed(a[i])
    requires AdjustAll(a).Ok?
    ensures SameDefinition(Some(WithContainers(origin, a)), WithContainers(td, b)) == Ok(true)
  {
    EnvironmentOrderIsIgnored(a, b);
    assert Get(WithContainers(origin, a).fields, "containerDefinitions") == Some(JList(a));
    assert Get(WithContainers(td, b).fields, "containerDefinitions") == Some(JList(b));
  }

  // ---------------------------------------------------------------------------
  // DescribeService

  /** An ECS service as the cloud reports it. */
  class DescribeService {
    const description: Cloud.ServiceDescription
    const serviceName: string
    const clusterArn: string
    const clusterName: string
    const taskDefinitionArn: string
    const runningCount: int
    const desiredCount: int
    const serviceExists: bool
    var taskDefinition: Option<Json>
    var taskEnvironment: Option<ServiceEnvironment>
    var family: Option<Json>
    var status: ProcessStatus

    constructor (d: Cloud.ServiceDescription)
      ensures description == d && serviceName == d.serviceName && clusterArn == d.clusterArn
      ensures clusterName == ArnToName(d.clusterArn) && taskDefinitionArn == d.taskDefinition
      ensures runningCount == d.runningCount && desiredCount == d.desiredCount
      ensures serviceExists == (d.status == "ACTIVE")
      ensures taskDefinition.None? && taskEnvironment.None? && family.None? && status == Normal
    {
      description := d;
      serviceName := d.serviceName;
      clusterArn := d.clusterArn;
      clusterName := ArnToName(d.clusterArn);
      taskDefinitionArn := d.taskDefinition;
      runningCount := d.runningCount;
      desiredCount := d.desiredCount;
      serviceExists := d.status == "ACTIVE";
      taskDefinition := None;
      taskEnvironment := None;
      family := None;
      status := Normal;
    }

    /** `set_from_task_definition`: the definition is stored first, so it
        stays stored when reading its environment or `family` raises. */
    method SetFromTaskDefinition(td: Json) returns (r: Outcome)
      modifies this
      ensures taskDefinition == Some(td) && status == old(status)
      ensures ServiceEnvironmentOf(td).Err? ==>
        r == Fail(ServiceEnvironmentOf(td).error) && taskEnvironment == old(taskEnvironment) && family == old(family)
      ensures ServiceEnvironmentOf(td).Ok? ==>
        && taskEnvironment == Some(ServiceEnvironmentOf(td).value)
        && (Index(td, "family").Ok? ==> r == Pass && family == Some(Index(td, "family").value))
        && (Index(td, "family").Err? ==> r == Fail(Index(td, "family").error) && family == old(family))
    {
      taskDefinition := Some(td);
      var env := LoadServiceEnvironment(td);
      if env.Err? { return Fail(env.error); }
      taskEnvironment := Some(env.value);
      var f := Index(td, "family");
      if f.Err? { return Fail(f.error); }
      family := Some(f.value);
      r := Pass;
    }
  }

  /** `fetch_aws_service`: every cluster's listed services, described. */
  method FetchAwsService(clusters: seq<string>, cloud: Cloud.Cloud) returns (r: Result<seq<DescribeService>>)
    modifies cloud
    ensures cloud.state == old(cloud.state)
    ensures r.Err? <==> !Cloud.Clear(old(cloud.faults), 2 * |clusters|)
    ensures r.Ok? ==> cloud.log == old(cloud.log) + ListingCalls(cloud.state, clusters)
    ensures r.Ok? ==> cloud.faults == Cloud.Drop(old(cloud.faults), 2 * |clusters|)
    ensures r.Ok? ==> |r.value| == |Listed(cloud.state, clusters)|
    ensures r.Ok? ==> forall i :: 0 <= i < |r.value| ==>
      fresh(r.value[i]) && Described(r.value[i], Listed(cloud.state, clusters)[i])
  {
    ghost var script := cloud.faults;
    var found: seq<Cloud.ServiceDescription> := [];
    var i := 0;
    while i < |clusters|
      invariant 0 <= i <= |clusters|
      invariant cloud.state == old(cloud.state)
      invariant found == Listed(cloud.state, clusters[..i])
      invariant Cloud.Clear(script, 2 * i) && cloud.faults == Cloud.Drop(script, 2 * i)
      invariant cloud.log == old(cloud.log) + ListingCalls(cloud.state, clusters[..i])
    {
      var described := ListCluster(clusters[i], cloud, script, 2 * i);
      if described.Err? {
        Cloud.ClearShorter(script, 2 * i + 2, 2 * |clusters|);
        return Err(described.error);
      }
      ListedAppend(cloud.state, clusters[..i], clusters[i]);
      ListingCallsAppend(cloud.state, clusters[..i], clusters[i]);
      TakeStep(clusters, i);
      found := found + described.value;
      i := i + 1;
    }
    TakeAll(clusters);
    var out := DescribeEach(found);
    r := Ok(out);
  }

  /** One cluster of `fetch_aws_service`: its services are listed, then
      described; the two calls are the next two of the fault script. */
  method ListCluster(cluster: string, cloud: Cloud.Cloud, ghost script: seq<Option<Fault>>, ghost n: nat)
    returns (r: Result<seq<Cloud.ServiceDescription>>)
    requires Cloud.Clear(script, n) && cloud.faults == Cloud.Drop(script, n)
    modifies cloud
    ensures cloud.state == old(cloud.state)
    ensures r.Err? <==> !Cloud.Clear(script, n + 2)
    ensures r.Ok? ==>
      && cloud.faults == Cloud.Drop(script, n + 2)
      && cloud.log == old(cloud.log)
        + [Cloud.Call.ListServices(cluster), Cloud.Call.DescribeServices(cluster, Cloud.ListedNames(cloud.state.listing, cluster))]
      && r.value == Cloud.Descriptions(cloud.state.services, cluster, Cloud.ListedNames(cloud.state.listing, cluster))
  {
    Cloud.DropStep(script, n);
    var names := cloud.ListServices(cluster);
    if names.Err? {
      Cloud.ClearShorter(script, n + 1, n + 2);
      return Err(names.error);
    }
    Cloud.DropStep(script, n + 1);
    r := cloud.DescribeServices(cluster, names.value);
  }

  lemma DescribedAppend(out: seq<DescribeService>, found: seq<Cloud.ServiceDescription>, d: DescribeService, j: nat)
    requires j < |found| && |out| == j && Described(d, found[j])
    requires forall k :: 0 <= k < j ==> Described(out[k], found[k])
    ensures forall k :: 0 <= k <= j ==> Described((out + [d])[k], found[k])
  {
  }

  /** A `DescribeService` constructed from this description. */
  predicate Described(x: DescribeService, d: Cloud.ServiceDescription)
  {
    x.description == d
  }

  /** The second loop of `fetch_aws_service`: a `DescribeService` per
      description, in order. */
  method DescribeEach(found: seq<Cloud.ServiceDescription>) returns (out: seq<DescribeService>)
    ensures |out| == |found|
    ensures forall k :: 0 <= k < |found| ==> fresh(out[k]) && Described(out[k], found[k])
  {
    out := [];
    var j := 0;
    while j < |found|
      invariant 0 <= j <= |found| && |out| == j
      invariant forall k :: 0 <= k < j ==> fresh(out[k]) && Described(out[k], found[k])
    {
      var d := new DescribeService(found[j]);
      assert Described(d, found[j]);
      DescribedAppend(out, found, d, j);
      out := out + [d];
      j := j + 1;
    }
  }

  /** What `list_services` and `describe_services` report for each cluster
      in turn. */
  function Listed(s: Cloud.CloudState, clusters: seq<string>): seq<Cloud.ServiceDescription>
  {
    if clusters == [] then []
    else
      var c := clusters[|clusters| - 1];
      Listed(s, clusters[..|clusters| - 1]) + Cloud.Descriptions(s.services, c, Cloud.ListedNames(s.listing, c))
  }

  /** The calls `fetch_aws_service` makes: for each cluster in turn, the
      listing and then the description of what it lists. */
  function ListingCalls(s: Cloud.CloudState, clusters: seq<string>): seq<Cloud.Call>
  {
    if clusters == [] then []
    else
      var c := clusters[|clusters| - 1];
      ListingCalls(s, clusters[..|clusters| - 1])
        + [Cloud.Call.ListServices(c), Cloud.Call.DescribeServices(c, Cloud.ListedNames(s.listing, c))]
  }

  lemma ListingCallsAppend(s: Cloud.CloudState, clusters: seq<string>, c: string)
    ensures ListingCalls(s, clusters + [c])
      == ListingCalls(s, clusters) + [Cloud.Call.ListServices(c), Cloud.Call.DescribeServices(c, Cloud.ListedNames(s.listing, c))]
  {
    assert (clusters + [c])[..|clusters|] == clusters;
  }

  lemma ListedAppend(s: Cloud.CloudState, clusters: seq<string>, c: string)
    ensures Listed(s, clusters + [c]) == Listed(s, clusters) + Cloud.Descriptions(s.services, c, Cloud.ListedNames(s.listing, c))
  {
    assert (clusters + [c])[..|clusters|] == clusters;
  }

  // ---------------------------------------------------------------------------
  // Service

  /** What the configuration builder hands to the `Service` constructor. */
  datatype ServiceSpec = ServiceSpec(
    taskDefinition: Json, stopBeforeDeploy: bool, primaryPlacement: bool,
    placementStrategy: Json, placementConstraints: Json, loadBalancers: Json,
    networkConfiguration: Json, serviceRegistries: Json)

  /** The task environment and family the constructor reads; `family +
      '-service'` needs a string family. */
  function ServiceIdentity(td: Json): (r: Result<(ServiceEnvironment, string)>)
    ensures ServiceEnvironmentOf(td).Err? ==> r == Err(ServiceEnvironmentOf(td).error)
    ensures ServiceEnvironmentOf(td).Ok? && td.JObj? && Get(td.fields, "family").None? ==> r == Err(KeyError("family"))
    ensures ServiceEnvironmentOf(td).Ok? && td.JObj? && Get(td.fields, "family").Some? && !Get(td.fields, "family").value.JStr? ==>
      r.Err? && r.error.TypeError?
    ensures r.Ok? <==> ServiceEnvironmentOf(td).Ok? && td.JObj? && Get(td.fields, "family").Some? && Get(td.fields, "family").value.JStr?
    ensures r.Ok? ==> r.value.0 == ServiceEnvironmentOf(td).value && Get(td.fields, "family") == Some(JStr(r.value.1))
  {
    IdentityOf(ServiceEnvironmentOf(td), Index(td, "family"))
  }

  /** The task environment is read first, then the family. */
  function IdentityOf<E>(env: Result<E>, family: Result<Json>): (res: Result<(E, string)>)
    ensures env.Err? ==> res == Err(env.error)
    ensures res.Ok? ==> env == Ok(res.value.0) && family == Ok(JStr(res.value.1))
    ensures env.Ok? && family.Ok? && family.value.JStr? ==> res.Ok?
  {
    var e :- env;
    var f :- family;
    if f.JStr? then Ok((e, f.s)) else Err(TypeError("can only concatenate str"))
  }

  /** A service to deploy: desired state and what is known of its origin. */
  class Service {
    const taskEnvironment: ServiceEnvironment
    const family: string
    const serviceName: string
    const stopBeforeDeploy: bool
    const isPrimaryPlacement: bool
    const placementStrategy: Json
    const placementConstraints: Json
    const loadBalancers: Json
    const networkConfiguration: Json
    const serviceRegistries: Json
    var taskDefinition: Json
    var desiredCount: Option<int>
    var originTaskDefinitionArn: Option<string>
    var originTaskDefinition: Option<Json>
    var originDesiredCount: Option<int>
    var taskDefinitionArn: Option<string>
    var originServiceExists: bool
    var runningCount: Option<int>
    var status: ProcessStatus

    constructor (spec: ServiceSpec, env: ServiceEnvironment, fam: string)
      ensures taskDefinition == spec.taskDefinition && taskEnvironment == env && family == fam
      ensures serviceName == fam + "-service" && desiredCount == Some(env.desiredCount)
      ensures stopBeforeDeploy == spec.stopBeforeDeploy && isPrimaryPlacement == spec.primaryPlacement
      ensures placementStrategy == spec.placementStrategy && placementConstraints == spec.placementConstraints
      ensures loadBalancers == spec.loadBalancers && networkConfiguration == spec.networkConfiguration
      ensures serviceRegistries == spec.serviceRegistries
      ensures NoOrigin() && status == Normal
    {
      taskDefinition := spec.taskDefinition;
      taskEnvironment := env;
      family := fam;
      serviceName := fam + "-service";
      desiredCount := Some(env.desiredCount);
      stopBeforeDeploy := spec.stopBeforeDeploy;
      placementStrategy := spec.placementStrategy;
      placementConstraints := spec.placementConstraints;
      isPrimaryPlacement := spec.primaryPlacement;
      loadBalancers := spec.loadBalancers;
      networkConfiguration := spec.networkConfiguration;
      serviceRegistries := spec.serviceRegistries;
      originTaskDefinitionArn := None;
      originTaskDefinition := None;
      originDesiredCount := None;
      taskDefinitionArn := None;
      originServiceExists := false;
      runningCount := Some(0);
      status := Normal;
    }

    /** A new service knows nothing of what is deployed. */
    predicate NoOrigin()
      reads this
    {
      originTaskDefinitionArn.None? && originTaskDefinition.None? && originDesiredCount.None?
      && taskDefinitionArn.None? && !originServiceExists && runningCount == Some(0)
    }

    /** `Service(...)`: reading the task environment or the family can raise. */
    static method Create(spec: ServiceSpec) returns (r: Result<Service>)
      ensures r.Err? <==> ServiceIdentity(spec.taskDefinition).Err?
      ensures r.Err? ==> r.error == ServiceIdentity(spec.taskDefinition).error
      ensures r.Ok? ==> fresh(r.value)
      ensures r.Ok? ==>
        var id := ServiceIdentity(spec.taskDefinition).value;
        && r.value.taskEnvironment == id.0 && r.value.family == id.1
        && r.value.serviceName == id.1 + "-service"
        && r.value.taskDefinition == spec.taskDefinition
        && r.value.stopBeforeDeploy == spec.stopBeforeDeploy
        && r.value.isPrimaryPlacement == spec.primaryPlacement
        && r.value.placementStrategy == spec.placementStrategy && r.value.placementConstraints == spec.placementConstraints
        && r.value.loadBalancers == spec.loadBalancers && r.value.networkConfiguration == spec.networkConfiguration
        && r.value.serviceRegistries == spec.serviceRegistries
        && r.value.desiredCount == Some(id.0.desiredCount)
        && r.value.NoOrigin() && r.value.status == Normal
    {
      var env := LoadServiceEnvironment(spec.taskDefinition);
      if env.Err? { return Err(env.error); }
      var family := Index(spec.taskDefinition, "family");
      if family.Err? { return Err(family.error); }
      if !family.value.JStr? { return Err(TypeError("can only concatenate str")); }
      var s := new Service(spec, env.value, family.value.s);
      r := Ok(s);
    }

    /** `set_from_describe_service`: the origin is what is deployed. */
    method SetFromDescribeService(d: DescribeService)
      modifies this
      ensures originServiceExists == d.serviceExists && originTaskDefinition == d.taskDefinition
      ensures originTaskDefinitionArn == Some(d.taskDefinitionArn) && originDesiredCount == Some(d.desiredCount)
      ensures runningCount == Some(d.runningCount) && desiredCount == Some(d.desiredCount)
      ensures taskDefinition == old(taskDefinition) && taskDefinitionArn == old(taskDefinitionArn)
      ensures status == old(status)
    {
      originServiceExists := d.serviceExists;
      originTaskDefinition := d.taskDefinition;
      originTaskDefinitionArn := Some(d.taskDefinitionArn);
      originDesiredCount := Some(d.desiredCount);
      runningCount := Some(d.runningCount);
      desiredCount := Some(d.desiredCount);
    }

    /** `set_task_definition_arn`: `task_definition.get('taskDefinitionArn')`. */
    method SetTaskDefinitionArn(registered: Json) returns (r: Outcome)
      modifies this
      ensures r.Pass? <==> registered.JObj?
      ensures r.Pass? ==> taskDefinitionArn == ArnOf(Get(registered.fields, "taskDefinitionArn"))
      ensures r.Fail? ==> taskDefinitionArn == old(taskDefinitionArn)
      ensures taskDefinition == old(taskDefinition) && desiredCount == old(desiredCount)
      ensures originTaskDefinitionArn == old(originTaskDefinitionArn) && originTaskDefinition == old(originTaskDefinition)
      ensures originDesiredCount == old(originDesiredCount) && runningCount == old(runningCount)
      ensures originServiceExists == old(originServiceExists) && status == old(status)
    {
      if !registered.JObj? { return Fail(AttributeError("get")); }
      taskDefinitionArn := ArnOf(Get(registered.fields, "taskDefinitionArn"));
      r := Pass;
    }

    /** `update_run_count`: counts from the reply; the origin count is taken
        from the running count only for a stop-before-deploy that knew none,
        and from the new desired count after a create. */
    method UpdateRunCount(reply: Cloud.ServiceReply, isStopBeforeDeploy: bool, isCreateService: bool)
      modifies this
      ensures runningCount == reply.runningCount && desiredCount == reply.desiredCount
      ensures originDesiredCount ==
        if isCreateService then reply.desiredCount
        else if isStopBeforeDeploy && old(originDesiredCount).None? then reply.runningCount
        else old(originDesiredCount)
      ensures taskDefinition == old(taskDefinition) && taskDefinitionArn == old(taskDefinitionArn)
      ensures originTaskDefinitionArn == old(originTaskDefinitionArn) && originTaskDefinition == old(originTaskDefinition)
      ensures originServiceExists == old(originServiceExists) && status == old(status)
    {
      runningCount := reply.runningCount;
      desiredCount := reply.desiredCount;
      if isStopBeforeDeploy && originDesiredCount.None? {
        originDesiredCount := reply.runningCount;
      }
      if isCreateService {
        originDesiredCount := desiredCount;
      }
    }

    /** `is_same_task_definition`: adjusting rewrites both definitions'
        container definitions in place, the origin's first. */
    method IsSameTaskDefinition() returns (r: Result<bool>)
      modifies this
      ensures r == SameDefinition(old(originTaskDefinition), old(taskDefinition))
      ensures old(originTaskDefinition).None? ==> originTaskDefinition == old(originTaskDefinition) && taskDefinition == old(taskDefinition)
      ensures old(originTaskDefinition).Some? ==>
        && originTaskDefinition == Some(AdjustedInPlace(old(originTaskDefinition).value))
        && taskDefinition == (if AdjustedContainers(old(originTaskDefinition).value).Ok?
                              then AdjustedInPlace(old(taskDefinition)) else old(taskDefinition))
      ensures desiredCount == old(desiredCount) && taskDefinitionArn == old(taskDefinitionArn)
      ensures originTaskDefinitionArn == old(originTaskDefinitionArn) && originDesiredCount == old(originDesiredCount)
      ensures runningCount == old(runningCount) && originServiceExists == old(originServiceExists)
      ensures status == old(status)
    {
      if originTaskDefinition.None? { return Ok(false); }
      var origin := originTaskDefinition.value;
      var ad := AdjustedContainers(origin);
      if ad.Err? { return Err(ad.error); }
      originTaskDefinition := Some(WithContainers(origin, ad.value));
      var bd := AdjustedContainers(taskDefinition);
      if bd.Err? { return Err(bd.error); }
      taskDefinition := WithContainers(taskDefinition, bd.value);
      r := IsSameContainerDefinition(ad.value, bd.value);
    }

    /** `compare_container_definition`: an unchanged definition reuses the
        origin's ARN; a changed one leaves the ARN to the registration. */
    method CompareContainerDefinition() returns (r: Result<bool>)
      modifies this
      ensures r == SameDefinition(old(originTaskDefinition), old(taskDefinition))
      ensures r == Ok(true) ==> taskDefinitionArn == originTaskDefinitionArn
      ensures r != Ok(true) ==> taskDefinitionArn == old(taskDefinitionArn)
      ensures old(originTaskDefinition).Some? ==> originTaskDefinition == Some(AdjustedInPlace(old(originTaskDefinition).value))
      ensures originTaskDefinitionArn == old(originTaskDefinitionArn) && originDesiredCount == old(originDesiredCount)
      ensures desiredCount == old(desiredCount) && runningCount == old(runningCount)
      ensures originServiceExists == old(originServiceExists) && status == old(status)
    {
      r := IsSameTaskDefinition();
      if r == Ok(true) {
        taskDefinitionArn := originTaskDefinitionArn;
      }
    }
  }

  /** A registered ARN as the source stores it; a non-string is no ARN. */
  function ArnOf(v: Option<Json>): Option<string>
  {
    if v.Some? && v.value.JStr? then Some(v.value.s) else None
  }

  // ---------------------------------------------------------------------------
  // get_deploy_service_list

  /** A filter set to None lets everything through; a set one must equal the
      target's group as Python's `==` compares a loaded value with a string. */
  predicate GroupMatches(group: Json, filter: Option<string>)
  {
    filter.None? || group == JStr(filter.value)
  }

  /** Python's `==` between a loaded value and a string holds only for that
      same string. */
  lemma PyEqString(j: Json, s: string)
    ensures PyEq(j, JStr(s)) <==> j == JStr(s)
  {
  }

  lemma SelectOne(x: Service, g: Option<string>, t: Option<string>)
    ensures SelectServices([x], g, t) == if ServiceSelected(x, g, t) then [x] else []
  {
    assert [x][1..] == [];
  }

  predicate ServiceSelected(s: Service, serviceGroup: Option<string>, templateGroup: Option<string>)
  {
    GroupMatches(s.taskEnvironment.serviceGroup, serviceGroup) && GroupMatches(s.taskEnvironment.templateGroup, templateGroup)
  }

  /** The services both filters keep, in their original order. */
  function SelectServices(services: seq<Service>, serviceGroup: Option<string>, templateGroup: Option<string>): seq<Service>
  {
    if services == [] then []
    else
      var head := if ServiceSelected(services[0], serviceGroup, templateGroup) then [services[0]] else [];
      head + SelectServices(services[1..], serviceGroup, templateGroup)
  }

  /** A service is kept exactly when it is listed and both filters admit it. */
  lemma {:induction false} SelectServicesMembers(services: seq<Service>, g: Option<string>, t: Option<string>, s: Service)
    ensures s in SelectServices(services, g, t) <==> s in services && ServiceSelected(s, g, t)
  {
    if services != [] {
      SelectServicesMembers(services[1..], g, t, s);
    }
  }

  /** Selecting from a concatenation concatenates the selections: the
      relative order of the services is kept. */
  lemma {:induction false} SelectServicesAppend(a: seq<Service>, b: seq<Service>, g: Option<string>, t: Option<string>)
    ensures SelectServices(a + b, g, t) == SelectServices(a, g, t) + SelectServices(b, g, t)
  {
    if a != [] {
      ConsAppend(a, b);
      SelectServicesAppend(a[1..], b, g, t);
      var h := if ServiceSelected(a[0], g, t) then [a[0]] else [];
      assert SelectServices(a + b, g, t) == h + SelectServices(a[1..] + b, g, t);
      assert h + (SelectServices(a[1..], g, t) + SelectServices(b, g, t)) == (h + SelectServices(a[1..], g, t)) + SelectServices(b, g, t);
    } else {
      assert a + b == b;
    }
  }

  /** With no filter set, every service is deployed. */
  lemma {:induction false} SelectServicesUnfiltered(services: seq<Service>)
    ensures SelectServices(services, None, None) == services
  {
    if services != [] {
      SelectServicesUnfiltered(services[1..]);
    }
  }

  /** `get_deploy_service_list`: a pass for the service group, then one for
      the template group. */
  method GetDeployServiceList(services: seq<Service>, serviceGroup: Option<string>, templateGroup: Option<string>)
    returns (r: seq<Service>)
    ensures r == SelectServices(services, serviceGroup, templateGroup)
  {
    var byService := services;
    if serviceGroup.Some? {
      byService := [];
      var i := 0;
      while i < |services|
        invariant 0 <= i <= |services|
        invariant byService == SelectServices(services[..i], serviceGroup, None)
      {
        SelectServicesAppend(services[..i], [services[i]], serviceGroup, None);
        TakeStep(services, i);
        SelectOne(services[i], serviceGroup, None);
        if services[i].taskEnvironment.serviceGroup == JStr(serviceGroup.value) {
          byService := byService + [services[i]];
        }
        i := i + 1;
      }
      TakeAll(services);
    } else {
      SelectServicesUnfiltered(services);
    }
    r := byService;
    if templateGroup.Some? {
      r := [];
      var j := 0;
      while j < |byService|
        invariant 0 <= j <= |byService|
        invariant r == SelectServices(byService[..j], None, templateGroup)
      {
        SelectServicesAppend(byService[..j], [byService[j]], None, templateGroup);
        TakeStep(byService, j);
        SelectOne(byService[j], None, templateGroup);
        if byService[j].taskEnvironment.templateGroup == JStr(templateGroup.value) {
          r := r + [byService[j]];
        }
        j := j + 1;
      }
      TakeAll(byService);
    } else {
      SelectServicesUnfiltered(byService);
    }
    SelectTwice(services, serviceGroup, templateGroup);
  }

  /** Filtering by the service group and then by the template group is
      filtering by both. */
  lemma {:induction false} SelectTwice(services: seq<Service>, g: Option<string>, t: Option<string>)
    ensures SelectServices(SelectServices(services, g, None), None, t) == SelectServices(services, g, t)
  {
    if services != [] {
      SelectTwice(services[1..], g, t);
      SelectServicesAppend(if ServiceSelected(services[0], g, None) then [services[0]] else [],
        SelectServices(services[1..], g, None), None, t);
    }
  }
}
