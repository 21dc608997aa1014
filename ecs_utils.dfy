/** The `EcsUtils` helpers of ecs/classes.py: the bounded-retry loops around
    registering a task definition, waiting for a service to become stable
    and deregistering a task definition, and the older deploy-target filter
    `Service._deploy_service_list`.

    A retry loop is specified by `Attempts`: how many calls it makes on a
    given fault script before it returns or gives up. The fault a call meets
    is the script's next entry or, when the script injects nothing, the
    fault the cloud's state itself produces (`fallback`), which does not
    change between failed attempts since a failed call leaves the state
    alone. */
module EcsUtils {
  import opened Base
  import opened Json
  import opened Services
  import Cloud

  /** The fault the next call raises. */
  function Next(faults: seq<Option<Fault>>, fallback: Option<Fault>): Option<Fault>
  {
    if Cloud.Head(faults).Some? then Cloud.Head(faults) else fallback
  }

  /** The script left after `n` calls. */
  function Drop(faults: seq<Option<Fault>>, n: nat): seq<Option<Fault>>
  {
    if n == 0 then faults else Drop(Cloud.Tail(faults), n - 1)
  }

  lemma {:induction false} DropStep(faults: seq<Option<Fault>>, n: nat)
    ensures Drop(faults, n + 1) == Cloud.Tail(Drop(faults, n))
  {
    if n > 0 {
      DropStep(Cloud.Tail(faults), n - 1);
    }
  }

  /** Within the script, dropping `n` calls is slicing. */
  lemma {:induction false} DropSlice(faults: seq<Option<Fault>>, n: nat)
    requires n <= |faults|
    ensures Drop(faults, n) == faults[n..]
  {
    if n > 0 {
      assert Cloud.Tail(faults) == faults[1..];
      DropSlice(faults[1..], n - 1);
      assert faults[1..][n - 1..] == faults[n..];
    }
  }

  /** The calls a loop makes that retries the fault `retried` at most
      `retries` times: one more while the call failed with `retried` and
      retries are left. */
  function Attempts(faults: seq<Option<Fault>>, fallback: Option<Fault>, retried: Fault, retries: nat): (n: nat)
    ensures 1 <= n <= retries + 1
    ensures Next(faults, fallback) != Some(retried) ==> n == 1
    decreases retries
  {
    if Next(faults, fallback) == Some(retried) && retries > 0
    then 1 + Attempts(Cloud.Tail(faults), fallback, retried, retries - 1)
    else 1
  }

  /** After `k` retried calls the rest of the loop makes the rest of the
      calls. */
  lemma {:induction false} AttemptsAfter(faults: seq<Option<Fault>>, fallback: Option<Fault>, retried: Fault, retries: nat, k: nat)
    requires k < retries
    requires Attempts(faults, fallback, retried, retries) == k + Attempts(Drop(faults, k), fallback, retried, retries - k)
    requires Next(Drop(faults, k), fallback) == Some(retried)
    ensures Attempts(faults, fallback, retried, retries) == k + 1 + Attempts(Drop(faults, k + 1), fallback, retried, retries - (k + 1))
  {
    DropStep(faults, k);
  }

  /** A loop that stops after `k` retried calls makes `k + 1` calls. */
  lemma AttemptsStop(faults: seq<Option<Fault>>, fallback: Option<Fault>, retried: Fault, retries: nat, k: nat)
    requires k <= retries
    requires Attempts(faults, fallback, retried, retries) == k + Attempts(Drop(faults, k), fallback, retried, retries - k)
    requires Next(Drop(faults, k), fallback) != Some(retried) || k == retries
    ensures Attempts(faults, fallback, retried, retries) == k + 1
  {
  }

  /** Every call but the last failed with the retried fault ... */
  lemma {:induction false} AttemptsRetriedBefore(faults: seq<Option<Fault>>, fallback: Option<Fault>, retried: Fault, retries: nat, k: nat)
    requires k + 1 < Attempts(faults, fallback, retried, retries)
    ensures Next(Drop(faults, k), fallback) == Some(retried)
  {
    if k > 0 {
      AttemptsRetriedBefore(Cloud.Tail(faults), fallback, retried, retries - 1, k - 1);
    }
  }

  /** ... and the last one did not, or no retry was left. */
  lemma {:induction false} AttemptsLast(faults: seq<Option<Fault>>, fallback: Option<Fault>, retried: Fault, retries: nat)
    ensures var n := Attempts(faults, fallback, retried, retries);
      Next(Drop(faults, n - 1), fallback) != Some(retried) || n == retries + 1
  {
    if Next(faults, fallback) == Some(retried) && retries > 0 {
      AttemptsLast(Cloud.Tail(faults), fallback, retried, retries - 1);
    }
  }

  /** Those two facts determine the number of calls. */
  lemma {:induction false} AttemptsUnique(faults: seq<Option<Fault>>, fallback: Option<Fault>, retried: Fault, retries: nat, m: nat)
    requires 1 <= m <= retries + 1
    requires forall k :: 0 <= k < m - 1 ==> Next(Drop(faults, k), fallback) == Some(retried)
    requires Next(Drop(faults, m - 1), fallback) != Some(retried) || m == retries + 1
    ensures m == Attempts(faults, fallback, retried, retries)
  {
    if m > 1 {
      assert Next(Drop(faults, 0), fallback) == Some(retried);
      forall k | 0 <= k < m - 2
        ensures Next(Drop(Cloud.Tail(faults), k), fallback) == Some(retried)
      {
        assert Drop(faults, k + 1) == Drop(Cloud.Tail(faults), k);
      }
      assert Drop(faults, m - 1) == Drop(Cloud.Tail(faults), m - 2);
      AttemptsUnique(Cloud.Tail(faults), fallback, retried, retries - 1, m - 1);
    }
  }

  /** A call that fails with any other fault, or succeeds, ends the loop at
      once. */
  lemma FirstOtherOutcomeStops(faults: seq<Option<Fault>>, fallback: Option<Fault>, retried: Fault, retries: nat)
    requires Cloud.Head(faults) != Some(retried)
    requires Cloud.Head(faults).Some?
    ensures Attempts(faults, fallback, retried, retries) == 1
    ensures Next(Drop(faults, 0), fallback) == Cloud.Head(faults)
  {
  }

  /** A script that keeps raising the retried fault exhausts the retries:
      the loop makes `retries + 1` calls and the last one raises. */
  lemma GivesUp(faults: seq<Option<Fault>>, fallback: Option<Fault>, retried: Fault, retries: nat)
    requires retries + 1 <= |faults|
    requires forall k :: 0 <= k <= retries ==> faults[k] == Some(retried)
    ensures Attempts(faults, fallback, retried, retries) == retries + 1
    ensures Next(Drop(faults, retries), fallback) == Some(retried)
  {
    forall k | 0 <= k < retries + 1
      ensures Next(Drop(faults, k), fallback) == Some(retried)
    {
      DropSlice(faults, k);
    }
    AttemptsUnique(faults, fallback, retried, retries, retries + 1);
  }

  /** `k` copies of the same call. */
  function Repeat(call: Cloud.Call, k: nat): (r: seq<Cloud.Call>)
    ensures |r| == k
  {
    if k == 0 then [] else Repeat(call, k - 1) + [call]
  }

  /** Every entry of `Repeat` is the call. */
  lemma {:induction false} RepeatAll(call: Cloud.Call, k: nat)
    ensures forall i :: 0 <= i < k ==> Repeat(call, k)[i] == call
  {
    if k > 0 {
      RepeatAll(call, k - 1);
    }
  }

  /** One more call appended to a log of `k` copies. */
  lemma LogStep(log: seq<Cloud.Call>, call: Cloud.Call, k: nat)
    ensures log + Repeat(call, k) + [call] == log + Repeat(call, k + 1)
  {
    assert log + Repeat(call, k) + [call] == log + (Repeat(call, k) + [call]);
  }

  /** The concrete ceilings: throttled registration gives up after 8 calls,
      throttled deregistration after 5, stable waiting after 4 timeouts. */
  const RegisterRetries: nat := 7
  const DeregisterRetries: nat := 4
  const WaitRetries: nat := 3

  lemma RegisterCeiling(faults: seq<Option<Fault>>)
    requires |faults| >= 8 && forall k :: 0 <= k < 8 ==> faults[k] == Some(Throttling)
    ensures Attempts(faults, None, Throttling, RegisterRetries) == 8
    ensures Next(Drop(faults, 7), None) == Some(Throttling)
  {
    GivesUp(faults, None, Throttling, RegisterRetries);
  }

  /** What the last registration call leaves: its fault and the state
      untouched, or the new revision's `taskDefinitionArn` and the state
      with that revision stored. */
  function Registration(last: Option<Fault>, s: Cloud.CloudState, definition: Json): (Result<Option<Json>>, Cloud.CloudState)
  {
    if last.Some? then (Err(CloudFailure(last.value)), s)
    else (ObjGet(Cloud.Registered(definition, Cloud.NewArn(s, definition)), "taskDefinitionArn"), Cloud.AfterRegistering(s, definition))
  }

  /** `register_task_definition`: retried on throttling, re-raised on any
      other fault; the result is the new revision's `taskDefinitionArn`. */
  method RegisterTaskDefinition(cloud: Cloud.Cloud, definition: Json) returns (r: Result<Option<Json>>)
    modifies cloud
    ensures var n := Attempts(old(cloud.faults), None, Throttling, RegisterRetries);
      var last := Next(Drop(old(cloud.faults), n - 1), None);
      && cloud.log == old(cloud.log) + Repeat(Cloud.Call.RegisterTaskDefinition(definition), n)
      && cloud.faults == Drop(old(cloud.faults), n)
      && (r, cloud.state) == Registration(last, old(cloud.state), definition)
  {
    ghost var script := cloud.faults;
    var retryCount := 0;
    while true
      invariant 0 <= retryCount <= RegisterRetries
      invariant cloud.log == old(cloud.log) + Repeat(Cloud.Call.RegisterTaskDefinition(definition), retryCount)
      invariant cloud.faults == Drop(script, retryCount) && cloud.state == old(cloud.state)
      invariant Attempts(script, None, Throttling, RegisterRetries)
        == retryCount + Attempts(Drop(script, retryCount), None, Throttling, RegisterRetries - retryCount)
      decreases RegisterRetries - retryCount
    {
      LogStep(old(cloud.log), Cloud.Call.RegisterTaskDefinition(definition), retryCount);
      DropStep(script, retryCount);
      var outcome, retry := RegisterAttempt(cloud, definition, retryCount);
      if !retry {
        AttemptsStop(script, None, Throttling, RegisterRetries, retryCount);
        return outcome;
      }
      AttemptsAfter(script, None, Throttling, RegisterRetries, retryCount);
      retryCount := retryCount + 1;
    }
  }

  /** One pass of that loop: a throttled call is retried while `retryCount`
      is at most 6; any other outcome ends the loop. */
  method RegisterAttempt(cloud: Cloud.Cloud, definition: Json, retryCount: nat) returns (r: Result<Option<Json>>, retry: bool)
    modifies cloud
    ensures cloud.faults == Cloud.Tail(old(cloud.faults))
    ensures cloud.log == old(cloud.log) + [Cloud.Call.RegisterTaskDefinition(definition)]
    ensures retry <==> Next(old(cloud.faults), None) == Some(Throttling) && retryCount <= 6
    ensures retry ==> cloud.state == old(cloud.state)
    ensures !retry ==> (r, cloud.state) == Registration(Next(old(cloud.faults), None), old(cloud.state), definition)
  {
    var response := cloud.RegisterTaskDefinition(definition);
    if response.Err? {
      if response.error == CloudFailure(Throttling) {
        if retryCount > 6 {
          return Err(response.error), false;
        }
        return Err(response.error), true;
      } else {
        return Err(response.error), false;
      }
    }
    return ObjGet(response.value, "taskDefinitionArn"), false;
  }

  /** A successful registration of a definition object returns the ARN of
      the revision it created. */
  lemma RegisteredDefinitionArn(s: Cloud.CloudState, definition: Json)
    requires definition.JObj?
    ensures ObjGet(Cloud.Registered(definition, Cloud.NewArn(s, definition)), "taskDefinitionArn")
      == Ok(Some(JStr(Cloud.NewArn(s, definition))))
    ensures Cloud.AfterRegistering(s, definition).definitions[Cloud.NewArn(s, definition)]
      == Cloud.Registered(definition, Cloud.NewArn(s, definition))
  {
    Cloud.RegisteredArn(definition, Cloud.NewArn(s, definition));
  }

  /** `deregister_task_definition`: retried on throttling, re-raised on any
      other fault. */
  method DeregisterTaskDefinition(cloud: Cloud.Cloud, arn: string) returns (r: Outcome)
    modifies cloud
    ensures var n := Attempts(old(cloud.faults), None, Throttling, DeregisterRetries);
      var last := Next(Drop(old(cloud.faults), n - 1), None);
      && cloud.log == old(cloud.log) + Repeat(Cloud.Call.DeregisterTaskDefinition(arn), n)
      && cloud.faults == Drop(old(cloud.faults), n)
      && cloud.state == old(cloud.state)
      && r == (if last.Some? then Fail(CloudFailure(last.value)) else Pass)
  {
    ghost var script := cloud.faults;
    var retryCount := 0;
    while true
      invariant 0 <= retryCount <= DeregisterRetries
      invariant cloud.log == old(cloud.log) + Repeat(Cloud.Call.DeregisterTaskDefinition(arn), retryCount)
      invariant cloud.faults == Drop(script, retryCount) && cloud.state == old(cloud.state)
      invariant Attempts(script, None, Throttling, DeregisterRetries)
        == retryCount + Attempts(Drop(script, retryCount), None, Throttling, DeregisterRetries - retryCount)
      decreases DeregisterRetries - retryCount
    {
      LogStep(old(cloud.log), Cloud.Call.DeregisterTaskDefinition(arn), retryCount);
      DropStep(script, retryCount);
      var outcome, retry := DeregisterAttempt(cloud, arn, retryCount);
      if !retry {
        AttemptsStop(script, None, Throttling, DeregisterRetries, retryCount);
        return outcome;
      }
      AttemptsAfter(script, None, Throttling, DeregisterRetries, retryCount);
      retryCount := retryCount + 1;
    }
  }

  /** One pass of that loop: a throttled call is retried while `retryCount`
      is at most 3; any other outcome ends the loop. */
  method DeregisterAttempt(cloud: Cloud.Cloud, arn: string, retryCount: nat) returns (r: Outcome, retry: bool)
    modifies cloud
    ensures cloud.faults == Cloud.Tail(old(cloud.faults)) && cloud.state == old(cloud.state)
    ensures cloud.log == old(cloud.log) + [Cloud.Call.DeregisterTaskDefinition(arn)]
    ensures retry <==> Next(old(cloud.faults), None) == Some(Throttling) && retryCount <= 3
    ensures !retry ==> r == (if Next(old(cloud.faults), None).Some? then Fail(CloudFailure(Next(old(cloud.faults), None).value)) else Pass)
  {
    var outcome := cloud.DeregisterTaskDefinition(arn);
    if outcome.Fail? {
      if outcome.error == CloudFailure(Throttling) {
        if retryCount > 3 {
          return outcome, false;
        }
        return outcome, true;
      } else {
        return outcome, false;
      }
    }
    return Pass, false;
  }

  /** What the services waiter raises by itself: a service that does not
      exist never becomes stable. */
  function WaitFallback(s: Cloud.CloudState, key: Cloud.ServiceKey): Option<Fault>
  {
    if key in s.services then None else Some(WaiterTimeout)
  }

  /** `wait_for_stable`: a `WaiterError` is retried, anything else raised;
      once stable, the service takes its running and desired counts from
      the reply. */
  method WaitForStable(cloud: Cloud.Cloud, service: Service) returns (r: Outcome)
    modifies cloud, service
    ensures var key := Cloud.ServiceKey(service.taskEnvironment.clusterName, service.serviceName);
      var n := Attempts(old(cloud.faults), WaitFallback(old(cloud.state), key), WaiterTimeout, WaitRetries);
      var last := Next(Drop(old(cloud.faults), n - 1), WaitFallback(old(cloud.state), key));
      && cloud.log == old(cloud.log) + Repeat(Cloud.Call.WaitForStable(key.cluster, key.name), n)
      && cloud.faults == Drop(old(cloud.faults), n)
      && (last.Some? ==> r == Fail(CloudFailure(last.value)) && cloud.state == old(cloud.state))
      && (last.Some? ==> service.runningCount == old(service.runningCount) && service.desiredCount == old(service.desiredCount))
      && (last.None? ==> r == Pass && key in old(cloud.state).services)
      && (last.None? ==>
            var s0 := old(cloud.state).services[key];
            && cloud.state == Stabilised(old(cloud.state), key)
            && service.runningCount == Some(s0.desiredCount) && service.desiredCount == Some(s0.desiredCount))
    ensures service.taskDefinition == old(service.taskDefinition) && service.taskDefinitionArn == old(service.taskDefinitionArn)
    ensures service.originTaskDefinitionArn == old(service.originTaskDefinitionArn)
    ensures service.originTaskDefinition == old(service.originTaskDefinition)
    ensures service.originDesiredCount == old(service.originDesiredCount)
    ensures service.originServiceExists == old(service.originServiceExists) && service.status == old(service.status)
  {
    ghost var script := cloud.faults;
    ghost var key := Cloud.ServiceKey(service.taskEnvironment.clusterName, service.serviceName);
    ghost var fallback := WaitFallback(cloud.state, key);
    var retryCount := 0;
    while true
      invariant 0 <= retryCount <= WaitRetries
      invariant cloud.log == old(cloud.log) + Repeat(Cloud.Call.WaitForStable(key.cluster, key.name), retryCount)
      invariant cloud.faults == Drop(script, retryCount) && cloud.state == old(cloud.state)
      invariant Attempts(script, fallback, WaiterTimeout, WaitRetries)
        == retryCount + Attempts(Drop(script, retryCount), fallback, WaiterTimeout, WaitRetries - retryCount)
      invariant unchanged(service)
      decreases WaitRetries - retryCount
    {
      LogStep(old(cloud.log), Cloud.Call.WaitForStable(key.cluster, key.name), retryCount);
      DropStep(script, retryCount);
      var outcome, retry := WaitAttempt(cloud, service, retryCount);
      if !retry {
        AttemptsStop(script, fallback, WaiterTimeout, WaitRetries, retryCount);
        return outcome;
      }
      AttemptsAfter(script, fallback, WaiterTimeout, WaitRetries, retryCount);
      retryCount := retryCount + 1;
    }
  }

  /** The state after a stable wait: the service runs its desired count. */
  function Stabilised(s: Cloud.CloudState, key: Cloud.ServiceKey): Cloud.CloudState
    requires key in s.services
  {
    var s0 := s.services[key];
    s.(services := s.services[key := s0.(runningCount := s0.desiredCount)])
  }

  /** One pass of that loop: a waiter timeout is retried while `retryCount`
      is at most 2; any other fault ends the loop, and so does a stable
      service, whose counts are taken from the reply. */
  method WaitAttempt(cloud: Cloud.Cloud, service: Service, retryCount: nat) returns (r: Outcome, retry: bool)
    modifies cloud, service
    ensures var key := Cloud.ServiceKey(service.taskEnvironment.clusterName, service.serviceName);
      var last := Next(old(cloud.faults), WaitFallback(old(cloud.state), key));
      && cloud.faults == Cloud.Tail(old(cloud.faults))
      && cloud.log == old(cloud.log) + [Cloud.Call.WaitForStable(key.cluster, key.name)]
      && (retry <==> last == Some(WaiterTimeout) && retryCount <= 2)
      && (last.Some? ==> cloud.state == old(cloud.state) && unchanged(service))
      && (!retry && last.Some? ==> r == Fail(CloudFailure(last.value)))
      && (last.None? ==>
            && r == Pass && key in old(cloud.state).services
            && var s0 := old(cloud.state).services[key];
            && cloud.state == Stabilised(old(cloud.state), key)
            && service.runningCount == Some(s0.desiredCount) && service.desiredCount == Some(s0.desiredCount))
    ensures service.taskDefinition == old(service.taskDefinition) && service.taskDefinitionArn == old(service.taskDefinitionArn)
    ensures service.originTaskDefinitionArn == old(service.originTaskDefinitionArn)
    ensures service.originTaskDefinition == old(service.originTaskDefinition)
    ensures service.originDesiredCount == old(service.originDesiredCount)
    ensures service.originServiceExists == old(service.originServiceExists) && service.status == old(service.status)
  {
    var reply := cloud.WaitForStable(service.taskEnvironment.clusterName, service.serviceName);
    if reply.Err? {
      if reply.error == CloudFailure(WaiterTimeout) {
        if retryCount > 2 {
          return Fail(reply.error), false;
        }
        return Fail(reply.error), true;
      } else {
        return Fail(reply.error), false;
      }
    }
    service.runningCount := reply.value.runningCount;
    service.desiredCount := reply.value.desiredCount;
    return Pass, false;
  }

  // ---------------------------------------------------------------------------
  // Service._deploy_service_list

  /** A filter applies only when it is truthy: None and "" filter nothing. */
  function ActiveFilter(filter: Option<string>): (r: Option<string>)
    ensures r.Some? <==> filter.Some? && filter.value != ""
    ensures r.Some? ==> r == filter
  {
    if filter.Some? && filter.value != "" then filter else None
  }

  /** `_deploy_service_list`: the services both truthy filters admit, in
      order; an empty selection raises. */
  function DeployServiceList(services: seq<Service>, serviceGroup: Option<string>, templateGroup: Option<string>): Result<seq<Service>>
  {
    var selected := SelectServices(services, ActiveFilter(serviceGroup), ActiveFilter(templateGroup));
    if selected == [] then Err(TargetNotFound) else Ok(selected)
  }

  /** The list raises exactly when no listed service passes both truthy
      filters, and otherwise holds exactly the services that do. */
  lemma DeployServiceListMeaning(services: seq<Service>, g: Option<string>, t: Option<string>)
    ensures DeployServiceList(services, g, t).Err? <==>
      forall s :: s in services ==> !ServiceSelected(s, ActiveFilter(g), ActiveFilter(t))
    ensures DeployServiceList(services, g, t).Err? ==> DeployServiceList(services, g, t).error == TargetNotFound
    ensures DeployServiceList(services, g, t).Ok? ==>
      forall s :: s in DeployServiceList(services, g, t).value <==> s in services && ServiceSelected(s, ActiveFilter(g), ActiveFilter(t))
  {
    var selected := SelectServices(services, ActiveFilter(g), ActiveFilter(t));
    forall s
      ensures s in selected <==> s in services && ServiceSelected(s, ActiveFilter(g), ActiveFilter(t))
    {
      SelectServicesMembers(services, ActiveFilter(g), ActiveFilter(t), s);
    }
    if selected != [] {
      SelectServicesMembers(services, ActiveFilter(g), ActiveFilter(t), selected[0]);
    }
  }

  /** Unlike `get_deploy_service_list`, an empty group string means "no
      filter", and with no filter every service is deployed (if there is
      any). */
  lemma DeployServiceListUnfiltered(services: seq<Service>, g: Option<string>, t: Option<string>)
    requires g == None || g == Some("")
    requires t == None || t == Some("")
    ensures DeployServiceList(services, g, t) == if services == [] then Err(TargetNotFound) else Ok(services)
  {
    SelectServicesUnfiltered(services);
  }
}
