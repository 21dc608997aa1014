/** The matching pass of `DeployManager._fetch_ecs_information`
    (ecs/deploy.py): each observed service, and each managed rule, of the
    run's environment and template group is matched to the first deploy
    target it describes, which takes its origin from it; an observation that
    matches no target becomes a deletion candidate.

    A target that several observations match ends with the origin of the
    last of them, so the contracts speak of objects, not of positions: the
    same target may sit at two positions of the list. */
module Matching {
  import opened Base
  import opened Json
  import opened Services
  import opened ScheduledTasks
  import Canon

  // ---------------------------------------------------------------------------
  // observed services

  /** An observed service with the task environment read from its
      definition, if that was read. */
  type Observation = (DescribeService, Option<ServiceEnvironment>)

  /** The observations as they stand. */
  function Observations(ds: seq<DescribeService>): (obs: seq<Observation>)
    reads set d | d in ds
    ensures |obs| == |ds| && forall k :: 0 <= k < |ds| ==> obs[k] == (ds[k], ds[k].taskEnvironment)
  {
    seq(|ds|, k requires 0 <= k < |ds| reads set d | d in ds => (ds[k], ds[k].taskEnvironment))
  }

  /** An observed service of the run's environment and, when the run names
      one, of its template group. */
  predicate ServiceConsidered(env: Option<ServiceEnvironment>, environment: Json, templateGroup: Option<string>)
  {
    && env.Some?
    && PyEq(environment, env.value.environment)
    && (templateGroup.None? || PyEq(JStr(templateGroup.value), env.value.templateGroup))
  }

  /** The target an observed service describes: same service name and same
      cluster. */
  predicate ServiceMatches(s: Service, d: DescribeService)
  {
    s.serviceName == d.serviceName && PyEq(s.taskEnvironment.clusterName, JStr(d.clusterName))
  }

  /** The first target an observed service describes. */
  function FirstService(services: seq<Service>, d: DescribeService): (r: Option<nat>)
    ensures r.Some? ==> r.value < |services| && ServiceMatches(services[r.value], d)
    ensures r.Some? ==> forall k :: 0 <= k < r.value ==> !ServiceMatches(services[k], d)
    ensures r.None? ==> forall k :: 0 <= k < |services| ==> !ServiceMatches(services[k], d)
  {
    if services == [] then None
    else if ServiceMatches(services[0], d) then Some(0)
    else match FirstService(services[1..], d)
      case None => None
      case Some(k) => Some(k + 1)
  }

  /** The observation assigns its origin to `s`. */
  predicate Assigns(o: Observation, services: seq<Service>, s: Service, environment: Json, templateGroup: Option<string>)
  {
    var k := FirstService(services, o.0);
    ServiceConsidered(o.1, environment, templateGroup) && k.Some? && services[k.value] == s
  }

  /** The position of the last observation that assigns its origin to `s`. */
  function LastServiceFor(obs: seq<Observation>, services: seq<Service>, s: Service,
                          environment: Json, templateGroup: Option<string>): (r: Option<nat>)
    ensures r.Some? ==> r.value < |obs|
  {
    if obs == [] then None
    else if Assigns(obs[|obs| - 1], services, s, environment, templateGroup) then Some(|obs| - 1)
    else LastServiceFor(obs[..|obs| - 1], services, s, environment, templateGroup)
  }

  /** The observation is considered and describes no target. */
  predicate Unmatched(o: Observation, services: seq<Service>, environment: Json, templateGroup: Option<string>)
  {
    ServiceConsidered(o.1, environment, templateGroup) && FirstService(services, o.0).None?
  }

  /** The considered observations that describe no target: the services to
      delete. */
  function UnmatchedServices(obs: seq<Observation>, services: seq<Service>,
                             environment: Json, templateGroup: Option<string>): seq<DescribeService>
  {
    if obs == [] then []
    else
      UnmatchedServices(obs[..|obs| - 1], services, environment, templateGroup)
        + (if Unmatched(obs[|obs| - 1], services, environment, templateGroup) then [obs[|obs| - 1].0] else [])
  }

  /** A target's origin is what this observation reports. */
  predicate OriginFrom(s: Service, d: DescribeService)
    reads s, d
  {
    && s.originServiceExists == d.serviceExists && s.originTaskDefinition == d.taskDefinition
    && s.originTaskDefinitionArn == Some(d.taskDefinitionArn) && s.originDesiredCount == Some(d.desiredCount)
    && s.runningCount == Some(d.runningCount) && s.desiredCount == Some(d.desiredCount)
  }

  /** Every unmatched observation is a considered one that describes no
      target, and every considered one that describes no target is listed. */
  lemma {:induction false} UnmatchedServicesMembers(obs: seq<Observation>, services: seq<Service>,
                                                    environment: Json, templateGroup: Option<string>, d: DescribeService)
    ensures d in UnmatchedServices(obs, services, environment, templateGroup) <==>
      (exists o :: o in obs && o.0 == d && ServiceConsidered(o.1, environment, templateGroup))
      && forall k :: 0 <= k < |services| ==> !ServiceMatches(services[k], d)
  {
    if obs != [] {
      var init := obs[..|obs| - 1];
      var last := obs[|obs| - 1];
      UnmatchedServicesMembers(init, services, environment, templateGroup, d);
      assert obs == init + [last];
      var r := FirstService(services, last.0);
      if r.Some? {
        assert ServiceMatches(services[r.value], last.0);
      }
      if d == last.0 && Unmatched(last, services, environment, templateGroup) {
        assert last in obs;
      }
    }
  }

  /** The inner loop: the first target the observation describes. */
  method FindService(services: seq<Service>, d: DescribeService) returns (k: Option<nat>)
    ensures k == FirstService(services, d)
  {
    var i := 0;
    while i < |services|
      invariant 0 <= i <= |services|
      invariant FirstService(services, d) == (match FirstService(services[i..], d) case None => None case Some(j) => Some(j + i))
    {
      assert services[i..][1..] == services[i + 1..];
      if services[i].serviceName == d.serviceName && PyEq(services[i].taskEnvironment.clusterName, JStr(d.clusterName)) {
        return Some(i);
      }
      i := i + 1;
    }
    k := None;
  }

  /** `LastServiceFor` and `UnmatchedServices` over one more observation. */
  lemma ServiceStep(obs: seq<Observation>, i: nat, services: seq<Service>, environment: Json, templateGroup: Option<string>)
    requires i < |obs|
    ensures UnmatchedServices(obs[..i + 1], services, environment, templateGroup)
      == UnmatchedServices(obs[..i], services, environment, templateGroup)
        + (if Unmatched(obs[i], services, environment, templateGroup) then [obs[i].0] else [])
    ensures forall s :: (LastServiceFor(obs[..i + 1], services, s, environment, templateGroup)
      == if Assigns(obs[i], services, s, environment, templateGroup) then Some(i)
         else LastServiceFor(obs[..i], services, s, environment, templateGroup))
  {
    assert obs[..i + 1][..i] == obs[..i];
  }

  /** One observation of the outer loop: the first target it describes
      takes its origin, and only that target changes. */
  method MatchService(o: Observation, services: seq<Service>, environment: Json, templateGroup: Option<string>)
    returns (unmatched: bool)
    modifies set s | s in services
    ensures unmatched == Unmatched(o, services, environment, templateGroup)
    ensures forall s :: s in services ==>
      if Assigns(o, services, s, environment, templateGroup)
      then OriginFrom(s, o.0) && s.taskDefinition == old(s.taskDefinition)
        && s.taskDefinitionArn == old(s.taskDefinitionArn) && s.status == old(s.status)
      else unchanged(s)
  {
    unmatched := false;
    if ServiceConsidered(o.1, environment, templateGroup) {
      var found := FindService(services, o.0);
      if found.Some? {
        services[found.value].SetFromDescribeService(o.0);
      } else {
        unmatched := true;
      }
    }
  }

  /** The observed-service half of the matching pass. An observation whose
      task environment was never read raises when its environment is
      compared. */
  /** The first n observations carry a task environment. */
  predicate HaveEnvironments(obs: seq<Observation>, n: nat)
  {
    forall k :: 0 <= k < n && k < |obs| ==> obs[k].1.Some?
  }

  /** The outer loop's step `i`, stated against the observations so far. */
  method MatchStep(obs: seq<Observation>, i: nat, services: seq<Service>, environment: Json, templateGroup: Option<string>)
    returns (unmatched: bool)
    requires i < |obs|
    modifies set s | s in services
    ensures UnmatchedServices(obs[..i + 1], services, environment, templateGroup)
      == UnmatchedServices(obs[..i], services, environment, templateGroup) + (if unmatched then [obs[i].0] else [])
    ensures forall s :: s in services ==>
      var j := LastServiceFor(obs[..i + 1], services, s, environment, templateGroup);
      if j == Some(i)
      then OriginFrom(s, obs[i].0) && s.taskDefinition == old(s.taskDefinition)
        && s.taskDefinitionArn == old(s.taskDefinitionArn) && s.status == old(s.status)
      else unchanged(s) && j == LastServiceFor(obs[..i], services, s, environment, templateGroup)
  {
    unmatched := MatchService(obs[i], services, environment, templateGroup);
    ServiceStep(obs, i, services, environment, templateGroup);
  }

  method MatchServices(ds: seq<DescribeService>, services: seq<Service>, environment: Json, templateGroup: Option<string>)
    returns (r: Result<seq<DescribeService>>)
    modifies set s | s in services
    ensures r.Err? <==> exists d :: d in ds && old(d.taskEnvironment).None?
    ensures r.Ok? ==> r.value == UnmatchedServices(old(Observations(ds)), services, environment, templateGroup)
    ensures r.Ok? ==> forall s :: s in services ==>
      var j := LastServiceFor(old(Observations(ds)), services, s, environment, templateGroup);
      && (j.None? ==> unchanged(s))
      && (j.Some? ==> OriginFrom(s, ds[j.value]))
    ensures forall s :: s in services ==>
      s.taskDefinition == old(s.taskDefinition) && s.taskDefinitionArn == old(s.taskDefinitionArn) && s.status == old(s.status)
  {
    var obs := Observations(ds);
    var n, unmatched := MatchObservedServices(obs, services, environment, templateGroup);
    if n < |obs| {
      assert ds[n] in ds;
      return Err(AttributeError("environment"));
    }
    Canon.TakeAll(obs);
    forall d | d in ds ensures old(d.taskEnvironment).Some? {
      var k :| 0 <= k < |ds| && ds[k] == d;
    }
    r := Ok(unmatched);
  }

  /** The loop of the matching, over the observations as they stand when
      it starts: it runs up to the first one without a task environment,
      or to the end. */
  method MatchObservedServices(obs: seq<Observation>, services: seq<Service>, environment: Json, templateGroup: Option<string>)
    returns (n: nat, unmatched: seq<DescribeService>)
    modifies set s | s in services
    ensures n <= |obs| && HaveEnvironments(obs, n) && (n < |obs| ==> obs[n].1.None?)
    ensures unmatched == UnmatchedServices(obs[..n], services, environment, templateGroup)
    ensures forall s :: s in services ==>
      var j := LastServiceFor(obs[..n], services, s, environment, templateGroup);
      && (j.None? ==> unchanged(s))
      && (j.Some? ==> OriginFrom(s, obs[j.value].0))
    ensures forall s :: s in services ==>
      s.taskDefinition == old(s.taskDefinition) && s.taskDefinitionArn == old(s.taskDefinitionArn) && s.status == old(s.status)
  {
    unmatched := [];
    n := 0;
    while n < |obs| && obs[n].1.Some?
      invariant n <= |obs|
      invariant HaveEnvironments(obs, n)
      invariant unmatched == UnmatchedServices(obs[..n], services, environment, templateGroup)
      invariant forall s :: s in services ==>
        var j := LastServiceFor(obs[..n], services, s, environment, templateGroup);
        && (j.None? ==> unchanged(s))
        && (j.Some? ==> OriginFrom(s, obs[j.value].0))
      invariant forall s :: s in services ==>
        s.taskDefinition == old(s.taskDefinition) && s.taskDefinitionArn == old(s.taskDefinitionArn) && s.status == old(s.status)
    {
      var none := MatchStep(obs, n, services, environment, templateGroup);
      if none {
        unmatched := unmatched + [obs[n].0];
      }
      n := n + 1;
    }
  }

  // ---------------------------------------------------------------------------
  // managed rules

  /** A managed rule with the task environment and family read from its
      definition, if those were read. */
  type RuleObservation = (CloudwatchEventRule, Option<TaskEnvironment>, Option<Json>)

  /** The rules as they stand. */
  function RuleObservations(cs: seq<CloudwatchEventRule>): (obs: seq<RuleObservation>)
    reads set c | c in cs
    ensures |obs| == |cs| && forall k :: 0 <= k < |cs| ==> obs[k] == (cs[k], cs[k].taskEnvironment, cs[k].family)
  {
    seq(|cs|, k requires 0 <= k < |cs| reads set c | c in cs => (cs[k], cs[k].taskEnvironment, cs[k].family))
  }

  /** A rule of the run's environment and, when the run names one, of its
      template group. */
  predicate RuleConsidered(env: Option<TaskEnvironment>, environment: Json, templateGroup: Option<string>)
  {
    && env.Some?
    && PyEq(environment, env.value.environment)
    && (templateGroup.None? || PyEq(JStr(templateGroup.value), env.value.templateGroup))
  }

  /** The first scheduled task of the rule's family. */
  function FirstTask(tasks: seq<ScheduledTask>, family: Option<Json>): (r: Option<nat>)
    ensures r.Some? ==> r.value < |tasks| && family == Some(JStr(tasks[r.value].family))
    ensures r.Some? ==> forall k :: 0 <= k < r.value ==> family != Some(JStr(tasks[k].family))
    ensures r.None? ==> forall k :: 0 <= k < |tasks| ==> family != Some(JStr(tasks[k].family))
  {
    if tasks == [] then None
    else if family == Some(JStr(tasks[0].family)) then Some(0)
    else match FirstTask(tasks[1..], family)
      case None => None
      case Some(k) => Some(k + 1)
  }

  /** The rule assigns its origin to `t`. */
  predicate AssignsTask(o: RuleObservation, tasks: seq<ScheduledTask>, t: ScheduledTask, environment: Json, templateGroup: Option<string>)
  {
    var k := FirstTask(tasks, o.2);
    RuleConsidered(o.1, environment, templateGroup) && k.Some? && tasks[k.value] == t
  }

  /** The position of the last rule that assigns its origin to `t`. */
  function LastRuleFor(obs: seq<RuleObservation>, tasks: seq<ScheduledTask>, t: ScheduledTask,
                       environment: Json, templateGroup: Option<string>): (r: Option<nat>)
    ensures r.Some? ==> r.value < |obs|
  {
    if obs == [] then None
    else if AssignsTask(obs[|obs| - 1], tasks, t, environment, templateGroup) then Some(|obs| - 1)
    else LastRuleFor(obs[..|obs| - 1], tasks, t, environment, templateGroup)
  }

  /** The rule is considered and runs no scheduled task of the targets. */
  predicate RuleUnmatched(o: RuleObservation, tasks: seq<ScheduledTask>, environment: Json, templateGroup: Option<string>)
  {
    RuleConsidered(o.1, environment, templateGroup) && FirstTask(tasks, o.2).None?
  }

  /** The considered rules of no target family: the rules to delete. */
  function UnmatchedRules(obs: seq<RuleObservation>, tasks: seq<ScheduledTask>,
                          environment: Json, templateGroup: Option<string>): seq<CloudwatchEventRule>
  {
    if obs == [] then []
    else
      UnmatchedRules(obs[..|obs| - 1], tasks, environment, templateGroup)
        + (if RuleUnmatched(obs[|obs| - 1], tasks, environment, templateGroup) then [obs[|obs| - 1].0] else [])
  }

  /** A task's origin is what this rule runs. */
  predicate OriginFromRule(t: ScheduledTask, c: CloudwatchEventRule)
    reads t, c
  {
    && t.originTaskDefinition == c.taskDefinition && t.originTaskDefinitionArn == c.taskDefinitionArn
    && t.originTaskEnvironment == c.taskEnvironment && t.state == c.state && t.taskExists
  }

  /** Every unmatched rule is a considered one of no target family, and
      every such rule is listed. */
  lemma {:induction false} UnmatchedRulesMembers(obs: seq<RuleObservation>, tasks: seq<ScheduledTask>,
                                                 environment: Json, templateGroup: Option<string>, c: CloudwatchEventRule)
    ensures c in UnmatchedRules(obs, tasks, environment, templateGroup) <==>
      exists o :: o in obs && o.0 == c && RuleConsidered(o.1, environment, templateGroup)
        && forall k :: 0 <= k < |tasks| ==> o.2 != Some(JStr(tasks[k].family))
  {
    if obs != [] {
      var init := obs[..|obs| - 1];
      var last := obs[|obs| - 1];
      UnmatchedRulesMembers(init, tasks, environment, templateGroup, c);
      assert obs == init + [last];
      if c == last.0 && RuleUnmatched(last, tasks, environment, templateGroup) {
        assert last in obs;
      }
      var r := FirstTask(tasks, last.2);
      if r.Some? {
        assert last.2 == Some(JStr(tasks[r.value].family));
      }
    }
  }

  /** The inner loop: the first scheduled task of the rule's family. */
  method FindTask(tasks: seq<ScheduledTask>, family: Option<Json>) returns (k: Option<nat>)
    ensures k == FirstTask(tasks, family)
  {
    var i := 0;
    while i < |tasks|
      invariant 0 <= i <= |tasks|
      invariant FirstTask(tasks, family) == (match FirstTask(tasks[i..], family) case None => None case Some(j) => Some(j + i))
    {
      assert tasks[i..][1..] == tasks[i + 1..];
      if family == Some(JStr(tasks[i].family)) {
        return Some(i);
      }
      i := i + 1;
    }
    k := None;
  }

  /** `LastRuleFor` and `UnmatchedRules` over one more rule. */
  lemma RuleStep(obs: seq<RuleObservation>, i: nat, tasks: seq<ScheduledTask>, environment: Json, templateGroup: Option<string>)
    requires i < |obs|
    ensures UnmatchedRules(obs[..i + 1], tasks, environment, templateGroup)
      == UnmatchedRules(obs[..i], tasks, environment, templateGroup)
        + (if RuleUnmatched(obs[i], tasks, environment, templateGroup) then [obs[i].0] else [])
    ensures forall t :: (LastRuleFor(obs[..i + 1], tasks, t, environment, templateGroup)
      == if AssignsTask(obs[i], tasks, t, environment, templateGroup) then Some(i)
         else LastRuleFor(obs[..i], tasks, t, environment, templateGroup))
  {
    assert obs[..i + 1][..i] == obs[..i];
  }

  /** One rule of the outer loop: the first task of its family takes its
      origin, and only that task changes. */
  method MatchRule(o: RuleObservation, tasks: seq<ScheduledTask>, environment: Json, templateGroup: Option<string>)
    returns (unmatched: bool)
    modifies set t | t in tasks
    ensures unmatched == RuleUnmatched(o, tasks, environment, templateGroup)
    ensures forall t :: t in tasks ==>
      if AssignsTask(o, tasks, t, environment, templateGroup)
      then OriginFromRule(t, o.0) && t.taskDefinition == old(t.taskDefinition)
        && t.taskDefinitionArn == old(t.taskDefinitionArn) && t.status == old(t.status)
      else unchanged(t)
  {
    unmatched := false;
    if RuleConsidered(o.1, environment, templateGroup) {
      var found := FindTask(tasks, o.2);
      if found.Some? {
        tasks[found.value].SetFromCloudwatchEventRule(o.0);
      } else {
        unmatched := true;
      }
    }
  }

  /** The rule half of the matching pass. A rule whose task environment
      was never read raises when its environment is compared. */
  /** The first n rule observations carry a task environment. */
  predicate RulesHaveEnvironments(obs: seq<RuleObservation>, n: nat)
  {
    forall k :: 0 <= k < n && k < |obs| ==> obs[k].1.Some?
  }

  /** The outer loop's step `i`, stated against the rules so far. */
  method RuleMatchStep(obs: seq<RuleObservation>, i: nat, tasks: seq<ScheduledTask>, environment: Json, templateGroup: Option<string>)
    returns (unmatched: bool)
    requires i < |obs|
    modifies set t | t in tasks
    ensures UnmatchedRules(obs[..i + 1], tasks, environment, templateGroup)
      == UnmatchedRules(obs[..i], tasks, environment, templateGroup) + (if unmatched then [obs[i].0] else [])
    ensures forall t :: t in tasks ==>
      var j := LastRuleFor(obs[..i + 1], tasks, t, environment, templateGroup);
      if j == Some(i)
      then OriginFromRule(t, obs[i].0) && t.taskDefinition == old(t.taskDefinition)
        && t.taskDefinitionArn == old(t.taskDefinitionArn) && t.status == old(t.status)
      else unchanged(t) && j == LastRuleFor(obs[..i], tasks, t, environment, templateGroup)
  {
    unmatched := MatchRule(obs[i], tasks, environment, templateGroup);
    RuleStep(obs, i, tasks, environment, templateGroup);
  }

  method MatchRules(cs: seq<CloudwatchEventRule>, tasks: seq<ScheduledTask>, environment: Json, templateGroup: Option<string>)
    returns (r: Result<seq<CloudwatchEventRule>>)
    modifies set t | t in tasks
    ensures r.Err? <==> exists c :: c in cs && old(c.taskEnvironment).None?
    ensures r.Ok? ==> r.value == UnmatchedRules(old(RuleObservations(cs)), tasks, environment, templateGroup)
    ensures r.Ok? ==> forall t :: t in tasks ==>
      var j := LastRuleFor(old(RuleObservations(cs)), tasks, t, environment, templateGroup);
      && (j.None? ==> unchanged(t))
      && (j.Some? ==> OriginFromRule(t, cs[j.value]))
    ensures forall t :: t in tasks ==>
      t.taskDefinition == old(t.taskDefinition) && t.taskDefinitionArn == old(t.taskDefinitionArn) && t.status == old(t.status)
  {
    var obs := RuleObservations(cs);
    var n, unmatched := MatchObservedRules(obs, tasks, environment, templateGroup);
    if n < |obs| {
      assert cs[n] in cs;
      return Err(AttributeError("environment"));
    }
    Canon.TakeAll(obs);
    forall c | c in cs ensures old(c.taskEnvironment).Some? {
      var k :| 0 <= k < |cs| && cs[k] == c;
    }
    r := Ok(unmatched);
  }

  /** The loop of the matching, over the observations as they stand when
      it starts: it runs up to the first one without a task environment,
      or to the end. */
  method MatchObservedRules(obs: seq<RuleObservation>, tasks: seq<ScheduledTask>, environment: Json, templateGroup: Option<string>)
    returns (n: nat, unmatched: seq<CloudwatchEventRule>)
    modifies set t | t in tasks
    ensures n <= |obs| && RulesHaveEnvironments(obs, n) && (n < |obs| ==> obs[n].1.None?)
    ensures unmatched == UnmatchedRules(obs[..n], tasks, environment, templateGroup)
    ensures forall t :: t in tasks ==>
      var j := LastRuleFor(obs[..n], tasks, t, environment, templateGroup);
      && (j.None? ==> unchanged(t))
      && (j.Some? ==> OriginFromRule(t, obs[j.value].0))
    ensures forall t :: t in tasks ==>
      t.taskDefinition == old(t.taskDefinition) && t.taskDefinitionArn == old(t.taskDefinitionArn) && t.status == old(t.status)
  {
    unmatched := [];
    n := 0;
    while n < |obs| && obs[n].1.Some?
      invariant n <= |obs|
      invariant RulesHaveEnvironments(obs, n)
      invariant unmatched == UnmatchedRules(obs[..n], tasks, environment, templateGroup)
      invariant forall t :: t in tasks ==>
        var j := LastRuleFor(obs[..n], tasks, t, environment, templateGroup);
        && (j.None? ==> unchanged(t))
        && (j.Some? ==> OriginFromRule(t, obs[j.value].0))
      invariant forall t :: t in tasks ==>
        t.taskDefinition == old(t.taskDefinition) && t.taskDefinitionArn == old(t.taskDefinitionArn) && t.status == old(t.status)
    {
      var none := RuleMatchStep(obs, n, tasks, environment, templateGroup);
      if none {
        unmatched := unmatched + [obs[n].0];
      }
      n := n + 1;
    }
  }
}
