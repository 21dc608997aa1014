# wercker-aws-ecs deploy logic in Dafny

This project models the decision logic of an ECS deploy tool. The tool reads
a services YAML (or rendered JSON task definitions) and an environment YAML.
From them it builds the deploy targets: ECS services and scheduled tasks,
each backed by a CloudWatch event rule. It then compares the targets with
what is running in the cluster, deletes what is no longer declared, and
registers task definitions only when the container definitions changed. It
stops services that must be stopped before deploying, rolls out primary
services before the rest, and waits for each service to become stable. The
run fails when any target ends in error.

The model has these parts:

- `Canon` is the container-definition canonicaliser (`adjust_container_definition`)
  and the structural comparison (`compare_container_definitions`,
  `is_same_container_definition`). It decides whether a definition is
  registered again.
- `EcsUtils` holds the bounded retry loops around registering, deregistering
  and waiting for stability, with their exact attempt ceilings.
- `Services`, `ServiceBuilder`, `ScheduledTasks` and `ScheduledBuilder` hold
  the deploy targets:
  - the `TaskEnvironment` readers;
  - the `Service`, `DescribeService`, `ScheduledTask` and
    `CloudwatchEventRule` objects and their in-place updaters;
  - the group filters;
  - the builders that turn the YAML configuration into targets.

  `Config` holds the configuration layering they share.
- `Matching`, `Deploy` and `DeployManagement` hold the orchestration:
  - the per-unit worker (`DeployProcess`);
  - the deploy manager's phases, the four-way partition and the match between
    observed and desired objects;
  - the result check.
- `Json`, `Py` and `Text` model the Python values and built-ins the code
  relies on:
  - insertion-ordered dicts and Python equality;
  - `int()`, `str()` and `strtobool`;
  - string ordering and `split('/')`.
- `Cloud` stands in for `AwsUtils`. It is an abstract cloud state plus a
  script of injected faults, one per call, and a log of every call made.
  Properties about which AWS calls the tool makes are stated on that log.

Objects the source mutates in place are Dafny classes whose methods state
their whole new state. The pure parts are functions with lemmas. The worker
pool is one `DeployProcess` that drains each queued batch in order. A failing
unit marks only its own target as in error.

## Model

| member | source | states |
|---|---|---|
| Canon.SortEnvironment | ecs/classes.py:378-379 | Sorting `environment` by `name` succeeds exactly when every entry is a dict with a `name` and, for two or more entries, the names are all strings or all numbers (ints and bools, compared by value); the result is sorted by name, is a permutation of the input and keeps the entries of each name in their original relative order (stable) |
| Canon.NumericNamesSort | ecs/classes.py:379 | Integer names sort by value (`[{name: 2}, {name: 1}]` becomes `[{name: 1}, {name: 2}]`), while an integer and a string name raise `TypeError` |
| Canon.InsertMultiset | ecs/classes.py:379 | Inserting one entry into the sorted prefix adds exactly that entry to the multiset |
| Canon.SortMultiset | ecs/classes.py:379 | The sort returns a permutation of its input |
| Canon.InsertSorted | ecs/classes.py:379 | Inserting into a name-sorted list keeps it sorted |
| Canon.SortSorted | ecs/classes.py:379 | The sort's output is ordered by name |
| Canon.FilterSort | ecs/classes.py:379 | For every name, the entries carrying it appear in the sorted output in their input order (stability) |
| Canon.SortedUnique | ecs/classes.py:379 | Two sorted lists holding the same entries per name, in the same order, are equal |
| Canon.SortEqualOfFilters | ecs/classes.py:379 | Inputs that agree name by name sort to the same list |
| Canon.SortEqualIff | ecs/classes.py:379 | Two environments sort to the same list if and only if they hold the same entries per name in the same relative order |
| Canon.SortOfSorted | ecs/classes.py:379 | Sorting an already sorted environment leaves it unchanged |
| Canon.PermutedNames | ecs/classes.py:379 | A permutation of an environment has names exactly when the original does, so sorting fails or succeeds for both |
| Canon.LookupNames | ecs/classes.py:379 | The `k['name']` key lookup passes exactly when every entry is a dict with a `name` |
| Canon.AdjustFieldsFails | ecs/classes.py:374-379 | Adjusting one container fails exactly when some non-empty `environment` list cannot be sorted |
| Canon.AdjustFieldsShape | ecs/classes.py:371-383 | After adjusting, no attribute holds an empty list, no key is added, and unique keys stay unique |
| Canon.AdjustFieldsValues | ecs/classes.py:374-382 | Adjusting leaves every attribute other than `environment` that is not an empty list unchanged, and replaces a non-empty `environment` with its sorted version |
| Canon.AdjustFieldsDropsEmpty | ecs/classes.py:375-382 | Every attribute holding an empty list is removed |
| Canon.AdjustAllMeaning | ecs/classes.py:371-383 | Adjusting a definition list succeeds exactly when each container adjusts, keeps the number of containers, and adjusts each one independently |
| Canon.AdjustAttributes | ecs/classes.py:373-382 | The loop over one container's attributes computes the per-container adjustment |
| Canon.AdjustContainerDefinitions | ecs/classes.py:371-383 | The loop over the containers computes the adjustment of the whole list, failing where it fails |
| Canon.SortEnvironmentIdempotent | ecs/classes.py:378-379 | Sorting the environment a second time changes nothing |
| Canon.AdjustFieldsIdempotent | ecs/classes.py:371-383 | Adjusting an adjusted container changes nothing |
| Canon.AdjustAllIdempotent | ecs/classes.py:371-383 | Adjusting an adjusted container list changes nothing |
| Canon.AdjustIdempotent | ecs/classes.py:371-383 | Adjusting an adjusted task definition's containers changes nothing |
| Canon.CompareIsPyEq | ecs/classes.py:385-401 | For a dict, the recursive comparison returns True exactly when Python `==` holds between the two values (same key sets, values equal recursively, order of keys ignored) |
| Canon.CompareFromIsPyEq | ecs/classes.py:392-401 | With equal key sets, the loop from a position on returns True exactly when every remaining value equals `b.get(k)` |
| Canon.PyEqObjects | ecs/classes.py:386-401 | Python equality of two dicts with the same keys is equality value by value |
| Canon.CompareRefl | ecs/classes.py:385-401 | Every dict compares equal to itself |
| Canon.PairwiseSame | ecs/classes.py:363-369 | Two definition lists are the same exactly when their lengths agree and each pair compares True; different lengths give False |
| Canon.SameFrom | ecs/classes.py:366-369 | The positional loop from a position on is True exactly when every remaining pair compares True |
| Canon.IsSameContainerDefinition | ecs/classes.py:363-369 | The early-exit loop returns the pairwise comparison result |
| Canon.EnvironmentOrderSort | ecs/classes.py:378-379 | Environments that differ only in the order of differently-named entries both sort, or both fail, and sort to the same list |
| Canon.EnvironmentOrderFields | ecs/classes.py:371-383 | Containers that differ only in environment order adjust to the same container |
| Canon.EnvironmentOrderIsIgnored | ecs/classes.py:363-401 | After adjustment, definition lists that differ only in environment order compare as the same |
| Config.EntryOf | ecs/classes.py:118-121 | The per-environment entry for a service is taken only when the `services` section and the entry are present and truthy |
| Config.BaseVariablesLayered | ecs/classes.py:106-114 | The variables from the base layers are the name (`item`), then the base config, then its `vars`, later layers winning |
| Config.VariablesAreLayered | ecs/classes.py:105-127 | Every variable is looked up in the layers item, base config, base vars, environment config, environment service entry, entry vars, with the last layer that defines it winning |
| Config.ConfigIsOverridden | ecs/classes.py:107-123 | The service config is the base config with the environment's service entry overriding it key by key |
| Config.UpdateLayer | ecs/classes.py:108-126 | `dict.update` with a dict of unique keys puts that dict on top of the existing layers |
| Config.RequiredParam | ecs/service.py:253-257 | A missing required parameter raises `ParameterNotFoundException` naming it |
| Config.CheckInt | ecs/service.py:275-280 | The rendered value passes exactly when `int()` accepts it, and otherwise raises `ParameterInvalidException` naming the parameter |
| Config.BoolParam | ecs/service.py:240-248 | An unset boolean parameter is `None`; a value is produced only for a set parameter |
| Config.RenderJsonEach | ecs/service.py:321-324 | Each list element is dumped, rendered and parsed independently, keeping the length |
| Config.RenderedList | ecs/service.py:317-325 | An unset list parameter stays `None`; a set one renders to a list |
| Config.TemplateText | ecs/service.py:352-356 | The named template is found only when it is a non-empty string under `taskDefinitionTemplates` |
| Config.TaskDefinitionOf | ecs/service.py:348-370 | A missing `taskDefinitionTemplate` raises `ParameterNotFoundException` |
| Config.InjectEach | ecs/service.py:459-466 | Each container's `environment` becomes the injected list followed by the container's own entries; a non-list own environment fails the whole step |
| Config.InjectEnvironmentMeaning | ecs/service.py:458-466 | Injection keeps every other key of the task definition and of each container, keeps the number of containers, and sets each container's environment to the injected list and then its own entries |
| Json.Get | ecs/service.py:240 | `dict.get` finds a value exactly when the key is present |
| Json.Put | ecs/service.py:466 | Assigning a key sets it, leaves every other key unchanged, and keeps keys unique |
| Json.Update | ecs/service.py:511-512 | `dict.update` makes every key of the update read its new value and every other key keep its old one |
| Json.PyEqRefl | ecs/classes.py:397-399 | Python `==` is reflexive on well-formed values |
| Py.Iterate | ecs/service.py:321 | Iterating a list yields its items; iterating anything but a list, dict or string raises |
| Py.PyInt | ecs/service.py:47 | `int()` of an int is itself; `int()` of a string succeeds exactly when it parses, and raises `ValueError` otherwise |
| Py.PyStrToBool | ecs/service.py:53 | `strtobool` succeeds exactly on strings it recognises |
| Py.Str | ecs/service.py:242 | `str()` of a string is itself and of an int is its decimal text |
| Py.PyIntOfStr | ecs/service.py:275-277 | `int(str(i)) == i` for every integer |
| Text.StrLeRefl | ecs/classes.py:379 | The string order used by `sorted` is reflexive |
| Text.StrLeTotal | ecs/classes.py:379 | The string order is total |
| Text.StrLeTrans | ecs/classes.py:379 | The string order is transitive |
| Text.StrLeAntisym | ecs/classes.py:379 | The string order is antisymmetric |
| Text.StripLeft | ecs/service.py:277 | Stripping leading whitespace keeps a suffix that does not start with whitespace |
| Text.StripRight | ecs/service.py:277 | Stripping trailing whitespace keeps a prefix that does not end with whitespace |
| Text.NatToString | ecs/service.py:304 | `str()` of a natural number is a non-empty digit string |
| Text.DigitsValueOfNatToString | ecs/service.py:304 | The digits `str()` writes read back as the same number |
| Text.ParseIntOfIntToString | ecs/service.py:304 | Parsing the decimal text of any integer gives it back |
| Text.Lower | ecs/service.py:53 | Lower-casing keeps the length |
| Text.LastSegmentIsLastSlashSuffix | ecs/service.py:158-159 | `split('/')[-1]` is the longest slash-free suffix, preceded by a slash when shorter than the input |
| Text.LastSegmentOfSlashJoin | ecs/service.py:158-159 | The last segment of `prefix/name` is `name` |
| Services.ServiceStepMeaning | ecs/service.py:37-53 | One environment entry sets exactly the field its name selects (text fields copied, counts converted with `int()`, the distinct flag with `strtobool`) and leaves every other field unchanged |
| Services.ServiceScanLastWinsText | ecs/service.py:37-45 | For each text field the last entry with that name wins, and a field with no entry keeps its initial value |
| Services.ServiceScanLastWinsConverted | ecs/service.py:46-53 | For desired count, minimum and maximum percent and the distinct flag, the last entry wins, converted |
| Services.LastWinsCount | ecs/service.py:46-47 | The desired count is the last `DESIRED_COUNT` entry converted, or unchanged when there is none |
| Services.LastWinsMinimum | ecs/service.py:48-49 | The minimum healthy percent is the last such entry converted, or unchanged |
| Services.LastWinsMaximum | ecs/service.py:50-51 | The maximum percent is the last such entry converted, or unchanged |
| Services.LastWinsDistinct | ecs/service.py:52-53 | The distinct flag is the last such entry converted, or unchanged |
| Services.ServiceEnvironmentOfEntries | ecs/service.py:28-65 | A missing `ENVIRONMENT`, then `CLUSTER_NAME`, then `DESIRED_COUNT` raises `EnvironmentValueNotFoundException` in that order; otherwise the record holds the last values, with defaults 50, 200 and False |
| Services.OnlyFirstContainerRead | ecs/service.py:21-22 | Only the first container's environment is read: changing the other containers changes nothing |
| Services.LoadServiceEnvironment | ecs/service.py:20-65 | The constructor's loop and checks compute the task environment, including the failure for a missing first container or `environment` |
| Services.ArnToName | ecs/service.py:158-159 | The name is the slash-free tail of the ARN, preceded by a slash when the ARN has one |
| Services.ArnToNameOfClusterArn | ecs/service.py:158-159 | The name of a cluster's ARN is the cluster |
| Services.AdjustedContainersOfAdjusted | ecs/service.py:153-154 | Adjusting containers in place twice gives the same containers as once |
| Services.SameDefinitionAfterAdjusting | ecs/service.py:150-155 | Because adjusting mutates both definitions, a second check after the first gives the same answer |
| Services.SameDefinitionIgnoresEnvironmentOrder | ecs/service.py:150-155 | Definitions whose containers differ only in environment order are the same |
| Services.DescribeService.constructor | ecs/service.py:69-85 | The description's name, cluster ARN, cluster name taken from the ARN, task definition ARN and counts are copied; the service exists exactly when the status is `ACTIVE`; no definition yet |
| Services.DescribeService.SetFromTaskDefinition | ecs/service.py:87-90 | The definition is stored, its task environment parsed (or the error returned), and the family read |
| Services.FetchAwsService | ecs/service.py:532-541 | Succeeds exactly when no list or describe call of any cluster faults; then each cluster is listed and described in order, one description object per described service in order, and the cloud state is unchanged |
| Services.ListCluster | ecs/service.py:535-536 | One cluster: fails exactly when its list call or its describe call faults; otherwise those two calls are logged and the result is the described services of that cluster |
| Services.DescribeEach | ecs/service.py:537-540 | One fresh description object per raw description, in order |
| Services.ListedAppend | ecs/service.py:534-536 | The listing over the clusters is the concatenation of per-cluster listings |
| Services.IdentityOf | ecs/service.py:98-99 | The task environment is read before the family; a non-string family fails |
| Services.ServiceIdentity | ecs/service.py:96-100 | The task environment is read first and its error wins; then a missing `family` raises `KeyError` and a non-string one `TypeError` (from `+ '-service'`); the identity is the parsed environment and the string family exactly when both succeed |
| Services.Service.Create | ecs/service.py:94-117 | `Service(...)` raises exactly when the identity fails, with its error; otherwise a fresh service with that environment and family, the name family + `-service`, the spec's definition, flags, placement strategy and constraints, load balancers, network configuration and registries, the environment's desired count and no origin |
| Services.Service.constructor | ecs/service.py:94-117 | The service name is family + `-service`, the desired count comes from the environment, the configuration is copied, and there is no origin yet |
| Services.Service.SetFromDescribeService | ecs/service.py:119-125 | Origin existence, definition, ARN and desired count, and the current counts, are copied from the description; the new definition is kept |
| Services.Service.SetTaskDefinitionArn | ecs/service.py:127-128 | The ARN becomes the registered definition's `taskDefinitionArn`; a reply that is not a dict fails and keeps the old ARN; nothing else changes |
| Services.Service.UpdateRunCount | ecs/service.py:130-136 | Running and desired counts are copied; the origin desired count becomes the desired count after a create, or the running count on stop-before-deploy when unset, and is otherwise kept |
| Services.Service.IsSameTaskDefinition | ecs/service.py:150-155 | No origin gives False; otherwise both container lists are adjusted in place and compared |
| Services.Service.CompareContainerDefinition | ecs/service.py:138-148 | The ARN becomes the origin ARN exactly when the definitions are the same, and is kept otherwise |
| Services.GetDeployServiceList | ecs/service.py:162-179 | The two filters in turn give the order-preserving selection of services matching the service group and the template group wherever set |
| Services.SelectServicesMembers | ecs/service.py:162-179 | A service is selected exactly when it is in the list and matches both set filters |
| Services.SelectServicesAppend | ecs/service.py:162-179 | Selection distributes over concatenation, so order is preserved |
| Services.SelectServicesUnfiltered | ecs/service.py:162-179 | With both filters unset the whole list is returned |
| Services.SelectTwice | ecs/service.py:162-179 | Filtering by group and then by template is the combined filter |
| ServiceBuilder.IntParam | ecs/service.py:283-293 | An unset integer parameter is `None`; a produced value parses as an integer |
| ServiceBuilder.ListParam | ecs/service.py:317-325 | The rendered list and its environment text are produced together, the text exactly when the parameter is set |
| ServiceBuilder.FrontOf | ecs/service.py:238-281 | `cluster` and `desiredCount` are required (cluster first); the desired count must parse; the list starts with `ENVIRONMENT` and reads back the environment and cluster |
| ServiceBuilder.BackOf | ecs/service.py:283-346 | The optional entries never set `ENVIRONMENT`, `CLUSTER_NAME` or `DESIRED_COUNT` |
| ServiceBuilder.EnvironmentPart | ecs/service.py:238-346 | The injected environment starts with `ENVIRONMENT` and reads back the environment, the rendered cluster and the desired count; missing required parameters fail |
| ServiceBuilder.EnvFront | ecs/service.py:238-269 | The front of the list starts with `ENVIRONMENT` and its last `ENVIRONMENT` and `CLUSTER_NAME` entries are the given values |
| ServiceBuilder.EnvBack | ecs/service.py:283-346 | The back entries carry none of the required names |
| ServiceBuilder.EnvList | ecs/service.py:271-346 | Adding the desired count and the back keeps the first entry and the read-back values and adds `DESIRED_COUNT` |
| ServiceBuilder.BalancerOf | ecs/service.py:375-414 | A load balancer needs exactly one of `targetGroupArn` or `loadBalancerName`, plus `containerName` and `containerPort`, else `ParameterInvalidException`; the result has exactly the rendered keys |
| ServiceBuilder.BalancerEach | ecs/service.py:375-416 | Every balancer is validated independently and the count is kept |
| ServiceBuilder.BalancersOf | ecs/service.py:371-417 | No `loadBalancers` parameter gives `None` |
| ServiceBuilder.BalancerEntries | ecs/service.py:416-417 | One `LOAD_BALANCER` entry per balancer, none of them a required name |
| ServiceBuilder.NetworkOf | ecs/service.py:419-436 | Without a network configuration the task definition is unchanged; with an `awsvpcConfiguration` it gets `networkMode` `awsvpc` and keeps every other key |
| ServiceBuilder.Assemble | ecs/service.py:238-466 | The environment part, the balancers, the template and the injection are computed in the source's order, and the first failure wins |
| ServiceBuilder.Finish | ecs/service.py:468-503 | A `disabled` value rendering true drops the service; otherwise stop-before-deploy is set exactly when it renders true and the service keeps the injected definition and the balancers |
| ServiceBuilder.BuildServiceRequired | ecs/service.py:253-351 | A missing `cluster`, `desiredCount` or `taskDefinitionTemplate` makes building fail, `cluster` with `ParameterNotFoundException` |
| ServiceBuilder.BuildServiceDisabled | ecs/service.py:468-490 | A service is dropped exactly when `disabled` renders true; stop-before-deploy holds exactly when it renders true, and is False when unset |
| ServiceBuilder.BuildServiceParts | ecs/service.py:238-503 | A built service is made from the assembled environment, template, injected definition and balancers |
| ServiceBuilder.BuildServiceEnvironment | ecs/service.py:238-466 | The built environment starts with `ENVIRONMENT`, is what was injected, and reads back the environment, cluster and desired count |
| ServiceBuilder.BuildServiceBalancers | ecs/service.py:371-417 | Balancers are `None` exactly when not configured; each adds one trailing `LOAD_BALANCER` entry |
| ServiceBuilder.InjectedReadsBack | ecs/service.py:458-466 | When the template's own first container does not override them, the task environment read from the injected definition returns the injected environment, cluster and desired count |
| ServiceBuilder.BuiltServiceReadsBack | ecs/service.py:492-503 | The `Service` built from a configuration reads back the run's environment, the rendered cluster and the configured desired count |
| ServiceBuilder.ServiceNames | ecs/service.py:224 | Iterating the `services` mapping yields its keys in order |
| ServiceBuilder.BuildOne | ecs/service.py:228-503 | A service spec is produced only when its task definition yields a task environment and a string family |
| ServiceBuilder.BuildEach | ecs/service.py:224-503 | Every name is built independently, in order |
| ServiceBuilder.KeepFromAllOk | ecs/service.py:224-227 | A successful pass built every name without error and saw no name twice |
| ServiceBuilder.KeepFromKept | ecs/service.py:222-504 | The kept services are exactly the built, non-disabled ones, and there are no more than the names |
| ServiceBuilder.KeepFromDuplicate | ecs/service.py:225-226 | A repeated name makes the pass fail |
| ServiceBuilder.ServiceListSections | ecs/service.py:215-220 | No `services` key gives the empty list; without `taskDefinitionTemplates` the read raises `KeyError` |
| ServiceBuilder.ServiceListKept | ecs/service.py:209-504 | Every listed service has a task environment and family, and there are no more services than configured names |
| ServiceBuilder.CollectServices | ecs/service.py:222-504 | The loop over the outcomes returns the order-preserving pass over them, failing at the first error or duplicate |
| ServiceBuilder.ConstructServices | ecs/service.py:492-503 | One fresh `Service` is constructed per spec, in order, each carrying its spec's identity, flags, placement strategy and constraints, load balancers, network configuration and registries, with no origin |
| ServiceBuilder.ReadServiceList | ecs/service.py:209-504 | The loop computes the service-list function |
| ServiceBuilder.GetServiceListYaml | ecs/service.py:209-504 | Building fails exactly when the service-list function fails, with its error; otherwise one fresh `Service` is made per spec, in order, each carrying its spec's identity, flags, placement, load balancers, network configuration and registries |
| ScheduledTasks.GetState | ecs/scheduled_tasks.py:41-46 | Any string other than the two state values raises naming it |
| ScheduledTasks.GetStateOfValue | ecs/scheduled_tasks.py:36-46 | `get_state(s.value) == s` for both states |
| ScheduledTasks.GetStateAccepts | ecs/scheduled_tasks.py:41-46 | A string is accepted exactly when it is the value of some state, and the state returned has that value |
| ScheduledTasks.TaskStepMeaning | ecs/scheduled_tasks.py:65-77 | One entry sets exactly the field its name selects, converting the task count with `int()` |
| ScheduledTasks.TaskScanLastWins | ecs/scheduled_tasks.py:65-77 | For every field the last entry with its name wins, and a field with no entry keeps its initial value |
| ScheduledTasks.TaskEnvironmentOfEntries | ecs/scheduled_tasks.py:58-93 | A missing `ENVIRONMENT`, `CLUSTER_NAME`, `TASK_COUNT` raises in that order; a missing `TARGET_LAMBDA_ARN` raises `AttributeError`, because the attribute is never initialised; otherwise the record holds the last values |
| ScheduledTasks.TaskEnvironmentReads | ecs/scheduled_tasks.py:65-93 | A parsed task environment holds the last value of each required name |
| ScheduledTasks.TaskEnvironmentOfList | ecs/scheduled_tasks.py:51-93 | The task environment is computed from the first container's environment list |
| ScheduledTasks.LoadTaskEnvironment | ecs/scheduled_tasks.py:50-93 | The constructor's loop and checks compute the task environment |
| ScheduledTasks.SameTaskDefinitionAsWrittenFailsWithoutOrigin | ecs/scheduled_tasks.py:161-164 | With no origin the comparison as written raises `TypeError`; the corrected one gives False |
| ScheduledTasks.SameTaskDefinitionAgrees | ecs/scheduled_tasks.py:161-164 | With an origin, the comparison as written and the corrected one agree |
| ScheduledTasks.SameTaskDefinitionAfterAdjusting | ecs/scheduled_tasks.py:161-164 | Checking again after the in-place adjustment gives the same answer |
| ScheduledTasks.CloudwatchEventRule.Create | ecs/scheduled_tasks.py:96-108 | `CloudwatchEventRule(rule)` raises the unknown-state exception for an unknown `State`, then `KeyError` without a `Description`, and succeeds exactly otherwise, copying name, ARN, parsed state, description and schedule, with no definition, environment or family yet |
| ScheduledTasks.CloudwatchEventRule.constructor | ecs/scheduled_tasks.py:97-109 | Name, ARN, parsed state, description and schedule are copied; no definition yet |
| ScheduledTasks.CloudwatchEventRule.SetFromTaskDefinition | ecs/scheduled_tasks.py:111-115 | The definition is stored; a definition that is not a dict raises `AttributeError`; otherwise the ARN comes from `taskDefinitionArn`, the task environment is parsed (or its error returned) and the family read |
| ScheduledTasks.TaskIdentity | ecs/scheduled_tasks.py:120-127 | A non-dict definition raises `AttributeError`; a missing or null `family` raises the missing-environment-value exception before the task environment is read; then the task environment's error wins; the identity is the parsed environment and the string family exactly when both succeed (a non-string family, see Left out) |
| ScheduledTasks.ScheduledTask.Create | ecs/scheduled_tasks.py:119-142 | `ScheduledTask(...)` raises exactly when the identity fails, with its error; otherwise a fresh task with that environment and family, the spec's definition, target, schedule, placement strategy and constraints, enabled, normal and with no origin |
| ScheduledTasks.ScheduledTask.constructor | ecs/scheduled_tasks.py:119-142 | The definition, target, schedule and placement are copied; a new task is normal, enabled, not existing, and has no origin |
| ScheduledTasks.ScheduledTask.SetFromCloudwatchEventRule | ecs/scheduled_tasks.py:144-149 | Origin definition, ARN, environment and state are copied and the task exists |
| ScheduledTasks.ScheduledTask.IsSameTaskDefinition | ecs/scheduled_tasks.py:161-164 | Both container lists are adjusted in place and compared (corrected for a missing origin) |
| ScheduledTasks.ScheduledTask.CompareContainerDefinition | ecs/scheduled_tasks.py:151-159 | The ARN becomes the origin ARN exactly when the definitions are the same |
| ScheduledTasks.GetDeployScheduledTaskList | ecs/scheduled_tasks.py:167-178 | Filtering by service group and then by template group is the single order-preserving filter by both |
| ScheduledTasks.SelectTasksAppend | ecs/scheduled_tasks.py:167-178 | Selection distributes over concatenation |
| ScheduledTasks.SelectTasksTwice | ecs/scheduled_tasks.py:167-178 | The two filters in turn are the combined filter |
| ScheduledTasks.SelectTasksMembers | ecs/scheduled_tasks.py:167-178 | A task is selected exactly when it is listed and matches both set filters |
| ScheduledTasks.SelectTasksUnfiltered | ecs/scheduled_tasks.py:167-178 | With no filter the whole list is returned |
| ScheduledBuilder.TaskFrontOf | ecs/scheduled_tasks.py:209-256 | `cluster` is required first, then `taskCount`, which must parse; placement texts are present exactly when configured, reading the constraints from the task's own config |
| ScheduledBuilder.TaskFrontAsWrittenFails | ecs/scheduled_tasks.py:248 | As written, every task that gets past the placement strategy raises `NameError`, and a missing cluster still raises first |
| ScheduledBuilder.TargetLambdaArn | ecs/scheduled_tasks.py:273-279 | A missing `targetLambdaArn` raises `ParameterNotFoundException`; a present one is rendered |
| ScheduledBuilder.TargetCheckAsWrittenPasses | ecs/scheduled_tasks.py:273-278 | As written, a missing target passes the guard and is rendered from `"None"`; the corrected guard raises |
| ScheduledBuilder.TargetChecksAgree | ecs/scheduled_tasks.py:273-278 | With a target present, both guards give the same result |
| ScheduledBuilder.CloudwatchEventOf | ecs/scheduled_tasks.py:258-279 | `cloudwatchEvent` and its `scheduleExpression` are required in that order; the result is the rendered schedule and target |
| ScheduledBuilder.TaskEnvReads | ecs/scheduled_tasks.py:207-279 | The injected environment starts with `ENVIRONMENT`, has four to eight entries and reads back the environment, cluster, task count and target |
| ScheduledBuilder.Assemble | ecs/scheduled_tasks.py:207-316 | The front, the event, the template and the injection happen in the source's order, the first failure winning |
| ScheduledBuilder.AssembleTaskParts | ecs/scheduled_tasks.py:207-316 | A successful assembly is made from the front, event, template and injection of the task's configuration (with the corrected `TaskFrontOf` and `TargetLambdaArn` of the Findings) |
| ScheduledBuilder.BuildTaskRequired | ecs/scheduled_tasks.py:209-287 | A missing `cluster`, `taskCount`, `cloudwatchEvent`, `scheduleExpression`, `targetLambdaArn` or `taskDefinitionTemplate`, or a non-integer task count, fails, with the named errors in order |
| ScheduledBuilder.FrontFailsTask | ecs/scheduled_tasks.py:209-256 | A failure in the first checks is the task's failure |
| ScheduledBuilder.EventFailsTask | ecs/scheduled_tasks.py:258-279 | A failure reading the event, after the first checks pass, is the task's failure |
| ScheduledBuilder.DefinitionFailsTask | ecs/scheduled_tasks.py:281-304 | A failure reading the template, after the earlier checks pass, is the task's failure |
| ScheduledBuilder.BuildTaskDisabled | ecs/scheduled_tasks.py:318-328 | A task is dropped exactly when `disabled` renders true |
| ScheduledBuilder.BuildTaskEnvironment | ecs/scheduled_tasks.py:306-336 | A built task's environment starts with `ENVIRONMENT`, is what was injected and reads back the environment, cluster, task count and target; schedule, target and placement come from the configuration |
| ScheduledBuilder.BuildTaskAssembled | ecs/scheduled_tasks.py:330-336 | A built task is constructed from the assembled parts |
| ScheduledBuilder.InjectedFirstEnvironment | ecs/scheduled_tasks.py:306-316 | The first container's environment after injection is the injected list followed by its own entries |
| ScheduledBuilder.InjectedTaskReadsBack | ecs/scheduled_tasks.py:306-316 | When the template does not override them, the task environment read from the injected definition returns the injected values |
| ScheduledBuilder.BuiltTaskReadsBack | ecs/scheduled_tasks.py:330-337 | The task built from a configuration reads back the run's environment, the rendered cluster, the task count and the target |
| ScheduledBuilder.BuildTaskOne | ecs/scheduled_tasks.py:197-337 | A task spec is produced only when its definition yields a task environment and a family (with the corrected `TaskFrontOf` and `TargetLambdaArn` of the Findings) |
| ScheduledBuilder.BuildTaskEach | ecs/scheduled_tasks.py:193-337 | Every name is built independently, in order |
| ScheduledBuilder.KeepAllIsKeepFrom | ecs/scheduled_tasks.py:193-196 | With distinct names, a pass without a duplicate check equals one with it, so the ineffective check changes nothing |
| ScheduledBuilder.DistinctNames | ecs/scheduled_tasks.py:193-196 | The keys of the `scheduledTasks` mapping are distinct |
| ScheduledBuilder.KeepAllKept | ecs/scheduled_tasks.py:191-337 | The kept tasks are exactly the built, non-disabled ones |
| ScheduledBuilder.TaskListSections | ecs/scheduled_tasks.py:185-189 | No `scheduledTasks` key gives the empty list; without `taskDefinitionTemplates` the read raises `KeyError` |
| ScheduledBuilder.TaskListKept | ecs/scheduled_tasks.py:181-339 | Every listed task has a task environment and family; there are no more tasks than names; the list is the pass over the names |
| ScheduledBuilder.KeptIdentified | ecs/scheduled_tasks.py:330-337 | Every kept spec has a task environment and family |
| ScheduledBuilder.CollectTasks | ecs/scheduled_tasks.py:191-337 | The loop over the outcomes returns the order-preserving pass, failing at the first error |
| ScheduledBuilder.ConstructTasks | ecs/scheduled_tasks.py:330-337 | One fresh `ScheduledTask` per spec, in order, each carrying its spec's definition, identity, target, schedule, placement strategy and constraints, enabled, with no origin |
| ScheduledBuilder.ReadTaskList | ecs/scheduled_tasks.py:181-339 | The loop computes the task-list function |
| ScheduledBuilder.GetScheduledTaskList | ecs/scheduled_tasks.py:181-339 | Building fails exactly when the task-list function fails, with its error; otherwise one fresh task per spec, in order (with the corrected `TaskFrontOf` and `TargetLambdaArn` of the Findings; as written, every task past the count check raises `NameError`) |
| EcsUtils.Attempts | ecs/classes.py:278-291 | The number of calls is between one and the retry budget plus one, and is one when the first outcome is not the retried fault |
| EcsUtils.AttemptsAfter | ecs/classes.py:283-288 | Each retried fault inside the budget adds exactly one more call |
| EcsUtils.AttemptsStop | ecs/classes.py:283-291 | The loop stops at the first outcome that is not retried, or when the budget is spent |
| EcsUtils.AttemptsRetriedBefore | ecs/classes.py:283-288 | Every call before the last one met the retried fault |
| EcsUtils.AttemptsLast | ecs/classes.py:283-291 | The last call met an outcome that is not retried, or the budget was spent |
| EcsUtils.AttemptsUnique | ecs/classes.py:278-291 | Any count meeting those conditions is the number of calls (it is unique) |
| EcsUtils.FirstOtherOutcomeStops | ecs/classes.py:289-290 | Another error on the first call re-raises after that single call |
| EcsUtils.GivesUp | ecs/classes.py:284-285 | A run of retried faults as long as the budget uses all of it and re-raises the fault |
| EcsUtils.RegisterCeiling | ecs/classes.py:284-285 | Registration makes at most 8 calls: eight throttles in a row make exactly 8 and re-raise |
| EcsUtils.RegisterTaskDefinition | ecs/classes.py:276-292 | The same registration is sent once per attempt, throttling retried while `retryCount <= 6`; the final outcome decides the result and the state |
| EcsUtils.RegisterAttempt | ecs/classes.py:279-291 | One call, retried exactly on a throttle within the budget |
| EcsUtils.RegisteredDefinitionArn | ecs/classes.py:292 | The result's `taskDefinitionArn` is the ARN the cloud assigned, and the cloud holds that definition under it |
| EcsUtils.DeregisterTaskDefinition | ecs/classes.py:310-325 | Deregistration is sent once per attempt, throttling retried while `retryCount <= 3` (at most 5 calls); the state is unchanged; the final fault is re-raised |
| EcsUtils.DeregisterAttempt | ecs/classes.py:313-325 | One call, retried exactly on a throttle within the budget |
| EcsUtils.WaitForStable | ecs/classes.py:295-307 | The wait is sent once per attempt, a waiter timeout retried while `retryCount <= 2` (at most 4 calls); on success both counts become the service's desired count; on failure nothing changes |
| EcsUtils.WaitAttempt | ecs/classes.py:298-304 | One wait, retried exactly on a waiter timeout within the budget |
| EcsUtils.ActiveFilter | ecs/classes.py:262-267 | A filter applies exactly when it is set and non-empty (Python truthiness) |
| EcsUtils.DeployServiceListMeaning | ecs/classes.py:261-272 | The list raises exactly when no service matches the active filters; otherwise it holds exactly the listed services that match |
| EcsUtils.DeployServiceListUnfiltered | ecs/classes.py:261-272 | With no active filter the list is returned whole, and an empty list raises |
| Matching.Observations | ecs/deploy.py:540 | The loop reads each description with its task environment, in order |
| Matching.FirstService | ecs/deploy.py:547-552 | The match is the first target with the same service name and cluster; none earlier matches, or none at all |
| Matching.LastServiceFor | ecs/deploy.py:540-552 | The description a target takes its origin from is an observed one |
| Matching.UnmatchedServicesMembers | ecs/deploy.py:540-554 | A description is a delete candidate exactly when it is in the run's environment and template group and no target has its name and cluster |
| Matching.FindService | ecs/deploy.py:547-552 | The inner loop finds the first matching target |
| Matching.ServiceStep | ecs/deploy.py:540-554 | Each observation adds itself to the delete list when unmatched, or becomes the origin of its first match |
| Matching.MatchService | ecs/deploy.py:541-554 | One observation updates only its first matching target's origin, or reports itself unmatched |
| Matching.MatchStep | ecs/deploy.py:540-554 | One loop step extends the delete list and the origins exactly as the step lemma says |
| Matching.MatchServices | ecs/deploy.py:540-554 | The pass fails exactly when some description has no task environment; otherwise it returns the delete candidates and gives each target the origin of the last description assigned to it |
| Matching.MatchObservedServices | ecs/deploy.py:540-554 | The loop stops at the first description without a task environment, having processed everything before it |
| Matching.RuleObservations | ecs/deploy.py:555 | The loop reads each rule with its task environment and family |
| Matching.FirstTask | ecs/deploy.py:562-566 | The match is the first task with the rule's family |
| Matching.LastRuleFor | ecs/deploy.py:555-566 | The rule a task takes its origin from is an observed one |
| Matching.UnmatchedRulesMembers | ecs/deploy.py:555-568 | A rule is a delete candidate exactly when it is in the run's environment and template group and no task has its family |
| Matching.FindTask | ecs/deploy.py:562-566 | The inner loop finds the first task with the family |
| Matching.RuleStep | ecs/deploy.py:555-568 | Each rule adds itself to the delete list when unmatched, or becomes the origin of its first match |
| Matching.MatchRule | ecs/deploy.py:556-568 | One rule updates only its first matching task, or reports itself unmatched |
| Matching.RuleMatchStep | ecs/deploy.py:555-568 | One loop step extends the delete list and the origins as the step lemma says |
| Matching.MatchRules | ecs/deploy.py:555-568 | The pass fails exactly when some rule has no task environment; otherwise it returns the delete candidates and gives each task the origin of the last rule assigned to it |
| Matching.MatchObservedRules | ecs/deploy.py:555-568 | The loop stops at the first rule without a task environment |
| Deploy.UpdateDefinition | ecs/deploy.py:250-252 | The update sends the registered ARN, or the family when there is none |
| Deploy.SentCount | ecs/deploy.py:248-249 | With zero-keep on and an origin desired count of 0 the count sent is 0; otherwise it is the requested count |
| Deploy.StopEach | ecs/deploy.py:114-118 | One stop call per running task, in order |
| Deploy.DeployProcess.constructor | ecs/deploy.py:23-33 | The worker holds the cloud and the four mode flags |
| Deploy.DeployProcess.RegisterTaskDefinition | ecs/deploy.py:273-278 | Registration is skipped when the definition is the same; otherwise one registration is sent and, when it succeeds, the ARN becomes the newly assigned one; only definitions change in the cloud |
| Deploy.DeployProcess.CreateService | ecs/deploy.py:224-243 | One create call with the configured count (0 when stopping first), the environment's maximum and minimum percentages and distinct flag, and the service's placement strategy and constraints, load balancers, network configuration and registries; on success the service exists with that count and the origin desired count equals it |
| Deploy.DeployProcess.Recreate | ecs/deploy.py:263-266 | The not-found path registers and then creates at the configured count, ignoring the stop-before-deploy flag |
| Deploy.DeployProcess.UpdateService | ecs/deploy.py:245-267 | The update sends the ARN or family, the environment's maximum and minimum percentages, and the zero-kept count; on success the cloud and counts follow it; a not-found service is recreated at its configured count; other faults leave the service unchanged |
| Deploy.DeployProcess.StopBeforeDeploy | ecs/deploy.py:92-101 | An update to 0 without forcing a deployment; on success the origin desired count becomes the running count when unset |
| Deploy.DeployProcess.ProcessService | ecs/deploy.py:153-173 | Definition-only runs change only definitions; service-only runs send the forced update; a run with both flags does nothing |
| Deploy.DeployProcess.FetchService | ecs/deploy.py:175-177 | One describe call; the definition is stored when the cloud has it |
| Deploy.DeployProcess.DescribeOrigin | ecs/deploy.py:180-191 | A described service becomes the origin; a missing one changes nothing and is not an error |
| Deploy.DeployProcess.CheckDeployService | ecs/deploy.py:179-200 | A known origin is compared without calls and, when the service exists, the ARN is reused exactly when the definitions are the same and a failing comparison fails; an unknown origin is described: a missing service changes nothing and is not an error, a found one logs the describe and definition calls and becomes the origin, an inactive one stays as is, and an active one is compared as above; any other fault fails with the service unchanged |
| Deploy.DeployProcess.DeleteService | ecs/deploy.py:220-222 | One delete call; on success the service is gone |
| Deploy.DeployProcess.StopTasks | ecs/deploy.py:114-118 | The stop calls succeed exactly when none of them faults, and then are one per task in order |
| Deploy.DeployProcess.StopRunning | ecs/deploy.py:108-122 | On success the family's running tasks were listed, stopped and waited for, and none remain |
| Deploy.DeployProcess.DisableIfEnabled | ecs/deploy.py:106-107 | An enabled rule is disabled with one call; a disabled one makes no call |
| Deploy.DeployProcess.StopScheduledTask | ecs/deploy.py:103-122 | A task that does not exist makes no call; otherwise the rule is disabled if enabled and all its running tasks are stopped |
| Deploy.DeployProcess.FetchCloudwatchEvent | ecs/deploy.py:124-126 | One describe call by rule name; the definition is stored when present |
| Deploy.DeployProcess.RegisterTaskRevision | ecs/deploy.py:130-131 | One registration; on success the task's ARN is the new one |
| Deploy.DeployProcess.ReviseDefinition | ecs/deploy.py:129-131 | A changed definition is registered; the same one is not (with the corrected `SameTaskDefinition` of the Findings, so a task with no rule yet counts as changed) |
| Deploy.DeployProcess.DeployScheduledTask | ecs/deploy.py:128-151 | Registers when changed, then creates the scheduled task with the managed description, its state and its schedule (with the corrected `SameTaskDefinition` of the Findings; as written, a task with no rule yet raises `TypeError` here) |
| Deploy.DeployProcess.DescribeRuleOrigin | ecs/deploy.py:203-213 | A found rule becomes the origin; a missing one changes nothing and is not an error |
| Deploy.DeployProcess.CheckDeployScheduledTask | ecs/deploy.py:202-218 | A known origin is compared without calls and the ARN reused exactly when the same; an unknown origin is described: a missing rule is not an error, a found one logs the rule and definition calls, sets the origin ARN, existence and state from the cloud, and is then compared; any other fault fails with the task unchanged (with the corrected `SameTaskDefinition` of the Findings) |
| Deploy.DeployProcess.Process | ecs/deploy.py:52-90 | A target already in error is skipped with no call and no change; for a normal target the first call logged is the one its mode's operation opens with (`Opening`); a mode with no opening call logs nothing; only a wait changes the status; a normal status can only come from a normal status; a deletion makes one delete-service call, meets the next entry of the fault script and leaves its target unchanged |
| Deploy.DeployProcess.RunUnit | ecs/deploy.py:43-50 | The same as `Process`, and a failing unit sets its target to error; an errored target stays in error; a deletion logs only delete-service calls, each meeting the next entry of the fault script |
| Deploy.DeployProcess.Drain | ecs/deploy.py:35-50 | The batch is recorded as joined; the log grows by the calls of one step per unit, in batch order, each step being that unit run (`Ran`) on its target as the first unit on it saw the target at the start and each later unit saw it as the previous one left it; each target ends as its last unit left it; a failure or a target that began in error ends in error; a target none of whose units failed or waited keeps its status; in a batch of deletions the fault script advances by one entry per logged call |
| Deploy.DeployProcess.RunBatch | ecs/deploy.py:35-50 | The worker loop over one batch: the log grows by the trace's calls; the trace is consistent with the statuses and opening calls each target started with (`Consistent`: each step is its unit run, each unit saw what the previous one on its target left, failures and errored targets end in error, quiet targets keep their status); each target ends with the status the trace gives it; in a batch of deletions the fault script advances by one entry per call |
| Deploy.CallsOfDeletes | ecs/deploy.py:503-506 | A batch whose every unit deletes a service calls the cloud only to delete services |
| Deploy.MarkError | ecs/deploy.py:46 | The target's status becomes error |
| Deploy.DeregisterTaskDefinition | ecs/deploy.py:615-620 | Deregistration is sent exactly when there is an origin ARN and the definition differs; it fails exactly on a failing comparison or call |
| Deploy.WaitForStableService | ecs/deploy.py:623-638 | One wait call; a waiter timeout (or a service the cloud no longer has) marks the service as error and deregisters nothing; any other fault fails with the service unchanged; on success both counts become the service's desired count in the cloud and the old definition is deregistered as above |
| DeployManagement.SharedFamilyMeaning | ecs/deploy.py:725-729 | No family is reported exactly when no deploy service shares a family with a deploy task; otherwise the first such service's family is reported |
| DeployManagement.FindSharedFamily | ecs/deploy.py:725-729 | The nested loop finds that family |
| DeployManagement.EnvironmentOf | ecs/deploy.py:694-696 | A missing or null `environment` raises `VariableNotFoundException` |
| DeployManagement.JsonSpecs | ecs/service.py:203-204 | Each JSON definition becomes one service spec, in order, neither stopped first nor primary |
| DeployManagement.FirstIdentityError | ecs/service.py:203-204 | No error exactly when every definition yields a task environment and family |
| DeployManagement.BuildJsonServices | ecs/service.py:203-204 | Construction fails at the first bad definition; otherwise one fresh service per definition |
| DeployManagement.BuildTargets | ecs/deploy.py:699-713 | Fails exactly when the service list or the scheduled-task list of the configuration fails, with the service error first; otherwise the services and tasks are fresh and made, in order, from those two lists (`ListsMade`) |
| DeployManagement.GetDeployList | ecs/deploy.py:678-736 | Fails exactly when `DeployListError` says and with its error: the environment, then the lists, then a shared family, then an empty target set; otherwise the deploy lists are the group and template selections, share no family and are not both empty, the objects are fresh, the YAML lists are made from the configuration with the rendered environment, and the JSON services are made from the definitions with no tasks |
| DeployManagement.GetYamlDeployList | ecs/deploy.py:690-713 | On YAML: fails exactly as `YamlListError` says; the environment is rendered first, and the result is as `GetYamlTargets` gives it |
| DeployManagement.GetYamlTargets | ecs/deploy.py:699-736 | Once the environment is rendered: fails exactly as `TargetsError` says and with its error; otherwise the selections share no family, are not both empty, and come from lists made from the configuration |
| DeployManagement.GetJsonDeployList | ecs/deploy.py:715-736 | On JSON: fails exactly as `JsonListError` says (the `environment` key, the definitions, the first refused definition, an empty selection); otherwise one fresh service per definition, made from it, and no tasks |
| DeployManagement.Conclude | ecs/deploy.py:723-736 | The selections are refused exactly as `Refusal` says and with its error; otherwise the deploy list holds the lists, the selections and the environment |
| DeployManagement.Refusal | ecs/deploy.py:725-733 | No refusal exactly when the families share no name and are not both empty; a shared family is reported before the empty check |
| DeployManagement.SharedFamilyNames | ecs/deploy.py:725-729 | The duplicate check depends on the two lists of families alone |
| DeployManagement.RenderedEnvironment | ecs/deploy.py:694-697 | A missing or null environment is the error; otherwise the environment is the rendered text of its `str` |
| DeployManagement.SelectedServiceNames | ecs/service.py:162-180 | The families of the selected services are the families the two group filters admit, in order |
| DeployManagement.SelectedTaskNames | ecs/scheduled_tasks.py:167-178 | The same for scheduled tasks |
| DeployManagement.SelectedFamiliesMade | ecs/deploy.py:723 | Services made from specifications have, once selected, the families of the specifications the groups admit |
| DeployManagement.SelectedTaskFamiliesMade | ecs/deploy.py:712-713 | The same for scheduled tasks |
| DeployManagement.ListsRefusal | ecs/deploy.py:725-733 | Built lists are refused exactly as the specifications they were made from are |
| DeployManagement.ClampThreads | ecs/deploy.py:341-344 | The thread count is the smaller of the configured count and the number of targets |
| DeployManagement.PickMembers | ecs/deploy.py:352-363 | A service is in a group exactly when its stop-first flag (global and own) and primary flag select it |
| DeployManagement.PickSizes | ecs/deploy.py:352-363 | The four group sizes add up to the number of services |
| DeployManagement.PickWithoutStop | ecs/deploy.py:354 | Without the global flag both stop-first groups are empty |
| DeployManagement.PickAppend | ecs/deploy.py:352-363 | The grouping preserves input order |
| DeployManagement.PlacedOnce | ecs/deploy.py:354-363 | Each service goes to exactly one group |
| DeployManagement.PickPartition | ecs/deploy.py:352-363 | The four groups are a partition of the services (disjoint and total) |
| DeployManagement.ServiceUnits | ecs/deploy.py:574-575 | One unit per service with the phase's mode, in order |
| DeployManagement.DescribeUnits | ecs/deploy.py:523-524 | One fetch unit per description, in order |
| DeployManagement.TaskUnits | ecs/deploy.py:453-454 | One unit per scheduled task, in order |
| DeployManagement.RuleUnits | ecs/deploy.py:528-532 | One fetch unit per rule, in order |
| DeployManagement.RolloutOrder | ecs/deploy.py:571-585 | The primary deploy batch and its wait come before the remaining batch and its wait, each only when non-empty |
| DeployManagement.RolloutDeploys | ecs/deploy.py:571-585 | A rollout deploys each service of both groups once |
| DeployManagement.StopDeploysNothing | ecs/deploy.py:457-468 | The stop step deploys nothing |
| DeployManagement.ManagedMembers | ecs/deploy.py:528-529 | A rule is kept exactly when its description is the managed marker |
| DeployManagement.FirstBadState | ecs/scheduled_tasks.py:100 | No bad state exactly when every kept rule's state parses |
| DeployManagement.ManagedRules | ecs/deploy.py:527-532 | The managed rules become rule objects in order, failing at the first unknown state |
| DeployManagement.ErrorServices | ecs/deploy.py:602-604 | Non-empty exactly when some deploy service is in error |
| DeployManagement.ErrorTasks | ecs/deploy.py:605-607 | Non-empty exactly when some deploy task is in error |
| DeployManagement.DeleteRules | ecs/deploy.py:507-514 | The deletion passes exactly when every unused rule has a task environment and no call faults; then one delete call per rule, with the target its environment names, in order, and those rules are gone from the cloud; whatever the outcome, only rule-deletion calls are logged |
| DeployManagement.DeleteSplit | ecs/deploy.py:503-514 | The log of `_delete_unused` splits one way only into the service deletions and the rule deletions after them, so where the rule deletions began, and the fault script they met, are fixed by the log |
| DeployManagement.DeployManager.Create | ecs/deploy.py:282-289 | Constructing the manager makes exactly one `list_clusters` call and leaves the cloud unchanged; it fails exactly when that call faults; otherwise a fresh manager holding the cluster list, the arguments and their thread count, in its initial state |
| DeployManagement.DeployManager.constructor | ecs/deploy.py:282-325 | The manager starts with empty lists, the default flags and the configured thread count |
| DeployManagement.DeployManager.ServiceConfig | ecs/deploy.py:327-350 | Fails exactly when `get_deploy_list` does, with its error, and then changes nothing; otherwise the lists and flags come from the deploy list and the arguments and the thread count is clamped |
| DeployManagement.DeployManager.Configure | ecs/deploy.py:328-350 | The fields are set from the deploy list and the arguments |
| DeployManagement.DeployManager.SetDeployList | ecs/deploy.py:352-363 | The loop appends each group's services in order |
| DeployManagement.DeployManager.Place | ecs/deploy.py:354-363 | One service is appended to exactly its group |
| DeployManagement.DeployManager.DescribeCloud | ecs/deploy.py:518-532 | Fails exactly when a listing or describe call of a cluster faults while there are service targets, or the rule listing faults or holds a managed rule with an unknown state while there are task targets; on success the log gains exactly those calls, so nothing is called for an empty target kind, and the results are what the cloud holds |
| DeployManagement.DeployManager.FetchAll | ecs/deploy.py:516-536 | Fails exactly as `DescribeCloud` does; otherwise the fetch batch is joined and the fetched objects are fresh and what the cloud holds |
| DeployManagement.DeployManager.FetchEcsInformation | ecs/deploy.py:516-568 | Fails exactly when the describing fails or some fetched service or rule has no task environment; unless the describing fails, the fetched objects are what the cloud held (`Found`) and the matching's snapshot is their task environments after the fetch batch; after a pass the delete lists gain exactly the unmatched services and rules and every matched target takes its origin from its last match; only fetched services with a task environment are kept for deletion |
| DeployManagement.DeployManager.MatchAll | ecs/deploy.py:540-568 | Fails exactly when some observed service or rule has no task environment; otherwise both passes update the delete lists and origins as above |
| DeployManagement.DeployManager.MatchDescribed | ecs/deploy.py:540-554 | Fails exactly when some observed service has no task environment; otherwise the delete list gains the unmatched services and the matched targets take their origins; only described services with a task environment are kept for deletion |
| DeployManagement.DeployManager.MatchRulesFound | ecs/deploy.py:555-568 | Fails exactly when some observed rule has no task environment; otherwise the delete list gains the unmatched rules and the matched tasks take their origins |
| DeployManagement.DeployManager.JoinServices | ecs/deploy.py:595-599 | Enqueueing the services and joining records one batch |
| DeployManagement.DeployManager.JoinTasks | ecs/deploy.py:486-491 | Enqueueing the tasks and joining records one batch |
| DeployManagement.DeployManager.DeleteUnused | ecs/deploy.py:493-514 | With deletion off nothing is called and nothing changes; otherwise the service delete batch is joined (even when empty) and logs only service deletions, each meeting the next entry of the fault script; the rule deletions that follow log only rule deletions; the step fails exactly when an unused rule has no task environment or a delete call faults, judged on the rules as they stood and the script as the rule deletions met it; on success every unused rule is gone from the cloud |
| DeployManagement.DeployManager.Join | ecs/deploy.py:503-506 | The batch is recorded as joined; a batch of deletions logs only service deletions, each meeting the next entry of the fault script |
| DeployManagement.DeployManager.CheckDeploy | ecs/deploy.py:587-593 | One batch checks every deploy service and task, and the matching's snapshot still reads as fetched |
| DeployManagement.DeployManager.ScheduledTaskStep | ecs/deploy.py:450-455 | A task phase joins one batch holding every deploy task, and nothing when there are none |
| DeployManagement.DeployManager.StopBeforeDeployStep | ecs/deploy.py:457-468 | When either stop group is non-empty, both go into a single stop batch, followed by the primary group's wait and then the other group's wait |
| DeployManagement.DeployManager.Rollout | ecs/deploy.py:571-585 | The primary group is deployed and waited for before the remaining group |
| DeployManagement.DeployManager.ResultCheck | ecs/deploy.py:601-612 | The run exits with 1 exactly when some deploy target is in error or the error flag is set |
| DeployManagement.DeployManager.Inspect | ecs/deploy.py:392-400 | Fails exactly when the fetch (unless service-update-only) or the deletion (when on and neither update-only flag is set) fails; on a pass the fetch, delete and check batches are joined under those flags, and the groups are untouched; the fetch snapshots are pinned as in `FetchAndDelete` |
| DeployManagement.DeployManager.FetchAndDelete | ecs/deploy.py:392-397 | The fetch and delete steps: fails exactly as they do, and joins their batches; when the fetch runs and its describing passes, the fetched objects are what the cloud held and the matching read them as they now stand, except that of a service kept for deletion it is known only that it had a task environment (`ReadAsFetched`) |
| DeployManagement.DeployManager.FetchStep | ecs/deploy.py:392-393 | Fails exactly when an enabled fetch fails; the fetch batch is joined unless the run is service-update-only; when the fetch runs and its describing passes, the fetched objects are what the cloud held and the matching's snapshot is their task environments; only fetched services with a task environment are kept for deletion |
| DeployManagement.DeployManager.DeleteStep | ecs/deploy.py:395-397 | Fails exactly when an enabled deletion fails; the delete batch is joined only when deletion runs, and then the snapshots are pinned as in `DeleteUnused`; the matching's snapshot still reads as fetched |
| DeployManagement.DeployManager.GroupTargets | ecs/deploy.py:402 | The groups are exactly the partition of the deploy services, and the batches, the failure verdict and the fetch snapshots of the preparation are unchanged |
| DeployManagement.DeployManager.Prepare | ecs/deploy.py:390-402 | Fails exactly as `Inspect` does; on a pass the preparation joins its batches and leaves the groups partitioned; the fetch snapshots are pinned as in `FetchAndDelete` |
| DeployManagement.DeployManager.StopSteps | ecs/deploy.py:404-407 | Scheduled tasks are stopped only when neither update-only flag is set; the stop-before-deploy batches are joined unless the run is definition-only |
| DeployManagement.DeployManager.StartSteps | ecs/deploy.py:408-413 | The primary and remaining groups are rolled out, then the stop-first groups unless the run is definition-only, then the scheduled tasks when neither update-only flag is set |
| DeployManagement.DeployManager.Finish | ecs/deploy.py:404-416 | The deploy phases run; except for definition-only runs, the result fails exactly when a target is in error or the flag is set; the matching's snapshot still reads as fetched |
| DeployManagement.DeployManager.Run | ecs/deploy.py:389-416 | A refused deploy list fails with its error; otherwise a failing preparation fails the run, a definition-only run passes, and any other run fails exactly when a deploy target is in error or the flag is set; a passing run joins the flag-gated batches in order and leaves the groups partitioned; once the deploy list is accepted, the fetch snapshots are pinned as in `FetchAndDelete` |
| DeployManagement.DeployManager.Proceed | ecs/deploy.py:391-416 | Everything after the configuration: the same verdicts, batches and fetch snapshots as `Run` once the deploy list is accepted |
| DeployManagement.DeployManager.Launch | ecs/deploy.py:391-416 | The same as `Proceed`, starting from the selections `_service_config` leaves |
| DeployManagement.DeployManager.PrepareDeploysNothing | ecs/deploy.py:392-402 | Preparation deploys no service |
| DeployManagement.DeployManager.FetchDeploysNothing | ecs/deploy.py:516-536 | The fetch batch deploys no service |
| DeployManagement.DeployManager.CheckDeploysNothing | ecs/deploy.py:587-593 | The check batch deploys no service |
| DeployManagement.DeployManager.StopStepsDeployNothing | ecs/deploy.py:404-407 | The stop phases deploy no service |
| DeployManagement.DeployManager.StartStepsDeploy | ecs/deploy.py:408-413 | The start phases deploy both non-stop groups, and both stop groups unless the run is definition-only |
| DeployManagement.DeployManager.RunDeploys | ecs/deploy.py:389-416 | The whole run deploys those services |
| DeployManagement.DeployManager.DeployedOnce | ecs/deploy.py:389-416 | Every deploy service is deployed exactly once, unless the run is definition-only with stop-before-deploy on |
| DeployManagement.DeployManager.TaskDefinitionOnlySkipsStopped | ecs/deploy.py:404-413 | In a definition-only run a service is never deployed exactly when it is in a stop-first group |

## Left out

- The `aws` module (`AwsUtils` and its exceptions) is not part of this model. `Cloud` stands in for it: a small state plus a fault script, with assumed effects for each call. No row of the table describes `Cloud` itself.
- Threads, `Queue`, `task_done` and the polling loop are not modelled. One sequential `DeployProcess` drains each batch, and a join means the drain returns. With `threads_count` 0 the real tool would hang, and that case is not modelled.
- Printing, colours, `time.sleep`, the `datadiff` text and prompts are out. They affect output and timing only.
- `render.render_template`, `json.loads`/`dumps`, `str()` of non-scalars and YAML loading are not interpreted. They are fields of `Config.Renderer`, a parameter.
- `get_variables` lives in `ecs/utils.py`, which is not part of this model. It is modelled on `ecs/classes.py:105-127` and `ecs/service.py:507-529`, which agree.
- The helpers `adjust_container_definition` and `is_same_container_definition` are imported from `ecs/utils.py`, which is not part of this model. The `ecs/classes.py` versions are used.
- `DeployManager.delete`, `dry_run`, `test_templates` and the file reading of `get_service_list_json` are out. For JSON input, `BuildJsonServices` models only the service construction.
- The waiter's own attempts and delay (`service_wait_max_attempts`, `service_wait_delay`) are out. One wait call either succeeds or times out.
- The `Deploy` base class that the targets extend lives in a version of `ecs/classes.py` that is not part of this model. Every target's status therefore starts normal, and a `ScheduledTask`'s name is its family.
- `Deploy.DeployProcess.Process` requires each mode to be paired with its target kind, as the manager always enqueues them. Any other pairing does not occur.
- Deploy.DeployProcess.Drain: its trace of steps is ghost. The manager's `Join` keeps only the joined batch and, for a batch of deletions, that it logged only service deletions in step with the fault script. So the run-level contracts count queued units and do not restate each unit's calls.
- DeployManagement.DeployManager.FetchAndDelete does not restate the deletion's snapshots (`deleteObserved`, `deleteFaults`). `DeleteStep` pins them against the state, log and fault script the deletion began with. That point cannot be named from this method's start, because only a batch of deletions is tied call by call to the fault script; the fetch and check batches are not.
- DeployManagement.DeployManager.Inspect does not restate the deletion's snapshots (`deleteObserved`, `deleteFaults`). `DeleteStep` pins them against the state, log and fault script the deletion began with. That point cannot be named from this method's start, because only a batch of deletions is tied call by call to the fault script; the fetch and check batches are not.
- DeployManagement.DeployManager.Prepare does not restate the deletion's snapshots (`deleteObserved`, `deleteFaults`). `DeleteStep` pins them against the state, log and fault script the deletion began with. That point cannot be named from this method's start, because only a batch of deletions is tied call by call to the fault script; the fetch and check batches are not.
- DeployManagement.DeployManager.Proceed does not restate the deletion's snapshots (`deleteObserved`, `deleteFaults`). `DeleteStep` pins them against the state, log and fault script the deletion began with. That point cannot be named from this method's start, because only a batch of deletions is tied call by call to the fault script; the fetch and check batches are not.
- DeployManagement.DeployManager.Launch does not restate the deletion's snapshots (`deleteObserved`, `deleteFaults`). `DeleteStep` pins them against the state, log and fault script the deletion began with. That point cannot be named from this method's start, because only a batch of deletions is tied call by call to the fault script; the fetch and check batches are not.
- DeployManagement.DeployManager.Run does not restate the deletion's snapshots (`deleteObserved`, `deleteFaults`). `DeleteStep` pins them against the state, log and fault script the deletion began with. That point cannot be named from this method's start, because only a batch of deletions is tied call by call to the fault script; the fetch and check batches are not.
- DeployManagement.DeployManager.FetchAndDelete and the methods above it pin the matching's snapshot of a service kept for deletion only as having had a task environment. The deletion batch may change that object, and which task environments the deletion keeps is not stated.
- `DeployManagement.DeployManager.DescribeCloud`: the rules listing order is one fixed order of the cloud's rules.
- A non-string family sent to `update_service` is modelled as `TypeError` with no call, standing for request validation.
- The service and task lists are built in two loops: a value pass over the configured names, then construction. Construction cannot fail after a successful pass, so the outcome and its order are the same as the single loop's.
- The duplicate guard at `ecs/scheduled_tasks.py:194` compares names with task objects, so it never fires. Mapping keys are distinct, so this has no visible effect (`ScheduledBuilder.KeepAllIsKeepFrom`).
- A new service that is stopped before deploying follows the code. `update_service` reports not-found, and the service is then created at its configured count, not at 0. The documented scenario expects nothing to happen for a service that does not exist yet.
- In a definition-only run the stop-first groups are never deployed, as the flags in `run` dictate (`DeployManagement.DeployManager.TaskDefinitionOnlySkipsStopped`).
- A fetched description or rule without a task environment raises `AttributeError` in the matching loop. The model ends the pass at the first one. Matches made before it keep their updates.
- A missing `TARGET_LAMBDA_ARN` environment entry raises `AttributeError`, as the code does (`ScheduledTasks.TaskEnvironmentOfEntries`).
- `DeployManager.force` is used only by `delete`, which is out.
- Canon.SortEnvironment: when two or more entries are sorted, names that are all lists are refused with `TypeError`. Python compares lists element by element and would sort them. Dict and None names raise in Python too, as modelled.
- ScheduledTasks.TaskIdentity: a `family` that is present but not a string (for example `5`) is refused with `TypeError`, because the model names rules, running-task queries and matches by a string family. The constructor at `ecs/scheduled_tasks.py:119-142` accepts any family that is not `None`. Such a task would then fail on its own in its worker, at the first AWS call that names it.
- ScheduledTasks.ScheduledTask.Create: through `TaskIdentity`, a non-string `family` fails the construction, where the source constructs the task.
- ScheduledBuilder.BuildTaskOne: a non-string `family` fails the task's build with `TypeError`. So `ScheduledBuilder.GetScheduledTaskList`, and `DeployManagement.GetDeployList` with it, fail, and nothing is deployed. The source would deploy the services and mark only that task as in error.
- ScheduledBuilder.GetScheduledTaskList: the same non-string-family divergence, through `BuildTaskOne`.
- ScheduledBuilder.GetScheduledTaskList, ScheduledBuilder.BuildTaskOne, ScheduledBuilder.AssembleTaskParts, Deploy.DeployProcess.DeployScheduledTask, Deploy.DeployProcess.ReviseDefinition and Deploy.DeployProcess.CheckDeployScheduledTask use the corrected `TaskFrontOf`, `TargetLambdaArn` and `SameTaskDefinition` of the Findings. The end-to-end scheduled-task flow is therefore the intended program, not the shipped one. As shipped, `get_scheduled_task_list` never returns a task (the `NameError` at `ecs/scheduled_tasks.py:248`). A task with no rule yet would raise `TypeError` in `deploy_scheduled_task`. The as-written halves are kept beside the corrected ones.
- Py.PyInt and Text.ParseInt accept an optional sign, ASCII digits and the six whitespace characters space, tab, newline, carriage return, vertical tab and form feed. Python's `int()` also accepts underscores between digits (`"1_000"`), non-ASCII Unicode digits and the other characters `str.isspace` admits; the model raises `ValueError` for these. `Json` has no floats, so a configured `taskCount: 1.5` cannot be represented.
- The `TypeError` and `ValueError` arguments are short labels of the failing operation, not Python's exact messages. Only the exception class and, for `KeyError`, `AttributeError` and the tool's own exceptions, the name they carry are modelled.

## Findings

| source | as written | input that shows it | evidently intended | confidence | as-written member | corrected member |
|---|---|---|---|---|---|---|
| ecs/scheduled_tasks.py:161-164 | `is_same_task_definition` subscripts `origin_task_definition` without a `None` guard | a scheduled task with no rule yet in the cloud, so its origin is `None`, reaching `deploy_scheduled_task` | no origin means not the same, as `Service.is_same_task_definition` does | not executed | ScheduledTasks.SameTaskDefinitionAsWritten (ScheduledTasks.SameTaskDefinitionAsWrittenFailsWithoutOrigin) | ScheduledTasks.SameTaskDefinition |
| ecs/scheduled_tasks.py:273-278 | the `targetLambdaArn` check tests `schedule_expression`, which is never `None` there | a `cloudwatchEvent` with a `scheduleExpression` and no `targetLambdaArn` is accepted and rendered from `"None"` | a missing `targetLambdaArn` raises `ParameterNotFoundException` | not executed | ScheduledBuilder.TargetLambdaArnAsWritten (ScheduledBuilder.TargetCheckAsWrittenPasses) | ScheduledBuilder.TargetLambdaArn |
| ecs/scheduled_tasks.py:248 | placement constraints are read from `service_config`, a name not bound in `get_scheduled_task_list` | any scheduled task with `cluster` and a valid `taskCount` raises `NameError` | read from `task_config` | not executed | ScheduledBuilder.TaskFrontAsWritten (ScheduledBuilder.TaskFrontAsWrittenFails) | ScheduledBuilder.TaskFrontOf |
