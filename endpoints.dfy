/**
 * The endpoints of `RawSynchronousFlyteClient` (flytekit/clients/raw.py): each one is its stub
 * call wrapped in `_handle_rpc_error`, with its own retry flag, and the three entity-creating
 * endpoints also wrapped in `_handle_invalid_create_request`.
 */
module Endpoints {
  import opened Wrappers
  import opened PyStr
  import opened Rpc
  import opened Credentials
  import opened Refresh
  import opened Retry

  datatype Endpoint
    = CreateTask
    | ListTaskIdsPaginated
    | ListTasksPaginated
    | GetTask
    | CreateWorkflow
    | ListWorkflowIdsPaginated
    | ListWorkflowsPaginated
    | GetWorkflow
    | CreateLaunchPlan
    | GetLaunchPlan
    | GetActiveLaunchPlan
    | UpdateLaunchPlan
    | ListLaunchPlanIdsPaginated
    | ListLaunchPlansPaginated
    | ListActiveLaunchPlansPaginated
    | UpdateNamedEntity
    | CreateExecution
    | RecoverExecution
    | GetExecution
    | GetExecutionData
    | ListExecutionsPaginated
    | TerminateExecution
    | RelaunchExecution
    | GetNodeExecution
    | GetNodeExecutionData
    | ListNodeExecutionsPaginated
    | ListNodeExecutionsForTaskPaginated
    | GetTaskExecution
    | GetTaskExecutionData
    | ListTaskExecutionsPaginated
    | ListProjects
    | RegisterProject
    | UpdateProject
    | UpdateProjectDomainAttributes
    | UpdateWorkflowAttributes
    | GetProjectDomainAttributes
    | GetWorkflowAttributes
    | ListMatchableAttributes

  /** The verb that starts an endpoint's name. */
  datatype Verb = Create | Get | List | Update | Recover | Terminate | Relaunch | Register

  function VerbText(v: Verb): string {
    match v
    case Create => "create"
    case Get => "get"
    case List => "list"
    case Update => "update"
    case Recover => "recover"
    case Terminate => "terminate"
    case Relaunch => "relaunch"
    case Register => "register"
  }

  function VerbOf(e: Endpoint): Verb {
    match e
    case CreateTask => Create
    case ListTaskIdsPaginated => List
    case ListTasksPaginated => List
    case GetTask => Get
    case CreateWorkflow => Create
    case ListWorkflowIdsPaginated => List
    case ListWorkflowsPaginated => List
    case GetWorkflow => Get
    case CreateLaunchPlan => Create
    case GetLaunchPlan => Get
    case GetActiveLaunchPlan => Get
    case UpdateLaunchPlan => Update
    case ListLaunchPlanIdsPaginated => List
    case ListLaunchPlansPaginated => List
    case ListActiveLaunchPlansPaginated => List
    case UpdateNamedEntity => Update
    case CreateExecution => Create
    case RecoverExecution => Recover
    case GetExecution => Get
    case GetExecutionData => Get
    case ListExecutionsPaginated => List
    case TerminateExecution => Terminate
    case RelaunchExecution => Relaunch
    case GetNodeExecution => Get
    case GetNodeExecutionData => Get
    case ListNodeExecutionsPaginated => List
    case ListNodeExecutionsForTaskPaginated => List
    case GetTaskExecution => Get
    case GetTaskExecutionData => Get
    case ListTaskExecutionsPaginated => List
    case ListProjects => List
    case RegisterProject => Register
    case UpdateProject => Update
    case UpdateProjectDomainAttributes => Update
    case UpdateWorkflowAttributes => Update
    case GetProjectDomainAttributes => Get
    case GetWorkflowAttributes => Get
    case ListMatchableAttributes => List
  }

  /** The rest of the endpoint's name, after the verb and the underscore. */
  function ObjectOf(e: Endpoint): string {
    match e
    case CreateTask => "task"
    case ListTaskIdsPaginated => "task_ids_paginated"
    case ListTasksPaginated => "tasks_paginated"
    case GetTask => "task"
    case CreateWorkflow => "workflow"
    case ListWorkflowIdsPaginated => "workflow_ids_paginated"
    case ListWorkflowsPaginated => "workflows_paginated"
    case GetWorkflow => "workflow"
    case CreateLaunchPlan => "launch_plan"
    case GetLaunchPlan => "launch_plan"
    case GetActiveLaunchPlan => "active_launch_plan"
    case UpdateLaunchPlan => "launch_plan"
    case ListLaunchPlanIdsPaginated => "launch_plan_ids_paginated"
    case ListLaunchPlansPaginated => "launch_plans_paginated"
    case ListActiveLaunchPlansPaginated => "active_launch_plans_paginated"
    case UpdateNamedEntity => "named_entity"
    case CreateExecution => "execution"
    case RecoverExecution => "execution"
    case GetExecution => "execution"
    case GetExecutionData => "execution_data"
    case ListExecutionsPaginated => "executions_paginated"
    case TerminateExecution => "execution"
    case RelaunchExecution => "execution"
    case GetNodeExecution => "node_execution"
    case GetNodeExecutionData => "node_execution_data"
    case ListNodeExecutionsPaginated => "node_executions_paginated"
    case ListNodeExecutionsForTaskPaginated => "node_executions_for_task_paginated"
    case GetTaskExecution => "task_execution"
    case GetTaskExecutionData => "task_execution_data"
    case ListTaskExecutionsPaginated => "task_executions_paginated"
    case ListProjects => "projects"
    case RegisterProject => "project"
    case UpdateProject => "project"
    case UpdateProjectDomainAttributes => "project_domain_attributes"
    case UpdateWorkflowAttributes => "workflow_attributes"
    case GetProjectDomainAttributes => "project_domain_attributes"
    case GetWorkflowAttributes => "workflow_attributes"
    case ListMatchableAttributes => "matchable_attributes"
  }

  /** The method's name on the client, such as `create_task` or `list_projects`. */
  function Name(e: Endpoint): string {
    VerbText(VerbOf(e)) + "_" + ObjectOf(e)
  }

  /** The `retry` argument given to `_handle_rpc_error` on the endpoint. */
  function RetryFlag(e: Endpoint): (r: bool)
    ensures r <==> VerbOf(e) == Get || VerbOf(e) == List
  {
    match e
    case CreateTask => false
    case ListTaskIdsPaginated => true
    case ListTasksPaginated => true
    case GetTask => true
    case CreateWorkflow => false
    case ListWorkflowIdsPaginated => true
    case ListWorkflowsPaginated => true
    case GetWorkflow => true
    case CreateLaunchPlan => false
    case GetLaunchPlan => true
    case GetActiveLaunchPlan => true
    case UpdateLaunchPlan => false
    case ListLaunchPlanIdsPaginated => true
    case ListLaunchPlansPaginated => true
    case ListActiveLaunchPlansPaginated => true
    case UpdateNamedEntity => false
    case CreateExecution => false
    case RecoverExecution => false
    case GetExecution => true
    case GetExecutionData => true
    case ListExecutionsPaginated => true
    case TerminateExecution => false
    case RelaunchExecution => false
    case GetNodeExecution => true
    case GetNodeExecutionData => true
    case ListNodeExecutionsPaginated => true
    case ListNodeExecutionsForTaskPaginated => true
    case GetTaskExecution => true
    case GetTaskExecutionData => true
    case ListTaskExecutionsPaginated => true
    case ListProjects => true
    case RegisterProject => false
    case UpdateProject => false
    case UpdateProjectDomainAttributes => false
    case UpdateWorkflowAttributes => false
    case GetProjectDomainAttributes => true
    case GetWorkflowAttributes => true
    case ListMatchableAttributes => true
  }

  /** Whether the endpoint is also wrapped in `_handle_invalid_create_request`. */
  function CreateWrapped(e: Endpoint): (r: bool)
    ensures r ==> VerbOf(e) == Create && !RetryFlag(e)
  {
    e == CreateTask || e == CreateWorkflow || e == CreateLaunchPlan
  }

  /** A name starts with `get_`, `list_` or `create_` exactly when its verb is that one. */
  lemma VerbPrefixes(v: Verb, rest: string)
    ensures StartsWith(VerbText(v) + "_" + rest, "get_") <==> v == Get
    ensures StartsWith(VerbText(v) + "_" + rest, "list_") <==> v == List
    ensures StartsWith(VerbText(v) + "_" + rest, "create_") <==> v == Create
  {
    var s := VerbText(v) + "_" + rest;
    assert s[0] == VerbText(v)[0];
    if v == Get {
      assert s[..4] == "get_";
    } else if v == List {
      assert s[..5] == "list_";
    } else if v == Create {
      assert s[..7] == "create_";
    } else {
      assert s[1] == VerbText(v)[1];
    }
  }

  /** Exactly the reads are retried on transient failures: the `get_` and `list_` endpoints. */
  lemma RetriedExactlyReads(e: Endpoint)
    ensures RetryFlag(e) <==> StartsWith(Name(e), "get_") || StartsWith(Name(e), "list_")
  {
    VerbPrefixes(VerbOf(e), ObjectOf(e));
  }

  /**
   * Only entity-creating endpoints carry the invalid-request wrapper, and none of them retries;
   * `create_execution` is a create endpoint without it.
   */
  lemma CreateWrappedEndpoints(e: Endpoint)
    ensures CreateWrapped(e) ==> StartsWith(Name(e), "create_") && !RetryFlag(e)
    ensures StartsWith(Name(CreateExecution), "create_") && !CreateWrapped(CreateExecution)
  {
    if CreateWrapped(e) {
      assert VerbOf(e) == Create && !RetryFlag(e);
      VerbPrefixes(Create, ObjectOf(e));
    }
    VerbPrefixes(Create, ObjectOf(CreateExecution));
  }

  /** What the retry loop sees of an endpoint's successive stub calls. */
  function SeenOutcomes(e: Endpoint, outcomes: seq<RpcOutcome>): (r: seq<RpcOutcome>)
    ensures |r| == |outcomes|
  {
    if CreateWrapped(e) then GuardAll(outcomes) else outcomes
  }

  /** One call of endpoint `e` on `client`, its stub answering as `outcomes` say. */
  method Invoke(e: Endpoint, cfg: Config, client: FlyteClient, auth: AuthorizationClient,
                outcomes: seq<RpcOutcome>, answers: seq<ForeignAnswers>)
    returns (result: CallResult, trace: seq<Action>)
    requires MaxRetries <= |outcomes| && MaxRetries <= |answers|
    modifies client, auth
    ensures var run := Invocation(RetryFlag(e), cfg, client.publicClientConfig, client.oauth2Metadata,
                                  SeenOutcomes(e, outcomes), answers, old(SessionOf(client, auth)));
      result == run.result && trace == run.trace && SessionOf(client, auth) == run.session
  {
    result, trace := HandleRpcError(RetryFlag(e), cfg, client, auth, SeenOutcomes(e, outcomes), answers);
  }

  /**
   * A wrapped create endpoint returns `None` whenever the plain stub would have returned, and
   * otherwise raises, sleeps and refreshes exactly as without the inner wrapper.
   */
  lemma CreateReturnsNone(e: Endpoint, cfg: Config, pcc: Option<PublicClientConfig>, oauth: Option<OAuth2Metadata>,
                          outcomes: seq<RpcOutcome>, answers: seq<ForeignAnswers>, s: Session)
    requires MaxRetries <= |outcomes| && MaxRetries <= |answers|
    requires CreateWrapped(e)
    ensures var plain := Invocation(RetryFlag(e), cfg, pcc, oauth, outcomes, answers, s);
      var wrapped := Invocation(RetryFlag(e), cfg, pcc, oauth, SeenOutcomes(e, outcomes), answers, s);
      && wrapped.trace == plain.trace && wrapped.session == plain.session
      && (plain.result.Returned? <==> wrapped.result == Returned(PyNone))
      && (plain.result.Raised? ==> wrapped.result == plain.result)
  {
    GuardedAttempts(0, RetryFlag(e), cfg.authMode, RefresherFor(cfg, pcc, oauth), outcomes, answers, s);
  }
}
