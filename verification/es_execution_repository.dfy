/** The execution repository over the log store:
    `ElasticsearchWorkflowExecutionRepository`. It writes each workflow
    execution as a run document, where the run repository reads runs. */
module EsExecutionRepository {
  import opened Common
  import opened WorkflowRecords
  import opened EsClient
  import EsRunRepository
  import RunAdapter

  const DefaultPrefix: string := "dify-workflow-executions"

  /** What the repository writes into every document besides the execution
      itself: the user's tenant, the app and trigger, and the creating
      user. */
  datatype Scope = Scope(
    tenantId: string,
    appId: string,
    triggeredFrom: string,
    creatorId: string,
    creatorRole: CreatorRole)

  /** The elapsed time written for an execution: the seconds between its
      start and its finish, or `0.0` while it runs. `span` is the datetime
      subtraction `(finished - started).total_seconds()`. */
  function ElapsedTime(e: WorkflowExecution, span: (Instant, Instant) -> real): (r: real)
    ensures e.finishedAt.None? ==> r == 0.0
    ensures e.finishedAt.Some? ==> r == span(e.startedAt, e.finishedAt.value)
  {
    if e.finishedAt.Some? then span(e.startedAt, e.finishedAt.value) else 0.0
  }

  /** `error_message or None`: an empty message is no error. */
  function ErrorValue(message: string): (r: Value)
    ensures r == Null <==> message == ""
    ensures r != Null ==> r == Str(message)
  {
    if message == "" then Null else Str(message)
  }

  /** The run document an execution is written as, before `None` values are
      dropped. */
  function RunDocument(scope: Scope, e: WorkflowExecution, span: (Instant, Instant) -> real): Doc {
    map[
      "id" := Str(e.id),
      "tenant_id" := Str(scope.tenantId),
      "app_id" := Str(scope.appId),
      "workflow_id" := Str(e.workflowId),
      "type" := Str(e.workflowType),
      "triggered_from" := Str(scope.triggeredFrom),
      "version" := Str(e.workflowVersion),
      "graph" := e.graph,
      "inputs" := e.inputs,
      "status" := Str(StatusValue(e.status)),
      "outputs" := e.outputs,
      "error" := ErrorValue(e.errorMessage),
      "elapsed_time" := Real(ElapsedTime(e, span)),
      "total_tokens" := Int(e.totalTokens),
      "total_steps" := Int(e.totalSteps),
      "created_by_role" := Str(RoleValue(scope.creatorRole)),
      "created_by" := Str(scope.creatorId),
      "created_at" := Time(e.startedAt),
      "finished_at" := OptTime(e.finishedAt),
      "exceptions_count" := Int(e.exceptionsCount)
    ]
  }

  /** `_to_workflow_run_document`: the run document without its `None`
      values. */
  function ToWorkflowRunDocument(scope: Scope, e: WorkflowExecution, span: (Instant, Instant) -> real): Doc {
    DropNulls(RunDocument(scope, e, span))
  }

  /** The run row an execution's document stands for: the JSON fields stored
      as they are, the error only when there is a message, the start as the
      creation time. */
  function RunOf(scope: Scope, e: WorkflowExecution, span: (Instant, Instant) -> real): (run: WorkflowRun)
    ensures run.id == e.id && run.tenantId == scope.tenantId && run.createdAt == Some(e.startedAt)
  {
    WorkflowRun(
      id := e.id, tenantId := scope.tenantId, appId := scope.appId, workflowId := e.workflowId,
      runType := e.workflowType, triggeredFrom := scope.triggeredFrom, version := e.workflowVersion,
      graph := Some(JsonText(e.graph)), inputs := Some(JsonText(e.inputs)), status := StatusValue(e.status),
      outputs := Some(JsonText(e.outputs)), error := if e.errorMessage == "" then None else Some(e.errorMessage),
      elapsedTime := ElapsedTime(e, span), totalTokens := e.totalTokens, totalSteps := e.totalSteps,
      createdByRole := RoleValue(scope.creatorRole), createdBy := scope.creatorId,
      createdAt := Some(e.startedAt), finishedAt := e.finishedAt, exceptionsCount := e.exceptionsCount)
  }

  /** An execution's document is exactly the document the run repository
      writes for the run it stands for. */
  lemma DocumentIsRunDocument(scope: Scope, e: WorkflowExecution, span: (Instant, Instant) -> real)
    ensures ToWorkflowRunDocument(scope, e, span) == EsRunRepository.ToEsDocument(RunOf(scope, e, span))
  {
    var run := RunOf(scope, e, span);
    assert OptStr(run.error) == ErrorValue(e.errorMessage);
    assert RunDocument(scope, e, span) == EsRunRepository.RunDocument(run);
  }

  /** The run repository reads an execution's document back as the run it
      stands for, provided its JSON fields are not `None`. */
  lemma ReadableAsRun(scope: Scope, e: WorkflowExecution, span: (Instant, Instant) -> real)
    requires e.graph != Null && e.inputs != Null && e.outputs != Null
    ensures EsRunRepository.FromEsDocument(ToWorkflowRunDocument(scope, e, span)) ==
            Ok(EsRunRepository.FieldsOf(RunOf(scope, e, span)))
  {
    DocumentIsRunDocument(scope, e, span);
    EsRunRepository.EsRoundTrip(RunOf(scope, e, span));
  }

  /** The run stood for is the adapter's run row whenever the JSON fields are
      non-empty, there is an error message and the status is one the
      adapter's table lists. */
  lemma MatchesAdapter(scope: Scope, e: WorkflowExecution, span: (Instant, Instant) -> real)
    requires Truthy(e.graph) && Truthy(e.inputs) && Truthy(e.outputs)
    requires e.errorMessage != "" && !e.status.OtherStatus?
    ensures RunOf(scope, e, span) ==
            RunAdapter.ToWorkflowRun(e, scope.tenantId, scope.appId, scope.triggeredFrom,
                                     RoleValue(scope.creatorRole), scope.creatorId, ElapsedTime(e, span))
  {
  }

  /** The index an execution is saved in: the run indices' month of its
      start, whatever the repository's own prefix. */
  function RunIndex(tenantId: string, e: WorkflowExecution): (r: string)
    ensures StartsWith(r, EsRunRepository.DefaultPrefix + "-" + tenantId + "-")
    ensures LastSegment(r, '-') == YearMonth(e.startedAt)
  {
    IndexName(EsRunRepository.DefaultPrefix, tenantId, e.startedAt)
  }

  class ExecutionRepository {
    const client: Client
    const prefix: string
    const scope: Scope

    constructor (client: Client, prefix: string, scope: Scope)
      ensures this.client == client && this.prefix == prefix && this.scope == scope
    {
      this.client := client;
      this.prefix := prefix;
      this.scope := scope;
    }

    /** `save`: one index request of the run document into the run
        indices. */
    method Save(e: WorkflowExecution, span: (Instant, Instant) -> real) returns (r: Result<()>)
      modifies client
      ensures client.log == old(client.log) + [IndexDoc(RunIndex(scope.tenantId, e), e.id, ToWorkflowRunDocument(scope, e, span))]
      ensures r.Ok? <==> !Raises(client.answer(client.log))
    {
      var reply := client.Call(IndexDoc(RunIndex(scope.tenantId, e), e.id, ToWorkflowRunDocument(scope, e, span)));
      if Raises(reply) {
        return Err(Raise(reply));
      }
      r := Ok(());
    }
  }

  /** The repository's construction: the process-wide client must be
      configured and the user must belong to a tenant; the index template is
      installed under the repository's own prefix. */
  method NewExecutionRepository(global: Client?, user: User, appId: string, triggeredFrom: string, prefix: string)
    returns (r: Result<ExecutionRepository>)
    modifies global
    ensures global == null ==> r == Err(ValueError("Elasticsearch client is not available. Please check your configuration."))
    ensures global != null && !Given(user.tenantId) ==>
              r == Err(ValueError("User must have a tenant_id or current_tenant_id")) && global.log == old(global.log)
    ensures global != null && Given(user.tenantId) ==>
              global.log == old(global.log) + [PutTemplate(prefix + "-template", [prefix + "-*"])] &&
              (r.Ok? <==> !Raises(global.answer(global.log)))
    ensures r.Ok? ==>
              fresh(r.value) && r.value.client == global && r.value.prefix == prefix &&
              r.value.scope == Scope(user.tenantId.value, appId, triggeredFrom, user.id, RoleOf(user))
  {
    if global == null {
      return Err(ValueError("Elasticsearch client is not available. Please check your configuration."));
    }
    if !Given(user.tenantId) {
      return Err(ValueError("User must have a tenant_id or current_tenant_id"));
    }
    var repo := new ExecutionRepository(global, prefix, Scope(user.tenantId.value, appId, triggeredFrom, user.id, RoleOf(user)));
    var ensured := EnsureIndexTemplate(global, prefix);
    if ensured.Err? {
      return Err(ensured.error);
    }
    r := Ok(repo);
  }
}
