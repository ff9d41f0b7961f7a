/** Converting between a workflow run's domain entity and its database row:
    `WorkflowExecutionToRunAdapter`. */
module RunAdapter {
  import opened Common
  import opened WorkflowRecords

  /** The status strings the adapter's table lists. */
  const KnownStatuses: set<string> := {"running", "succeeded", "failed", "stopped", "partial-succeeded"}

  /** `status_mapping.get(execution.status, "running")` */
  function StatusToRun(s: ExecutionStatus): (r: string)
    ensures r in KnownStatuses
    ensures !s.OtherStatus? ==> r == StatusValue(s)
    ensures s.OtherStatus? ==> r == "running"
  {
    match s
    case Running => "running"
    case Succeeded => "succeeded"
    case Failed => "failed"
    case Stopped => "stopped"
    case PartialSucceeded => "partial-succeeded"
    case OtherStatus(_) => "running"
  }

  /** `status_mapping.get(workflow_run.status, WorkflowExecutionStatus.RUNNING)` */
  function StatusFromRun(s: string): (r: ExecutionStatus)
    ensures !r.OtherStatus?
    ensures s !in KnownStatuses ==> r == Running
  {
    if s == "succeeded" then Succeeded
    else if s == "failed" then Failed
    else if s == "stopped" then Stopped
    else if s == "partial-succeeded" then PartialSucceeded
    else Running
  }

  /** The two tables are inverse on the five statuses they list. */
  lemma StatusRoundTrip(s: ExecutionStatus, v: string)
    ensures !s.OtherStatus? ==> StatusFromRun(StatusToRun(s)) == s
    ensures v in KnownStatuses ==> StatusToRun(StatusFromRun(v)) == v
  {
  }

  /** `json.dumps(v) if v else None` */
  function Encoded(v: Value): (r: Option<JsonText>)
    ensures r.None? <==> !Truthy(v)
    ensures r.Some? ==> r.value.decoded == v
  {
    if Truthy(v) then Some(JsonText(v)) else None
  }

  /** `to_workflow_run`: the entity's fields, with the context fields taken
      from the arguments; `elapsedTime` is the entity's elapsed time. */
  function ToWorkflowRun(e: WorkflowExecution, tenantId: string, appId: string, triggeredFrom: string,
                         createdByRole: string, createdBy: string, elapsedTime: real): (r: WorkflowRun)
    ensures r.tenantId == tenantId && r.appId == appId && r.triggeredFrom == triggeredFrom
    ensures r.createdByRole == createdByRole && r.createdBy == createdBy
    ensures r.graph.None? <==> !Truthy(e.graph)
    ensures r.inputs.None? <==> !Truthy(e.inputs)
    ensures r.outputs.None? <==> !Truthy(e.outputs)
    ensures r.status in KnownStatuses
  {
    WorkflowRun(
      id := e.id, tenantId := tenantId, appId := appId, workflowId := e.workflowId,
      runType := e.workflowType, triggeredFrom := triggeredFrom, version := e.workflowVersion,
      graph := Encoded(e.graph), inputs := Encoded(e.inputs), status := StatusToRun(e.status),
      outputs := Encoded(e.outputs), error := Some(e.errorMessage), elapsedTime := elapsedTime,
      totalTokens := e.totalTokens, totalSteps := e.totalSteps,
      createdByRole := createdByRole, createdBy := createdBy,
      createdAt := Some(e.startedAt), finishedAt := e.finishedAt, exceptionsCount := e.exceptionsCount)
  }

  /** `from_workflow_run`. `workflowTypes` holds the values of the
      `WorkflowType` enumeration. `WorkflowType(workflow_run.type)` is
      evaluated first, among the entity's arguments, and raises for any other
      string. The entity also requires a start time, so a row without
      `created_at` fails the entity's validation. */
  function FromWorkflowRun(run: WorkflowRun, workflowTypes: set<string>): (r: Result<WorkflowExecution>)
    ensures r.Ok? <==> run.runType in workflowTypes && run.createdAt.Some?
    ensures run.runType !in workflowTypes ==> r == Err(ValueError("'" + run.runType + "' is not a valid WorkflowType"))
    ensures r.Ok? ==> r.value.workflowType == run.runType && r.value.status == StatusFromRun(run.status)
    ensures r.Ok? ==> (r.value.errorMessage == "" <==> run.error.None? || run.error == Some(""))
  {
    if run.runType !in workflowTypes then Err(ValueError("'" + run.runType + "' is not a valid WorkflowType"))
    else if run.createdAt.None? then Err(ValueError("started_at: Input should be a valid datetime"))
    else
      Ok(WorkflowExecution(
        id := run.id, workflowId := run.workflowId, workflowVersion := run.version,
        workflowType := run.runType,
        graph := DictView(run.graph), inputs := DictView(run.inputs), outputs := DictView(run.outputs),
        status := StatusFromRun(run.status),
        errorMessage := if run.error.Some? then run.error.value else "",
        totalTokens := run.totalTokens, totalSteps := run.totalSteps, exceptionsCount := run.exceptionsCount,
        startedAt := run.createdAt.value, finishedAt := run.finishedAt))
  }

  /** An entity whose graph, inputs and outputs are mappings, whose status
      the tables list and whose type is a `WorkflowType` value (as the
      entity's own field type demands) survives the trip to a row and back
      unchanged. */
  lemma AdapterRoundTrip(e: WorkflowExecution, tenantId: string, appId: string, triggeredFrom: string,
                         createdByRole: string, createdBy: string, elapsedTime: real, workflowTypes: set<string>)
    requires e.graph.Dict? && e.inputs.Dict? && e.outputs.Dict?
    requires !e.status.OtherStatus? && e.workflowType in workflowTypes
    ensures FromWorkflowRun(ToWorkflowRun(e, tenantId, appId, triggeredFrom, createdByRole, createdBy, elapsedTime),
                            workflowTypes) == Ok(e)
  {
  }

  /** Each field the adapter copies is the same on both sides: from entity to
      row, and from row back to entity. */
  lemma FieldsCopied(e: WorkflowExecution, run: WorkflowRun, tenantId: string, appId: string, triggeredFrom: string,
                     createdByRole: string, createdBy: string, elapsedTime: real, workflowTypes: set<string>)
    ensures var r := ToWorkflowRun(e, tenantId, appId, triggeredFrom, createdByRole, createdBy, elapsedTime);
            r.id == e.id && r.createdAt == Some(e.startedAt) && r.finishedAt == e.finishedAt &&
            r.totalTokens == e.totalTokens && r.totalSteps == e.totalSteps &&
            r.exceptionsCount == e.exceptionsCount && r.error == Some(e.errorMessage)
    ensures FromWorkflowRun(run, workflowTypes).Ok? ==>
              var x := FromWorkflowRun(run, workflowTypes).value;
              x.id == run.id && Some(x.startedAt) == run.createdAt && x.finishedAt == run.finishedAt &&
              x.totalTokens == run.totalTokens && x.totalSteps == run.totalSteps &&
              x.exceptionsCount == run.exceptionsCount
  {
  }
}
