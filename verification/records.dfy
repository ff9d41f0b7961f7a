/** The workflow records that are shaped for and read back from the log store:
    JSON-like values, store documents, and the run, app-log and node-execution
    entities in their domain and database forms. */
module WorkflowRecords {
  import opened Common

  /** A JSON-compatible value as a store document holds it. `Real` is a
      float without rounding; `Time(t)` is the ISO text of `t`
      (`t.isoformat()`), kept as the instant it denotes so that
      `fromisoformat` inverts it. */
  datatype Value =
    | Null
    | Bool(b: bool)
    | Int(i: int)
    | Real(r: real)
    | Str(s: string)
    | Time(t: Instant)
    | List(items: seq<Value>)
    | Dict(entries: map<string, Value>)

  /** A document: a dictionary from field names to values. */
  type Doc = map<string, Value>

  const EmptyDict: Value := Dict(map[])

  /** Python truthiness of a value. */
  predicate Truthy(v: Value) {
    match v
    case Null => false
    case Bool(b) => b
    case Int(i) => i != 0
    case Real(r) => r != 0.0
    case Str(s) => s != ""
    case Time(_) => true
    case List(items) => items != []
    case Dict(entries) => entries != map[]
  }

  /** `json.dumps(v)`: JSON text, kept as the value it encodes. */
  datatype JsonText = JsonText(decoded: Value)

  /** An optional string argument that is given and non-empty: Python's
      `if s:`. */
  predicate Given(s: Option<string>) {
    s.Some? && s.value != ""
  }

  /** An optional string as a document value. */
  function OptStr(s: Option<string>): Value {
    if s.Some? then Str(s.value) else Null
  }

  /** An optional instant as a document value: its ISO text, or `None`. */
  function OptTime(t: Option<Instant>): Value {
    if t.Some? then Time(t.value) else Null
  }

  /** `{k: v for k, v in doc.items() if v is not None}` */
  function DropNulls(doc: Doc): (r: Doc)
    ensures forall k :: k in r <==> k in doc && doc[k] != Null
    ensures forall k :: k in r ==> r[k] == doc[k]
  {
    map k | k in doc && doc[k] != Null :: doc[k]
  }

  /** `d.get(key, default)` */
  function GetOr(d: Doc, key: string, default: Value): Value {
    if key in d then d[key] else default
  }

  /** `d.get(key)` */
  function Get(d: Doc, key: string): Value {
    GetOr(d, key, Null)
  }

  /** `doc.get("_source", doc)`: a search hit wraps the stored document under
      `_source`; a document read directly is used as it is. */
  function SourceOf(doc: Doc): (r: Result<Doc>)
    ensures "_source" !in doc ==> r == Ok(doc)
    ensures "_source" in doc && doc["_source"].Dict? ==> r == Ok(doc["_source"].entries)
  {
    if "_source" !in doc then Ok(doc)
    else if doc["_source"].Dict? then Ok(doc["_source"].entries)
    else Err(TypeError("_source is not a dictionary"))
  }

  /** `source[key]`: a missing key raises `KeyError`. */
  function Required(source: Doc, key: string): (r: Result<Value>)
    ensures r.Ok? <==> key in source
    ensures r.Ok? ==> r.value == source[key]
  {
    if key in source then Ok(source[key]) else Err(KeyError(key))
  }

  /** A stored string, read back into a field that holds one. */
  function AsStr(v: Value): (r: Result<string>)
    ensures r.Ok? <==> v.Str?
    ensures r.Ok? ==> v == Str(r.value)
  {
    if v.Str? then Ok(v.s) else Err(TypeError("expected a string"))
  }

  /** A stored optional string: `None` or a string. */
  function AsOptStr(v: Value): (r: Result<Option<string>>)
    ensures r.Ok? <==> v.Null? || v.Str?
    ensures r.Ok? ==> OptStr(r.value) == v
  {
    if v.Null? then Ok(None) else if v.Str? then Ok(Some(v.s)) else Err(TypeError("expected a string or None"))
  }

  /** A stored integer. */
  function AsInt(v: Value): (r: Result<int>)
    ensures r.Ok? <==> v.Int?
    ensures r.Ok? ==> v == Int(r.value)
  {
    if v.Int? then Ok(v.i) else Err(TypeError("expected an integer"))
  }

  /** A stored float; an integer is widened to a float. */
  function AsReal(v: Value): (r: Result<real>)
    ensures r.Ok? <==> v.Real? || v.Int?
    ensures v.Real? ==> r == Ok(v.r)
  {
    if v.Real? then Ok(v.r) else if v.Int? then Ok(v.i as real) else Err(TypeError("expected a number"))
  }

  /** A stored optional instant: `None`, or the ISO text of an instant. */
  function AsOptTime(v: Value): (r: Result<Option<Instant>>)
    ensures r.Ok? <==> v.Null? || v.Time?
    ensures r.Ok? ==> OptTime(r.value) == v
  {
    if v.Null? then Ok(None) else if v.Time? then Ok(Some(v.t)) else Err(TypeError("expected a datetime or None"))
  }

  /** `datetime.fromisoformat(source[key]) if source.get(key) else None`: a
      present, truthy value that is not ISO text cannot be parsed. */
  function ParsedTime(source: Doc, key: string): (r: Result<Value>)
    ensures !Truthy(Get(source, key)) ==> r == Ok(Null)
    ensures Get(source, key).Time? ==> r == Ok(Get(source, key))
  {
    var v := Get(source, key);
    if !Truthy(v) then Ok(Null)
    else if v.Time? then Ok(v)
    else Err(ValueError("Invalid isoformat string"))
  }

  // ---------------------------------------------------------------------------
  // Workflow runs
  // ---------------------------------------------------------------------------

  /** `WorkflowExecutionStatus`; `OtherStatus` stands for any member the
      adapter's table does not list. */
  datatype ExecutionStatus = Running | Succeeded | Failed | Stopped | PartialSucceeded | OtherStatus(value: string)

  /** The enumeration's own `.value` strings. */
  function StatusValue(s: ExecutionStatus): string {
    match s
    case Running => "running"
    case Succeeded => "succeeded"
    case Failed => "failed"
    case Stopped => "stopped"
    case PartialSucceeded => "partial-succeeded"
    case OtherStatus(v) => v
  }

  /** The domain entity of one workflow run. Its elapsed time is not a field:
      the entity derives it from its timestamps and the clock. */
  datatype WorkflowExecution = WorkflowExecution(
    id: string,
    workflowId: string,
    workflowVersion: string,
    workflowType: string,
    graph: Value,
    inputs: Value,
    outputs: Value,
    status: ExecutionStatus,
    errorMessage: string,
    totalTokens: int,
    totalSteps: int,
    exceptionsCount: int,
    startedAt: Instant,
    finishedAt: Option<Instant>)

  /** The database row of one workflow run; graph, inputs and outputs are
      stored as JSON text. */
  datatype WorkflowRun = WorkflowRun(
    id: string,
    tenantId: string,
    appId: string,
    workflowId: string,
    runType: string,
    triggeredFrom: string,
    version: string,
    graph: Option<JsonText>,
    inputs: Option<JsonText>,
    status: string,
    outputs: Option<JsonText>,
    error: Option<string>,
    elapsedTime: real,
    totalTokens: int,
    totalSteps: int,
    createdByRole: string,
    createdBy: string,
    createdAt: Option<Instant>,
    finishedAt: Option<Instant>,
    exceptionsCount: int)

  /** The row's `graph_dict`/`inputs_dict`/`outputs_dict` view of a JSON
      column: the decoded value, or an empty dictionary when the column is
      empty. */
  function DictView(column: Option<JsonText>): Value {
    if column.Some? then column.value.decoded else EmptyDict
  }

  // ---------------------------------------------------------------------------
  // App logs
  // ---------------------------------------------------------------------------

  /** The database row linking an app to one of its workflow runs. */
  datatype WorkflowAppLog = WorkflowAppLog(
    id: string,
    tenantId: string,
    appId: string,
    workflowId: string,
    workflowRunId: string,
    createdFrom: string,
    createdByRole: string,
    createdBy: string,
    createdAt: Option<Instant>)

  // ---------------------------------------------------------------------------
  // Node executions
  // ---------------------------------------------------------------------------

  /** The domain entity of one node execution. Its data fields hold `Null`
      for `None`. */
  datatype NodeExecution = NodeExecution(
    id: string,
    nodeExecutionId: Option<string>,
    workflowId: string,
    workflowExecutionId: Option<string>,
    index: int,
    predecessorNodeId: Option<string>,
    nodeId: string,
    nodeType: string,
    title: string,
    inputs: Value,
    processData: Value,
    outputs: Value,
    status: string,
    error: Option<string>,
    elapsedTime: real,
    metadata: Value,
    createdAt: Option<Instant>,
    finishedAt: Option<Instant>)

  /** Who created a record: `CreatorUserRole`. */
  datatype CreatorRole = Account | EndUser

  function RoleValue(r: CreatorRole): string {
    match r
    case Account => "account"
    case EndUser => "end_user"
  }

  /** The user a repository acts for: an account or an end user, with the
      tenant `extract_tenant_id` finds for it. */
  datatype User = User(id: string, isAccount: bool, tenantId: Option<string>)

  /** The creator role of a user: an account, or else an end user. */
  function RoleOf(user: User): (r: CreatorRole)
    ensures r == Account <==> user.isAccount
  {
    if user.isAccount then Account else EndUser
  }
}
