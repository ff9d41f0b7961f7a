/** The node-execution repository over the log store:
    `ElasticsearchWorkflowNodeExecutionRepository`. It acts for one user of
    one tenant, optionally one app and one trigger, and keeps the executions
    it has saved or read in an in-memory cache by id. */
module EsNodeExecutionRepository {
  import opened Common
  import opened WorkflowRecords
  import opened EsClient

  const DefaultPrefix: string := "dify-workflow-node-executions"

  /** How many hits `get_by_workflow_run` asks for. */
  const MaxExecutions: int := 10000

  /** What the repository writes into every document besides the execution
      itself: the user's tenant, the app and trigger it was made for, and
      the creating user. */
  datatype Scope = Scope(
    tenantId: string,
    appId: Option<string>,
    triggeredFrom: Option<string>,
    creatorId: string,
    creatorRole: CreatorRole)

  /** The document an execution is written as, before `None` values are
      dropped. */
  function NodeDocument(scope: Scope, e: NodeExecution): Doc {
    map[
      "id" := Str(e.id),
      "tenant_id" := Str(scope.tenantId),
      "app_id" := OptStr(scope.appId),
      "workflow_id" := Str(e.workflowId),
      "workflow_execution_id" := OptStr(e.workflowExecutionId),
      "node_execution_id" := OptStr(e.nodeExecutionId),
      "triggered_from" := OptStr(scope.triggeredFrom),
      "index" := Int(e.index),
      "predecessor_node_id" := OptStr(e.predecessorNodeId),
      "node_id" := Str(e.nodeId),
      "node_type" := Str(e.nodeType),
      "title" := Str(e.title),
      "inputs" := e.inputs,
      "process_data" := e.processData,
      "outputs" := e.outputs,
      "status" := Str(e.status),
      "error" := OptStr(e.error),
      "elapsed_time" := Real(e.elapsedTime),
      "metadata" := e.metadata,
      "created_at" := OptTime(e.createdAt),
      "finished_at" := OptTime(e.finishedAt),
      "created_by_role" := Str(RoleValue(scope.creatorRole)),
      "created_by" := Str(scope.creatorId)
    ]
  }

  /** `_to_es_document`: the document without its `None` values. */
  function ToEsDocument(scope: Scope, e: NodeExecution): Doc {
    DropNulls(NodeDocument(scope, e))
  }

  /** The keyword arguments `_from_es_document` passes to the entity, as the
      values read from the document, before the entity validates them. */
  datatype NodeFields = NodeFields(
    id: Value, nodeExecutionId: Value, workflowId: Value, workflowExecutionId: Value, index: Value,
    predecessorNodeId: Value, nodeId: Value, nodeType: Value, title: Value, inputs: Value,
    processData: Value, outputs: Value, status: Value, error: Value, elapsedTime: Value,
    metadata: Value, createdAt: Value, finishedAt: Value)

  /** An execution's own fields as document values. */
  function FieldsOf(e: NodeExecution): NodeFields {
    NodeFields(
      Str(e.id), OptStr(e.nodeExecutionId), Str(e.workflowId), OptStr(e.workflowExecutionId), Int(e.index),
      OptStr(e.predecessorNodeId), Str(e.nodeId), Str(e.nodeType), Str(e.title), e.inputs,
      e.processData, e.outputs, Str(e.status), OptStr(e.error), Real(e.elapsedTime),
      e.metadata, OptTime(e.createdAt), OptTime(e.finishedAt))
  }

  /** The entity's validation of its arguments: identifiers and texts are
      strings, optional ones strings or `None`, the position an integer, the
      elapsed time a number, the timestamps datetimes or `None`. */
  function Validate(f: NodeFields): (r: Result<NodeExecution>)
    ensures r.Ok? && !f.elapsedTime.Int? ==> FieldsOf(r.value) == f
  {
    var id :- AsStr(f.id);
    var nodeExecutionId :- AsOptStr(f.nodeExecutionId);
    var workflowId :- AsStr(f.workflowId);
    var workflowExecutionId :- AsOptStr(f.workflowExecutionId);
    var index :- AsInt(f.index);
    var predecessorNodeId :- AsOptStr(f.predecessorNodeId);
    var nodeId :- AsStr(f.nodeId);
    var nodeType :- AsStr(f.nodeType);
    var title :- AsStr(f.title);
    var status :- AsStr(f.status);
    var error :- AsOptStr(f.error);
    var elapsedTime :- AsReal(f.elapsedTime);
    var createdAt :- AsOptTime(f.createdAt);
    var finishedAt :- AsOptTime(f.finishedAt);
    Ok(NodeExecution(
      id, nodeExecutionId, workflowId, workflowExecutionId, index, predecessorNodeId, nodeId, nodeType, title,
      f.inputs, f.processData, f.outputs, status, error, elapsedTime, f.metadata, createdAt, finishedAt))
  }

  /** An execution's own fields always validate, to the execution itself. */
  lemma ValidateFieldsOf(e: NodeExecution)
    ensures Validate(FieldsOf(e)) == Ok(e)
  {
    assert AsOptTime(OptTime(e.createdAt)) == Ok(e.createdAt);
    assert AsOptTime(OptTime(e.finishedAt)) == Ok(e.finishedAt);
  }

  /** `_from_es_document`: the source is the hit's `_source`, or the document
      itself. The identifying fields, the position and the status are
      required, in argument order; the data fields default to `None`, the
      metadata to `{}`, the elapsed time to `0.0`; timestamps must be ISO
      text; the entity then validates the arguments. */
  function FromEsDocument(doc: Doc): (r: Result<NodeExecution>)
    ensures r.Ok? ==> "_source" !in doc || doc["_source"].Dict?
  {
    var source :- SourceOf(doc);
    var fields :- FromSource(source);
    Validate(fields)
  }

  /** The arguments `_from_es_document` reads from the source. */
  function FromSource(source: Doc): Result<NodeFields> {
    var id :- Required(source, "id");
    var workflowId :- Required(source, "workflow_id");
    var index :- Required(source, "index");
    var nodeId :- Required(source, "node_id");
    var nodeType :- Required(source, "node_type");
    var title :- Required(source, "title");
    var status :- Required(source, "status");
    var createdAt :- ParsedTime(source, "created_at");
    var finishedAt :- ParsedTime(source, "finished_at");
    Ok(NodeFields(
      id, Get(source, "node_execution_id"), workflowId, Get(source, "workflow_execution_id"), index,
      Get(source, "predecessor_node_id"), nodeId, nodeType, title, Get(source, "inputs"),
      Get(source, "process_data"), Get(source, "outputs"), status, Get(source, "error"),
      GetOr(source, "elapsed_time", Real(0.0)), GetOr(source, "metadata", EmptyDict), createdAt, finishedAt))
  }

  /** A document from which `FromSource` reads exactly the execution's
      fields. */
  predicate HoldsExecution(d: Doc, e: NodeExecution) {
    Required(d, "id") == Ok(Str(e.id)) && Get(d, "node_execution_id") == OptStr(e.nodeExecutionId) &&
    Required(d, "workflow_id") == Ok(Str(e.workflowId)) && Get(d, "workflow_execution_id") == OptStr(e.workflowExecutionId) &&
    Required(d, "index") == Ok(Int(e.index)) && Get(d, "predecessor_node_id") == OptStr(e.predecessorNodeId) &&
    Required(d, "node_id") == Ok(Str(e.nodeId)) && Required(d, "node_type") == Ok(Str(e.nodeType)) &&
    Required(d, "title") == Ok(Str(e.title)) && Get(d, "inputs") == e.inputs &&
    Get(d, "process_data") == e.processData && Get(d, "outputs") == e.outputs &&
    Required(d, "status") == Ok(Str(e.status)) && Get(d, "error") == OptStr(e.error) &&
    GetOr(d, "elapsed_time", Real(0.0)) == Real(e.elapsedTime) && GetOr(d, "metadata", EmptyDict) == e.metadata &&
    ParsedTime(d, "created_at") == Ok(OptTime(e.createdAt)) && ParsedTime(d, "finished_at") == Ok(OptTime(e.finishedAt))
  }

  /** Reading a document that holds an execution's fields gives back those
      fields. */
  lemma ReadsBack(d: Doc, e: NodeExecution)
    requires HoldsExecution(d, e)
    ensures FromSource(d) == Ok(FieldsOf(e))
  {
  }

  // The fields of a written document, two at a time: each lookup in a
  // document display costs the solver one key comparison per entry.

  lemma WrittenId(scope: Scope, e: NodeExecution)
    ensures var d := NodeDocument(scope, e);
            "id" in d && d["id"] == Str(e.id) && "node_execution_id" in d && d["node_execution_id"] == OptStr(e.nodeExecutionId)
  {
  }

  lemma WrittenWorkflow(scope: Scope, e: NodeExecution)
    ensures var d := NodeDocument(scope, e);
            "workflow_id" in d && d["workflow_id"] == Str(e.workflowId) && "workflow_execution_id" in d && d["workflow_execution_id"] == OptStr(e.workflowExecutionId)
  {
  }

  lemma WrittenPosition(scope: Scope, e: NodeExecution)
    ensures var d := NodeDocument(scope, e);
            "index" in d && d["index"] == Int(e.index) && "predecessor_node_id" in d && d["predecessor_node_id"] == OptStr(e.predecessorNodeId)
  {
  }

  lemma WrittenNode(scope: Scope, e: NodeExecution)
    ensures var d := NodeDocument(scope, e);
            "node_id" in d && d["node_id"] == Str(e.nodeId) && "node_type" in d && d["node_type"] == Str(e.nodeType)
  {
  }

  lemma WrittenTitle(scope: Scope, e: NodeExecution)
    ensures var d := NodeDocument(scope, e);
            "title" in d && d["title"] == Str(e.title) && "inputs" in d && d["inputs"] == e.inputs
  {
  }

  lemma WrittenData(scope: Scope, e: NodeExecution)
    ensures var d := NodeDocument(scope, e);
            "process_data" in d && d["process_data"] == e.processData && "outputs" in d && d["outputs"] == e.outputs
  {
  }

  lemma WrittenStatus(scope: Scope, e: NodeExecution)
    ensures var d := NodeDocument(scope, e);
            "status" in d && d["status"] == Str(e.status) && "error" in d && d["error"] == OptStr(e.error)
  {
  }

  lemma WrittenUsage(scope: Scope, e: NodeExecution)
    ensures var d := NodeDocument(scope, e);
            "elapsed_time" in d && d["elapsed_time"] == Real(e.elapsedTime) && "metadata" in d && d["metadata"] == e.metadata
  {
  }

  lemma WrittenTimes(scope: Scope, e: NodeExecution)
    ensures var d := NodeDocument(scope, e);
            "created_at" in d && d["created_at"] == OptTime(e.createdAt) && "finished_at" in d && d["finished_at"] == OptTime(e.finishedAt)
  {
  }

  lemma WrittenCreator(scope: Scope, e: NodeExecution)
    ensures var d := NodeDocument(scope, e);
            "tenant_id" in d && d["tenant_id"] == Str(scope.tenantId) && "created_by" in d && d["created_by"] == Str(scope.creatorId)
  {
  }

  lemma WrittenContext(scope: Scope, e: NodeExecution)
    ensures var d := NodeDocument(scope, e);
            "app_id" in d && d["app_id"] == OptStr(scope.appId) && "triggered_from" in d && d["triggered_from"] == OptStr(scope.triggeredFrom)
  {
  }

  /** A stored execution holds its identifying fields. */
  lemma StoredIdentity(scope: Scope, e: NodeExecution)
    ensures var d := ToEsDocument(scope, e);
            Required(d, "id") == Ok(Str(e.id)) && Get(d, "node_execution_id") == OptStr(e.nodeExecutionId) &&
            Required(d, "workflow_id") == Ok(Str(e.workflowId)) && Get(d, "workflow_execution_id") == OptStr(e.workflowExecutionId) &&
            Required(d, "index") == Ok(Int(e.index)) && Get(d, "predecessor_node_id") == OptStr(e.predecessorNodeId) &&
            Required(d, "node_id") == Ok(Str(e.nodeId)) && Required(d, "node_type") == Ok(Str(e.nodeType))
  {
    WrittenId(scope, e);
    WrittenWorkflow(scope, e);
    WrittenPosition(scope, e);
    WrittenNode(scope, e);
  }

  /** A stored execution holds its title, data, status and error. */
  lemma StoredData(scope: Scope, e: NodeExecution)
    ensures var d := ToEsDocument(scope, e);
            Required(d, "title") == Ok(Str(e.title)) && Get(d, "inputs") == e.inputs &&
            Get(d, "process_data") == e.processData && Get(d, "outputs") == e.outputs &&
            Required(d, "status") == Ok(Str(e.status)) && Get(d, "error") == OptStr(e.error)
  {
    WrittenTitle(scope, e);
    WrittenData(scope, e);
    WrittenStatus(scope, e);
  }

  /** A stored execution holds its elapsed time, its metadata when it has
      any, and its timestamps. */
  lemma StoredUsage(scope: Scope, e: NodeExecution)
    requires e.metadata != Null
    ensures var d := ToEsDocument(scope, e);
            GetOr(d, "elapsed_time", Real(0.0)) == Real(e.elapsedTime) && GetOr(d, "metadata", EmptyDict) == e.metadata &&
            ParsedTime(d, "created_at") == Ok(OptTime(e.createdAt)) && ParsedTime(d, "finished_at") == Ok(OptTime(e.finishedAt))
  {
    WrittenUsage(scope, e);
    WrittenTimes(scope, e);
  }

  /** A stored document is not wrapped: it has no `_source` key. */
  lemma StoredUnwrapped(scope: Scope, e: NodeExecution)
    ensures "_source" !in ToEsDocument(scope, e)
  {
  }

  /** A stored execution holds all of the execution's fields. */
  lemma StoredExecution(scope: Scope, e: NodeExecution)
    requires e.metadata != Null
    ensures HoldsExecution(ToEsDocument(scope, e), e)
  {
    StoredIdentity(scope, e);
    StoredData(scope, e);
    StoredUsage(scope, e);
  }

  /** A stored execution reads back as the same execution, whether read
      directly or as a search hit, provided it has metadata (missing
      metadata is dropped on the way in and reads back as `{}`). */
  lemma EsRoundTrip(scope: Scope, e: NodeExecution)
    requires e.metadata != Null
    ensures FromEsDocument(ToEsDocument(scope, e)) == Ok(e)
    ensures FromEsDocument(map["_source" := Dict(ToEsDocument(scope, e))]) == Ok(e)
  {
    var d := ToEsDocument(scope, e);
    StoredExecution(scope, e);
    StoredUnwrapped(scope, e);
    ReadsBack(d, e);
    ValidateFieldsOf(e);
  }

  /** Every stored document carries the repository's tenant and creator,
      which the repository's own queries filter on. */
  lemma StoredScope(scope: Scope, e: NodeExecution)
    ensures var d := ToEsDocument(scope, e);
            Get(d, "tenant_id") == Str(scope.tenantId) && Get(d, "created_by") == Str(scope.creatorId)
  {
    WrittenCreator(scope, e);
  }

  /** The app and trigger are stored exactly when the repository has them. */
  lemma StoredContext(scope: Scope, e: NodeExecution)
    ensures var d := ToEsDocument(scope, e);
            Get(d, "app_id") == OptStr(scope.appId) && Get(d, "triggered_from") == OptStr(scope.triggeredFrom)
  {
    WrittenContext(scope, e);
  }

  // ---------------------------------------------------------------------------
  // Partial updates of the data fields
  // ---------------------------------------------------------------------------

  /** The partial document `save_execution_data` sends: the data fields that
      the execution has. */
  function DataUpdate(e: NodeExecution): (r: Doc)
    ensures "inputs" in r <==> e.inputs != Null
    ensures "process_data" in r <==> e.processData != Null
    ensures "outputs" in r <==> e.outputs != Null
    ensures forall k :: k in r ==> k == "inputs" || k == "process_data" || k == "outputs"
    ensures r == map[] <==> e.inputs == Null && e.processData == Null && e.outputs == Null
  {
    DropNulls(map["inputs" := e.inputs, "process_data" := e.processData, "outputs" := e.outputs])
  }

  /** A cached execution with the data fields of `e` written over it where
      `e` has them. */
  function Patched(cached: NodeExecution, e: NodeExecution): (r: NodeExecution)
    ensures r.inputs == (if e.inputs != Null then e.inputs else cached.inputs)
    ensures r.processData == (if e.processData != Null then e.processData else cached.processData)
    ensures r.outputs == (if e.outputs != Null then e.outputs else cached.outputs)
    ensures r.(inputs := cached.inputs, processData := cached.processData, outputs := cached.outputs) == cached
  {
    cached.(
      inputs := if e.inputs != Null then e.inputs else cached.inputs,
      processData := if e.processData != Null then e.processData else cached.processData,
      outputs := if e.outputs != Null then e.outputs else cached.outputs)
  }

  /** The store and the cache take the same data: every field of the
      partial update is the field of the patched execution's document. */
  lemma UpdateAgreesWithPatch(scope: Scope, cached: NodeExecution, e: NodeExecution)
    ensures forall k :: k in DataUpdate(e) ==>
              k in NodeDocument(scope, Patched(cached, e)) && DataUpdate(e)[k] == NodeDocument(scope, Patched(cached, e))[k]
  {
    var p := Patched(cached, e);
    WrittenTitle(scope, p);
    WrittenData(scope, p);
    var u := DataUpdate(e);
    assert "inputs" in u ==> u["inputs"] == e.inputs;
    assert "process_data" in u ==> u["process_data"] == e.processData;
    assert "outputs" in u ==> u["outputs"] == e.outputs;
  }

  /** Patching with the same data twice is patching once, and patching with
      an execution's own data gives that execution back. */
  lemma PatchedIdempotent(cached: NodeExecution, e: NodeExecution)
    ensures Patched(Patched(cached, e), e) == Patched(cached, e)
    ensures Patched(e, e) == e
  {
  }

  // ---------------------------------------------------------------------------
  // Reading the executions of a run
  // ---------------------------------------------------------------------------

  /** `OrderConfig`: the fields to sort by and the direction. */
  datatype OrderConfig = OrderConfig(orderBy: seq<string>, orderDirection: Option<string>)

  /** The must-clauses of `get_by_workflow_run`: tenant and run always; the
      app and trigger when the repository has them. */
  function RunClauses(scope: Scope, runId: string): seq<Clause> {
    [Term("tenant_id", scope.tenantId), Term("workflow_execution_id", runId)]
    + (if Given(scope.appId) then [Term("app_id", scope.appId.value)] else [])
    + (if scope.triggeredFrom.Some? then [Term("triggered_from", scope.triggeredFrom.value)] else [])
  }

  /** Every stored execution of the repository matches the terms on the
      repository's own tenant, app and trigger. */
  lemma RunClausesMatchScope(scope: Scope, runId: string, e: NodeExecution)
    ensures forall c :: c in RunClauses(scope, runId) && c.Term? && c.field != "workflow_execution_id" ==>
              Get(ToEsDocument(scope, e), c.field) == Str(c.value)
  {
    StoredScope(scope, e);
    StoredContext(scope, e);
    var head := [Term("tenant_id", scope.tenantId), Term("workflow_execution_id", runId)];
    var app := if Given(scope.appId) then [Term("app_id", scope.appId.value)] else [];
    var trig := if scope.triggeredFrom.Some? then [Term("triggered_from", scope.triggeredFrom.value)] else [];
    assert RunClauses(scope, runId) == head + app + trig;
    forall c | c in RunClauses(scope, runId)
      ensures c in head || c in app || c in trig
    {
    }
  }

  /** The sort of `get_by_workflow_run`: each configured field in the
      configured direction (descending only for "desc"), or by position and
      then creation time, ascending. */
  function SortConfig(order: Option<OrderConfig>): (r: seq<SortKey>)
    ensures order.Some? && order.value.orderBy != [] ==>
              |r| == |order.value.orderBy| &&
              forall i :: 0 <= i < |r| ==>
                r[i] == SortKey(order.value.orderBy[i], order.value.orderDirection == Some("desc"))
    ensures order.None? || order.value.orderBy == [] ==> r == [SortKey("index", false), SortKey("created_at", false)]
  {
    if order.Some? && order.value.orderBy != [] then
      SortFields(order.value.orderBy, order.value.orderDirection == Some("desc"))
    else
      [SortKey("index", false), SortKey("created_at", false)]
  }

  /** Each field as a sort key in one direction. */
  function SortFields(fields: seq<string>, descending: bool): (r: seq<SortKey>)
    ensures |r| == |fields| && forall i :: 0 <= i < |r| ==> r[i] == SortKey(fields[i], descending)
  {
    if fields == [] then [] else SortFields(fields[..|fields| - 1], descending) + [SortKey(fields[|fields| - 1], descending)]
  }

  /** The cache after storing each execution in turn under its id. */
  function CacheAll(cache: map<string, NodeExecution>, executions: seq<NodeExecution>): map<string, NodeExecution> {
    if executions == [] then cache
    else
      var last := executions[|executions| - 1];
      CacheAll(cache, executions[..|executions| - 1])[last.id := last]
  }

  /** The ids of a list of executions. */
  function Ids(executions: seq<NodeExecution>): set<string> {
    set x | x in executions :: x.id
  }

  /** Caching a list keeps every earlier entry and adds every listed id. */
  lemma {:induction false} CacheAllKeys(cache: map<string, NodeExecution>, executions: seq<NodeExecution>)
    ensures CacheAll(cache, executions).Keys == cache.Keys + Ids(executions)
  {
    if executions != [] {
      var init := executions[..|executions| - 1];
      CacheAllKeys(cache, init);
      assert executions == init + [executions[|executions| - 1]];
      assert Ids(executions) == Ids(init) + {executions[|executions| - 1].id};
    }
  }

  /** Each listed id holds the last execution listed with it. */
  lemma {:induction false} CacheAllLast(cache: map<string, NodeExecution>, executions: seq<NodeExecution>, i: nat)
    requires i < |executions|
    requires forall j :: i < j < |executions| ==> executions[j].id != executions[i].id
    ensures executions[i].id in CacheAll(cache, executions) && CacheAll(cache, executions)[executions[i].id] == executions[i]
  {
    var init := executions[..|executions| - 1];
    if i < |executions| - 1 {
      CacheAllLast(cache, init, i);
    }
  }

  /** An id not listed keeps its cached execution. */
  lemma {:induction false} CacheAllUntouched(cache: map<string, NodeExecution>, executions: seq<NodeExecution>, k: string)
    requires k in cache && k !in Ids(executions)
    ensures k in CacheAll(cache, executions) && CacheAll(cache, executions)[k] == cache[k]
  {
    if executions != [] {
      var init := executions[..|executions| - 1];
      assert Ids(init) <= Ids(executions);
      CacheAllUntouched(cache, init, k);
    }
  }

  class NodeRepository {
    const client: Client
    const prefix: string
    const scope: Scope
    /** `_execution_cache`: executions by id. */
    var cache: map<string, NodeExecution>

    constructor (client: Client, prefix: string, scope: Scope)
      ensures this.client == client && this.prefix == prefix && this.scope == scope && cache == map[]
    {
      this.client := client;
      this.prefix := prefix;
      this.scope := scope;
      cache := map[];
    }

    /** `save`: the execution goes to the month of its creation, or of `now`
        when it has none, and into the cache once the store took it. */
    method Save(e: NodeExecution, now: Instant) returns (r: Result<()>)
      modifies client, this
      ensures client.log == old(client.log) +
                [IndexDoc(DatedIndexName(prefix, scope.tenantId, e.createdAt, now), e.id, ToEsDocument(scope, e))]
      ensures r.Ok? <==> !Raises(client.answer(client.log))
      ensures cache == if r.Ok? then old(cache)[e.id := e] else old(cache)
    {
      var reply := client.Call(IndexDoc(DatedIndexName(prefix, scope.tenantId, e.createdAt, now), e.id, ToEsDocument(scope, e)));
      if Raises(reply) {
        return Err(Raise(reply));
      }
      cache := cache[e.id := e];
      r := Ok(());
    }

    /** `save_execution_data`: with no data, nothing happens; otherwise a
        partial update of the stored document, then of the cached execution
        if there is one. A document the store does not have is saved whole
        instead. */
    method SaveExecutionData(e: NodeExecution, now: Instant) returns (r: Result<()>)
      modifies client, this
      ensures DataUpdate(e) == map[] ==> r == Ok(()) && client.log == old(client.log) && cache == old(cache)
      ensures DataUpdate(e) != map[] ==>
                var update := UpdateDoc(DatedIndexName(prefix, scope.tenantId, e.createdAt, now), e.id, DataUpdate(e));
                client.answer(old(client.log) + [update]).NotFound? ==>
                  client.log == old(client.log) +
                    [update, IndexDoc(DatedIndexName(prefix, scope.tenantId, e.createdAt, now), e.id, ToEsDocument(scope, e))] &&
                  (r.Ok? <==> !Raises(client.answer(client.log))) &&
                  cache == (if r.Ok? then old(cache)[e.id := e] else old(cache))
      ensures DataUpdate(e) != map[] ==>
                var update := UpdateDoc(DatedIndexName(prefix, scope.tenantId, e.createdAt, now), e.id, DataUpdate(e));
                !client.answer(old(client.log) + [update]).NotFound? ==>
                  client.log == old(client.log) + [update] &&
                  (r.Ok? <==> !Raises(client.answer(client.log))) &&
                  cache == (if r.Ok? && e.id in old(cache) then old(cache)[e.id := Patched(old(cache)[e.id], e)] else old(cache))
    {
      var update := DataUpdate(e);
      if update == map[] {
        return Ok(());
      }
      var reply := client.Call(UpdateDoc(DatedIndexName(prefix, scope.tenantId, e.createdAt, now), e.id, update));
      if reply.NotFound? {
        r := Save(e, now);
        return;
      }
      if Raises(reply) {
        return Err(Raise(reply));
      }
      if e.id in cache {
        cache := cache[e.id := Patched(cache[e.id], e)];
      }
      r := Ok(());
    }

    /** `get_by_workflow_run`: one search of the tenant's indices; each hit
        is converted and cached in turn, so a hit that cannot be converted
        stops the loop with the earlier ones already cached. `converted`
        counts the hits converted. */
    method GetByWorkflowRun(runId: string, order: Option<OrderConfig>)
      returns (r: Result<seq<NodeExecution>>, ghost converted: nat)
      modifies client, this
      ensures client.log == old(client.log) +
                [Search(TenantPattern(prefix, scope.tenantId),
                        SearchBody(BoolQuery(RunClauses(scope, runId), [], None), SortConfig(order), MaxExecutions, None))]
      ensures var reply := client.answer(client.log);
              !reply.Hits? ==> r == Err(Raise(reply)) && cache == old(cache)
      ensures var reply := client.answer(client.log);
              reply.Hits? ==>
                r == MapAll(reply.hits, FromEsDocument) &&
                converted <= |reply.hits| && MapAll(reply.hits[..converted], FromEsDocument).Ok? &&
                cache == CacheAll(old(cache), MapAll(reply.hits[..converted], FromEsDocument).value) &&
                (r.Ok? <==> converted == |reply.hits|)
    {
      converted := 0;
      var body := SearchBody(BoolQuery(RunClauses(scope, runId), [], None), SortConfig(order), MaxExecutions, None);
      var reply := client.Call(Search(TenantPattern(prefix, scope.tenantId), body));
      if !reply.Hits? {
        return Err(Raise(reply)), converted;
      }
      r, converted := CacheHits(reply.hits);
    }

    /** The loop of `get_by_workflow_run` over the hits: each is converted,
        then cached under its id. */
    method CacheHits(hits: seq<Doc>) returns (r: Result<seq<NodeExecution>>, ghost converted: nat)
      modifies this
      ensures r == MapAll(hits, FromEsDocument)
      ensures converted <= |hits| && MapAll(hits[..converted], FromEsDocument).Ok?
      ensures cache == CacheAll(old(cache), MapAll(hits[..converted], FromEsDocument).value)
      ensures r.Ok? <==> converted == |hits|
    {
      var executions: seq<NodeExecution> := [];
      var i := 0;
      while i < |hits|
        invariant 0 <= i <= |hits|
        invariant MapAll(hits[..i], FromEsDocument) == Ok(executions)
        invariant cache == CacheAll(old(cache), executions)
      {
        assert hits[..i + 1][..i] == hits[..i];
        var item := FromEsDocument(hits[i]);
        if item.Err? {
          MapAllErrPrefix(hits, i + 1, FromEsDocument);
          return Err(item.error), i;
        }
        executions := executions + [item.value];
        cache := cache[item.value.id := item.value];
        i := i + 1;
      }
      assert hits[..i] == hits;
      r, converted := Ok(executions), i;
    }
  }

  /** The repository's construction: the process-wide client must be
      configured and the user must belong to a tenant; the cache starts
      empty and the index template is installed. */
  method NewNodeRepository(global: Client?, user: User, appId: Option<string>, triggeredFrom: Option<string>, prefix: string)
    returns (r: Result<NodeRepository>)
    modifies global
    ensures global == null ==> r == Err(ValueError("Elasticsearch client is not available. Please check your configuration."))
    ensures global != null && !Given(user.tenantId) ==>
              r == Err(ValueError("User must have a tenant_id or current_tenant_id")) && global.log == old(global.log)
    ensures global != null && Given(user.tenantId) ==>
              global.log == old(global.log) + [PutTemplate(prefix + "-template", [prefix + "-*"])] &&
              (r.Ok? <==> !Raises(global.answer(global.log)))
    ensures r.Ok? ==>
              fresh(r.value) && r.value.client == global && r.value.prefix == prefix && r.value.cache == map[] &&
              r.value.scope == Scope(user.tenantId.value, appId, triggeredFrom, user.id, RoleOf(user))
  {
    if global == null {
      return Err(ValueError("Elasticsearch client is not available. Please check your configuration."));
    }
    if !Given(user.tenantId) {
      return Err(ValueError("User must have a tenant_id or current_tenant_id"));
    }
    var repo := new NodeRepository(global, prefix, Scope(user.tenantId.value, appId, triggeredFrom, user.id, RoleOf(user)));
    var ensured := EnsureIndexTemplate(global, prefix);
    if ensured.Err? {
      return Err(ensured.error);
    }
    r := Ok(repo);
  }
}
