/** The run repository over the log store: `ElasticsearchAPIWorkflowRunRepository`.
    Runs are stored one document per run in monthly indices per tenant. */
module EsRunRepository {
  import opened Common
  import opened WorkflowRecords
  import opened EsClient

  const DefaultPrefix: string := "dify-workflow-runs"

  /** The document a run is written as, before `None` values are dropped. The
      JSON columns are stored decoded. */
  function RunDocument(run: WorkflowRun): Doc {
    map[
      "id" := Str(run.id),
      "tenant_id" := Str(run.tenantId),
      "app_id" := Str(run.appId),
      "workflow_id" := Str(run.workflowId),
      "type" := Str(run.runType),
      "triggered_from" := Str(run.triggeredFrom),
      "version" := Str(run.version),
      "graph" := DictView(run.graph),
      "inputs" := DictView(run.inputs),
      "status" := Str(run.status),
      "outputs" := DictView(run.outputs),
      "error" := OptStr(run.error),
      "elapsed_time" := Real(run.elapsedTime),
      "total_tokens" := Int(run.totalTokens),
      "total_steps" := Int(run.totalSteps),
      "created_by_role" := Str(run.createdByRole),
      "created_by" := Str(run.createdBy),
      "created_at" := OptTime(run.createdAt),
      "finished_at" := OptTime(run.finishedAt),
      "exceptions_count" := Int(run.exceptionsCount)
    ]
  }

  /** `_to_es_document` */
  function ToEsDocument(run: WorkflowRun): Doc {
    DropNulls(RunDocument(run))
  }

  /** No key of a stored run holds `None`, and every kept key holds the run's
      own field; only `None` fields are left out. */
  lemma ToEsDocumentFields(run: WorkflowRun)
    ensures var r := ToEsDocument(run);
            forall k :: k in r ==> r[k] != Null && k in RunDocument(run) && r[k] == RunDocument(run)[k]
    ensures var r := ToEsDocument(run);
            forall k :: k in RunDocument(run) && RunDocument(run)[k] != Null ==> k in r
  {
  }

  /** The keyword arguments `_from_es_document` hands to `WorkflowRun.from_dict`,
      as the values read from the document. */
  datatype RunFields = RunFields(
    id: Value, tenantId: Value, appId: Value, workflowId: Value, runType: Value,
    triggeredFrom: Value, version: Value, graph: Value, inputs: Value, status: Value,
    outputs: Value, error: Value, elapsedTime: Value, totalTokens: Value, totalSteps: Value,
    createdByRole: Value, createdBy: Value, createdAt: Value, finishedAt: Value, exceptionsCount: Value)

  /** A run's own fields, as `RunDocument` writes them. */
  function FieldsOf(run: WorkflowRun): RunFields {
    RunFields(
      Str(run.id), Str(run.tenantId), Str(run.appId), Str(run.workflowId), Str(run.runType),
      Str(run.triggeredFrom), Str(run.version), DictView(run.graph), DictView(run.inputs), Str(run.status),
      DictView(run.outputs), OptStr(run.error), Real(run.elapsedTime), Int(run.totalTokens), Int(run.totalSteps),
      Str(run.createdByRole), Str(run.createdBy), OptTime(run.createdAt), OptTime(run.finishedAt), Int(run.exceptionsCount))
  }

  /** `_from_es_document`: the source is the hit's `_source`, or the document
      itself. Required fields raise `KeyError` when missing, in the order they
      are read; optional ones default to `{}`, `0` or `None`; timestamps must
      be ISO text. */
  function FromEsDocument(doc: Doc): (r: Result<RunFields>)
    ensures r.Ok? ==> "_source" !in doc || doc["_source"].Dict?
  {
    var source :- SourceOf(doc);
    FromSource(source)
  }

  /** The body of `_from_es_document` once the source is found. */
  function FromSource(source: Doc): Result<RunFields> {
    var id :- Required(source, "id");
    var tenantId :- Required(source, "tenant_id");
    var appId :- Required(source, "app_id");
    var workflowId :- Required(source, "workflow_id");
    var runType :- Required(source, "type");
    var triggeredFrom :- Required(source, "triggered_from");
    var version :- Required(source, "version");
    var status :- Required(source, "status");
    var createdByRole :- Required(source, "created_by_role");
    var createdBy :- Required(source, "created_by");
    var createdAt :- ParsedTime(source, "created_at");
    var finishedAt :- ParsedTime(source, "finished_at");
    Ok(RunFields(
      id, tenantId, appId, workflowId, runType, triggeredFrom, version,
      GetOr(source, "graph", EmptyDict), GetOr(source, "inputs", EmptyDict), status,
      GetOr(source, "outputs", EmptyDict), Get(source, "error"), GetOr(source, "elapsed_time", Real(0.0)),
      GetOr(source, "total_tokens", Int(0)), GetOr(source, "total_steps", Int(0)),
      createdByRole, createdBy, createdAt, finishedAt, GetOr(source, "exceptions_count", Int(0))))
  }

  /** A document from which `FromSource` reads exactly the run's fields. */
  predicate HoldsRun(d: Doc, run: WorkflowRun) {
    Required(d, "id") == Ok(Str(run.id)) && Required(d, "tenant_id") == Ok(Str(run.tenantId)) &&
    Required(d, "app_id") == Ok(Str(run.appId)) && Required(d, "workflow_id") == Ok(Str(run.workflowId)) &&
    Required(d, "type") == Ok(Str(run.runType)) && Required(d, "triggered_from") == Ok(Str(run.triggeredFrom)) &&
    Required(d, "version") == Ok(Str(run.version)) && Required(d, "status") == Ok(Str(run.status)) &&
    Required(d, "created_by_role") == Ok(Str(run.createdByRole)) && Required(d, "created_by") == Ok(Str(run.createdBy)) &&
    ParsedTime(d, "created_at") == Ok(OptTime(run.createdAt)) && ParsedTime(d, "finished_at") == Ok(OptTime(run.finishedAt)) &&
    GetOr(d, "graph", EmptyDict) == DictView(run.graph) && GetOr(d, "inputs", EmptyDict) == DictView(run.inputs) &&
    GetOr(d, "outputs", EmptyDict) == DictView(run.outputs) && Get(d, "error") == OptStr(run.error) &&
    GetOr(d, "elapsed_time", Real(0.0)) == Real(run.elapsedTime) && GetOr(d, "total_tokens", Int(0)) == Int(run.totalTokens) &&
    GetOr(d, "total_steps", Int(0)) == Int(run.totalSteps) && GetOr(d, "exceptions_count", Int(0)) == Int(run.exceptionsCount)
  }

  /** Reading a document that holds a run's fields gives back those fields. */
  lemma ReadsBack(d: Doc, run: WorkflowRun)
    requires HoldsRun(d, run)
    ensures FromSource(d) == Ok(FieldsOf(run))
  {
  }

  // The fields of a stored run, a couple at a time: each lookup in a document
  // display costs the solver one key comparison per entry.

  lemma StoredId(run: WorkflowRun)
    ensures Required(ToEsDocument(run), "id") == Ok(Str(run.id))
  {
  }

  lemma StoredTenant(run: WorkflowRun)
    ensures Required(ToEsDocument(run), "tenant_id") == Ok(Str(run.tenantId))
  {
  }

  lemma StoredApp(run: WorkflowRun)
    ensures var d := ToEsDocument(run);
            Required(d, "app_id") == Ok(Str(run.appId)) && Required(d, "workflow_id") == Ok(Str(run.workflowId))
  {
  }

  lemma StoredTrigger(run: WorkflowRun)
    ensures var d := ToEsDocument(run);
            Required(d, "type") == Ok(Str(run.runType)) && Required(d, "triggered_from") == Ok(Str(run.triggeredFrom))
  {
  }

  lemma StoredState(run: WorkflowRun)
    ensures var d := ToEsDocument(run);
            Required(d, "version") == Ok(Str(run.version)) && Required(d, "status") == Ok(Str(run.status))
  {
  }

  lemma StoredCreator(run: WorkflowRun)
    ensures var d := ToEsDocument(run);
            Required(d, "created_by_role") == Ok(Str(run.createdByRole)) && Required(d, "created_by") == Ok(Str(run.createdBy))
  {
  }

  lemma StoredGraph(run: WorkflowRun)
    requires DictView(run.graph) != Null && DictView(run.inputs) != Null
    ensures var d := ToEsDocument(run);
            GetOr(d, "graph", EmptyDict) == DictView(run.graph) && GetOr(d, "inputs", EmptyDict) == DictView(run.inputs)
  {
  }

  lemma StoredOutputs(run: WorkflowRun)
    requires DictView(run.outputs) != Null
    ensures var d := ToEsDocument(run);
            GetOr(d, "outputs", EmptyDict) == DictView(run.outputs) && Get(d, "error") == OptStr(run.error)
  {
  }

  lemma StoredUsage(run: WorkflowRun)
    ensures var d := ToEsDocument(run);
            GetOr(d, "elapsed_time", Real(0.0)) == Real(run.elapsedTime) && GetOr(d, "total_tokens", Int(0)) == Int(run.totalTokens)
  {
  }

  lemma StoredSteps(run: WorkflowRun)
    ensures GetOr(ToEsDocument(run), "total_steps", Int(0)) == Int(run.totalSteps)
  {
  }

  lemma StoredExceptions(run: WorkflowRun)
    ensures GetOr(ToEsDocument(run), "exceptions_count", Int(0)) == Int(run.exceptionsCount)
  {
  }

  lemma StoredTimes(run: WorkflowRun)
    ensures var d := ToEsDocument(run);
            ParsedTime(d, "created_at") == Ok(OptTime(run.createdAt)) && ParsedTime(d, "finished_at") == Ok(OptTime(run.finishedAt))
  {
  }

  /** A stored document is not wrapped: it has no `_source` key. */
  lemma StoredUnwrapped(run: WorkflowRun)
    ensures "_source" !in ToEsDocument(run)
  {
  }

  /** A stored run holds all of the run's fields. */
  lemma StoredRun(run: WorkflowRun)
    requires DictView(run.graph) != Null && DictView(run.inputs) != Null && DictView(run.outputs) != Null
    ensures HoldsRun(ToEsDocument(run), run)
  {
    StoredId(run);
    StoredTenant(run);
    StoredApp(run);
    StoredTrigger(run);
    StoredState(run);
    StoredCreator(run);
    StoredGraph(run);
    StoredOutputs(run);
    StoredUsage(run);
    StoredSteps(run);
    StoredExceptions(run);
    StoredTimes(run);
  }

  /** A stored run reads back as the run's own fields, whether read directly
      or as a search hit, provided its JSON columns do not hold `null`
      (dropped on the way in, they would read back as `{}`). */
  lemma EsRoundTrip(run: WorkflowRun)
    requires DictView(run.graph) != Null && DictView(run.inputs) != Null && DictView(run.outputs) != Null
    ensures FromEsDocument(ToEsDocument(run)) == Ok(FieldsOf(run))
    ensures FromEsDocument(map["_source" := Dict(ToEsDocument(run))]) == Ok(FieldsOf(run))
  {
    var d := ToEsDocument(run);
    StoredRun(run);
    StoredUnwrapped(run);
    ReadsBack(d, run);
  }

  /** A document missing a required field fails with that field's `KeyError`
      when every field read before it is present. */
  lemma MissingFieldRaises(source: Doc)
    requires "_source" !in source && "id" !in source
    ensures FromEsDocument(source) == Err(KeyError("id"))
  {
  }

  /** Optional fields missing from a document take their defaults. */
  lemma OptionalDefaults(doc: Doc)
    requires FromEsDocument(doc).Ok? && "_source" !in doc
    ensures "graph" !in doc ==> FromEsDocument(doc).value.graph == EmptyDict
    ensures "error" !in doc ==> FromEsDocument(doc).value.error == Null
    ensures "elapsed_time" !in doc ==> FromEsDocument(doc).value.elapsedTime == Real(0.0)
    ensures "total_tokens" !in doc ==> FromEsDocument(doc).value.totalTokens == Int(0)
    ensures "created_at" !in doc ==> FromEsDocument(doc).value.createdAt == Null
  {
  }

  /** The query of `get_workflow_run_by_id`. */
  function ByIdQuery(tenantId: string, appId: string, runId: string): Query {
    BoolQuery([Term("id", runId), Term("tenant_id", tenantId), Term("app_id", appId)], [], None)
  }

  /** The search `get_workflow_run_by_id` sends: the tenant's indices, at
      most one hit. */
  function ByIdRequest(prefix: string, tenantId: string, appId: string, runId: string): Request {
    Search(TenantPattern(prefix, tenantId), SearchBody(ByIdQuery(tenantId, appId, runId), [], 1, None))
  }

  /** The indexing call `save` sends: the run's document into the month of
      its creation, or of `now` when it has none. */
  function SaveRequest(prefix: string, run: WorkflowRun, now: Instant): Request {
    IndexDoc(DatedIndexName(prefix, run.tenantId, run.createdAt, now), run.id, ToEsDocument(run))
  }

  /** The query of `get_paginated_workflow_runs`: tenant, app and trigger
      terms, and `created_at < cursor` when a cursor is given. */
  function PageQuery(tenantId: string, appId: string, triggeredFrom: string, cursor: Option<Instant>): (q: Query)
    ensures q.BoolQuery? && q.should == [] && q.minimumShouldMatch.None?
    ensures |q.must| == 3 + (if cursor.Some? then 1 else 0)
    ensures q.must[..3] == [Term("tenant_id", tenantId), Term("app_id", appId), Term("triggered_from", triggeredFrom)]
    ensures cursor.Some? ==> q.must[3] == Range("created_at", cursor, None, None)
  {
    var must := [Term("tenant_id", tenantId), Term("app_id", appId), Term("triggered_from", triggeredFrom)];
    BoolQuery(must + (if cursor.Some? then [Range("created_at", cursor, None, None)] else []), [], None)
  }

  /** The must-clauses of `search_workflow_runs`: the tenant always; app,
      status and the date range only when given. */
  function SearchClauses(tenantId: string, appId: Option<string>, status: Option<string>,
                         after: Option<Instant>, before: Option<Instant>): seq<Clause>
  {
    [Term("tenant_id", tenantId)]
    + (if Given(appId) then [Term("app_id", appId.value)] else [])
    + (if Given(status) then [Term("status", status.value)] else [])
    + DateRange(after, before)
  }

  /** The query of `search_workflow_runs`: a keyword adds three should-clauses
      of which one must match. */
  function SearchQuery(tenantId: string, appId: Option<string>, keyword: Option<string>, status: Option<string>,
                       after: Option<Instant>, before: Option<Instant>): Query
  {
    var should := if Given(keyword) then
      [Match("inputs", keyword.value), Match("outputs", keyword.value), Match("error", keyword.value)]
    else [];
    BoolQuery(SearchClauses(tenantId, appId, status, after, before), should,
              if Given(keyword) then Some(1) else None)
  }

  /** Each term filter of the search is present exactly when its argument is
      given, and the tenant filter always comes first. */
  lemma SearchClausesTerms(tenantId: string, appId: Option<string>, status: Option<string>,
                           after: Option<Instant>, before: Option<Instant>)
    ensures var must := SearchClauses(tenantId, appId, status, after, before);
            must != [] && must[0] == Term("tenant_id", tenantId)
    ensures var must := SearchClauses(tenantId, appId, status, after, before);
            forall x :: Term("app_id", x) in must <==> appId == Some(x) && x != ""
    ensures var must := SearchClauses(tenantId, appId, status, after, before);
            forall x :: Term("status", x) in must <==> status == Some(x) && x != ""
  {
    var must := SearchClauses(tenantId, appId, status, after, before);
    var app := if Given(appId) then [Term("app_id", appId.value)] else [];
    var st := if Given(status) then [Term("status", status.value)] else [];
    var range := DateRange(after, before);
    assert must == [Term("tenant_id", tenantId)] + app + st + range;
    forall c | c in must
      ensures c in [Term("tenant_id", tenantId)] || c in app || c in st || c in range
    {
    }
  }

  /** The search has a date range exactly when a bound is given, and it is
      the range on `created_at` between the given bounds. */
  lemma SearchClausesRange(tenantId: string, appId: Option<string>, status: Option<string>,
                           after: Option<Instant>, before: Option<Instant>)
    ensures var must := SearchClauses(tenantId, appId, status, after, before);
            (exists c :: c in must && c.Range?) <==> after.Some? || before.Some?
    ensures var must := SearchClauses(tenantId, appId, status, after, before);
            forall c :: c in must && c.Range? ==> c == Range("created_at", None, after, before)
  {
    var must := SearchClauses(tenantId, appId, status, after, before);
    var app := if Given(appId) then [Term("app_id", appId.value)] else [];
    var st := if Given(status) then [Term("status", status.value)] else [];
    var range := DateRange(after, before);
    assert must == [Term("tenant_id", tenantId)] + app + st + range;
    forall c | c in must
      ensures c in [Term("tenant_id", tenantId)] || c in app || c in st || c in range
    {
    }
    if after.Some? || before.Some? {
      assert range[0] in must;
    }
  }

  /** The keyword adds its three should-clauses, one of which must match,
      exactly when it is given; the filters are the search's clauses. */
  lemma SearchQueryShape(tenantId: string, appId: Option<string>, keyword: Option<string>, status: Option<string>,
                         after: Option<Instant>, before: Option<Instant>)
    ensures var q := SearchQuery(tenantId, appId, keyword, status, after, before);
            q.BoolQuery? && q.must == SearchClauses(tenantId, appId, status, after, before)
    ensures var q := SearchQuery(tenantId, appId, keyword, status, after, before);
            (q.should != [] <==> Given(keyword)) && (q.minimumShouldMatch == Some(1) <==> Given(keyword))
    ensures var q := SearchQuery(tenantId, appId, keyword, status, after, before);
            Given(keyword) ==> q.should == [Match("inputs", keyword.value), Match("outputs", keyword.value), Match("error", keyword.value)]
  {
  }

  /** The query of `get_expired_runs_batch`. */
  function ExpiredQuery(tenantId: string, beforeDate: Instant): Query {
    BoolQuery([Term("tenant_id", tenantId), Range("created_at", Some(beforeDate), None, None)], [], None)
  }

  /** The query of `delete_runs_by_app`. */
  function AppQuery(tenantId: string, appId: string): Query {
    BoolQuery([Term("tenant_id", tenantId), Term("app_id", appId)], [], None)
  }

  class RunRepository {
    const client: Client
    const prefix: string

    constructor (client: Client, prefix: string)
      ensures this.client == client && this.prefix == prefix
    {
      this.client := client;
      this.prefix := prefix;
    }

    /** `save`: one indexing call into the month of the run's creation, or the
        current month when it has none. */
    method Save(run: WorkflowRun, now: Instant) returns (r: Result<()>)
      modifies client
      ensures client.log == old(client.log) + [SaveRequest(prefix, run, now)]
      ensures r.Ok? <==> !Raises(client.answer(client.log))
    {
      var reply := client.Call(SaveRequest(prefix, run, now));
      if Raises(reply) {
        return Err(Raise(reply));
      }
      r := Ok(());
    }

    /** `get_workflow_run_by_id`: one search of the tenant's indices for at
        most one hit with this id, tenant and app. */
    method GetWorkflowRunById(tenantId: string, appId: string, runId: string) returns (r: Result<Option<RunFields>>)
      modifies client
      ensures client.log == old(client.log) + [ByIdRequest(prefix, tenantId, appId, runId)]
      ensures r == FirstHit(client.answer(client.log), FromEsDocument)
    {
      var reply := client.Call(ByIdRequest(prefix, tenantId, appId, runId));
      r := FirstHit(reply, FromEsDocument);
    }

    /** `get_paginated_workflow_runs`: newest first, `limit + 1` hits asked
        for. With a cursor id, that run is looked up first; it must exist, and
        only runs created before it are asked for. `cursor` is the creation
        time the page starts below. */
    method GetPaginatedWorkflowRuns(tenantId: string, appId: string, triggeredFrom: string, limit: int,
                                    lastId: Option<string>)
      returns (r: Result<Page<RunFields>>, ghost cursor: Option<Instant>)
      modifies client
      ensures Given(lastId) ==>
                var lookup := ByIdRequest(prefix, tenantId, appId, lastId.value);
                |client.log| > |old(client.log)| && client.log[..|old(client.log)| + 1] == old(client.log) + [lookup]
      ensures Given(lastId) ==>
                var lookup := ByIdRequest(prefix, tenantId, appId, lastId.value);
                FirstHit(client.answer(old(client.log) + [lookup]), FromEsDocument) == Ok(None) ==>
                r == Err(ValueError("Last workflow run not exists")) && client.log == old(client.log) + [lookup]
      ensures r.Ok? ==> (cursor.Some? <==> Given(lastId))
      ensures r.Ok? && cursor.Some? ==>
                var lookup := ByIdRequest(prefix, tenantId, appId, lastId.value);
                var found := FirstHit(client.answer(old(client.log) + [lookup]), FromEsDocument);
                found.Ok? && found.value.Some? && found.value.value.createdAt == Time(cursor.value)
      ensures r.Ok? ==>
                |client.log| == |old(client.log)| + (if Given(lastId) then 2 else 1) &&
                client.log[|client.log| - 1] ==
                  Search(TenantPattern(prefix, tenantId),
                         SearchBody(PageQuery(tenantId, appId, triggeredFrom, cursor), [SortKey("created_at", true)], limit + 1, None))
      ensures r.Ok? ==>
                var reply := client.answer(client.log);
                reply.Hits? && MapAll(reply.hits, FromEsDocument).Ok? &&
                r.value == Paginate(MapAll(reply.hits, FromEsDocument).value, limit)
    {
      var below: Option<Instant> := None;
      cursor := below;
      if Given(lastId) {
        var last := GetWorkflowRunById(tenantId, appId, lastId.value);
        if last.Err? {
          return Err(last.error), cursor;
        }
        if last.value.None? {
          return Err(ValueError("Last workflow run not exists")), cursor;
        }
        var createdAt := last.value.value.createdAt;
        if !createdAt.Time? {
          return Err(AttributeError("'NoneType' object has no attribute 'isoformat'")), cursor;
        }
        below := Some(createdAt.t);
        cursor := below;
      }
      var body := SearchBody(PageQuery(tenantId, appId, triggeredFrom, below), [SortKey("created_at", true)], limit + 1, None);
      var reply := client.Call(Search(TenantPattern(prefix, tenantId), body));
      if !reply.Hits? {
        return Err(Raise(reply)), cursor;
      }
      var runs := ConvertAll(reply.hits, FromEsDocument);
      if runs.Err? {
        return Err(runs.error), cursor;
      }
      r := Ok(Paginate(runs.value, limit));
    }

    /** `get_expired_runs_batch`: the tenant's runs created before the date,
        oldest first, at most `batchSize` of them. */
    method GetExpiredRunsBatch(tenantId: string, beforeDate: Instant, batchSize: int) returns (r: Result<seq<RunFields>>)
      modifies client
      ensures client.log == old(client.log) +
                [Search(TenantPattern(prefix, tenantId),
                        SearchBody(ExpiredQuery(tenantId, beforeDate), [SortKey("created_at", false)], batchSize, None))]
      ensures var reply := client.answer(client.log);
              r == if reply.Hits? then MapAll(reply.hits, FromEsDocument) else Err(Raise(reply))
    {
      var body := SearchBody(ExpiredQuery(tenantId, beforeDate), [SortKey("created_at", false)], batchSize, None);
      var reply := client.Call(Search(TenantPattern(prefix, tenantId), body));
      if !reply.Hits? {
        return Err(Raise(reply));
      }
      r := ConvertAll(reply.hits, FromEsDocument);
    }

    /** `delete_runs_by_ids`: no ids, no call and nothing deleted; otherwise
        one delete-by-query over every tenant's indices. */
    method DeleteRunsByIds(runIds: seq<string>) returns (r: Result<int>)
      modifies client
      ensures runIds == [] ==> r == Ok(0) && client.log == old(client.log)
      ensures runIds != [] ==>
                client.log == old(client.log) + [DeleteByQuery(prefix + "-*", ClauseQuery(Terms("id", runIds)))] &&
                r == DeletedOrZero(client.answer(client.log))
    {
      if runIds == [] {
        return Ok(0);
      }
      var reply := client.Call(DeleteByQuery(prefix + "-*", ClauseQuery(Terms("id", runIds))));
      r := DeletedOrZero(reply);
    }

    /** `delete_runs_by_app`: one delete-by-query over the tenant's indices. */
    method DeleteRunsByApp(tenantId: string, appId: string) returns (r: Result<int>)
      modifies client
      ensures client.log == old(client.log) + [DeleteByQuery(TenantPattern(prefix, tenantId), AppQuery(tenantId, appId))]
      ensures r == DeletedOrZero(client.answer(client.log))
    {
      var reply := client.Call(DeleteByQuery(TenantPattern(prefix, tenantId), AppQuery(tenantId, appId)));
      r := DeletedOrZero(reply);
    }

    /** `cleanup_old_indices`; `cutoff` is the current time less the retention
        period. */
    method CleanupOldIndices(tenantId: string, cutoff: Instant) returns (r: Result<()>)
      modifies client
      ensures |client.log| > |old(client.log)| && client.log[|old(client.log)|] == GetIndices(TenantPattern(prefix, tenantId))
      ensures var listed := client.answer(old(client.log) + [GetIndices(TenantPattern(prefix, tenantId))]);
              listed.IndexList? ==>
                client.log == old(client.log) + [GetIndices(TenantPattern(prefix, tenantId))] +
                              CleanupRequests(listed.names, YearMonth(cutoff))
    {
      r := EsClient.CleanupOldIndices(client, TenantPattern(prefix, tenantId), cutoff);
    }

    /** `search_workflow_runs`: newest first, `limit` hits from `offset`. */
    method SearchWorkflowRuns(tenantId: string, appId: Option<string>, keyword: Option<string>, status: Option<string>,
                              after: Option<Instant>, before: Option<Instant>, limit: int, offset: int)
      returns (r: Result<SearchResult<RunFields>>)
      modifies client
      ensures client.log == old(client.log) +
                [Search(TenantPattern(prefix, tenantId),
                        SearchBody(SearchQuery(tenantId, appId, keyword, status, after, before),
                                   [SortKey("created_at", true)], limit, Some(offset)))]
      ensures var reply := client.answer(client.log);
              r.Ok? <==> reply.Hits? && MapAll(reply.hits, FromEsDocument).Ok?
      ensures var reply := client.answer(client.log);
              r.Ok? ==> r.value == OffsetResult(MapAll(reply.hits, FromEsDocument).value, reply.total, limit, offset)
    {
      var body := SearchBody(SearchQuery(tenantId, appId, keyword, status, after, before),
                             [SortKey("created_at", true)], limit, Some(offset));
      var reply := client.Call(Search(TenantPattern(prefix, tenantId), body));
      if !reply.Hits? {
        return Err(Raise(reply));
      }
      var runs := ConvertAll(reply.hits, FromEsDocument);
      if runs.Err? {
        return Err(runs.error);
      }
      r := Ok(OffsetResult(runs.value, reply.total, limit, offset));
    }
  }

  /** The repository's construction: it takes the process-wide client, which
      must be configured, and installs its index template. */
  method NewRunRepository(global: Client?, prefix: string) returns (r: Result<RunRepository>)
    modifies global
    ensures global == null ==> r == Err(ValueError("Elasticsearch client is not available. Please check your configuration."))
    ensures global != null ==>
              global.log == old(global.log) + [PutTemplate(prefix + "-template", [prefix + "-*"])] &&
              (r.Ok? <==> !Raises(global.answer(global.log)))
    ensures r.Ok? ==> fresh(r.value) && r.value.client == global && r.value.prefix == prefix
  {
    if global == null {
      return Err(ValueError("Elasticsearch client is not available. Please check your configuration."));
    }
    var repo := new RunRepository(global, prefix);
    var ensured := EnsureIndexTemplate(global, prefix);
    if ensured.Err? {
      return Err(ensured.error);
    }
    r := Ok(repo);
  }
}
