/** The app-log repository over the log store:
    `ElasticsearchWorkflowAppLogRepository`. Each app log is one document in
    a monthly index per tenant. */
module EsAppLogRepository {
  import opened Common
  import opened WorkflowRecords
  import opened EsClient

  const DefaultPrefix: string := "dify-workflow-app-logs"

  /** `_to_es_document`: every field is written, a missing creation time as
      `None`. */
  function ToEsDocument(log: WorkflowAppLog): Doc {
    map[
      "id" := Str(log.id),
      "tenant_id" := Str(log.tenantId),
      "app_id" := Str(log.appId),
      "workflow_id" := Str(log.workflowId),
      "workflow_run_id" := Str(log.workflowRunId),
      "created_from" := Str(log.createdFrom),
      "created_by_role" := Str(log.createdByRole),
      "created_by" := Str(log.createdBy),
      "created_at" := OptTime(log.createdAt)
    ]
  }

  /** Unlike the other repositories' documents, an app log's document keeps
      all nine keys; only the creation time can be `None`, exactly when the
      log has none. */
  lemma AllKeysWritten(log: WorkflowAppLog)
    ensures ToEsDocument(log).Keys ==
            {"id", "tenant_id", "app_id", "workflow_id", "workflow_run_id", "created_from", "created_by_role", "created_by", "created_at"}
    ensures forall k :: k in ToEsDocument(log) && ToEsDocument(log)[k] == Null ==> k == "created_at"
    ensures ToEsDocument(log)["created_at"] == Null <==> log.createdAt.None?
  {
  }

  /** The attributes `_from_es_document` assigns to a fresh `WorkflowAppLog`,
      as the values read from the document; they are assigned unchecked. */
  datatype AppLogFields = AppLogFields(
    id: Value, tenantId: Value, appId: Value, workflowId: Value, workflowRunId: Value,
    createdFrom: Value, createdByRole: Value, createdBy: Value, createdAt: Value)

  /** An app log's own attributes as document values. */
  function FieldsOf(log: WorkflowAppLog): AppLogFields {
    AppLogFields(
      Str(log.id), Str(log.tenantId), Str(log.appId), Str(log.workflowId), Str(log.workflowRunId),
      Str(log.createdFrom), Str(log.createdByRole), Str(log.createdBy), OptTime(log.createdAt))
  }

  /** `_from_es_document`: the eight identifying fields are required, in this
      order; the creation time is parsed when present and truthy. */
  function FromEsDocument(doc: Doc): (r: Result<AppLogFields>)
    ensures r.Ok? ==> "_source" !in doc || doc["_source"].Dict?
  {
    var source :- SourceOf(doc);
    var id :- Required(source, "id");
    var tenantId :- Required(source, "tenant_id");
    var appId :- Required(source, "app_id");
    var workflowId :- Required(source, "workflow_id");
    var workflowRunId :- Required(source, "workflow_run_id");
    var createdFrom :- Required(source, "created_from");
    var createdByRole :- Required(source, "created_by_role");
    var createdBy :- Required(source, "created_by");
    var createdAt :- ParsedTime(source, "created_at");
    Ok(AppLogFields(id, tenantId, appId, workflowId, workflowRunId, createdFrom, createdByRole, createdBy, createdAt))
  }

  /** Distinct app logs have distinct attributes: the attributes read back
      determine the log. */
  lemma FieldsOfInjective(a: WorkflowAppLog, b: WorkflowAppLog)
    requires FieldsOf(a) == FieldsOf(b)
    ensures a == b
  {
    assert a.createdAt == b.createdAt by {
      if a.createdAt.Some? {
        assert OptTime(b.createdAt) == Time(a.createdAt.value);
      } else {
        assert OptTime(b.createdAt) == Null;
      }
    }
  }

  /** A document from which `FromEsDocument` reads exactly the log's
      attributes. */
  predicate HoldsLog(d: Doc, log: WorkflowAppLog) {
    "_source" !in d &&
    Required(d, "id") == Ok(Str(log.id)) && Required(d, "tenant_id") == Ok(Str(log.tenantId)) &&
    Required(d, "app_id") == Ok(Str(log.appId)) && Required(d, "workflow_id") == Ok(Str(log.workflowId)) &&
    Required(d, "workflow_run_id") == Ok(Str(log.workflowRunId)) && Required(d, "created_from") == Ok(Str(log.createdFrom)) &&
    Required(d, "created_by_role") == Ok(Str(log.createdByRole)) && Required(d, "created_by") == Ok(Str(log.createdBy)) &&
    ParsedTime(d, "created_at") == Ok(OptTime(log.createdAt))
  }

  // The attributes of a stored log, a few at a time.

  lemma StoredIds(log: WorkflowAppLog)
    ensures var d := ToEsDocument(log);
            "_source" !in d && Required(d, "id") == Ok(Str(log.id)) && Required(d, "tenant_id") == Ok(Str(log.tenantId))
  {
  }

  lemma StoredWorkflow(log: WorkflowAppLog)
    ensures var d := ToEsDocument(log);
            Required(d, "app_id") == Ok(Str(log.appId)) && Required(d, "workflow_id") == Ok(Str(log.workflowId)) &&
            Required(d, "workflow_run_id") == Ok(Str(log.workflowRunId))
  {
  }

  lemma StoredCreator(log: WorkflowAppLog)
    ensures var d := ToEsDocument(log);
            Required(d, "created_from") == Ok(Str(log.createdFrom)) && Required(d, "created_by_role") == Ok(Str(log.createdByRole)) &&
            Required(d, "created_by") == Ok(Str(log.createdBy)) && ParsedTime(d, "created_at") == Ok(OptTime(log.createdAt))
  {
  }

  /** A stored log holds all of the log's attributes. */
  lemma StoredLog(log: WorkflowAppLog)
    ensures HoldsLog(ToEsDocument(log), log)
  {
    StoredIds(log);
    StoredWorkflow(log);
    StoredCreator(log);
  }

  /** A stored app log reads back as the same log, whether read directly or
      as a search hit. */
  lemma EsRoundTrip(log: WorkflowAppLog)
    ensures FromEsDocument(ToEsDocument(log)) == Ok(FieldsOf(log))
    ensures FromEsDocument(map["_source" := Dict(ToEsDocument(log))]) == Ok(FieldsOf(log))
  {
    StoredLog(log);
  }

  /** A document missing one of the identifying fields does not read back. */
  lemma MissingFieldRaises(doc: Doc, key: string)
    requires "_source" !in doc && key !in doc
    requires key in ["id", "tenant_id", "app_id", "workflow_id", "workflow_run_id", "created_from", "created_by_role", "created_by"]
    ensures FromEsDocument(doc).Err?
  {
  }

  /** The query of `get_by_id`. */
  function ByIdQuery(tenantId: string, logId: string): Query {
    BoolQuery([Term("id", logId), Term("tenant_id", tenantId)], [], None)
  }

  /** The search `get_by_id` sends: the tenant's indices, at most one hit. */
  function ByIdRequest(prefix: string, tenantId: string, logId: string): Request {
    Search(TenantPattern(prefix, tenantId), SearchBody(ByIdQuery(tenantId, logId), [], 1, None))
  }

  /** The indexing call `save` sends: the log's document into the month of
      its creation, or of `now` when it has none. */
  function SaveRequest(prefix: string, log: WorkflowAppLog, now: Instant): Request {
    IndexDoc(DatedIndexName(prefix, log.tenantId, log.createdAt, now), log.id, ToEsDocument(log))
  }

  /** The must-clauses of `get_paginated_logs`: tenant and app always; the
      creation source and the date range only when given. */
  function LogsClauses(tenantId: string, appId: string, createdFrom: Option<string>,
                       after: Option<Instant>, before: Option<Instant>): seq<Clause>
  {
    [Term("tenant_id", tenantId), Term("app_id", appId)]
    + (if Given(createdFrom) then [Term("created_from", createdFrom.value)] else [])
    + DateRange(after, before)
  }

  /** Tenant and app come first; the creation-source filter is present
      exactly when it is given; a range is present exactly when a bound is
      given, and it is the range between the given bounds. */
  lemma LogsClausesShape(tenantId: string, appId: string, createdFrom: Option<string>,
                         after: Option<Instant>, before: Option<Instant>)
    ensures var must := LogsClauses(tenantId, appId, createdFrom, after, before);
            |must| >= 2 && must[..2] == [Term("tenant_id", tenantId), Term("app_id", appId)]
    ensures var must := LogsClauses(tenantId, appId, createdFrom, after, before);
            forall x :: Term("created_from", x) in must <==> createdFrom == Some(x) && x != ""
    ensures var must := LogsClauses(tenantId, appId, createdFrom, after, before);
            (exists c :: c in must && c.Range?) <==> after.Some? || before.Some?
    ensures var must := LogsClauses(tenantId, appId, createdFrom, after, before);
            forall c :: c in must && c.Range? ==> c == Range("created_at", None, after, before)
  {
    var must := LogsClauses(tenantId, appId, createdFrom, after, before);
    var head := [Term("tenant_id", tenantId), Term("app_id", appId)];
    var from := if Given(createdFrom) then [Term("created_from", createdFrom.value)] else [];
    var range := DateRange(after, before);
    assert must == head + from + range;
    forall c | c in must
      ensures c in head || c in from || c in range
    {
    }
    if after.Some? || before.Some? {
      assert range[0] in must;
    }
  }

  /** The query of `delete_by_app`. */
  function AppQuery(tenantId: string, appId: string): Query {
    BoolQuery([Term("tenant_id", tenantId), Term("app_id", appId)], [], None)
  }

  /** The query of `delete_expired_logs`: the tenant's logs created before
      the date. */
  function ExpiredQuery(tenantId: string, beforeDate: Instant): Query {
    BoolQuery([Term("tenant_id", tenantId), Range("created_at", Some(beforeDate), None, None)], [], None)
  }

  class AppLogRepository {
    const client: Client
    const prefix: string

    constructor (client: Client, prefix: string)
      ensures this.client == client && this.prefix == prefix
    {
      this.client := client;
      this.prefix := prefix;
    }

    /** `save`: the log goes to the month of its creation, or of `now` when
        it has none. */
    method Save(log: WorkflowAppLog, now: Instant) returns (r: Result<()>)
      modifies client
      ensures client.log == old(client.log) + [SaveRequest(prefix, log, now)]
      ensures r.Ok? <==> !Raises(client.answer(client.log))
    {
      var reply := client.Call(SaveRequest(prefix, log, now));
      if Raises(reply) {
        return Err(Raise(reply));
      }
      r := Ok(());
    }

    /** `get_by_id`: one search of the tenant's indices for at most one hit. */
    method GetById(tenantId: string, logId: string) returns (r: Result<Option<AppLogFields>>)
      modifies client
      ensures client.log == old(client.log) + [ByIdRequest(prefix, tenantId, logId)]
      ensures r == FirstHit(client.answer(client.log), FromEsDocument)
    {
      var reply := client.Call(ByIdRequest(prefix, tenantId, logId));
      r := FirstHit(reply, FromEsDocument);
    }

    /** `get_paginated_logs`: newest first, `limit` hits from `offset`; the
        result echoes the paging and has more exactly when the total goes
        past this page. */
    method GetPaginatedLogs(tenantId: string, appId: string, after: Option<Instant>, before: Option<Instant>,
                            createdFrom: Option<string>, limit: int, offset: int)
      returns (r: Result<SearchResult<AppLogFields>>)
      modifies client
      ensures client.log == old(client.log) +
                [Search(TenantPattern(prefix, tenantId),
                        SearchBody(BoolQuery(LogsClauses(tenantId, appId, createdFrom, after, before), [], None),
                                   [SortKey("created_at", true)], limit, Some(offset)))]
      ensures var reply := client.answer(client.log);
              r.Ok? <==> reply.Hits? && MapAll(reply.hits, FromEsDocument).Ok?
      ensures var reply := client.answer(client.log);
              r.Ok? ==> r.value == OffsetResult(MapAll(reply.hits, FromEsDocument).value, reply.total, limit, offset)
    {
      var body := SearchBody(BoolQuery(LogsClauses(tenantId, appId, createdFrom, after, before), [], None),
                             [SortKey("created_at", true)], limit, Some(offset));
      var reply := client.Call(Search(TenantPattern(prefix, tenantId), body));
      if !reply.Hits? {
        return Err(Raise(reply));
      }
      var logs := ConvertAll(reply.hits, FromEsDocument);
      if logs.Err? {
        return Err(logs.error);
      }
      r := Ok(OffsetResult(logs.value, reply.total, limit, offset));
    }

    /** `delete_by_app`: one delete-by-query over the tenant's indices. */
    method DeleteByApp(tenantId: string, appId: string) returns (r: Result<int>)
      modifies client
      ensures client.log == old(client.log) + [DeleteByQuery(TenantPattern(prefix, tenantId), AppQuery(tenantId, appId))]
      ensures r == DeletedOrZero(client.answer(client.log))
    {
      var reply := client.Call(DeleteByQuery(TenantPattern(prefix, tenantId), AppQuery(tenantId, appId)));
      r := DeletedOrZero(reply);
    }

    /** `delete_expired_logs`: one delete-by-query over the tenant's indices. */
    method DeleteExpiredLogs(tenantId: string, beforeDate: Instant) returns (r: Result<int>)
      modifies client
      ensures client.log == old(client.log) + [DeleteByQuery(TenantPattern(prefix, tenantId), ExpiredQuery(tenantId, beforeDate))]
      ensures r == DeletedOrZero(client.answer(client.log))
    {
      var reply := client.Call(DeleteByQuery(TenantPattern(prefix, tenantId), ExpiredQuery(tenantId, beforeDate)));
      r := DeletedOrZero(reply);
    }

    /** `cleanup_old_indices`; `cutoff` is the current time less the retention
        period. */
    method CleanupOldIndices(tenantId: string, cutoff: Instant) returns (r: Result<()>)
      modifies client
      ensures |client.log| > |old(client.log)| && client.log[|old(client.log)|] == GetIndices(TenantPattern(prefix, tenantId))
      ensures var listed := client.answer(old(client.log) + [GetIndices(TenantPattern(prefix, tenantId))]);
              listed.IndexList? ==>
                client.log == old(client.log) + [GetIndices(TenantPattern(prefix, tenantId))] +
                              CleanupRequests(listed.names, YearMonth(cutoff))
    {
      r := EsClient.CleanupOldIndices(client, TenantPattern(prefix, tenantId), cutoff);
    }
  }

  /** The repository's construction: it installs its index template, and a
      failure to do so is raised to the caller. */
  method NewAppLogRepository(client: Client, prefix: string) returns (r: Result<AppLogRepository>)
    modifies client
    ensures client.log == old(client.log) + [PutTemplate(prefix + "-template", [prefix + "-*"])]
    ensures r.Ok? <==> !Raises(client.answer(client.log))
    ensures r.Ok? ==> fresh(r.value) && r.value.client == client && r.value.prefix == prefix
  {
    var repo := new AppLogRepository(client, prefix);
    var ensured := EnsureIndexTemplate(client, prefix);
    if ensured.Err? {
      return Err(ensured.error);
    }
    r := Ok(repo);
  }
}
