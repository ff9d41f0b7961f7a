/** The migration of workflow records from the relational database into the
    log store: `ElasticsearchMigrationService`. Rows are read in batches and
    written one at a time, failures are counted rather than raised; samples
    are looked up again to validate the copy; and old rows can afterwards be
    deleted from the database. */
module MigrationService {
  import opened Common
  import opened WorkflowRecords
  import opened EsClient
  import EsRunRepository
  import EsAppLogRepository
  import EsNodeExecutionRepository

  // ---------------------------------------------------------------------------
  // Construction
  // ---------------------------------------------------------------------------

  /** `es_client or elasticsearch.client`: the given client, else the
      process-wide one. */
  function ServiceClient(given: Client?, global: Client?): (c: Client?)
    ensures given != null ==> c == given
    ensures given == null ==> c == global
  {
    if given != null then given else global
  }

  class MigrationService {
    const client: Client
    const batchSize: int
    const runRepo: EsRunRepository.RunRepository
    const appLogRepo: EsAppLogRepository.AppLogRepository

    constructor (client: Client, batchSize: int, runRepo: EsRunRepository.RunRepository,
                 appLogRepo: EsAppLogRepository.AppLogRepository)
      ensures this.client == client && this.batchSize == batchSize
      ensures this.runRepo == runRepo && this.appLogRepo == appLogRepo
    {
      this.client := client;
      this.batchSize := batchSize;
      this.runRepo := runRepo;
      this.appLogRepo := appLogRepo;
    }

    /** Both repositories talk to the service's own client. */
    predicate Valid() {
      runRepo.client == client && appLogRepo.client == client
    }

    /** `migrate_workflow_runs`: each run is sent as the run repository's
        own indexing call. */
    method MigrateWorkflowRuns(rows: seq<WorkflowRun>, count: Option<int>, dryRun: bool, now: Instant)
      returns (r: Result<Stats>)
      requires Valid()
      modifies client
      ensures var o := MigrationOf(old(client.log), client.answer, rows, count, batchSize, dryRun,
                                   RunMigration(runRepo.prefix, now));
              r == o.0 && client.log == old(client.log) + o.1
    {
      r := MigrateRows(client, rows, count, batchSize, dryRun, RunMigration(runRepo.prefix, now));
    }

    /** `migrate_workflow_app_logs`: each log is sent as the app-log
        repository's own indexing call. */
    method MigrateWorkflowAppLogs(rows: seq<WorkflowAppLog>, count: Option<int>, dryRun: bool, now: Instant)
      returns (r: Result<Stats>)
      requires Valid()
      modifies client
      ensures var o := MigrationOf(old(client.log), client.answer, rows, count, batchSize, dryRun,
                                   AppLogMigration(appLogRepo.prefix, now));
              r == o.0 && client.log == old(client.log) + o.1
    {
      r := MigrateRows(client, rows, count, batchSize, dryRun, AppLogMigration(appLogRepo.prefix, now));
    }

    /** `migrate_workflow_node_executions`: each row is converted, with its
        offloaded data loaded, and indexed by the service's client itself.
        `load` is the storage read of an offloaded file, JSON-decoded. */
    method MigrateWorkflowNodeExecutions(rows: seq<NodeExecutionRow>, count: Option<int>, tenantFilter: Option<string>,
                                         dryRun: bool, load: string -> Result<Value>)
      returns (r: Result<Stats>)
      modifies client
      ensures var o := MigrationOf(old(client.log), client.answer, rows, count, batchSize, dryRun,
                                   NodeMigration(tenantFilter, load));
              r == o.0 && client.log == old(client.log) + o.1
    {
      r := MigrateRows(client, rows, count, batchSize, dryRun, NodeMigration(tenantFilter, load));
    }

    /** `validate_migration`: the sampled runs, then the sampled app logs,
        are looked up through their repositories; node executions are
        reported but never checked. */
    method ValidateMigration(tenantId: string, runs: seq<WorkflowRun>, logs: seq<WorkflowAppLog>)
      returns (report: ValidationReport)
      requires Valid()
      modifies client
      ensures var runCheck := RunCheck(runRepo.prefix, tenantId);
              var logCheck := AppLogCheck(appLogRepo.prefix, tenantId);
              client.log == old(client.log) + Lookups(runs, runCheck) + Lookups(logs, logCheck) &&
              report == ValidationOf(old(client.log), client.answer, runs, logs, runCheck, logCheck)
    {
      var runCheck := RunCheck(runRepo.prefix, tenantId);
      var logCheck := AppLogCheck(appLogRepo.prefix, tenantId);
      ghost var log0 := client.log;
      var runTally := CheckSamples(client, runs, [], runCheck);
      ghost var log1 := client.log;
      var logTally := CheckSamples(client, logs, runTally.errors, logCheck);
      report := ValidationReport(runTally.counts, logTally.counts, Counts(0, 0, 0, 0), logTally.errors);
      assert log1 == log0 + Lookups(runs, runCheck);
    }

    /** `cleanup_old_pg_data`: the tenant's rows created before the date are
        counted table by table; unless this is a dry run they are deleted,
        dependants first, and the deletion is committed. */
    method CleanupOldPgData(session: Session, tenantId: string, before: Instant, dryRun: bool)
      returns (stats: CleanupStats)
      modifies session
      ensures stats == CleanupStats(
                |Matching(old(session.runs), tenantId, before)|,
                |Matching(old(session.appLogs), tenantId, before)|,
                |Matching(old(session.nodeExecutions), tenantId, before)|,
                |Matching(old(session.offloads), tenantId, before)|)
      ensures dryRun ==> unchanged(session)
      ensures !dryRun ==>
                session.offloads == Kept(old(session.offloads), tenantId, before) &&
                session.nodeExecutions == Kept(old(session.nodeExecutions), tenantId, before) &&
                session.appLogs == Kept(old(session.appLogs), tenantId, before) &&
                session.runs == Kept(old(session.runs), tenantId, before) &&
                session.journal == old(session.journal) + CleanupJournal(tenantId, before)
    {
      if !dryRun {
        ghost var journal := session.journal;
        var offloads := |Matching(session.offloads, tenantId, before)|;
        session.Delete(OffloadsTable, tenantId, before);
        var nodes := |Matching(session.nodeExecutions, tenantId, before)|;
        session.Delete(NodeExecutionsTable, tenantId, before);
        var appLogs := |Matching(session.appLogs, tenantId, before)|;
        session.Delete(AppLogsTable, tenantId, before);
        var runs := |Matching(session.runs, tenantId, before)|;
        session.Delete(RunsTable, tenantId, before);
        session.Commit();
        JournalShape(journal, tenantId, before);
        stats := CleanupStats(runs, appLogs, nodes, offloads);
      } else {
        stats := CleanupStats(
          |Matching(session.runs, tenantId, before)|,
          |Matching(session.appLogs, tenantId, before)|,
          |Matching(session.nodeExecutions, tenantId, before)|,
          |Matching(session.offloads, tenantId, before)|);
      }
    }
  }

  /** The service's construction: a client must be at hand, and both
      repositories are built over it, each installing its index template. */
  method NewMigrationService(given: Client?, global: Client?, batchSize: int) returns (r: Result<MigrationService>)
    modifies given, global
    ensures ServiceClient(given, global) == null ==> r == Err(ValueError("Elasticsearch client is not available"))
    ensures ServiceClient(given, global) != null ==>
              var c := ServiceClient(given, global);
              var first := old(c.log) + [PutTemplate(EsRunRepository.DefaultPrefix + "-template", [EsRunRepository.DefaultPrefix + "-*"])];
              var second := first + [PutTemplate(EsAppLogRepository.DefaultPrefix + "-template", [EsAppLogRepository.DefaultPrefix + "-*"])];
              (Raises(c.answer(first)) ==> r.Err? && c.log == first) &&
              (!Raises(c.answer(first)) ==> c.log == second && (r.Ok? <==> !Raises(c.answer(second))))
    ensures r.Ok? ==>
              fresh(r.value) && r.value.Valid() && r.value.client == ServiceClient(given, global) &&
              r.value.batchSize == batchSize &&
              r.value.runRepo.prefix == EsRunRepository.DefaultPrefix &&
              r.value.appLogRepo.prefix == EsAppLogRepository.DefaultPrefix
  {
    var c := ServiceClient(given, global);
    if c == null {
      return Err(ValueError("Elasticsearch client is not available"));
    }
    var runs := EsRunRepository.NewRunRepository(c, EsRunRepository.DefaultPrefix);
    if runs.Err? {
      return Err(runs.error);
    }
    var logs := EsAppLogRepository.NewAppLogRepository(c, EsAppLogRepository.DefaultPrefix);
    if logs.Err? {
      return Err(logs.error);
    }
    var service := new MigrationService(c, batchSize, runs.value, logs.value);
    r := Ok(service);
  }

  /** The construction as written: the run repository is handed the client
      in place of a session factory, ignores it and takes the process-wide
      client. A service given its own client therefore fails when no
      process-wide client is configured, and otherwise writes runs through a
      different client from the one it was given. */
  method NewMigrationServiceAsWritten(given: Client?, global: Client?, batchSize: int) returns (r: Result<MigrationService>)
    modifies given, global
    ensures ServiceClient(given, global) == null ==> r == Err(ValueError("Elasticsearch client is not available"))
    ensures given != null && global == null ==>
              r == Err(ValueError("Elasticsearch client is not available. Please check your configuration."))
    ensures r.Ok? ==>
              fresh(r.value) && r.value.client == ServiceClient(given, global) &&
              r.value.runRepo.client == global && r.value.appLogRepo.client == r.value.client
    ensures r.Ok? && given != null && given != global ==> !r.value.Valid()
  {
    var c := ServiceClient(given, global);
    if c == null {
      return Err(ValueError("Elasticsearch client is not available"));
    }
    var runs := EsRunRepository.NewRunRepository(global, EsRunRepository.DefaultPrefix);
    if runs.Err? {
      return Err(runs.error);
    }
    var logs := EsAppLogRepository.NewAppLogRepository(c, EsAppLogRepository.DefaultPrefix);
    if logs.Err? {
      return Err(logs.error);
    }
    var service := new MigrationService(c, batchSize, runs.value, logs.value);
    r := Ok(service);
  }

  // ---------------------------------------------------------------------------
  // Migrating in batches
  // ---------------------------------------------------------------------------

  /** The statistics a migration returns. */
  datatype Stats = Stats(total: int, migrated: nat, failed: nat, errors: seq<string>)

  /** The statistics before any row is read. */
  function Start(total: int): Stats {
    Stats(total, 0, 0, [])
  }

  /** `session.scalar(count_query) or 0` */
  function Total(count: Option<int>): int {
    if count.Some? then count.value else 0
  }

  /** How one kind of record is migrated: the indexing call a row becomes
      (or the error its conversion raises before any call), its id, and its
      name in error messages. */
  datatype Migration<!R> = Migration(request: R -> Result<Request>, id: R -> string, kind: string)

  /** The message recorded for a row that could not be migrated. */
  function FailureMessage(kind: string, id: string, e: Error): (m: string)
    ensures StartsWith(m, "Failed to migrate " + kind + " " + id + ": ")
  {
    AppendParts("Failed to migrate " + kind + " " + id + ": ", Describe(e));
    "Failed to migrate " + kind + " " + id + ": " + Describe(e)
  }

  /** One more failed row, with its message. */
  function Failed(s: Stats, kind: string, id: string, e: Error): Stats {
    s.(failed := s.failed + 1, errors := s.errors + [FailureMessage(kind, id, e)])
  }

  /** The indexing calls rows become, in order; a row whose conversion
      failed sends none. */
  function Sent<R>(rows: seq<R>, m: Migration<R>): seq<Request>
    decreases |rows|
  {
    if rows == [] then []
    else
      var q := m.request(rows[|rows| - 1]);
      Sent(rows[..|rows| - 1], m) + (if q.Ok? then [q.value] else [])
  }

  /** The statistics after the rows are migrated one by one, starting from
      `s` on a client whose log was `log0`: a row counts as migrated when its
      call was answered, and as failed, with its message, when its
      conversion or its call raised. */
  function Migrated<R>(s: Stats, log0: seq<Request>, rows: seq<R>, m: Migration<R>,
                       answer: seq<Request> -> Reply): Stats
    decreases |rows|
  {
    if rows == [] then s
    else
      var prev := Migrated(s, log0, rows[..|rows| - 1], m, answer);
      var row := rows[|rows| - 1];
      match m.request(row)
      case Err(e) => Failed(prev, m.kind, m.id(row), e)
      case Ok(_) =>
        var reply := answer(log0 + Sent(rows, m));
        if Raises(reply) then Failed(prev, m.kind, m.id(row), Raise(reply))
        else prev.(migrated := prev.migrated + 1)
  }

  lemma {:induction false} SentAppend<R>(a: seq<R>, b: seq<R>, m: Migration<R>)
    ensures Sent(a + b, m) == Sent(a, m) + Sent(b, m)
    decreases |b|
  {
    if b == [] {
      assert a + b == a;
    } else {
      var init := b[..|b| - 1];
      assert (a + b)[..|a + b| - 1] == a + init;
      assert (a + b)[|a + b| - 1] == b[|b| - 1];
      SentAppend(a, init, m);
    }
  }

  /** Migrating `a` and then `b` is migrating `a + b`: the second part sees
      the log the first part left. */
  lemma {:induction false} MigratedAppend<R>(s: Stats, log0: seq<Request>, a: seq<R>, b: seq<R>, m: Migration<R>,
                                             answer: seq<Request> -> Reply)
    ensures Migrated(s, log0, a + b, m, answer) == Migrated(Migrated(s, log0, a, m, answer), log0 + Sent(a, m), b, m, answer)
    decreases |b|
  {
    if b == [] {
      assert a + b == a;
    } else {
      var init := b[..|b| - 1];
      assert (a + b)[..|a + b| - 1] == a + init;
      assert (a + b)[|a + b| - 1] == b[|b| - 1];
      MigratedAppend(s, log0, a, init, m, answer);
      SentAppend(a, b, m);
      assert log0 + Sent(a + b, m) == (log0 + Sent(a, m)) + Sent(b, m);
    }
  }

  /** Every row migrated is counted exactly once, as migrated or as failed,
      and each failure adds exactly one message, naming the record. */
  lemma {:induction false} MigratedCounts<R>(s: Stats, log0: seq<Request>, rows: seq<R>, m: Migration<R>,
                                             answer: seq<Request> -> Reply)
    ensures var t := Migrated(s, log0, rows, m, answer);
            t.total == s.total &&
            t.migrated + t.failed == s.migrated + s.failed + |rows| &&
            t.migrated >= s.migrated && t.failed >= s.failed &&
            |t.errors| == |s.errors| + (t.failed - s.failed) &&
            t.errors[..|s.errors|] == s.errors &&
            forall i :: |s.errors| <= i < |t.errors| ==> StartsWith(t.errors[i], "Failed to migrate " + m.kind + " ")
    decreases |rows|
  {
    if rows != [] {
      var init := rows[..|rows| - 1];
      MigratedCounts(s, log0, init, m, answer);
      var prev := Migrated(s, log0, init, m, answer);
      var row := rows[|rows| - 1];
      match m.request(row) {
        case Err(e) =>
          FailurePrefix(m.kind, m.id(row), e);
        case Ok(_) =>
          var reply := answer(log0 + Sent(rows, m));
          if Raises(reply) {
            FailurePrefix(m.kind, m.id(row), Raise(reply));
          }
      }
    }
  }

  /** A failure message begins with the kind of record. */
  lemma FailurePrefix(kind: string, id: string, e: Error)
    ensures StartsWith(FailureMessage(kind, id, e), "Failed to migrate " + kind + " ")
  {
    var m := FailureMessage(kind, id, e);
    var p := "Failed to migrate " + kind + " ";
    var q := "Failed to migrate " + kind + " " + id + ": ";
    assert StartsWith(m, q);
    assert q[..|p|] == p;
  }

  /** `query.offset(offset).limit(size)` over the rows the query selects. */
  function Batch<R>(rows: seq<R>, offset: nat, size: nat): (b: seq<R>)
    ensures b == [] <==> offset >= |rows| || size == 0
    ensures offset < |rows| && offset + size <= |rows| ==> b == rows[offset..offset + size]
    ensures offset < |rows| && offset + size > |rows| ==> b == rows[offset..]
  {
    if offset >= |rows| then []
    else if offset + size <= |rows| then rows[offset..offset + size]
    else rows[offset..]
  }

  /** How far into the `n` rows the batches starting at `offset` get:
      batches are read while the offset is below the count and the batch
      read is not empty. */
  function Reached(n: nat, total: int, size: int, offset: nat): (r: nat)
    ensures r <= n
    decreases if size > 0 then total - offset else 0
  {
    if offset < total && offset < n && size > 0 then Reached(n, total, size, offset + size)
    else if offset < n then offset else n
  }

  /** With a positive batch size every row up to the count is reached, and
      no row beyond the selection; with no batch size nothing is. */
  lemma {:induction false} ReachedBounds(n: nat, total: int, size: int, offset: nat)
    ensures Reached(n, total, size, offset) <= n
    ensures size > 0 ==> Reached(n, total, size, offset) >= (if total < n then total else n)
    ensures size > 0 && total >= n ==> Reached(n, total, size, offset) == n
    ensures size <= 0 && offset == 0 ==> Reached(n, total, size, offset) == 0
    decreases if size > 0 then total - offset else 0
  {
    if offset < total && offset < n && size > 0 {
      ReachedBounds(n, total, size, offset + size);
    }
  }

  /** What a migration does: on a dry run only the count; with a negative
      batch size the first batch query fails in the database; otherwise the
      rows the batches reach are migrated in order. The second component
      is the calls sent. */
  function MigrationOf<R>(log0: seq<Request>, answer: seq<Request> -> Reply, rows: seq<R>, count: Option<int>,
                          size: int, dryRun: bool, m: Migration<R>): (o: (Result<Stats>, seq<Request>))
    ensures dryRun ==> o == (Ok(Start(Total(count))), [])
    ensures o.0.Ok? ==>
              var s := o.0.value;
              s.total == Total(count) && s.migrated + s.failed <= |rows| && |s.errors| == s.failed
    ensures !dryRun && size > 0 && Total(count) >= |rows| ==>
              o.0.Ok? && o.0.value.migrated + o.0.value.failed == |rows|
  {
    var total := Total(count);
    if dryRun then (Ok(Start(total)), [])
    else if size < 0 && total > 0 then (Err(Raised("LIMIT must not be negative")), [])
    else
      var reached := Reached(|rows|, total, size, 0);
      ReachedBounds(|rows|, total, size, 0);
      var done := rows[..reached];
      MigratedCounts(Start(total), log0, done, m, answer);
      (Ok(Migrated(Start(total), log0, done, m, answer)), Sent(done, m))
  }

  /** The rows before `offset`, or all of them when the offset is past
      the end. */
  function Upto<R>(rows: seq<R>, offset: nat): seq<R> {
    if offset < |rows| then rows[..offset] else rows
  }

  /** One batch more: the rows up to the next offset are those up to this
      one and the batch, migrated and sent in that order. */
  lemma BatchStep<R>(rows: seq<R>, offset: nat, next: nat, s: Stats, log0: seq<Request>, m: Migration<R>,
                     answer: seq<Request> -> Reply)
    requires offset < |rows| && offset < next
    ensures Sent(Upto(rows, next), m) == Sent(Upto(rows, offset), m) + Sent(Batch(rows, offset, next - offset), m)
    ensures Migrated(s, log0, Upto(rows, next), m, answer) ==
            Migrated(Migrated(s, log0, Upto(rows, offset), m, answer), log0 + Sent(Upto(rows, offset), m),
                     Batch(rows, offset, next - offset), m, answer)
  {
    var batch := Batch(rows, offset, next - offset);
    assert Upto(rows, next) == Upto(rows, offset) + batch;
    MigratedAppend(s, log0, Upto(rows, offset), batch, m, answer);
    SentAppend(Upto(rows, offset), batch, m);
  }

  lemma ReachedStep(n: nat, total: int, size: int, offset: nat, next: nat)
    requires offset < total && offset < n && size > 0 && next == offset + size
    ensures Reached(n, total, size, offset) == Reached(n, total, size, next)
  {
  }

  /** Where the batches stop, the rows reached are the rows before the
      offset. */
  lemma ReachedStop<R>(rows: seq<R>, total: int, size: int, offset: nat)
    requires !(offset < total && offset < |rows| && size > 0)
    ensures rows[..Reached(|rows|, total, size, offset)] == Upto(rows, offset)
  {
  }

  lemma Regroup<T>(a: seq<T>, b: seq<T>, c: seq<T>)
    ensures (a + b) + c == a + (b + c)
  {
  }

  /** The batch loop shared by the three migrations. */
  method MigrateRows<R>(client: Client, rows: seq<R>, count: Option<int>, size: int, dryRun: bool, m: Migration<R>)
    returns (r: Result<Stats>)
    modifies client
    ensures var o := MigrationOf(old(client.log), client.answer, rows, count, size, dryRun, m);
            r == o.0 && client.log == old(client.log) + o.1
  {
    var total := Total(count);
    if dryRun {
      return Ok(Start(total));
    }
    if size < 0 && total > 0 {
      // The first batch query carries a negative LIMIT, which the database refuses.
      return Err(Raised("LIMIT must not be negative"));
    }
    var stats := MigrateBatches(client, rows, total, size, m);
    r := Ok(stats);
  }

  /** The batch loop: batches of `size` rows from offset 0 while the offset
      is below `total` and the batch read is not empty. */
  method MigrateBatches<R>(client: Client, rows: seq<R>, total: int, size: int, m: Migration<R>)
    returns (stats: Stats)
    modifies client
    ensures stats == Migrated(Start(total), old(client.log), rows[..Reached(|rows|, total, size, 0)], m, client.answer)
    ensures client.log == old(client.log) + Sent(rows[..Reached(|rows|, total, size, 0)], m)
  {
    ghost var log0 := client.log;
    ghost var goal := Reached(|rows|, total, size, 0);
    stats := Start(total);
    var offset: nat := 0;
    while offset < total
      invariant Reached(|rows|, total, size, offset) == goal
      invariant stats == Migrated(Start(total), log0, Upto(rows, offset), m, client.answer)
      invariant client.log == log0 + Sent(Upto(rows, offset), m)
      decreases total - offset
    {
      if offset >= |rows| || size <= 0 {
        // The batch read here is empty.
        break;
      }
      var next: nat := offset + size;
      stats := MigrateNextBatch(client, rows, offset, next, Start(total), stats, log0, m);
      ReachedStep(|rows|, total, size, offset, next);
      offset := next;
    }
    ReachedStop(rows, total, size, offset);
  }

  /** The batch at `offset`, read and migrated. */
  method MigrateNextBatch<R>(client: Client, rows: seq<R>, offset: nat, next: nat, ghost s: Stats, stats: Stats,
                             ghost log0: seq<Request>, m: Migration<R>)
    returns (t: Stats)
    requires offset < |rows| && offset < next
    requires stats == Migrated(s, log0, Upto(rows, offset), m, client.answer)
    requires client.log == log0 + Sent(Upto(rows, offset), m)
    modifies client
    ensures t == Migrated(s, log0, Upto(rows, next), m, client.answer)
    ensures client.log == log0 + Sent(Upto(rows, next), m)
  {
    var batch := Batch(rows, offset, next - offset);
    BatchStep(rows, offset, next, s, log0, m, client.answer);
    t := MigrateBatch(client, stats, batch, m);
    Regroup(log0, Sent(Upto(rows, offset), m), Sent(batch, m));
  }

  /** One batch, row by row. */
  method MigrateBatch<R>(client: Client, s: Stats, batch: seq<R>, m: Migration<R>) returns (t: Stats)
    modifies client
    ensures client.log == old(client.log) + Sent(batch, m)
    ensures t == Migrated(s, old(client.log), batch, m, client.answer)
  {
    ghost var log0 := client.log;
    t := s;
    for i := 0 to |batch|
      invariant client.log == log0 + Sent(batch[..i], m)
      invariant t == Migrated(s, log0, batch[..i], m, client.answer)
    {
      var row := batch[i];
      assert batch[..i + 1][..i] == batch[..i];
      match m.request(row) {
        case Err(e) =>
          t := Failed(t, m.kind, m.id(row), e);
        case Ok(q) =>
          var reply := client.Call(q);
          if Raises(reply) {
            t := Failed(t, m.kind, m.id(row), Raise(reply));
          } else {
            t := t.(migrated := t.migrated + 1);
          }
      }
    }
    assert batch[..|batch|] == batch;
  }

  /** Runs go through the run repository's own indexing call. */
  function RunMigration(prefix: string, now: Instant): Migration<WorkflowRun> {
    Migration((run: WorkflowRun) => Ok(EsRunRepository.SaveRequest(prefix, run, now)), (run: WorkflowRun) => run.id, "WorkflowRun")
  }

  /** App logs go through the app-log repository's own indexing call. */
  function AppLogMigration(prefix: string, now: Instant): Migration<WorkflowAppLog> {
    Migration((log: WorkflowAppLog) => Ok(EsAppLogRepository.SaveRequest(prefix, log, now)), (log: WorkflowAppLog) => log.id, "WorkflowAppLog")
  }

  /** Node executions are converted here and indexed directly. */
  function NodeMigration(tenantFilter: Option<string>, load: string -> Result<Value>): Migration<NodeExecutionRow> {
    Migration((row: NodeExecutionRow) => NodeRequest(tenantFilter, row, load), (row: NodeExecutionRow) => row.id, "WorkflowNodeExecution")
  }

  // ---------------------------------------------------------------------------
  // Node executions
  // ---------------------------------------------------------------------------

  /** A record of data moved out of a node-execution row into storage: its
      kind (`type_.value`) and, when a file is attached, the file's key. */
  datatype Offload = Offload(kind: string, file: Option<string>)

  /** The database row of one node execution, with its data columns as
      their decoded views and its offload records preloaded. */
  datatype NodeExecutionRow = NodeExecutionRow(
    id: string,
    tenantId: string,
    appId: string,
    workflowId: string,
    triggeredFrom: string,
    workflowRunId: Option<string>,
    index: int,
    predecessorNodeId: Option<string>,
    nodeExecutionId: Option<string>,
    nodeId: string,
    nodeType: string,
    title: string,
    inputs: Value,
    processData: Value,
    outputs: Value,
    status: string,
    error: Option<string>,
    elapsedTime: real,
    metadata: Value,
    createdAt: Instant,
    finishedAt: Option<Instant>,
    createdByRole: string,
    createdBy: string,
    offloads: seq<Offload>)

  /** The three data fields a conversion writes. */
  datatype NodeData = NodeData(inputs: Value, processData: Value, outputs: Value)

  function RowData(row: NodeExecutionRow): NodeData {
    NodeData(row.inputs, row.processData, row.outputs)
  }

  /** One offload record applied: with a file, its content is loaded and
      replaces the field its kind names (an unknown kind replaces none);
      without one, nothing happens. */
  function Loaded(d: NodeData, off: Offload, load: string -> Result<Value>): Result<NodeData> {
    if off.file.None? then Ok(d)
    else
      var data :- load(off.file.value);
      if off.kind == "inputs" then Ok(d.(inputs := data))
      else if off.kind == "outputs" then Ok(d.(outputs := data))
      else if off.kind == "process_data" then Ok(d.(processData := data))
      else Ok(d)
  }

  /** The offload records applied in order; the first load that fails
      stops the conversion. */
  function Offloaded(d: NodeData, offs: seq<Offload>, load: string -> Result<Value>): Result<NodeData>
    decreases |offs|
  {
    if offs == [] then Ok(d)
    else
      var prev :- Offloaded(d, offs[..|offs| - 1], load);
      Loaded(prev, offs[|offs| - 1], load)
  }

  /** The file key of the last offload record of a kind that has a file. */
  function LastFile(offs: seq<Offload>, kind: string): Option<string>
    decreases |offs|
  {
    if offs == [] then None
    else if offs[|offs| - 1].kind == kind && offs[|offs| - 1].file.Some? then offs[|offs| - 1].file
    else LastFile(offs[..|offs| - 1], kind)
  }

  /** For each field, the last offloaded file of its kind wins; a field
      without one keeps the row's own value. */
  lemma {:induction false} LaterOffloadWins(d: NodeData, offs: seq<Offload>, load: string -> Result<Value>)
    requires Offloaded(d, offs, load).Ok?
    ensures var r := Offloaded(d, offs, load).value;
            (LastFile(offs, "inputs").Some? ==> load(LastFile(offs, "inputs").value) == Ok(r.inputs)) &&
            (LastFile(offs, "inputs").None? ==> r.inputs == d.inputs) &&
            (LastFile(offs, "outputs").Some? ==> load(LastFile(offs, "outputs").value) == Ok(r.outputs)) &&
            (LastFile(offs, "outputs").None? ==> r.outputs == d.outputs) &&
            (LastFile(offs, "process_data").Some? ==> load(LastFile(offs, "process_data").value) == Ok(r.processData)) &&
            (LastFile(offs, "process_data").None? ==> r.processData == d.processData)
    decreases |offs|
  {
    if offs != [] {
      LaterOffloadWins(d, offs[..|offs| - 1], load);
    }
  }

  /** The conversion succeeds exactly when every attached file loads. */
  lemma {:induction false} OffloadedOk(d: NodeData, offs: seq<Offload>, load: string -> Result<Value>)
    ensures Offloaded(d, offs, load).Ok? <==>
            forall i :: 0 <= i < |offs| && offs[i].file.Some? ==> load(offs[i].file.value).Ok?
    decreases |offs|
  {
    if offs != [] {
      var init := offs[..|offs| - 1];
      OffloadedOk(d, init, load);
      forall i | 0 <= i < |init|
        ensures init[i] == offs[i]
      {
      }
    }
  }

  /** Once a load has failed, later records do not change the outcome. */
  lemma {:induction false} OffloadedErrSticks(d: NodeData, a: seq<Offload>, b: seq<Offload>, load: string -> Result<Value>)
    requires Offloaded(d, a, load).Err?
    ensures Offloaded(d, a + b, load) == Offloaded(d, a, load)
    decreases |b|
  {
    if b == [] {
      assert a + b == a;
    } else {
      assert (a + b)[..|a + b| - 1] == a + b[..|b| - 1];
      OffloadedErrSticks(d, a, b[..|b| - 1], load);
    }
  }

  /** The document a node-execution row is written as, before `None`
      values are dropped. */
  function NodeRowDocument(row: NodeExecutionRow, data: NodeData): Doc {
    map[
      "id" := Str(row.id),
      "tenant_id" := Str(row.tenantId),
      "app_id" := Str(row.appId),
      "workflow_id" := Str(row.workflowId),
      "workflow_execution_id" := OptStr(row.workflowRunId),
      "node_execution_id" := OptStr(row.nodeExecutionId),
      "triggered_from" := Str(row.triggeredFrom),
      "index" := Int(row.index),
      "predecessor_node_id" := OptStr(row.predecessorNodeId),
      "node_id" := Str(row.nodeId),
      "node_type" := Str(row.nodeType),
      "title" := Str(row.title),
      "inputs" := data.inputs,
      "process_data" := data.processData,
      "outputs" := data.outputs,
      "status" := Str(row.status),
      "error" := OptStr(row.error),
      "elapsed_time" := Real(row.elapsedTime),
      "metadata" := row.metadata,
      "created_at" := Time(row.createdAt),
      "finished_at" := OptTime(row.finishedAt),
      "created_by_role" := Str(row.createdByRole),
      "created_by" := Str(row.createdBy)
    ]
  }

  /** `_convert_node_execution_to_es_doc`: the row's document with its
      offloaded data loaded and no `None` values. */
  function NodeDoc(row: NodeExecutionRow, load: string -> Result<Value>): (r: Result<Doc>)
    ensures r.Ok? ==> forall k :: k in r.value ==> r.value[k] != Null
  {
    var data :- Offloaded(RowData(row), row.offloads, load);
    Ok(DropNulls(NodeRowDocument(row, data)))
  }

  /** The conversion's loop over the offload records. */
  method ConvertNodeExecution(row: NodeExecutionRow, load: string -> Result<Value>) returns (r: Result<Doc>)
    ensures r == NodeDoc(row, load)
  {
    var data := RowData(row);
    for i := 0 to |row.offloads|
      invariant Offloaded(RowData(row), row.offloads[..i], load) == Ok(data)
    {
      var off := row.offloads[i];
      assert row.offloads[..i + 1][..i] == row.offloads[..i];
      if off.file.Some? {
        var content := load(off.file.value);
        if content.Err? {
          OffloadedErrSticks(RowData(row), row.offloads[..i + 1], row.offloads[i + 1..], load);
          assert row.offloads[..i + 1] + row.offloads[i + 1..] == row.offloads;
          return Err(content.error);
        }
        if off.kind == "inputs" {
          data := data.(inputs := content.value);
        } else if off.kind == "outputs" {
          data := data.(outputs := content.value);
        } else if off.kind == "process_data" {
          data := data.(processData := content.value);
        }
      }
    }
    assert row.offloads[..|row.offloads|] == row.offloads;
    r := Ok(DropNulls(NodeRowDocument(row, data)));
  }

  /** The index a migrated node execution goes to: the tenant filter when
      one was given, else the row's own tenant, and the month of the row's
      creation. */
  function NodeIndexName(tenantFilter: Option<string>, row: NodeExecutionRow): (r: string)
    ensures Given(tenantFilter) ==> StartsWith(r, EsNodeExecutionRepository.DefaultPrefix + "-" + tenantFilter.value + "-")
    ensures !Given(tenantFilter) ==> StartsWith(r, EsNodeExecutionRepository.DefaultPrefix + "-" + row.tenantId + "-")
    ensures LastSegment(r, '-') == YearMonth(row.createdAt)
  {
    IndexName(EsNodeExecutionRepository.DefaultPrefix, if Given(tenantFilter) then tenantFilter.value else row.tenantId, row.createdAt)
  }

  /** The indexing call for one row, or the error its conversion raised. */
  function NodeRequest(tenantFilter: Option<string>, row: NodeExecutionRow, load: string -> Result<Value>): Result<Request> {
    var doc :- NodeDoc(row, load);
    Ok(IndexDoc(NodeIndexName(tenantFilter, row), row.id, doc))
  }

  /** The scope the node-execution repository would have written a row
      with: its tenant, app, trigger and creator. */
  function ScopeOf(row: NodeExecutionRow, role: CreatorRole): EsNodeExecutionRepository.Scope {
    EsNodeExecutionRepository.Scope(row.tenantId, Some(row.appId), Some(row.triggeredFrom), row.createdBy, role)
  }

  /** The domain execution a row with the given data stands for. */
  function ExecutionOf(row: NodeExecutionRow, data: NodeData): NodeExecution {
    NodeExecution(
      id := row.id, nodeExecutionId := row.nodeExecutionId, workflowId := row.workflowId,
      workflowExecutionId := row.workflowRunId, index := row.index, predecessorNodeId := row.predecessorNodeId,
      nodeId := row.nodeId, nodeType := row.nodeType, title := row.title,
      inputs := data.inputs, processData := data.processData, outputs := data.outputs,
      status := row.status, error := row.error, elapsedTime := row.elapsedTime, metadata := row.metadata,
      createdAt := Some(row.createdAt), finishedAt := row.finishedAt)
  }

  /** A migrated row is written exactly as the node-execution repository
      saves the execution it stands for: the same document into the same
      index, unless a different tenant filter renames the index. */
  lemma MigratedAsRepositorySaves(tenantFilter: Option<string>, row: NodeExecutionRow, load: string -> Result<Value>,
                                  role: CreatorRole, now: Instant)
    requires RoleValue(role) == row.createdByRole
    requires !Given(tenantFilter) || tenantFilter.value == row.tenantId
    requires Offloaded(RowData(row), row.offloads, load).Ok?
    ensures var data := Offloaded(RowData(row), row.offloads, load).value;
            var e := ExecutionOf(row, data);
            NodeRequest(tenantFilter, row, load) ==
              Ok(IndexDoc(DatedIndexName(EsNodeExecutionRepository.DefaultPrefix, row.tenantId, e.createdAt, now),
                          row.id, EsNodeExecutionRepository.ToEsDocument(ScopeOf(row, role), e)))
  {
    var data := Offloaded(RowData(row), row.offloads, load).value;
    assert NodeRowDocument(row, data) == EsNodeExecutionRepository.NodeDocument(ScopeOf(row, role), ExecutionOf(row, data));
  }

  /** The node-execution repository reads a migrated row back as the
      execution it stands for, its offloaded data included, provided it has
      metadata. */
  lemma MigratedNodeReadsBack(row: NodeExecutionRow, load: string -> Result<Value>, role: CreatorRole)
    requires RoleValue(role) == row.createdByRole && row.metadata != Null
    requires Offloaded(RowData(row), row.offloads, load).Ok?
    ensures NodeDoc(row, load).Ok?
    ensures EsNodeExecutionRepository.FromEsDocument(NodeDoc(row, load).value) ==
            Ok(ExecutionOf(row, Offloaded(RowData(row), row.offloads, load).value))
  {
    var data := Offloaded(RowData(row), row.offloads, load).value;
    var e := ExecutionOf(row, data);
    assert NodeRowDocument(row, data) == EsNodeExecutionRepository.NodeDocument(ScopeOf(row, role), e);
    EsNodeExecutionRepository.EsRoundTrip(ScopeOf(row, role), e);
  }

  // ---------------------------------------------------------------------------
  // Validation
  // ---------------------------------------------------------------------------

  /** The counters reported for one kind of record. */
  datatype Counts = Counts(total: int, matched: nat, mismatched: nat, missing: nat)

  /** Counters and the error messages so far. */
  datatype Tally = Tally(counts: Counts, errors: seq<string>)

  datatype ValidationReport = ValidationReport(workflowRuns: Counts, appLogs: Counts, nodeExecutions: Counts, errors: seq<string>)

  /** How samples of one kind are checked: the lookup a sample becomes, how
      the reply is read, how a found copy is compared, the sample's id and
      its name in error messages. */
  datatype Check<!R, !F> = Check(request: R -> Request, read: Reply -> Result<Option<F>>, same: (R, F) -> bool,
                                 id: R -> string, kind: string)

  /** The lookups the samples become, in order. */
  function Lookups<R, F>(samples: seq<R>, c: Check<R, F>): (r: seq<Request>)
    ensures |r| == |samples|
    decreases |samples|
  {
    if samples == [] then [] else Lookups(samples[..|samples| - 1], c) + [c.request(samples[|samples| - 1])]
  }

  /** The message recorded for a sample whose lookup raised. */
  function ValidationError(kind: string, id: string, e: Error): string {
    "Error validating " + kind + " " + id + ": " + Describe(e)
  }

  /** The tally after the samples are checked one by one: a lookup that
      raised adds a message, one that found nothing counts as missing, and
      a copy found counts as matched or mismatched. */
  function Checked<R, F>(t: Tally, log0: seq<Request>, samples: seq<R>, c: Check<R, F>,
                         answer: seq<Request> -> Reply): Tally
    decreases |samples|
  {
    if samples == [] then t
    else
      var prev := Checked(t, log0, samples[..|samples| - 1], c, answer);
      var sample := samples[|samples| - 1];
      match c.read(answer(log0 + Lookups(samples, c)))
      case Err(e) => prev.(errors := prev.errors + [ValidationError(c.kind, c.id(sample), e)])
      case Ok(None) => prev.(counts := prev.counts.(missing := prev.counts.missing + 1))
      case Ok(Some(copy)) =>
        if c.same(sample, copy) then prev.(counts := prev.counts.(matched := prev.counts.matched + 1))
        else prev.(counts := prev.counts.(mismatched := prev.counts.mismatched + 1))
  }

  /** Each sample moves exactly one counter or adds exactly one message. */
  lemma {:induction false} CheckedCounts<R, F>(t: Tally, log0: seq<Request>, samples: seq<R>, c: Check<R, F>,
                                               answer: seq<Request> -> Reply)
    ensures var u := Checked(t, log0, samples, c, answer);
            u.counts.total == t.counts.total &&
            u.counts.matched + u.counts.mismatched + u.counts.missing + |u.errors| ==
              t.counts.matched + t.counts.mismatched + t.counts.missing + |t.errors| + |samples| &&
            u.counts.matched >= t.counts.matched && u.counts.mismatched >= t.counts.mismatched &&
            u.counts.missing >= t.counts.missing && |u.errors| >= |t.errors| &&
            u.errors[..|t.errors|] == t.errors
    decreases |samples|
  {
    if samples != [] {
      CheckedCounts(t, log0, samples[..|samples| - 1], c, answer);
    }
  }

  /** The sample loop shared by both validated kinds. */
  method CheckSamples<R, F>(client: Client, samples: seq<R>, errors: seq<string>, c: Check<R, F>) returns (t: Tally)
    modifies client
    ensures client.log == old(client.log) + Lookups(samples, c)
    ensures t == Checked(Tally(Counts(|samples|, 0, 0, 0), errors), old(client.log), samples, c, client.answer)
  {
    ghost var log0 := client.log;
    t := Tally(Counts(|samples|, 0, 0, 0), errors);
    for i := 0 to |samples|
      invariant client.log == log0 + Lookups(samples[..i], c)
      invariant t == Checked(Tally(Counts(|samples|, 0, 0, 0), errors), log0, samples[..i], c, client.answer)
    {
      var sample := samples[i];
      assert samples[..i + 1][..i] == samples[..i];
      var reply := client.Call(c.request(sample));
      match c.read(reply) {
        case Err(e) =>
          t := t.(errors := t.errors + [ValidationError(c.kind, c.id(sample), e)]);
        case Ok(None) =>
          t := t.(counts := t.counts.(missing := t.counts.missing + 1));
        case Ok(Some(copy)) =>
          if c.same(sample, copy) {
            t := t.(counts := t.counts.(matched := t.counts.matched + 1));
          } else {
            t := t.(counts := t.counts.(mismatched := t.counts.mismatched + 1));
          }
      }
    }
    assert samples[..|samples|] == samples;
  }

  /** What a validation reports: runs are checked first, app logs on the
      log the run lookups left, and node executions not at all. */
  function ValidationOf(log0: seq<Request>, answer: seq<Request> -> Reply, runs: seq<WorkflowRun>, logs: seq<WorkflowAppLog>,
                        runCheck: Check<WorkflowRun, EsRunRepository.RunFields>,
                        logCheck: Check<WorkflowAppLog, EsAppLogRepository.AppLogFields>): (r: ValidationReport)
    ensures r.nodeExecutions == Counts(0, 0, 0, 0)
    ensures r.workflowRuns.total == |runs| && r.appLogs.total == |logs|
    ensures r.workflowRuns.matched + r.workflowRuns.mismatched + r.workflowRuns.missing +
            r.appLogs.matched + r.appLogs.mismatched + r.appLogs.missing + |r.errors| == |runs| + |logs|
  {
    var runTally := Checked(Tally(Counts(|runs|, 0, 0, 0), []), log0, runs, runCheck, answer);
    CheckedCounts(Tally(Counts(|runs|, 0, 0, 0), []), log0, runs, runCheck, answer);
    var logTally := Checked(Tally(Counts(|logs|, 0, 0, 0), runTally.errors), log0 + Lookups(runs, runCheck), logs, logCheck, answer);
    CheckedCounts(Tally(Counts(|logs|, 0, 0, 0), runTally.errors), log0 + Lookups(runs, runCheck), logs, logCheck, answer);
    ValidationReport(runTally.counts, logTally.counts, Counts(0, 0, 0, 0), logTally.errors)
  }

  /** Python's `==` between a stored number and a float. */
  predicate NumberEquals(v: Value, x: real) {
    (v.Int? && v.i as real == x) || (v.Real? && v.r == x)
  }

  /** `_compare_workflow_runs`: id, status, elapsed time and token count
      agree. */
  predicate SameRun(pg: WorkflowRun, es: EsRunRepository.RunFields) {
    es.id == Str(pg.id) && es.status == Str(pg.status) &&
    NumberEquals(es.elapsedTime, pg.elapsedTime) && NumberEquals(es.totalTokens, pg.totalTokens as real)
  }

  /** `_compare_app_logs`: id, workflow run and creation source agree. */
  predicate SameAppLog(pg: WorkflowAppLog, es: EsAppLogRepository.AppLogFields) {
    es.id == Str(pg.id) && es.workflowRunId == Str(pg.workflowRunId) && es.createdFrom == Str(pg.createdFrom)
  }

  /** Runs are looked up by the run repository, by tenant, app and id. */
  function RunCheck(prefix: string, tenantId: string): Check<WorkflowRun, EsRunRepository.RunFields> {
    Check((run: WorkflowRun) => EsRunRepository.ByIdRequest(prefix, tenantId, run.appId, run.id),
          reply => FirstHit(reply, EsRunRepository.FromEsDocument),
          SameRun, (run: WorkflowRun) => run.id, "WorkflowRun")
  }

  /** App logs are looked up by the app-log repository, by tenant and id. */
  function AppLogCheck(prefix: string, tenantId: string): Check<WorkflowAppLog, EsAppLogRepository.AppLogFields> {
    Check((log: WorkflowAppLog) => EsAppLogRepository.ByIdRequest(prefix, tenantId, log.id),
          reply => FirstHit(reply, EsAppLogRepository.FromEsDocument),
          SameAppLog, (log: WorkflowAppLog) => log.id, "WorkflowAppLog")
  }

  /** A run migrated with its JSON fields present reads back as a copy the
      validation counts as matched. */
  lemma MigratedRunMatches(run: WorkflowRun)
    requires DictView(run.graph) != Null && DictView(run.inputs) != Null && DictView(run.outputs) != Null
    ensures var copy := EsRunRepository.FromEsDocument(EsRunRepository.ToEsDocument(run));
            copy.Ok? && SameRun(run, copy.value)
  {
    EsRunRepository.EsRoundTrip(run);
  }

  /** A migrated app log reads back as a copy the validation counts as
      matched. */
  lemma MigratedAppLogMatches(log: WorkflowAppLog)
    ensures var copy := EsAppLogRepository.FromEsDocument(EsAppLogRepository.ToEsDocument(log));
            copy.Ok? && SameAppLog(log, copy.value)
  {
    EsAppLogRepository.EsRoundTrip(log);
  }

  // ---------------------------------------------------------------------------
  // Cleaning up the database
  // ---------------------------------------------------------------------------

  /** The tables the cleanup deletes from. */
  datatype Table = OffloadsTable | NodeExecutionsTable | AppLogsTable | RunsTable

  /** A row as the cleanup sees it: its tenant and creation time. */
  datatype PgRow = PgRow(id: string, tenantId: string, createdAt: Option<Instant>)

  /** `tenant_id == tenant_id and created_at < before_date`; a row without
      a creation time never matches. */
  predicate Expired(row: PgRow, tenantId: string, before: Instant) {
    row.tenantId == tenantId && row.createdAt.Some? && Before(row.createdAt.value, before)
  }

  /** The rows the filter selects, in order. */
  function Matching(rows: seq<PgRow>, tenantId: string, before: Instant): seq<PgRow>
    decreases |rows|
  {
    if rows == [] then []
    else Matching(rows[..|rows| - 1], tenantId, before) +
         (if Expired(rows[|rows| - 1], tenantId, before) then [rows[|rows| - 1]] else [])
  }

  /** The rows a deletion leaves, in order. */
  function Kept(rows: seq<PgRow>, tenantId: string, before: Instant): seq<PgRow>
    decreases |rows|
  {
    if rows == [] then []
    else Kept(rows[..|rows| - 1], tenantId, before) +
         (if Expired(rows[|rows| - 1], tenantId, before) then [] else [rows[|rows| - 1]])
  }

  /** The filter splits a table: what is counted and what is kept together
      are the table. */
  lemma {:induction false} MatchingPartitions(rows: seq<PgRow>, tenantId: string, before: Instant)
    ensures multiset(Matching(rows, tenantId, before)) + multiset(Kept(rows, tenantId, before)) == multiset(rows)
    decreases |rows|
  {
    if rows != [] {
      var init := rows[..|rows| - 1];
      var last := rows[|rows| - 1];
      MatchingPartitions(init, tenantId, before);
      assert rows == init + [last];
      assert multiset(rows) == multiset(init) + multiset{last};
    }
  }

  /** The counted rows all match the filter and the kept rows none. */
  lemma {:induction false} MatchingSelects(rows: seq<PgRow>, tenantId: string, before: Instant)
    ensures forall r :: r in Matching(rows, tenantId, before) ==> Expired(r, tenantId, before)
    ensures forall r :: r in Kept(rows, tenantId, before) ==> !Expired(r, tenantId, before)
    decreases |rows|
  {
    if rows != [] {
      MatchingSelects(rows[..|rows| - 1], tenantId, before);
    }
  }

  /** A cleanup deletes exactly as many rows as it reports. */
  lemma CountIsDeleted(rows: seq<PgRow>, tenantId: string, before: Instant)
    ensures |Matching(rows, tenantId, before)| + |Kept(rows, tenantId, before)| == |rows|
  {
    MatchingPartitions(rows, tenantId, before);
    assert |multiset(Matching(rows, tenantId, before)) + multiset(Kept(rows, tenantId, before))| == |multiset(rows)|;
  }

  /** A statement a session has executed. */
  datatype DbOp = Delete(table: Table, tenantId: string, before: Instant) | Commit

  /** The deletions a cleanup issues, dependants before what they depend
      on, then the commit. */
  function CleanupJournal(tenantId: string, before: Instant): seq<DbOp> {
    [Delete(OffloadsTable, tenantId, before), Delete(NodeExecutionsTable, tenantId, before),
     Delete(AppLogsTable, tenantId, before), Delete(RunsTable, tenantId, before), Commit]
  }

  lemma JournalShape(journal: seq<DbOp>, tenantId: string, before: Instant)
    ensures journal + [Delete(OffloadsTable, tenantId, before)] + [Delete(NodeExecutionsTable, tenantId, before)] +
            [Delete(AppLogsTable, tenantId, before)] + [Delete(RunsTable, tenantId, before)] + [Commit] ==
            journal + CleanupJournal(tenantId, before)
  {
  }

  /** The statistics a cleanup returns. */
  datatype CleanupStats = CleanupStats(workflowRunsDeleted: nat, appLogsDeleted: nat,
                                       nodeExecutionsDeleted: nat, offloadRecordsDeleted: nat)

  /** A database session over the four tables, with the statements it has
      executed. */
  class Session {
    var offloads: seq<PgRow>
    var nodeExecutions: seq<PgRow>
    var appLogs: seq<PgRow>
    var runs: seq<PgRow>
    var journal: seq<DbOp>

    constructor (offloads: seq<PgRow>, nodeExecutions: seq<PgRow>, appLogs: seq<PgRow>, runs: seq<PgRow>)
      ensures this.offloads == offloads && this.nodeExecutions == nodeExecutions
      ensures this.appLogs == appLogs && this.runs == runs && journal == []
    {
      this.offloads := offloads;
      this.nodeExecutions := nodeExecutions;
      this.appLogs := appLogs;
      this.runs := runs;
      journal := [];
    }

    /** `query(table).filter(...).delete()`: the matching rows of one table
        go; the other tables stay. */
    method Delete(table: Table, tenantId: string, before: Instant)
      modifies this
      ensures journal == old(journal) + [DbOp.Delete(table, tenantId, before)]
      ensures offloads == (if table == OffloadsTable then Kept(old(offloads), tenantId, before) else old(offloads))
      ensures nodeExecutions == (if table == NodeExecutionsTable then Kept(old(nodeExecutions), tenantId, before) else old(nodeExecutions))
      ensures appLogs == (if table == AppLogsTable then Kept(old(appLogs), tenantId, before) else old(appLogs))
      ensures runs == (if table == RunsTable then Kept(old(runs), tenantId, before) else old(runs))
    {
      match table {
        case OffloadsTable => offloads := Kept(offloads, tenantId, before);
        case NodeExecutionsTable => nodeExecutions := Kept(nodeExecutions, tenantId, before);
        case AppLogsTable => appLogs := Kept(appLogs, tenantId, before);
        case RunsTable => runs := Kept(runs, tenantId, before);
      }
      journal := journal + [DbOp.Delete(table, tenantId, before)];
    }

    /** `session.commit()` */
    method Commit()
      modifies this
      ensures journal == old(journal) + [DbOp.Commit]
      ensures offloads == old(offloads) && nodeExecutions == old(nodeExecutions)
      ensures appLogs == old(appLogs) && runs == old(runs)
    {
      journal := journal + [DbOp.Commit];
    }
  }
}
