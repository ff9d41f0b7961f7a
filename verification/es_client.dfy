/** The log store as the repositories see it: the requests they send, the
    replies they get, and the index naming and retention rules they share. */
module EsClient {
  import opened Common
  import opened WorkflowRecords

  /** One clause of a query body. A `Range` bound is the ISO text of an
      instant. */
  datatype Clause =
    | Term(field: string, value: string)
    | Terms(field: string, values: seq<string>)
    | Range(field: string, lt: Option<Instant>, gte: Option<Instant>, lte: Option<Instant>)
    | Match(field: string, text: string)

  /** A query body: a `bool` query, or a single clause. */
  datatype Query =
    | BoolQuery(must: seq<Clause>, should: seq<Clause>, minimumShouldMatch: Option<int>)
    | ClauseQuery(clause: Clause)

  /** `{field: {"order": "desc" | "asc"}}` */
  datatype SortKey = SortKey(field: string, descending: bool)

  /** A search body; `from` is the offset, when one is sent. */
  datatype SearchBody = SearchBody(query: Query, sort: seq<SortKey>, size: int, from: Option<int>)

  /** The client calls the repositories make. */
  datatype Request =
    | PutTemplate(name: string, patterns: seq<string>)
    | IndexDoc(index: string, id: string, body: Doc)
    | UpdateDoc(index: string, id: string, doc: Doc)
    | Search(index: string, search: SearchBody)
    | DeleteByQuery(index: string, query: Query)
    | GetIndices(pattern: string)
    | DeleteIndices(names: string)

  /** What a call comes back with: a reply of the shape the call expects, or
      an exception (`NotFound` is `NotFoundError`). */
  datatype Reply =
    | Acknowledged
    | Hits(total: int, hits: seq<Doc>)
    | DeletedCount(deleted: Option<int>)
    | IndexList(names: seq<string>)
    | NotFound
    | Failure(message: string)

  /** A connection to the store. What the store answers is not modelled: each
      reply is a function of every request sent so far, the last included. */
  class Client {
    var log: seq<Request>
    const answer: seq<Request> -> Reply

    constructor (answer: seq<Request> -> Reply)
      ensures log == [] && this.answer == answer
    {
      log := [];
      this.answer := answer;
    }

    /** Sends one request. */
    method Call(request: Request) returns (reply: Reply)
      modifies this
      ensures log == old(log) + [request]
      ensures reply == answer(log)
    {
      log := log + [request];
      reply := answer(log);
    }
  }

  /** A reply that is an exception rather than a response. */
  predicate Raises(reply: Reply) {
    reply.Failure? || reply.NotFound?
  }

  /** The error a failed call raises, or the one reading a reply of the wrong
      shape raises. */
  function Raise(reply: Reply): Error {
    match reply
    case Failure(message) => Raised(message)
    case NotFound => Raised("NotFoundError(404)")
    case _ => KeyError("hits")
  }

  /** `response.get("deleted", 0)` */
  function DeletedOrZero(reply: Reply): (r: Result<int>)
    ensures r.Ok? <==> reply.DeletedCount?
  {
    if !reply.DeletedCount? then Err(Raise(reply))
    else if reply.deleted.Some? then Ok(reply.deleted.value)
    else Ok(0)
  }

  /** `_ensure_index_template`: one template covering `{prefix}-*`. */
  method EnsureIndexTemplate(client: Client, prefix: string) returns (r: Result<()>)
    modifies client
    ensures client.log == old(client.log) + [PutTemplate(prefix + "-template", [prefix + "-*"])]
    ensures r.Ok? <==> !Raises(client.answer(client.log))
  {
    var reply := client.Call(PutTemplate(prefix + "-template", [prefix + "-*"]));
    if Raises(reply) {
      return Err(Raise(reply));
    }
    r := Ok(());
  }

  // ---------------------------------------------------------------------------
  // Converting search hits
  // ---------------------------------------------------------------------------

  /** Converting every hit in order; the first hit that cannot be converted
      stops the loop with its error. */
  function MapAll<T>(docs: seq<Doc>, convert: Doc -> Result<T>): Result<seq<T>> {
    if docs == [] then Ok([])
    else
      var init :- MapAll(docs[..|docs| - 1], convert);
      var last :- convert(docs[|docs| - 1]);
      Ok(init + [last])
  }

  /** All hits convert exactly when each one does, and then the results are
      the hits' conversions, position by position. */
  lemma {:induction false} MapAllOk<T>(docs: seq<Doc>, convert: Doc -> Result<T>)
    ensures MapAll(docs, convert).Ok? <==> forall i :: 0 <= i < |docs| ==> convert(docs[i]).Ok?
    ensures MapAll(docs, convert).Ok? ==>
              |MapAll(docs, convert).value| == |docs| &&
              forall i :: 0 <= i < |docs| ==> convert(docs[i]) == Ok(MapAll(docs, convert).value[i])
  {
    if docs != [] {
      var init := docs[..|docs| - 1];
      MapAllOk(init, convert);
      assert forall i :: 0 <= i < |init| ==> init[i] == docs[i];
    }
  }

  /** A failure among the first `k` hits is the failure of all of them. */
  lemma {:induction false} MapAllErrPrefix<T>(docs: seq<Doc>, k: nat, convert: Doc -> Result<T>)
    requires k <= |docs| && MapAll(docs[..k], convert).Err?
    ensures MapAll(docs, convert) == MapAll(docs[..k], convert)
    decreases |docs| - k
  {
    if k < |docs| {
      var init := docs[..|docs| - 1];
      assert init[..k] == docs[..k];
      MapAllErrPrefix(init, k, convert);
    } else {
      assert docs[..k] == docs;
    }
  }

  /** The conversion loop over a search response's hits. */
  method ConvertAll<T>(docs: seq<Doc>, convert: Doc -> Result<T>) returns (r: Result<seq<T>>)
    ensures r == MapAll(docs, convert)
  {
    var items: seq<T> := [];
    var i := 0;
    while i < |docs|
      invariant 0 <= i <= |docs|
      invariant MapAll(docs[..i], convert) == Ok(items)
    {
      assert docs[..i + 1][..i] == docs[..i];
      var item := convert(docs[i]);
      if item.Err? {
        MapAllErrPrefix(docs, i + 1, convert);
        return Err(item.error);
      }
      items := items + [item.value];
      i := i + 1;
    }
    assert docs[..i] == docs;
    r := Ok(items);
  }

  // ---------------------------------------------------------------------------
  // Index names and retention
  // ---------------------------------------------------------------------------

  /** `f"{prefix}-{tenant_id}-{date.strftime('%Y.%m')}"`: the indices rotate
      monthly, and the month is the name's last '-' segment whatever the
      prefix and tenant hold. */
  function IndexName(prefix: string, tenantId: string, date: Instant): (r: string)
    ensures StartsWith(r, prefix + "-" + tenantId + "-")
    ensures LastSegment(r, '-') == YearMonth(date)
  {
    var head := prefix + "-" + tenantId;
    LastSegmentOfSuffix(head, '-', YearMonth(date));
    AppendParts(head + "-", YearMonth(date));
    head + "-" + YearMonth(date)
  }

  /** `_get_index_name(tenant_id, date)`: the month of `date`, or of the
      current time `now` when no date is given. */
  function DatedIndexName(prefix: string, tenantId: string, date: Option<Instant>, now: Instant): (r: string)
    ensures date.Some? ==> r == IndexName(prefix, tenantId, date.value)
    ensures date.None? ==> r == IndexName(prefix, tenantId, now)
  {
    IndexName(prefix, tenantId, if date.Some? then date.value else now)
  }

  /** `f"{prefix}-{tenant_id}-*"`: every index of a tenant. */
  function TenantPattern(prefix: string, tenantId: string): string {
    prefix + "-" + tenantId + "-*"
  }

  /** An index is past retention when its last '-' segment sorts before the
      cutoff month. */
  predicate Expired(name: string, cutoffMonth: string) {
    LexLess(LastSegment(name, '-'), cutoffMonth)
  }

  /** The indices past retention, in the order listed. */
  function ExpiredIndices(names: seq<string>, cutoffMonth: string): seq<string> {
    if names == [] then []
    else
      var init := ExpiredIndices(names[..|names| - 1], cutoffMonth);
      var last := names[|names| - 1];
      if Expired(last, cutoffMonth) then init + [last] else init
  }

  /** The selection keeps exactly the listed indices past retention. */
  lemma {:induction false} ExpiredIndicesMembers(names: seq<string>, cutoffMonth: string)
    ensures forall x :: x in ExpiredIndices(names, cutoffMonth) <==> x in names && Expired(x, cutoffMonth)
  {
    if names != [] {
      var init := names[..|names| - 1];
      ExpiredIndicesMembers(init, cutoffMonth);
      assert names == init + [names[|names| - 1]];
    }
  }

  /** For an index named by the rotation rule, being past retention means
      exactly that its month is before the cutoff's month. */
  lemma ExpiredByMonth(prefix: string, tenantId: string, date: Instant, cutoff: Instant)
    ensures Expired(IndexName(prefix, tenantId, date), YearMonth(cutoff)) <==>
              date.year < cutoff.year || (date.year == cutoff.year && date.month < cutoff.month)
  {
    YearMonthOrder(date, cutoff);
  }

  /** The selection loop of `cleanup_old_indices`. */
  method SelectExpired(names: seq<string>, cutoffMonth: string) returns (toDelete: seq<string>)
    ensures toDelete == ExpiredIndices(names, cutoffMonth)
  {
    toDelete := [];
    var i := 0;
    while i < |names|
      invariant 0 <= i <= |names|
      invariant toDelete == ExpiredIndices(names[..i], cutoffMonth)
    {
      assert names[..i + 1][..i] == names[..i];
      if Expired(names[i], cutoffMonth) {
        toDelete := toDelete + [names[i]];
      }
      i := i + 1;
    }
    assert names[..i] == names;
  }

  /** The requests `cleanup_old_indices` sends once the store has listed
      `names`: a deletion of the expired ones, only when there are any. */
  function CleanupRequests(names: seq<string>, cutoffMonth: string): seq<Request> {
    var expired := ExpiredIndices(names, cutoffMonth);
    if expired == [] then [] else [DeleteIndices(Join(",", expired))]
  }

  /** `cleanup_old_indices`, shared by the run and app-log repositories: list
      the tenant's indices, then delete those before the cutoff month in one
      call. */
  method CleanupOldIndices(client: Client, pattern: string, cutoff: Instant) returns (r: Result<()>)
    modifies client
    ensures |client.log| > |old(client.log)| && client.log[|old(client.log)|] == GetIndices(pattern)
    ensures var listed := client.answer(old(client.log) + [GetIndices(pattern)]);
            if listed.IndexList? then
              client.log == old(client.log) + [GetIndices(pattern)] + CleanupRequests(listed.names, YearMonth(cutoff))
            else
              client.log == old(client.log) + [GetIndices(pattern)] && r.Err?
    ensures r.Ok? ==> client.answer(old(client.log) + [GetIndices(pattern)]).IndexList?
  {
    var cutoffMonth := YearMonth(cutoff);
    var listed := client.Call(GetIndices(pattern));
    if !listed.IndexList? {
      return Err(Raise(listed));
    }
    var toDelete := SelectExpired(listed.names, cutoffMonth);
    if toDelete != [] {
      var reply := client.Call(DeleteIndices(Join(",", toDelete)));
      if Raises(reply) {
        return Err(Raise(reply));
      }
    }
    r := Ok(());
  }

  // ---------------------------------------------------------------------------
  // Reading search responses
  // ---------------------------------------------------------------------------

  /** The single-document lookups: `None` when the response counts no hit,
      else the first hit converted. A count above zero with no hit listed
      fails on the index. */
  function FirstHit<T>(reply: Reply, convert: Doc -> Result<T>): (r: Result<Option<T>>)
    ensures r == Ok(None) <==> reply.Hits? && reply.total <= 0
    ensures reply.Hits? && reply.total > 0 && reply.hits != [] ==>
              (r.Ok? <==> convert(reply.hits[0]).Ok?) &&
              (r.Ok? ==> r.value == Some(convert(reply.hits[0]).value))
  {
    if !reply.Hits? then Err(Raise(reply))
    else if reply.total <= 0 then Ok(None)
    else if reply.hits == [] then Err(IndexError("list index out of range"))
    else
      var item :- convert(reply.hits[0]);
      Ok(Some(item))
  }

  /** Python's `items[:-1]`. */
  function DropLast<T>(items: seq<T>): seq<T> {
    if items == [] then [] else items[..|items| - 1]
  }

  /** A page of the cursor pagination: `InfiniteScrollPagination`. */
  datatype Page<T> = Page(data: seq<T>, limit: int, hasMore: bool)

  /** The `limit + 1` rule: one hit more than the limit is asked for; when it
      comes back there is more, and it is dropped. */
  function Paginate<T>(items: seq<T>, limit: int): (p: Page<T>)
    ensures p.limit == limit
    ensures p.hasMore <==> |items| > limit
  {
    var hasMore := |items| > limit;
    Page(if hasMore then DropLast(items) else items, limit, hasMore)
  }

  /** A page holds at most `limit` items when the store honours the size it
      was asked for; they are the first items in the order returned, and a
      page with more after it is full. */
  lemma PaginateBound<T>(items: seq<T>, limit: int)
    requires 0 <= limit && |items| <= limit + 1
    ensures var p := Paginate(items, limit);
            |p.data| <= limit && p.data == items[..|p.data|] && (p.hasMore ==> |p.data| == limit)
  {
  }

  /** An offset-paginated result. */
  datatype SearchResult<T> = SearchResult(data: seq<T>, total: int, limit: int, offset: int, hasMore: bool)

  /** The offset-pagination rule: more results exist exactly when the total
      goes beyond this page. */
  function OffsetResult<T>(data: seq<T>, total: int, limit: int, offset: int): (r: SearchResult<T>)
    ensures r.data == data && r.total == total && r.limit == limit && r.offset == offset
    ensures r.hasMore <==> total > offset + limit
  {
    SearchResult(data, total, limit, offset, total > offset + limit)
  }

  /** `{"range": {"created_at": {"gte": after, "lte": before}}}` when either
      bound is given. */
  function DateRange(after: Option<Instant>, before: Option<Instant>): (r: seq<Clause>)
    ensures r != [] <==> after.Some? || before.Some?
    ensures r != [] ==> r == [Range("created_at", None, after, before)]
  {
    if after.Some? || before.Some? then [Range("created_at", None, after, before)] else []
  }
}
