/** The dehydrated-logs page: a history of queries against cold storage, each
    moving Pending -> Running -> Completed by timed steps, optionally
    "dehydrated" (re-sent) to a SIEM destination, and summarised by metric
    cards. Each timer callback is a step method of its own, the random pick
    of a mock result is an index parameter, and parseFloat is a parameter
    `parse` standing for the number at the front of a size text. */
module Dehydrated {
  import opened Text
  import opened Seqs

  datatype QueryStatus = Completed | Running | Failed | Pending

  datatype DehydrationStatus = NoDehydration | Dehydrating | DehydrationDone

  /** One row of the history; optional fields of the source record are Options. */
  datatype QueryRecord = QueryRecord(
    id: string,
    status: QueryStatus,
    queryName: string,
    query: string,
    created: string,
    results: string,
    resultsSize: Option<string>,
    dehydrationStatus: Option<DehydrationStatus>,
    dehydrationDestination: Option<string>,
    completedTime: Option<string>,
    estimatedCost: Option<string>,
    logSources: Option<seq<string>>)

  datatype CreateForm = CreateForm(queryName: string, s3Query: string)

  datatype Destination = Destination(id: string, name: string, destinationType: string)

  datatype MockResult = MockResult(logs: string, size: string)

  /** A dehydration waiting for its completion step: the query id and the
      type of the chosen destination. */
  datatype PendingDehydration = PendingDehydration(queryId: string, destinationType: string)

  function EmDash(): string {
    "\U{2014}"
  }

  /** The history the page starts with. (Long texts are written as
      concatenations of short literals, which the verifier handles more
      cheaply than one long literal.) */
  function InitialQueries(): seq<QueryRecord> {
    [ QueryRecord("1", Completed, "Security Events Last Week",
        "source=\"security-logs\" A" + "ND timestamp >= \"2024-01" + "-01\" AND timestamp < \"20" + "24-01-08\" AND message CO" + "NTAINS \"failed login\"",
        "2024-01-08 14:30:00", "15,420 logs", Some("2.4 GB"), Some(NoDehydration), None,
        Some("2024-01-08 14:32:15"), Some("$0.12"), Some(["firewall-logs", "auth-server", "vpn-gateway"])),
      QueryRecord("2", Running, "Application Errors December",
        "level=\"ERROR\" AND timest" + "amp >= \"2023-12-01\"",
        "2024-01-08 15:45:00", EmDash(), None, Some(NoDehydration), None, None, None, None),
      QueryRecord("3", Failed, "Network Traffic Analysis",
        "source=\"network-logs\" AN" + "D bytes > 1000000",
        "2024-01-08 16:00:00", "Query timeout - dataset " + "too large", None, Some(NoDehydration), None, None, None, None),
      QueryRecord("4", Completed, "Authentication Failures",
        "message CONTAINS \"authen" + "tication failed\" AND lev" + "el=\"WARNING\"",
        "2024-01-07 09:15:00", "3,247 logs", Some("892 MB"), Some(NoDehydration), None,
        Some("2024-01-07 09:18:32"), Some("$0.08"), Some(["auth-server", "web-gateway"])),
      QueryRecord("5", Completed, "Database Performance Issues",
        "source=\"database-logs\" A" + "ND message CONTAINS \"slo" + "w query\"",
        "2024-01-06 16:22:00", "1,854 logs", Some("445 MB"), Some(NoDehydration), None,
        Some("2024-01-06 16:25:18"), Some("$0.04"), Some(["mysql-primary", "postgres-replica"])) ]
  }

  function Destinations(): seq<Destination> {
    [ Destination("splunk", "Splunk Production", "Splunk"),
      Destination("elasticsearch", "Elasticsearch Dev", "Elasticsearch"),
      Destination("azure-sentinel", "Azure Sentinel", "Azure Sentinel"),
      Destination("datadog", "Datadog", "Datadog") ]
  }

  function MockResults(): seq<MockResult> {
    [ MockResult("8,234 logs", "1.2 GB"),
      MockResult("12,567 logs", "2.8 GB"),
      MockResult("4,891 logs", "756 MB"),
      MockResult("19,432 logs", "3.4 GB") ]
  }

  // ---------------------------------------------------------------------------
  // Updates of the history

  /** `prev.map(q => q.id === id ? f(q) : q)`. */
  function UpdateWhere(qs: seq<QueryRecord>, id: string, f: QueryRecord -> QueryRecord): (r: seq<QueryRecord>)
    ensures |r| == |qs|
    ensures forall i :: 0 <= i < |qs| && qs[i].id != id ==> r[i] == qs[i]
    ensures forall i :: 0 <= i < |qs| && qs[i].id == id ==> r[i] == f(qs[i])
  {
    seq(|qs|, i requires 0 <= i < |qs| => if qs[i].id == id then f(qs[i]) else qs[i])
  }

  /** No two rows share an id. */
  predicate UniqueIds(qs: seq<QueryRecord>) {
    forall i, j :: 0 <= i < j < |qs| ==> qs[i].id != qs[j].id
  }

  predicate HasQuery(qs: seq<QueryRecord>, id: string) {
    exists i :: 0 <= i < |qs| && qs[i].id == id
  }

  /** With unique ids, an update by id is a point update of the one row. */
  lemma UpdateWhereIsPointUpdate(qs: seq<QueryRecord>, k: nat, f: QueryRecord -> QueryRecord)
    requires UniqueIds(qs) && k < |qs|
    ensures UpdateWhere(qs, qs[k].id, f) == qs[k := f(qs[k])]
  {
  }

  /** An update whose function keeps the id keeps every id, so the rows stay
      unique and later steps still find the row. */
  lemma UpdateWhereKeepsIds(qs: seq<QueryRecord>, id: string, f: QueryRecord -> QueryRecord)
    requires forall q :: f(q).id == q.id
    ensures var r := UpdateWhere(qs, id, f);
            (forall i :: 0 <= i < |qs| ==> r[i].id == qs[i].id) && (UniqueIds(qs) ==> UniqueIds(r))
  {
  }

  function ToRunning(q: QueryRecord): QueryRecord {
    q.(status := Running)
  }

  function ToCompleted(q: QueryRecord, m: MockResult): QueryRecord {
    q.(status := Completed, results := m.logs, resultsSize := Some(m.size))
  }

  function ToDehydrating(q: QueryRecord): QueryRecord {
    q.(dehydrationStatus := Some(Dehydrating))
  }

  function ToDehydrated(q: QueryRecord, destinationType: string): QueryRecord {
    q.(dehydrationStatus := Some(DehydrationDone), dehydrationDestination := Some(destinationType))
  }

  /** The first progress step: the row with this id becomes Running. */
  function MarkRunning(qs: seq<QueryRecord>, id: string): (r: seq<QueryRecord>)
    ensures |r| == |qs|
    ensures forall i :: 0 <= i < |qs| ==>
              r[i] == (if qs[i].id == id then qs[i].(status := Running) else qs[i])
  {
    UpdateWhere(qs, id, ToRunning)
  }

  /** The second progress step: the row with this id becomes Completed with
      the picked mock result, whatever its status was (a Failed row too). */
  function MarkCompleted(qs: seq<QueryRecord>, id: string, pick: nat): (r: seq<QueryRecord>)
    requires pick < |MockResults()|
    ensures |r| == |qs|
    ensures forall i :: 0 <= i < |qs| && qs[i].id != id ==> r[i] == qs[i]
    ensures forall i :: 0 <= i < |qs| && qs[i].id == id ==>
              r[i].status == Completed && r[i].results == MockResults()[pick].logs &&
              r[i].resultsSize == Some(MockResults()[pick].size) &&
              r[i] == qs[i].(status := Completed, results := r[i].results, resultsSize := r[i].resultsSize)
  {
    var m := MockResults()[pick];
    UpdateWhere(qs, id, q => ToCompleted(q, m))
  }

  function MarkDehydrating(qs: seq<QueryRecord>, id: string): (r: seq<QueryRecord>)
    ensures |r| == |qs|
    ensures forall i :: 0 <= i < |qs| ==>
              r[i] == (if qs[i].id == id then qs[i].(dehydrationStatus := Some(Dehydrating)) else qs[i])
  {
    UpdateWhere(qs, id, ToDehydrating)
  }

  function MarkDehydrated(qs: seq<QueryRecord>, id: string, destinationType: string): (r: seq<QueryRecord>)
    ensures |r| == |qs|
    ensures forall i :: 0 <= i < |qs| ==>
              r[i] == (if qs[i].id == id
                       then qs[i].(dehydrationStatus := Some(DehydrationDone), dehydrationDestination := Some(destinationType))
                       else qs[i])
  {
    UpdateWhere(qs, id, q => ToDehydrated(q, destinationType))
  }

  /** The record `handleCreateQuery` prepends: Pending, results an em dash,
      no size and no dehydration status. */
  function NewQuery(form: CreateForm, id: string, created: string): QueryRecord {
    QueryRecord(id, Pending, form.queryName, form.s3Query, created, EmDash(), None, None, None, None, None, None)
  }

  /** The create guard: both the name and the query text are non-blank. */
  predicate CanCreate(form: CreateForm) {
    !IsBlank(form.queryName) && !IsBlank(form.s3Query)
  }

  /** `handleCreateQuery` on the list: a blank name or query leaves it as it
      is; otherwise exactly one Pending row is put in front of the old rows. */
  function CreateQuery(qs: seq<QueryRecord>, form: CreateForm, id: string, created: string): (r: seq<QueryRecord>)
    ensures !CanCreate(form) ==> r == qs
    ensures CanCreate(form) ==>
              |r| == |qs| + 1 && r[1..] == qs && r[0].id == id && r[0].status == Pending &&
              r[0].results == EmDash() && r[0].queryName == form.queryName && r[0].query == form.s3Query
  {
    if CanCreate(form) then [NewQuery(form, id, created)] + qs else qs
  }

  function DestinationIdIs(id: string): Destination -> bool {
    (d: Destination) => d.id == id
  }

  /** `destinations.find(d => d.id === id)`. */
  function FindDestination(ds: seq<Destination>, id: string): (r: Option<Destination>)
    ensures r.Some? ==> r.value in ds && r.value.id == id
    ensures r.None? <==> forall i :: 0 <= i < |ds| ==> ds[i].id != id
  {
    FindFirst(ds, DestinationIdIs(id))
  }

  /** What `handleDehydrate` schedules: nothing when no query is selected,
      no destination is chosen (the empty string is falsy) or the id is not
      a destination; otherwise the selected query's id and the destination's
      type. */
  function DehydrateRequest(selected: Option<QueryRecord>, destinationId: string): (r: Option<PendingDehydration>)
    ensures r.Some? <==> selected.Some? && destinationId != "" && FindDestination(Destinations(), destinationId).Some?
    ensures r.Some? ==>
              r.value.queryId == selected.value.id &&
              r.value.destinationType == FindDestination(Destinations(), destinationId).value.destinationType
  {
    if selected.None? || destinationId == "" then None
    else
      match FindDestination(Destinations(), destinationId)
      case None => None
      case Some(d) => Some(PendingDehydration(selected.value.id, d.destinationType))
  }

  /** The catalogue's destination types, looked up by id. */
  lemma DestinationTypes(q: QueryRecord)
    ensures DehydrateRequest(Some(q), "splunk") == Some(PendingDehydration(q.id, "Splunk"))
    ensures DehydrateRequest(Some(q), "elasticsearch") == Some(PendingDehydration(q.id, "Elasticsearch"))
    ensures DehydrateRequest(Some(q), "azure-sentinel") == Some(PendingDehydration(q.id, "Azure Sentinel"))
    ensures DehydrateRequest(Some(q), "datadog") == Some(PendingDehydration(q.id, "Datadog"))
    ensures DehydrateRequest(Some(q), "") == None && DehydrateRequest(None, "splunk") == None
  {
    var ds := Destinations();
    assert ds[0].id != "elasticsearch" && ds[0].id != "azure-sentinel" && ds[0].id != "datadog";
    assert ds[1..][0] == Destination("elasticsearch", "Elasticsearch Dev", "Elasticsearch");
    assert ds[1..][0].id != "azure-sentinel" && ds[1..][0].id != "datadog";
    assert ds[1..][1..] == ds[2..];
    assert ds[2..][0] == Destination("azure-sentinel", "Azure Sentinel", "Azure Sentinel");
    assert ds[2..][0].id != "datadog";
    assert ds[2..][1..] == ds[3..];
    assert ds[3..][0] == Destination("datadog", "Datadog", "Datadog");
  }

  // ---------------------------------------------------------------------------
  // Metrics

  predicate IsActive(q: QueryRecord) {
    q.status == Running || q.status == Pending
  }

  /** The "Running Queries" card: rows that are Running or Pending. */
  function RunningQueries(qs: seq<QueryRecord>): (n: nat)
    ensures n <= |qs|
  {
    Count(qs, IsActive)
  }

  /** The size of one result in GB: a text mentioning "GB" counts its number,
      one mentioning "MB" (and not "GB") its number over 1024, anything else
      nothing. */
  function SizeInGB(size: string, parse: string -> real): real {
    if Contains(size, "GB") then parse(size)
    else if Contains(size, "MB") then parse(size) / 1024.0
    else 0.0
  }

  /** What a row adds to "Storage Retrieved": only Completed rows with a
      non-empty size count. */
  function StorageOf(q: QueryRecord, parse: string -> real): real {
    if q.status == Completed && q.resultsSize.Some? && q.resultsSize.value != "" then SizeInGB(q.resultsSize.value, parse)
    else 0.0
  }

  /** The "Storage Retrieved" total in GB, before the one-decimal formatting. */
  function StorageRetrieved(qs: seq<QueryRecord>, parse: string -> real): real {
    if qs == [] then 0.0 else StorageRetrieved(qs[..|qs| - 1], parse) + StorageOf(qs[|qs| - 1], parse)
  }

  lemma {:induction false} StorageAppend(a: seq<QueryRecord>, b: seq<QueryRecord>, parse: string -> real)
    ensures StorageRetrieved(a + b, parse) == StorageRetrieved(a, parse) + StorageRetrieved(b, parse)
    decreases |b|
  {
    if b == [] {
      assert a + b == a;
    } else {
      assert (a + b)[..|a + b| - 1] == a + b[..|b| - 1];
      StorageAppend(a, b[..|b| - 1], parse);
    }
  }

  /** Replacing one row changes the total by the difference of the two rows' shares. */
  lemma StoragePointUpdate(qs: seq<QueryRecord>, k: nat, x: QueryRecord, parse: string -> real)
    requires k < |qs|
    ensures StorageRetrieved(qs[k := x], parse)
            == StorageRetrieved(qs, parse) - StorageOf(qs[k], parse) + StorageOf(x, parse)
  {
    var pre, post := qs[..k], qs[k + 1..];
    assert qs == pre + [qs[k]] + post;
    assert qs[k := x] == pre + [x] + post;
    StorageAppend(pre + [qs[k]], post, parse);
    StorageAppend(pre, [qs[k]], parse);
    StorageAppend(pre + [x], post, parse);
    StorageAppend(pre, [x], parse);
    assert StorageRetrieved([qs[k]], parse) == StorageOf(qs[k], parse) by {
      assert [qs[k]][..0] == [];
    }
    assert StorageRetrieved([x], parse) == StorageOf(x, parse) by {
      assert [x][..0] == [];
    }
  }

  lemma CountPointUpdate(qs: seq<QueryRecord>, k: nat, x: QueryRecord)
    requires k < |qs|
    ensures RunningQueries(qs[k := x])
            == RunningQueries(qs) - (if IsActive(qs[k]) then 1 else 0) + (if IsActive(x) then 1 else 0)
  {
    var pre, post := qs[..k], qs[k + 1..];
    assert qs == pre + [qs[k]] + post;
    assert qs[k := x] == pre + [x] + post;
    CountAppend(pre + [qs[k]], post, IsActive);
    CountAppend(pre, [qs[k]], IsActive);
    CountAppend(pre + [x], post, IsActive);
    CountAppend(pre, [x], IsActive);
    assert [qs[k]][..0] == [] && [x][..0] == [];
  }

  /** Creating a query adds one row, one running query and no storage. */
  lemma CreateMetrics(qs: seq<QueryRecord>, form: CreateForm, id: string, created: string, parse: string -> real)
    requires CanCreate(form)
    ensures var r := CreateQuery(qs, form, id, created);
            |r| == |qs| + 1 && RunningQueries(r) == RunningQueries(qs) + 1 &&
            StorageRetrieved(r, parse) == StorageRetrieved(qs, parse)
  {
    var n := NewQuery(form, id, created);
    CountAppend([n], qs, IsActive);
    StorageAppend([n], qs, parse);
    assert [n][..0] == [];
  }

  /** Completing the unique row with this id: one running query fewer when
      the row was Running or Pending, and its mock size added to storage when
      it was not already Completed with a size. */
  lemma CompleteMetrics(qs: seq<QueryRecord>, k: nat, pick: nat, parse: string -> real)
    requires UniqueIds(qs) && k < |qs| && pick < |MockResults()|
    ensures var r := MarkCompleted(qs, qs[k].id, pick);
            |r| == |qs| &&
            RunningQueries(r) == RunningQueries(qs) - (if IsActive(qs[k]) then 1 else 0) &&
            StorageRetrieved(r, parse)
            == StorageRetrieved(qs, parse) - StorageOf(qs[k], parse) + SizeInGB(MockResults()[pick].size, parse)
  {
    var m := MockResults()[pick];
    var f := (q: QueryRecord) => ToCompleted(q, m);
    UpdateWhereIsPointUpdate(qs, k, f);
    var x := f(qs[k]);
    CountPointUpdate(qs, k, x);
    StoragePointUpdate(qs, k, x, parse);
    assert m.size != "";
  }

  /** A created query runs through its whole life: after creation and both
      progress steps, the front row is Completed with the picked mock result,
      the other rows are as before, and the running count is back where it
      was, provided the new id is fresh. */
  lemma CreatedQueryLifecycle(qs: seq<QueryRecord>, form: CreateForm, id: string, created: string, pick: nat)
    requires CanCreate(form) && pick < |MockResults()| && !HasQuery(qs, id)
    ensures var r := MarkCompleted(MarkRunning(CreateQuery(qs, form, id, created), id), id, pick);
            |r| == |qs| + 1 && r[1..] == qs && r[0].status == Completed &&
            r[0].results == MockResults()[pick].logs && r[0].resultsSize == Some(MockResults()[pick].size) &&
            RunningQueries(r) == RunningQueries(qs)
  {
    var c := CreateQuery(qs, form, id, created);
    var r1 := MarkRunning(c, id);
    var r := MarkCompleted(r1, id, pick);
    assert r[1..] == qs by {
      forall i | 0 <= i < |qs| ensures r[1 + i] == qs[i] {
        assert c[1 + i] == qs[i] && qs[i].id != id;
      }
    }
    assert r == [r[0]] + qs;
    CountAppend([r[0]], qs, IsActive);
    assert [r[0]][..0] == [];
  }

  lemma CountOfFive(qs: seq<QueryRecord>)
    requires |qs| == 5
    ensures RunningQueries(qs) == (if IsActive(qs[0]) then 1 else 0) + (if IsActive(qs[1]) then 1 else 0)
              + (if IsActive(qs[2]) then 1 else 0) + (if IsActive(qs[3]) then 1 else 0) + (if IsActive(qs[4]) then 1 else 0)
  {
    forall k | 1 <= k <= 5
      ensures RunningQueries(qs[..k]) == RunningQueries(qs[..k - 1]) + (if IsActive(qs[k - 1]) then 1 else 0)
    {
      assert qs[..k][..k - 1] == qs[..k - 1];
    }
    assert qs[..0] == [] && qs[..5] == qs;
  }

  lemma StorageOfFive(qs: seq<QueryRecord>, parse: string -> real)
    requires |qs| == 5
    ensures StorageRetrieved(qs, parse) == StorageOf(qs[0], parse) + StorageOf(qs[1], parse)
              + StorageOf(qs[2], parse) + StorageOf(qs[3], parse) + StorageOf(qs[4], parse)
  {
    forall k | 1 <= k <= 5
      ensures StorageRetrieved(qs[..k], parse) == StorageRetrieved(qs[..k - 1], parse) + StorageOf(qs[k - 1], parse)
    {
      assert qs[..k][..k - 1] == qs[..k - 1];
    }
    assert qs[..0] == [] && qs[..5] == qs;
  }

  /** A size written "<n> GB" counts as its number of gigabytes. */
  lemma GigabyteSize(n: string, parse: string -> real)
    ensures SizeInGB(n + " GB", parse) == parse(n + " GB")
  {
    assert n + " GB" == (n + " ") + "GB";
    StartsWithContains("GB", "GB");
    ContainsAppendLeft(n + " ", "GB", "GB");
  }

  /** A size written "<n> MB", where n has no letter G, counts as its number
      of megabytes over 1024. */
  lemma MegabyteSize(n: string, parse: string -> real)
    requires 'G' !in n
    ensures SizeInGB(n + " MB", parse) == parse(n + " MB") / 1024.0
  {
    assert n + " MB" == (n + " ") + "MB";
    StartsWithContains("MB", "MB");
    ContainsAppendLeft(n + " ", "MB", "MB");
    if Contains(n + " MB", "GB") {
      ContainsHasChar(n + " MB", "GB", 0);
    }
  }

  /** The initial history holds five queries, one of them running (the
      Running row; there is no Pending row). */
  lemma InitialQueryCounts()
    ensures |InitialQueries()| == 5
    ensures RunningQueries(InitialQueries()) == 1
  {
    var qs := InitialQueries();
    CountOfFive(qs);
    assert !IsActive(qs[0]) && IsActive(qs[1]) && !IsActive(qs[2]) && !IsActive(qs[3]) && !IsActive(qs[4]);
  }

  /** The statuses and sizes of the five initial rows. */
  lemma InitialRowSizes()
    ensures |InitialQueries()| == 5
    ensures InitialQueries()[0].status == Completed && InitialQueries()[0].resultsSize == Some("2.4 GB")
    ensures InitialQueries()[1].status == Running && InitialQueries()[2].status == Failed
    ensures InitialQueries()[3].status == Completed && InitialQueries()[3].resultsSize == Some("892 MB")
    ensures InitialQueries()[4].status == Completed && InitialQueries()[4].resultsSize == Some("445 MB")
  {
  }

  /** Five rows of which the first, fourth and fifth are Completed with sizes
      of 2.4 GB, 892 MB and 445 MB, and the others not Completed. */
  lemma StorageOfSizedRows(qs: seq<QueryRecord>, parse: string -> real)
    requires |qs| == 5
    requires qs[0].status == Completed && qs[0].resultsSize == Some("2.4 GB")
    requires qs[1].status != Completed && qs[2].status != Completed
    requires qs[3].status == Completed && qs[3].resultsSize == Some("892 MB")
    requires qs[4].status == Completed && qs[4].resultsSize == Some("445 MB")
    ensures StorageRetrieved(qs, parse)
            == parse("2.4 GB") + parse("892 MB") / 1024.0 + parse("445 MB") / 1024.0
  {
    StorageOfFive(qs, parse);
    assert "2.4 GB" == "2.4" + " GB" && "892 MB" == "892" + " MB" && "445 MB" == "445" + " MB";
    StorageOfGigabyteRow(qs[0], "2.4", parse);
    StorageOfMegabyteRow(qs[3], "892", parse);
    StorageOfMegabyteRow(qs[4], "445", parse);
    assert StorageOf(qs[1], parse) == 0.0 && StorageOf(qs[2], parse) == 0.0;
  }

  lemma StorageOfGigabyteRow(q: QueryRecord, n: string, parse: string -> real)
    requires q.status == Completed && q.resultsSize == Some(n + " GB")
    ensures StorageOf(q, parse) == parse(n + " GB")
  {
    GigabyteSize(n, parse);
  }

  lemma StorageOfMegabyteRow(q: QueryRecord, n: string, parse: string -> real)
    requires q.status == Completed && q.resultsSize == Some(n + " MB") && 'G' !in n
    ensures StorageOf(q, parse) == parse(n + " MB") / 1024.0
  {
    MegabyteSize(n, parse);
  }

  /** The initial storage card adds up 2.4 GB, 892 MB and 445 MB: the sizes
      of the three Completed rows. */
  lemma InitialStorage(parse: string -> real)
    ensures StorageRetrieved(InitialQueries(), parse)
            == parse("2.4 GB") + parse("892 MB") / 1024.0 + parse("445 MB") / 1024.0
  {
    InitialRowSizes();
    StorageOfSizedRows(InitialQueries(), parse);
  }

  // ---------------------------------------------------------------------------
  // The page

  class DehydratedPage {
    var queries: seq<QueryRecord>
    var isModalOpen: bool
    var isResultsModalOpen: bool
    var selectedQuery: Option<QueryRecord>
    var formData: CreateForm
    var selectedDestination: string

    constructor ()
      ensures queries == InitialQueries() && !isModalOpen && !isResultsModalOpen
      ensures selectedQuery == None && formData == CreateForm("", "") && selectedDestination == ""
    {
      queries := InitialQueries();
      isModalOpen := false;
      isResultsModalOpen := false;
      selectedQuery := None;
      formData := CreateForm("", "");
      selectedDestination := "";
    }

    method OpenCreateModal()
      modifies this
      ensures isModalOpen && queries == old(queries) && formData == old(formData)
      ensures isResultsModalOpen == old(isResultsModalOpen) && selectedQuery == old(selectedQuery)
      ensures selectedDestination == old(selectedDestination)
    {
      isModalOpen := true;
    }

    method EditForm(form: CreateForm)
      modifies this
      ensures formData == form && queries == old(queries) && isModalOpen == old(isModalOpen)
      ensures isResultsModalOpen == old(isResultsModalOpen) && selectedQuery == old(selectedQuery)
      ensures selectedDestination == old(selectedDestination)
    {
      formData := form;
    }

    /** `handleCreateQuery`. A refused create changes nothing; an accepted one
        prepends the row, clears the form, closes the modal and returns the
        id whose two progress steps are now scheduled. */
    method HandleCreateQuery(id: string, created: string) returns (scheduled: Option<string>)
      modifies this
      ensures queries == CreateQuery(old(queries), old(formData), id, created)
      ensures !CanCreate(old(formData)) ==>
                scheduled == None && formData == old(formData) && isModalOpen == old(isModalOpen)
      ensures CanCreate(old(formData)) ==>
                scheduled == Some(id) && formData == CreateForm("", "") && !isModalOpen
      ensures isResultsModalOpen == old(isResultsModalOpen) && selectedQuery == old(selectedQuery)
      ensures selectedDestination == old(selectedDestination)
    {
      if IsBlank(formData.queryName) || IsBlank(formData.s3Query) {
        return None;
      }
      queries := [NewQuery(formData, id, created)] + queries;
      formData := CreateForm("", "");
      isModalOpen := false;
      scheduled := Some(id);
    }

    /** The first timer of `simulateQueryProgress`. */
    method ProgressToRunning(id: string)
      modifies this
      ensures queries == MarkRunning(old(queries), id)
      ensures isModalOpen == old(isModalOpen) && isResultsModalOpen == old(isResultsModalOpen)
      ensures selectedQuery == old(selectedQuery) && formData == old(formData)
      ensures selectedDestination == old(selectedDestination)
    {
      queries := MarkRunning(queries, id);
    }

    /** The second timer of `simulateQueryProgress`; `pick` is the index that
        `Math.floor(Math.random() * 4)` produced. */
    method ProgressToCompleted(id: string, pick: nat)
      requires pick < |MockResults()|
      modifies this
      ensures queries == MarkCompleted(old(queries), id, pick)
      ensures isModalOpen == old(isModalOpen) && isResultsModalOpen == old(isResultsModalOpen)
      ensures selectedQuery == old(selectedQuery) && formData == old(formData)
      ensures selectedDestination == old(selectedDestination)
    {
      queries := MarkCompleted(queries, id, pick);
    }

    method HandleViewResults(q: QueryRecord)
      modifies this
      ensures selectedQuery == Some(q) && isResultsModalOpen
      ensures queries == old(queries) && isModalOpen == old(isModalOpen) && formData == old(formData)
      ensures selectedDestination == old(selectedDestination)
    {
      selectedQuery := Some(q);
      isResultsModalOpen := true;
    }

    method ChooseDestination(id: string)
      modifies this
      ensures selectedDestination == id
      ensures queries == old(queries) && isModalOpen == old(isModalOpen) && formData == old(formData)
      ensures isResultsModalOpen == old(isResultsModalOpen) && selectedQuery == old(selectedQuery)
    {
      selectedDestination := id;
    }

    /** `handleDehydrate`. When refused nothing changes and the results modal
        stays open; otherwise the selected row is marked "dehydrating", the
        modal closes, the chosen destination is cleared, and the completion
        step is returned. */
    method HandleDehydrate() returns (pending: Option<PendingDehydration>)
      modifies this
      ensures pending == DehydrateRequest(old(selectedQuery), old(selectedDestination))
      ensures pending.None? ==>
                queries == old(queries) && isResultsModalOpen == old(isResultsModalOpen) &&
                selectedDestination == old(selectedDestination)
      ensures pending.Some? ==>
                queries == MarkDehydrating(old(queries), pending.value.queryId) &&
                !isResultsModalOpen && selectedDestination == ""
      ensures selectedQuery == old(selectedQuery) && isModalOpen == old(isModalOpen) && formData == old(formData)
    {
      pending := DehydrateRequest(selectedQuery, selectedDestination);
      if pending.Some? {
        queries := MarkDehydrating(queries, pending.value.queryId);
        isResultsModalOpen := false;
        selectedDestination := "";
      }
    }

    /** The dehydration timer: the row becomes "completed" with the destination type. */
    method DehydrationFinished(p: PendingDehydration)
      modifies this
      ensures queries == MarkDehydrated(old(queries), p.queryId, p.destinationType)
      ensures isModalOpen == old(isModalOpen) && isResultsModalOpen == old(isResultsModalOpen)
      ensures selectedQuery == old(selectedQuery) && formData == old(formData)
      ensures selectedDestination == old(selectedDestination)
    {
      queries := MarkDehydrated(queries, p.queryId, p.destinationType);
    }

    /** The "Dehydrate" button is enabled exactly when a destination is chosen. */
    function DehydrateEnabled(): (enabled: bool)
      reads this
      ensures enabled <==> selectedDestination != ""
    {
      selectedDestination != ""
    }
  }
}
