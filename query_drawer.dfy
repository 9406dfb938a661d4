/** The "add query" drawer: a form holding a query name, a data source, a
    time frame and a list of condition rules, which builds a query string of
    the shape `source="…" AND <time clause> AND (<rules>)` on submit and in
    its live preview.

    The clock and Date.prototype.toISOString are parameters: `now` is the
    current time in milliseconds and `iso` renders an instant as ISO text. */
module QueryDrawer {
  import opened Text
  import opened Seqs

  datatype Condition = Condition(field: string, operator: string, value: string)

  /** The three keys of a condition that `updateCondition` can set. */
  datatype ConditionKey = FieldKey | OperatorKey | ValueKey

  datatype QueryForm = QueryForm(
    queryName: string,
    dataSource: string,
    timeFrame: string,
    customDateFrom: string,
    customDateTo: string,
    logicalOperator: string,
    conditions: seq<Condition>)

  datatype DataSource = DataSource(id: string, name: string)

  /** The record handed to the `onAddQuery` callback. */
  datatype SubmittedQuery = SubmittedQuery(
    id: string, status: string, queryName: string, query: string, created: string, results: string)

  function DefaultCondition(): Condition {
    Condition("EventID", "equals", "")
  }

  /** The form as the drawer resets it whenever it opens. */
  function EmptyForm(): QueryForm {
    QueryForm("", "", "", "", "", "AND", [DefaultCondition()])
  }

  function AvailableDataSources(): seq<DataSource> {
    [ DataSource("windows-logs", "Windows Event Logs"),
      DataSource("linux-logs", "Linux Web Servers"),
      DataSource("network-logs", "Cisco Network Switches"),
      DataSource("app-logs", "Application Servers"),
      DataSource("security-logs", "Security Scanners") ]
  }

  // ---------------------------------------------------------------------------
  // Editing the rules

  /** `addCondition`: a default rule is appended. */
  function AddCondition(cs: seq<Condition>): seq<Condition> {
    cs + [DefaultCondition()]
  }

  /** `removeCondition`: the rule at `index` is dropped, but only while more
      than one rule exists, so the list never becomes empty. */
  function RemoveCondition(cs: seq<Condition>, index: int): (r: seq<Condition>)
    ensures |cs| <= 1 ==> r == cs
    ensures |cs| > 1 && 0 <= index < |cs| ==> r == cs[..index] + cs[index + 1..]
    ensures |cs| > 1 && !(0 <= index < |cs|) ==> r == cs
    ensures |cs| >= 1 ==> |r| >= 1
  {
    if |cs| > 1 then DropIndex(cs, index) else cs
  }

  function Get(c: Condition, key: ConditionKey): string {
    match key
    case FieldKey => c.field
    case OperatorKey => c.operator
    case ValueKey => c.value
  }

  /** `{ ...condition, [key]: v }`: exactly the named key takes the new value. */
  function SetKey(c: Condition, key: ConditionKey, v: string): (r: Condition)
    ensures Get(r, key) == v
    ensures forall k :: k != key ==> Get(r, k) == Get(c, k)
  {
    match key
    case FieldKey => c.(field := v)
    case OperatorKey => c.(operator := v)
    case ValueKey => c.(value := v)
  }

  /** `updateCondition`: the rule at `index` has one key set; the length and
      every other rule are unchanged. */
  function UpdateCondition(cs: seq<Condition>, index: int, key: ConditionKey, v: string): (r: seq<Condition>)
    ensures |r| == |cs|
    ensures forall k :: 0 <= k < |cs| && k != index ==> r[k] == cs[k]
    ensures 0 <= index < |cs| ==>
              Get(r[index], key) == v && forall k2 :: k2 != key ==> Get(r[index], k2) == Get(cs[index], k2)
  {
    seq(|cs|, k requires 0 <= k < |cs| => if k == index then SetKey(cs[k], key, v) else cs[k])
  }

  /** The time-frame select: a choice other than "custom" clears both custom dates. */
  function SelectTimeFrame(f: QueryForm, choice: string): (r: QueryForm)
    ensures r.timeFrame == choice
    ensures choice != "custom" ==> r.customDateFrom == "" && r.customDateTo == ""
    ensures choice == "custom" ==> r.customDateFrom == f.customDateFrom && r.customDateTo == f.customDateTo
    ensures r.conditions == f.conditions && r.queryName == f.queryName && r.dataSource == f.dataSource
    ensures r.logicalOperator == f.logicalOperator
  {
    f.(timeFrame := choice,
       customDateFrom := if choice != "custom" then "" else f.customDateFrom,
       customDateTo := if choice != "custom" then "" else f.customDateTo)
  }

  // ---------------------------------------------------------------------------
  // Building the query string

  /** The look-back of each relative time frame, in milliseconds. */
  function RelativeWindowMillis(timeFrame: string): Option<int> {
    if timeFrame == "last-hour" then Some(60 * 60 * 1000)
    else if timeFrame == "last-24h" then Some(24 * 60 * 60 * 1000)
    else if timeFrame == "last-7d" then Some(7 * 24 * 60 * 60 * 1000)
    else if timeFrame == "last-30d" then Some(30 * 24 * 60 * 60 * 1000)
    else None
  }

  function LowerBound(date: string): string {
    "timestamp >= \"" + date + "T00:00:00.000Z\""
  }

  function UpperBound(date: string): string {
    "timestamp <= \"" + date + "T23:59:59.999Z\""
  }

  /** `getTimeFrameClause`. A relative frame bounds the timestamp from below by
      `now` minus its window; "custom" bounds it by whichever dates are set
      (from the start of the from-day, to the end of the to-day); anything
      else gives no clause. */
  function TimeFrameClause(timeFrame: string, from: string, to: string, now: int, iso: int -> string): (r: string)
    ensures RelativeWindowMillis(timeFrame).Some? ==>
              r == "timestamp >= \"" + iso(now - RelativeWindowMillis(timeFrame).value) + "\""
    ensures RelativeWindowMillis(timeFrame).None? && timeFrame != "custom" ==> r == ""
  {
    match RelativeWindowMillis(timeFrame)
    case Some(w) => "timestamp >= \"" + iso(now - w) + "\""
    case None =>
      if timeFrame == "custom" then
        if from != "" && to != "" then LowerBound(from) + " AND " + UpperBound(to)
        else if from != "" then LowerBound(from)
        else if to != "" then UpperBound(to)
        else ""
      else ""
  }

  /** The custom range: both dates give both bounds joined by AND, one date
      gives its own bound, and neither gives the empty clause. The clause has
      a lower bound exactly when the from-date is set. */
  lemma CustomClause(from: string, to: string, now: int, iso: int -> string)
    ensures var r := TimeFrameClause("custom", from, to, now, iso);
            (from != "" && to != "" ==> r == LowerBound(from) + " AND " + UpperBound(to)) &&
            (from != "" && to == "" ==> r == LowerBound(from)) &&
            (from == "" && to != "" ==> r == UpperBound(to)) &&
            (from == "" && to == "" ==> r == "") &&
            (StartsWith(r, "timestamp >= \"") <==> from != "")
  {
    var r := TimeFrameClause("custom", from, to, now, iso);
    assert RelativeWindowMillis("custom") == None;
    if from != "" {
      assert r[..14] == LowerBound(from)[..14];
    } else if to != "" {
      assert r[10] == '<';
    }
  }

  function SourceIdIs(id: string): DataSource -> bool {
    (d: DataSource) => d.id == id
  }

  /** `availableDataSources.find(ds => ds.id === id)`. */
  function FindSource(sources: seq<DataSource>, id: string): (r: Option<DataSource>)
    ensures r.Some? ==> r.value in sources && r.value.id == id
    ensures r.None? <==> forall i :: 0 <= i < |sources| ==> sources[i].id != id
  {
    FindFirst(sources, SourceIdIs(id))
  }

  /** `selectedSource?.name || formData.dataSource`. */
  function SourceName(id: string): (name: string)
    ensures FindSource(AvailableDataSources(), id).None? ==> name == id
  {
    match FindSource(AvailableDataSources(), id)
    case Some(ds) => if ds.name != "" then ds.name else id
    case None => id
  }

  /** `find` returns the first entry with the id. */
  lemma FindSourceFirst(sources: seq<DataSource>, k: nat)
    requires k < |sources| && forall j :: 0 <= j < k ==> sources[j].id != sources[k].id
    ensures FindSource(sources, sources[k].id) == Some(sources[k])
  {
    FindFirstIsFirst(sources, SourceIdIs(sources[k].id), k);
  }

  lemma CatalogueEntries()
    ensures |AvailableDataSources()| == 5
    ensures forall k :: 0 <= k < 5 ==> AvailableDataSources()[k].name != ""
    ensures forall j, k :: 0 <= j < k < 5 ==> AvailableDataSources()[j].id != AvailableDataSources()[k].id
  {
    var cat := AvailableDataSources();
    assert cat[0].id[0] == 'w' && cat[1].id[0] == 'l' && cat[2].id[0] == 'n';
    assert cat[3].id[0] == 'a' && cat[4].id[0] == 's';
  }

  /** Each catalogue id is shown by its display name. */
  lemma CatalogueSourceName(k: nat)
    requires k < |AvailableDataSources()|
    ensures SourceName(AvailableDataSources()[k].id) == AvailableDataSources()[k].name
  {
    CatalogueEntries();
    FindSourceFirst(AvailableDataSources(), k);
  }

  /** An id outside the catalogue is shown verbatim. */
  lemma UnknownSourceName(id: string)
    requires forall i :: 0 <= i < |AvailableDataSources()| ==> AvailableDataSources()[i].id != id
    ensures SourceName(id) == id
  {
  }

  /** One rule as text: `field operator "value"`. */
  function ConditionText(c: Condition): (t: string)
    ensures t != []
  {
    c.field + " " + c.operator + " \"" + c.value + "\""
  }

  predicate HasValue(c: Condition) {
    !IsBlank(c.value)
  }

  /** The rules that take part in the query: those whose value is not blank. */
  function KeptConditions(cs: seq<Condition>): (r: seq<Condition>)
    ensures IsSubsequence(r, cs)
    ensures forall i :: 0 <= i < |r| ==> HasValue(r[i])
    ensures forall i :: 0 <= i < |cs| && HasValue(cs[i]) ==> cs[i] in r
  {
    Filter(cs, HasValue)
  }

  function ConditionTexts(cs: seq<Condition>): (r: seq<string>)
    ensures |r| == |cs| && forall i :: 0 <= i < |cs| ==> r[i] == ConditionText(cs[i])
  {
    seq(|cs|, i requires 0 <= i < |cs| => ConditionText(cs[i]))
  }

  /** The kept rules' texts joined by the chosen logical operator. */
  function QueryConditions(f: QueryForm): string {
    Join(ConditionTexts(KeptConditions(f.conditions)), " " + f.logicalOperator + " ")
  }

  function SourcePart(f: QueryForm): string {
    "source=\"" + SourceName(f.dataSource) + "\""
  }

  /** A non-empty time frame always contributes " AND " and its clause, even
      when the clause itself is empty. */
  function TimePart(f: QueryForm, now: int, iso: int -> string): string {
    if f.timeFrame != "" then " AND " + TimeFrameClause(f.timeFrame, f.customDateFrom, f.customDateTo, now, iso)
    else ""
  }

  /** The rules contribute ` AND (…)` only when some rule is kept. */
  function ConditionsPart(f: QueryForm): string {
    var q := QueryConditions(f);
    if q != "" then " AND (" + q + ")" else ""
  }

  /** The query string built on submit. */
  function QueryString(f: QueryForm, now: int, iso: int -> string): (q: string)
    ensures StartsWith(q, SourcePart(f))
  {
    var q := SourcePart(f) + TimePart(f, now, iso) + ConditionsPart(f);
    assert q[..|SourcePart(f)|] == SourcePart(f);
    q
  }

  /** Every rule with a non-blank value appears, as `field operator "value"`,
      in the query string. */
  lemma KeptRuleInQuery(f: QueryForm, now: int, iso: int -> string, k: nat)
    requires k < |f.conditions| && HasValue(f.conditions[k])
    ensures Contains(QueryString(f, now, iso), ConditionText(f.conditions[k]))
  {
    var kept := KeptConditions(f.conditions);
    var texts := ConditionTexts(kept);
    var c := f.conditions[k];
    assert c in kept;
    var j :| 0 <= j < |kept| && kept[j] == c;
    JoinContainsPart(texts, " " + f.logicalOperator + " ", j);
    var q := QueryConditions(f);
    assert q != [] by {
      JoinEmptyIff(texts, " " + f.logicalOperator + " ");
    }
    ContainsAppendLeft(" AND (", q, ConditionText(c));
    ContainsAppendRight(" AND (" + q, ")", ConditionText(c));
    ContainsAppendLeft(SourcePart(f) + TimePart(f, now, iso), ConditionsPart(f), ConditionText(c));
  }

  /** When every rule's value is blank the rules contribute nothing: the
      query is the source part followed by the time part. */
  lemma BlankRulesContributeNothing(f: QueryForm, now: int, iso: int -> string)
    requires forall i :: 0 <= i < |f.conditions| ==> !HasValue(f.conditions[i])
    ensures QueryString(f, now, iso) == SourcePart(f) + TimePart(f, now, iso)
  {
    var kept := KeptConditions(f.conditions);
    if kept != [] {
      assert HasValue(kept[0]) && kept[0] in f.conditions;
    }
  }

  /** A chosen time frame whose clause is empty (a custom range with neither
      date set) still leaves a dangling " AND " after the source part. */
  lemma EmptyCustomRangeLeavesDanglingAnd(f: QueryForm, now: int, iso: int -> string)
    requires f.timeFrame == "custom" && f.customDateFrom == "" && f.customDateTo == ""
    requires forall i :: 0 <= i < |f.conditions| ==> !HasValue(f.conditions[i])
    ensures QueryString(f, now, iso) == SourcePart(f) + " AND "
  {
    BlankRulesContributeNothing(f, now, iso);
    CustomClause("", "", now, iso);
  }

  /** Adding a rule does not change the query text: the new rule's value is
      empty and so it is dropped. */
  lemma AddConditionKeepsQuery(f: QueryForm, now: int, iso: int -> string)
    ensures QueryString(f.(conditions := AddCondition(f.conditions)), now, iso) == QueryString(f, now, iso)
  {
    var g := f.(conditions := AddCondition(f.conditions));
    assert KeptConditions(g.conditions) == KeptConditions(f.conditions) by {
      FilterAppend(f.conditions, [DefaultCondition()], HasValue);
      assert !HasValue(DefaultCondition());
      assert Filter([DefaultCondition()], HasValue) == [];
      assert Filter(f.conditions, HasValue) + [] == Filter(f.conditions, HasValue);
    }
    assert QueryConditions(g) == QueryConditions(f);
    assert SourcePart(g) == SourcePart(f) && TimePart(g, now, iso) == TimePart(f, now, iso);
  }

  // ---------------------------------------------------------------------------
  // Submitting and previewing

  /** The submit guard, which also enables the "Create Query" button: a
      non-blank name, a non-blank data source, and some rule with a
      non-blank value. */
  predicate CanSubmit(f: QueryForm) {
    !IsBlank(f.queryName) && !IsBlank(f.dataSource) &&
    exists i :: 0 <= i < |f.conditions| && HasValue(f.conditions[i])
  }

  /** `handleSubmit`: when the guard holds and a callback is present, the
      callback receives a Pending record whose results are an em dash. `id`
      and `created` stand for the clock-derived id and creation text. */
  function Submit(f: QueryForm, hasCallback: bool, now: int, iso: int -> string, id: string, created: string)
    : (r: Option<SubmittedQuery>)
    ensures r.Some? <==> CanSubmit(f) && hasCallback
    ensures r.Some? ==>
              r.value.status == "Pending" && r.value.results == "\U{2014}" &&
              r.value.queryName == f.queryName && r.value.query == QueryString(f, now, iso) &&
              r.value.id == id && r.value.created == created
  {
    if !CanSubmit(f) || !hasCallback then None
    else Some(SubmittedQuery(id, "Pending", f.queryName, QueryString(f, now, iso), created, "\U{2014}"))
  }

  /** The preview block: shown only while a data source is chosen (a
      non-empty string), with the query text computed as on submit. */
  function Preview(f: QueryForm, now: int, iso: int -> string): (r: Option<string>)
    ensures r.Some? <==> f.dataSource != ""
  {
    if f.dataSource != "" then Some(QueryString(f, now, iso)) else None
  }

  /** For one clock reading, the preview shows the text a submit would send. */
  lemma PreviewMatchesSubmit(f: QueryForm, now: int, iso: int -> string, id: string, created: string)
    requires Submit(f, true, now, iso, id, created).Some?
    ensures Preview(f, now, iso) == Some(Submit(f, true, now, iso, id, created).value.query)
  {
    assert !IsBlank(f.dataSource);
  }

  /** The preview and the submit each read the clock; for a frame with no
      relative window (a custom range, or none) the two readings do not
      matter and the preview shows exactly the text that is sent. */
  lemma PreviewMatchesSubmitWithoutClock(f: QueryForm, nowPreview: int, nowSubmit: int, iso: int -> string, id: string, created: string)
    requires RelativeWindowMillis(f.timeFrame).None?
    requires Submit(f, true, nowSubmit, iso, id, created).Some?
    ensures Preview(f, nowPreview, iso) == Some(Submit(f, true, nowSubmit, iso, id, created).value.query)
  {
    assert !IsBlank(f.dataSource);
    assert TimeFrameClause(f.timeFrame, f.customDateFrom, f.customDateTo, nowPreview, iso)
        == TimeFrameClause(f.timeFrame, f.customDateFrom, f.customDateTo, nowSubmit, iso);
  }

  /** Adding a rule never enables a submit that was refused, nor refuses one
      that was allowed; removing or updating never empties the rule list. */
  lemma EditsAndGuard(f: QueryForm, index: int, key: ConditionKey, v: string)
    ensures CanSubmit(f.(conditions := AddCondition(f.conditions))) == CanSubmit(f)
    ensures |f.conditions| >= 1 ==> |RemoveCondition(f.conditions, index)| >= 1
    ensures |UpdateCondition(f.conditions, index, key, v)| == |f.conditions|
  {
    var g := f.(conditions := AddCondition(f.conditions));
    assert IsBlank([]);
    if CanSubmit(g) {
      var i :| 0 <= i < |g.conditions| && HasValue(g.conditions[i]);
      assert i < |f.conditions|;
      assert f.conditions[i] == g.conditions[i];
    }
    if CanSubmit(f) {
      var i :| 0 <= i < |f.conditions| && HasValue(f.conditions[i]);
      assert g.conditions[i] == f.conditions[i];
    }
  }

  /** The drawer's component state: the form record. */
  class QueryDrawerState {
    var formData: QueryForm

    predicate Valid()
      reads this
    {
      |formData.conditions| >= 1
    }

    constructor ()
      ensures formData == EmptyForm() && Valid()
    {
      formData := EmptyForm();
    }

    /** Opening the drawer resets the form. */
    method Open()
      modifies this
      ensures formData == EmptyForm() && Valid()
    {
      formData := EmptyForm();
    }

    method SetQueryName(v: string)
      modifies this
      ensures formData == old(formData).(queryName := v)
      ensures old(Valid()) ==> Valid()
    {
      formData := formData.(queryName := v);
    }

    method SetDataSource(v: string)
      modifies this
      ensures formData == old(formData).(dataSource := v)
      ensures old(Valid()) ==> Valid()
    {
      formData := formData.(dataSource := v);
    }

    method ChooseTimeFrame(choice: string)
      modifies this
      ensures formData == SelectTimeFrame(old(formData), choice)
      ensures old(Valid()) ==> Valid()
    {
      var from := if choice != "custom" then "" else formData.customDateFrom;
      var to := if choice != "custom" then "" else formData.customDateTo;
      formData := formData.(timeFrame := choice, customDateFrom := from, customDateTo := to);
    }

    method SetCustomDateFrom(v: string)
      modifies this
      ensures formData == old(formData).(customDateFrom := v)
      ensures old(Valid()) ==> Valid()
    {
      formData := formData.(customDateFrom := v);
    }

    method SetCustomDateTo(v: string)
      modifies this
      ensures formData == old(formData).(customDateTo := v)
      ensures old(Valid()) ==> Valid()
    {
      formData := formData.(customDateTo := v);
    }

    method SetLogicalOperator(v: string)
      modifies this
      ensures formData == old(formData).(logicalOperator := v)
      ensures old(Valid()) ==> Valid()
    {
      formData := formData.(logicalOperator := v);
    }

    method AddRule()
      modifies this
      ensures formData == old(formData).(conditions := AddCondition(old(formData.conditions)))
      ensures Valid()
    {
      formData := formData.(conditions := formData.conditions + [DefaultCondition()]);
    }

    method RemoveRule(index: int)
      modifies this
      ensures formData == old(formData).(conditions := RemoveCondition(old(formData.conditions), index))
      ensures old(Valid()) ==> Valid()
    {
      if |formData.conditions| > 1 {
        formData := formData.(conditions := DropIndex(formData.conditions, index));
      }
    }

    method UpdateRule(index: int, key: ConditionKey, v: string)
      modifies this
      ensures formData == old(formData).(conditions := UpdateCondition(old(formData.conditions), index, key, v))
      ensures old(Valid()) ==> Valid()
    {
      formData := formData.(conditions := UpdateCondition(formData.conditions, index, key, v));
    }

    /** Submitting leaves the form as it is and returns what the callback
        receives; the drawer closes exactly when a record is returned. */
    method HandleSubmit(hasCallback: bool, now: int, iso: int -> string, id: string, created: string)
      returns (sent: Option<SubmittedQuery>)
      ensures sent == Submit(formData, hasCallback, now, iso, id, created)
    {
      sent := Submit(formData, hasCallback, now, iso, id, created);
    }
  }
}
