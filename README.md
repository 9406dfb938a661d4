# Log-reduction dashboard: a verified model

This project models the client-side behaviour of a log-volume-reduction and
SIEM-routing dashboard, a Next.js and React application. The application
has no server. Each page holds hard-coded sample data in React state, and
timers stand in for background work: a query "runs", a destination
"connects". The model covers the pages' and components' state and the rules
for what each shows:

- the data-flow chart: its source catalogue, the collapse and expand rule,
  the row layout, hover highlighting, and zoom and pan;
- the "add query" drawer and the query string it builds;
- the dehydrated-logs page: the query lifecycle, the dehydration step and
  the metric cards;
- the optimization page: applying a card, filtering by risk, counting risks
  and the risk-tag colours;
- the risk selector chips and their "(n)" count suffix;
- the source and destination drawers and the destination management page;
- the filter toggles;
- the pipeline and source status badges and the pipeline destinations
  column;
- the sidebar;
- the time-range filter of the traffic chart.

There is one Dafny module per source file, plus two shared modules. `Text`
holds JavaScript string behaviour: the `trim` whitespace set, `includes`,
`join`, ASCII `toLowerCase`, decimal rendering and `parseInt`. `Seqs` holds
sequence facts: subsequences, `filter` and counting. Pure computations are
functions. A component whose state hooks change is a class with one field
per hook. Each method ensures that the new state equals a pure transition
function of the old state. The properties are then proved as lemmas about
those functions.

The modelling conventions are:

- Zoom is kept in integer tenths (10 means 100%).
- Layout coordinates are reals. Mouse client coordinates are integers,
  although a browser can report fractional `clientX` and `clientY`, for
  example on a zoomed display; the pan arithmetic is the same either way.
- Dates on the traffic chart are day numbers counted from 1970-01-01.
- The clock, `Math.random`, `Date.now`, `toISOString`, `toLocaleString` and
  `parseFloat` become parameters of the operations that use them.
- Each `setTimeout` callback is its own method or function, applied as a
  separate step.

Where the design description and the code disagree, the model follows the
code. The chart's design description has a hub node that all sources feed,
pagination and 38 sources. The code instead has 43 direct
source-to-destination edges, 28 sources (of which 4 are shown while
collapsed), and a single expand/collapse toggle.

## Model

Plain definitions carry no contract of their own. They are specified by
the rows that cite them:

- `FlowChart.HiddenSourcesCount` and `FlowChart.ExpandNodeShown`
  (simple-flow-chart.tsx:68, 256): `CatalogueSizes`, `HandleExpandClick`.
- `FlowChart.VisibleConnections` (simple-flow-chart.tsx:125-127):
  `VisibleConnectionsExact`, `ChartVisibleConnections`.
- `FlowChart.RowY`, `FlowChart.SourceRowCount`, `FlowChart.SourcePosition`
  and `FlowChart.DestinationPosition` (simple-flow-chart.tsx:185-222):
  `RowStep`, `LayoutColumns`, `SourceRowsEvenlySpaced`,
  `ExpandNodeBelowSources`, `CollapsedSourceRow`, `DestinationRow`,
  `ColumnFitsIff`.
- `FlowChart.EdgeHighlighted` and `FlowChart.NodeConnected`
  (simple-flow-chart.tsx:233, 310-313): `NodeConnectedSymmetric`,
  `NothingHovered`.
- `FlowChart.InitialState`, `FlowChart.ContainerEnter`,
  `FlowChart.ContainerLeave`, `FlowChart.MouseDown`, `FlowChart.MouseMove`,
  `FlowChart.MouseUp`, `FlowChart.ResetView`, `FlowChart.HoverNode`,
  `FlowChart.UnhoverNode`, `FlowChart.ClickExpand`, `FlowChart.Apply` and
  `FlowChart.Run` (simple-flow-chart.tsx:20-27, 149-183, 276, 327-328,
  412-415): `ApplyKeepsZoomInRange`, `ZoomAlwaysInRange`,
  `InitialZoomInRange`, `DragTelescopes`, `PressDragRelease`,
  `MovesWithoutPanning`, and the `FlowChartView` methods, whose ensures
  name them.
- `QueryDrawer.AddCondition` (add-query-drawer.tsx:98-103):
  `AddConditionKeepsQuery`, `EditsAndGuard`, `QueryDrawerState.AddRule`.
- `QueryDrawer.CanSubmit` (add-query-drawer.tsx:151, 438): `Submit`,
  `EditsAndGuard`.
- `QueryDrawer.RelativeWindowMillis`, `QueryDrawer.LowerBound` and
  `QueryDrawer.UpperBound` (add-query-drawer.tsx:126-141):
  `TimeFrameClause`, `CustomClause`.
- `QueryDrawer.SourcePart`, `QueryDrawer.TimePart`,
  `QueryDrawer.ConditionsPart` and `QueryDrawer.QueryConditions`
  (add-query-drawer.tsx:157-164): `QueryString`, `KeptRuleInQuery`,
  `BlankRulesContributeNothing`, `EmptyCustomRangeLeavesDanglingAnd`.
- `Dehydrated.NewQuery` and `Dehydrated.CanCreate` (dehydrated/page.tsx:135-152):
  `CreateQuery`, `CreateMetrics`.
- `Dehydrated.IsActive` (dehydrated/page.tsx:230): `RunningQueries`,
  `CountPointUpdate`, `InitialQueryCounts`.
- `Dehydrated.SizeInGB`, `Dehydrated.StorageOf` and
  `Dehydrated.StorageRetrieved` (dehydrated/page.tsx:236-245):
  `GigabyteSize`, `MegabyteSize`, `StorageOfGigabyteRow`,
  `StorageOfMegabyteRow`, `StorageAppend`, `StoragePointUpdate`,
  `CompleteMetrics`, `InitialStorage`.
- `DestinationDrawer.StartConnecting`, `DestinationDrawer.FinishConnecting`,
  `DestinationDrawer.DismissSuccess` and `DestinationDrawer.CancelDisabled`
  (add-destination-drawer.tsx:113-125, 283): `EditPathSequence`.
  `DestinationDrawer.MaskedApiKey` (add-destination-drawer.tsx:104) is a
  constant: `NewDestinationRecord`.
- `DestinationPage.MenuOpensUpward` (destination/page.tsx:224):
  `LastTwoRowsOpenUpward`.
- `Optimization.Unapplied`, `Optimization.Shown` and
  `Optimization.IsKnownRisk` (optimization/page.tsx:236-257):
  `FilteredCards`, `SelectionShowsExactly`, `CountsCoverKnownRisks`.
- `SelectorChips.ChipRiskLevel` (selector-chips.tsx:14-15): `LevelOfText`,
  `CountedLabelLevel`, `RiskColors`.
- `SourceDrawer.AcceptsTag` (add-source-drawer.tsx:55): `AddTag`,
  `AddTagChangesIff`.
- `SourcePage.HasErrors` (source/page.tsx:83): `StatusBadge`,
  `ErrorTextShown`.
- `Sidebar.IsActive` (sidebar.tsx:159): `AtMostOneActive`,
  `ClickActivates`, `LogoutActivatesNone`.
- `TrafficChart.StartDay`, `TrafficChart.InWindow` and
  `TrafficChart.FilteredData` (ingress-egress-chart.tsx:79-91):
  `FilteredDataKeepsWindow`, `NarrowerWindowIsPart`, `WholeDataInWindow`,
  `NoDataInWindow`, `AprilWindows`.

The invariants `Filters.Consistent`, `SourceDrawer.ValidTags`,
`DestinationPage.UniqueKeys` and `Dehydrated.UniqueIds` are stated by the
lemmas that preserve them.

| member | source | states |
|---|---|---|
| FlowChart.AllSources | src/components/ui/simple-flow-chart.tsx:35-65 | the source catalogue has 28 entries, and its first four are the sources shown while collapsed |
| FlowChart.AllConnections | src/components/ui/simple-flow-chart.tsx:77-123 | there are 43 direct source-to-destination edges |
| FlowChart.CatalogueSizes | src/components/ui/simple-flow-chart.tsx:35-123 | 28 sources, 4 destinations and 43 edges; `hiddenSourcesCount` is 24, so the expand node is rendered |
| FlowChart.VisibleSources | src/components/ui/simple-flow-chart.tsx:67 | expanded, the visible sources are the whole catalogue; collapsed, they are its first min(n, 4); always a prefix of the catalogue |
| FlowChart.ConnectionSourcesKnown | src/components/ui/simple-flow-chart.tsx:35-123 | every one of the 43 edges starts at a source of the catalogue |
| FlowChart.ChartVisibleConnections | src/components/ui/simple-flow-chart.tsx:125-127 | for the chart as shown, collapsed or expanded, the visible edges keep their order and are exactly the edges whose source is visible |
| FlowChart.VisibleConnectionsExact | src/components/ui/simple-flow-chart.tsx:125-127 | the visible edges keep the catalogue order; an edge is visible iff its source is a visible source, given that every edge's source is in the catalogue; expanded, all edges are visible |
| FlowChart.NodeSpacing | src/components/ui/simple-flow-chart.tsx:198-200 | row spacing is always within [50, 90], including a column of zero rows, where the division gives Infinity |
| FlowChart.StartY | src/components/ui/simple-flow-chart.tsx:201-202 | the top row is never above y = 20 |
| FlowChart.FindIndex | src/components/ui/simple-flow-chart.tsx:191 | the result is -1 iff no node has the id; otherwise it is the first node with that id |
| FlowChart.RowStep | src/components/ui/simple-flow-chart.tsx:204-207 | consecutive row indices lie exactly one spacing apart |
| FlowChart.LayoutColumns | src/components/ui/simple-flow-chart.tsx:185-222 | in any disclosure state, sources are at x = 80 and destinations at x = 480, spacing is within [50, 90] and the top row is at y >= 20 |
| FlowChart.FindIndexOfUnique | src/components/ui/simple-flow-chart.tsx:191 | with distinct ids, the k-th node is found at index k |
| FlowChart.VisibleSourcesUnique | src/components/ui/simple-flow-chart.tsx:67 | the visible slice keeps the ids distinct |
| FlowChart.SourceRowsEvenlySpaced | src/components/ui/simple-flow-chart.tsx:189-207 | consecutive visible sources lie exactly one spacing apart |
| FlowChart.ExpandNodeBelowSources | src/components/ui/simple-flow-chart.tsx:193-198 | the expand node sits one spacing below the last visible source |
| FlowChart.FiveAndTwentyEightRows | src/components/ui/simple-flow-chart.tsx:198-202 | five rows have spacing 90 and start at y = 100; 28 rows have spacing 50 and start at y = 20 |
| FlowChart.CollapsedColumnOf28 | src/components/ui/simple-flow-chart.tsx:189-207 | for any 28-source catalogue: 5 rows while collapsed with the expand node at (80, 460), and 28 rows while expanded |
| FlowChart.ShownCatalogueRows | src/components/ui/simple-flow-chart.tsx:189-207 | the same row counts, spacings and expand-node position hold for this chart's catalogue |
| FlowChart.CollapsedSourceRow | src/components/ui/simple-flow-chart.tsx:189-207 | while collapsed, the k-th leading source is at (80, 100 + 90k) |
| FlowChart.LeadingSourceIds | src/components/ui/simple-flow-chart.tsx:36-39 | the four leading sources are windows, linux, aws and entra, with distinct ids |
| FlowChart.ShownCatalogueSourcePositions | src/components/ui/simple-flow-chart.tsx:189-207 | collapsed, the leading four sources are at y = 100, 190, 280 and 370 |
| FlowChart.DestinationRow | src/components/ui/simple-flow-chart.tsx:208-221 | for four destinations with distinct ids, the k-th is at (480, 145 + 90k) |
| FlowChart.DestinationIds | src/components/ui/simple-flow-chart.tsx:70-75 | the four destinations are splunk, datadog, elastic and sentinel, with distinct ids |
| FlowChart.DestinationPositions | src/components/ui/simple-flow-chart.tsx:208-221 | the destinations are at y = 145, 235, 325 and 415 |
| FlowChart.ColumnFitsIff | src/components/ui/simple-flow-chart.tsx:197-207 | the last 60-unit node of a column ends inside the 650-unit container iff the column has at most 12 rows, so the expanded source column overflows |
| FlowChart.NodeConnectedSymmetric | src/components/ui/simple-flow-chart.tsx:310-313 | being connected to the hovered node is symmetric, and a connected node is the far end of a highlighted visible edge |
| FlowChart.NothingHovered | src/components/ui/simple-flow-chart.tsx:233 | with nothing hovered, no edge is highlighted and no node is connected |
| FlowChart.ClampZoom | src/components/ui/simple-flow-chart.tsx:135 | the clamped zoom lies within [0.5, 2], and a zoom already in range is kept |
| FlowChart.Wheel | src/components/ui/simple-flow-chart.tsx:130-137 | the wheel acts only while the mouse hovers the container and the target is inside it; a positive deltaY zooms out one step, anything else zooms in, then the zoom is clamped |
| FlowChart.ApplyKeepsZoomInRange | src/components/ui/simple-flow-chart.tsx:129-183 | no single event moves the zoom out of [0.5, 2] |
| FlowChart.ZoomAlwaysInRange | src/components/ui/simple-flow-chart.tsx:129-183 | after any sequence of events, the zoom stays within [0.5, 2] |
| FlowChart.InitialZoomInRange | src/components/ui/simple-flow-chart.tsx:23 | starting from the initial 100% zoom, every event sequence keeps the zoom in range |
| FlowChart.DragTelescopes | src/components/ui/simple-flow-chart.tsx:164-174 | over any non-empty run of moves while panning, the offset grows by the last point minus the drag's previous point, and zoom and disclosure stay unchanged |
| FlowChart.PressDragRelease | src/components/ui/simple-flow-chart.tsx:157-178 | a left press, moves and a release pan by exactly the last point minus the press point and end panning |
| FlowChart.MovesWithoutPanning | src/components/ui/simple-flow-chart.tsx:164-165 | mouse moves while not panning change nothing |
| FlowChart.FlowChartView.constructor | src/components/ui/simple-flow-chart.tsx:20-27 | the initial hook values, with the zoom in range |
| FlowChart.FlowChartView.HandleWheel | src/components/ui/simple-flow-chart.tsx:130-137 | the new state is `Wheel` of the old state, and the zoom stays in range |
| FlowChart.FlowChartView.HandleContainerEnter | src/components/ui/simple-flow-chart.tsx:149-151 | hovering starts |
| FlowChart.FlowChartView.HandleContainerLeave | src/components/ui/simple-flow-chart.tsx:412-415 | leaving ends both hovering and panning |
| FlowChart.FlowChartView.HandleMouseDown | src/components/ui/simple-flow-chart.tsx:157-162 | only button 0 starts panning and records the press point |
| FlowChart.FlowChartView.HandleMouseMove | src/components/ui/simple-flow-chart.tsx:164-174 | while panning, the offset moves by the displacement and the last point is updated |
| FlowChart.FlowChartView.HandleMouseUp | src/components/ui/simple-flow-chart.tsx:176-178 | panning ends |
| FlowChart.FlowChartView.HandleResetView | src/components/ui/simple-flow-chart.tsx:180-183 | zoom returns to 100% and the pan offset to the origin |
| FlowChart.FlowChartView.HandleNodeEnter | src/components/ui/simple-flow-chart.tsx:327 | the node becomes the hovered node |
| FlowChart.FlowChartView.HandleNodeLeave | src/components/ui/simple-flow-chart.tsx:328 | nothing is hovered |
| FlowChart.FlowChartView.HandleExpandClick | src/components/ui/simple-flow-chart.tsx:256-276 | the disclosure flips, which can happen only while some source is hidden |
| QueryDrawer.RemoveCondition | src/components/ui/add-query-drawer.tsx:105-112 | the rule at an index in range is dropped only while there are more than one; otherwise the list is unchanged; a non-empty list stays non-empty |
| QueryDrawer.SetKey | src/components/ui/add-query-drawer.tsx:117-118 | the selected key gets the value and the other keys are unchanged |
| QueryDrawer.UpdateCondition | src/components/ui/add-query-drawer.tsx:114-121 | the length is kept; the rule at the index has one key set and every other rule is unchanged |
| QueryDrawer.SelectTimeFrame | src/components/ui/add-query-drawer.tsx:264-270 | the frame is set; a choice other than "custom" clears both dates; every other field is kept |
| QueryDrawer.TimeFrameClause | src/components/ui/add-query-drawer.tsx:123-146 | a relative frame gives `timestamp >= "<iso(now - window)>"`; an unknown frame gives the empty clause |
| QueryDrawer.CustomClause | src/components/ui/add-query-drawer.tsx:134-142 | for "custom": both dates give both bounds joined by AND, one date gives its own bound, no dates give the empty clause; the clause has a lower bound iff the from-date is set |
| Seqs.FindFirst | src/components/ui/add-query-drawer.tsx:162 | `Array.prototype.find`: a result satisfies the predicate and is in the list; there is none iff no element satisfies it |
| Seqs.FindFirstIsFirst | src/app/dehydrated/page.tsx:169 | `find` returns the element at the first index satisfying the predicate |
| QueryDrawer.FindSource | src/components/ui/add-query-drawer.tsx:162 | a found source is in the list with the id; none is found iff no entry has the id |
| QueryDrawer.SourceName | src/components/ui/add-query-drawer.tsx:164 | an unknown id stands for itself in `source="…"` |
| QueryDrawer.FindSourceFirst | src/components/ui/add-query-drawer.tsx:162 | `find` returns the first entry with the id |
| QueryDrawer.CatalogueEntries | src/components/ui/add-query-drawer.tsx:38-44 | five data sources with non-empty names and distinct ids |
| QueryDrawer.CatalogueSourceName | src/components/ui/add-query-drawer.tsx:162-164 | every catalogue id is shown in the query by its name |
| QueryDrawer.UnknownSourceName | src/components/ui/add-query-drawer.tsx:164 | an id outside the catalogue is shown as itself |
| QueryDrawer.ConditionText | src/components/ui/add-query-drawer.tsx:159 | a rule's text `field operator "value"` is never empty |
| QueryDrawer.KeptConditions | src/components/ui/add-query-drawer.tsx:157-158 | the kept rules keep their order and are exactly the rules with a non-blank value |
| QueryDrawer.ConditionTexts | src/components/ui/add-query-drawer.tsx:159 | one text per kept rule, in order |
| QueryDrawer.QueryString | src/components/ui/add-query-drawer.tsx:157-164 | the query always begins with `source="<name>"` |
| QueryDrawer.KeptRuleInQuery | src/components/ui/add-query-drawer.tsx:157-164 | every rule with a non-blank value appears in the query string |
| QueryDrawer.BlankRulesContributeNothing | src/components/ui/add-query-drawer.tsx:160-164 | when every value is blank, the query is the source part followed by the time part |
| QueryDrawer.EmptyCustomRangeLeavesDanglingAnd | src/components/ui/add-query-drawer.tsx:134-163 | a custom frame with no dates and no kept rules leaves `source="…" AND ` with nothing after it |
| QueryDrawer.AddConditionKeepsQuery | src/components/ui/add-query-drawer.tsx:98-103 | adding a rule leaves the query text unchanged, because the new rule's value is empty |
| QueryDrawer.Submit | src/components/ui/add-query-drawer.tsx:148-186 | a record is handed over iff the guard holds and a callback exists; it is Pending, with an em-dash result and the built query string |
| QueryDrawer.Preview | src/components/ui/add-query-drawer.tsx:394-410 | the preview is shown iff a data source is chosen |
| QueryDrawer.PreviewMatchesSubmit | src/components/ui/add-query-drawer.tsx:157-164 | for one clock reading, the preview shows the text a submit would send |
| QueryDrawer.PreviewMatchesSubmitWithoutClock | src/components/ui/add-query-drawer.tsx:123-164 | for a custom range or a frame with no relative window, the preview shows the text a submit sends, whatever the two clock readings |
| QueryDrawer.EditsAndGuard | src/components/ui/add-query-drawer.tsx:98-121 | adding a rule does not change whether submit is allowed; removing a rule never empties the list; an update keeps its length |
| QueryDrawer.QueryDrawerState.constructor | src/components/ui/add-query-drawer.tsx:28-36 | the form starts empty, with operator AND and one default rule |
| QueryDrawer.QueryDrawerState.Open | src/components/ui/add-query-drawer.tsx:74-84 | opening the drawer resets the form |
| QueryDrawer.QueryDrawerState.SetQueryName | src/components/ui/add-query-drawer.tsx:232 | only the name changes |
| QueryDrawer.QueryDrawerState.SetDataSource | src/components/ui/add-query-drawer.tsx:245 | only the data source changes |
| QueryDrawer.QueryDrawerState.ChooseTimeFrame | src/components/ui/add-query-drawer.tsx:264-270 | the form becomes `SelectTimeFrame` of the old form |
| QueryDrawer.QueryDrawerState.SetCustomDateFrom | src/components/ui/add-query-drawer.tsx:290 | only the from-date changes |
| QueryDrawer.QueryDrawerState.SetCustomDateTo | src/components/ui/add-query-drawer.tsx:301 | only the to-date changes |
| QueryDrawer.QueryDrawerState.SetLogicalOperator | src/components/ui/add-query-drawer.tsx:317 | only the operator changes |
| QueryDrawer.QueryDrawerState.AddRule | src/components/ui/add-query-drawer.tsx:98-103 | a default rule is appended |
| QueryDrawer.QueryDrawerState.RemoveRule | src/components/ui/add-query-drawer.tsx:105-112 | the rules become `RemoveCondition` of the old rules, and at least one rule remains |
| QueryDrawer.QueryDrawerState.UpdateRule | src/components/ui/add-query-drawer.tsx:114-121 | the rules become `UpdateCondition` of the old rules |
| QueryDrawer.QueryDrawerState.HandleSubmit | src/components/ui/add-query-drawer.tsx:148-186 | the record sent is `Submit` of the current form |
| Dehydrated.UpdateWhere | src/app/dehydrated/page.tsx:107-109 | rows with the id are updated, others are unchanged, and the length is kept |
| Dehydrated.UpdateWhereIsPointUpdate | src/app/dehydrated/page.tsx:107-109 | with unique ids, an update by id changes exactly one row |
| Dehydrated.UpdateWhereKeepsIds | src/app/dehydrated/page.tsx:122-129 | an id-preserving update keeps every id and the uniqueness of ids |
| Dehydrated.MarkRunning | src/app/dehydrated/page.tsx:106-110 | the row with the id becomes Running; other rows are unchanged |
| Dehydrated.MarkCompleted | src/app/dehydrated/page.tsx:113-130 | the row with the id becomes Completed with the picked mock result and size, whatever its status was; other rows are unchanged |
| Dehydrated.MarkDehydrating | src/app/dehydrated/page.tsx:173-178 | the row with the id gets dehydration status "dehydrating" |
| Dehydrated.MarkDehydrated | src/app/dehydrated/page.tsx:181-189 | the row with the id gets status "completed" and the destination type |
| Dehydrated.CreateQuery | src/app/dehydrated/page.tsx:133-154 | a blank name or query changes nothing; otherwise exactly one Pending row with an em-dash result is put in front |
| Dehydrated.FindDestination | src/app/dehydrated/page.tsx:169 | a found destination is in the list with the id; none is found iff no entry has it |
| Dehydrated.DehydrateRequest | src/app/dehydrated/page.tsx:166-189 | a dehydration is scheduled iff a query is selected, the destination is non-empty and the destination is known; it carries the query id and the destination's type |
| Dehydrated.DestinationTypes | src/app/dehydrated/page.tsx:96-101 | each of the four ids resolves to its type; with no destination or no query, nothing is scheduled |
| Dehydrated.RunningQueries | src/app/dehydrated/page.tsx:230 | the running count never exceeds the number of rows |
| Dehydrated.StorageAppend | src/app/dehydrated/page.tsx:236-244 | storage is additive over concatenated lists |
| Dehydrated.StoragePointUpdate | src/app/dehydrated/page.tsx:236-244 | replacing one row changes the storage by the difference of the two rows' shares |
| Dehydrated.CountPointUpdate | src/app/dehydrated/page.tsx:230 | replacing one row changes the running count by the difference of the two rows' activity |
| Dehydrated.CreateMetrics | src/app/dehydrated/page.tsx:133-154 | creating a query adds one row and one running query, and no storage |
| Dehydrated.CompleteMetrics | src/app/dehydrated/page.tsx:113-130 | completing a row removes it from the running count if it was active and replaces its share of the storage with the mock size |
| Dehydrated.CreatedQueryLifecycle | src/app/dehydrated/page.tsx:104-159 | given a fresh id, after creation and both timer steps the new front row is Completed with the picked result, the other rows are as before, and the running count is back where it was |
| Dehydrated.CountOfFive | src/app/dehydrated/page.tsx:230 | helper for `InitialQueryCounts`: the running count of five rows is the sum of each row's activity |
| Dehydrated.StorageOfFive | src/app/dehydrated/page.tsx:236-244 | helper for `InitialStorage`: the storage of five rows is the sum of each row's share |
| Dehydrated.GigabyteSize | src/app/dehydrated/page.tsx:240-241 | a "GB" size counts its parsed number |
| Dehydrated.MegabyteSize | src/app/dehydrated/page.tsx:240-242 | an "MB" size counts its parsed number divided by 1024 |
| Dehydrated.InitialQueryCounts | src/app/dehydrated/page.tsx:29-87 | the initial list has five rows, of which one is running |
| Dehydrated.InitialRowSizes | src/app/dehydrated/page.tsx:29-87 | the statuses and result sizes of the five initial rows |
| Dehydrated.StorageOfSizedRows | src/app/dehydrated/page.tsx:236-244 | for any five rows of the initial shape, storage is 2.4 GB plus 892 MB and 445 MB over 1024 |
| Dehydrated.StorageOfGigabyteRow | src/app/dehydrated/page.tsx:237-241 | a completed "GB" row contributes its number |
| Dehydrated.StorageOfMegabyteRow | src/app/dehydrated/page.tsx:237-242 | a completed "MB" row contributes its number over 1024 |
| Dehydrated.InitialStorage | src/app/dehydrated/page.tsx:29-87 | the initial storage card sums the three completed rows |
| Dehydrated.DehydratedPage.constructor | src/app/dehydrated/page.tsx:25-94 | the initial rows, closed modals, no selection and an empty form |
| Dehydrated.DehydratedPage.OpenCreateModal | src/app/dehydrated/page.tsx:317 | only the create modal opens |
| Dehydrated.DehydratedPage.EditForm | src/app/dehydrated/page.tsx:456-470 | only the form changes |
| Dehydrated.DehydratedPage.HandleCreateQuery | src/app/dehydrated/page.tsx:133-159 | the rows become `CreateQuery` of the old rows; on success the form clears, the modal closes and the id's progress steps are scheduled |
| Dehydrated.DehydratedPage.ProgressToRunning | src/app/dehydrated/page.tsx:106-110 | the rows become `MarkRunning` of the old rows |
| Dehydrated.DehydratedPage.ProgressToCompleted | src/app/dehydrated/page.tsx:113-130 | the rows become `MarkCompleted` of the old rows |
| Dehydrated.DehydratedPage.HandleViewResults | src/app/dehydrated/page.tsx:161-164 | the query is selected and the results modal opens |
| Dehydrated.DehydratedPage.ChooseDestination | src/app/dehydrated/page.tsx:700 | only the chosen destination changes |
| Dehydrated.DehydratedPage.HandleDehydrate | src/app/dehydrated/page.tsx:166-193 | the request is `DehydrateRequest` of the selection; if refused, nothing changes; otherwise the row is marked dehydrating, the modal closes and the choice is cleared |
| Dehydrated.DehydratedPage.DehydrationFinished | src/app/dehydrated/page.tsx:181-189 | the rows become `MarkDehydrated` of the old rows |
| Dehydrated.DehydratedPage.DehydrateEnabled | src/app/dehydrated/page.tsx:712 | the Dehydrate button is enabled iff a destination is chosen |
| Optimization.LowRiskCard | src/app/optimization/page.tsx:35-223 | the cards built by this helper are "Low risk" |
| Optimization.OptimizationCards | src/app/optimization/page.tsx:35-223 | there are eleven cards |
| Optimization.Apply | src/app/optimization/page.tsx:227 | the card id joins the applied set and nothing else does |
| Optimization.ApplyIdempotent | src/app/optimization/page.tsx:227 | applying the same card twice is the same as applying it once |
| Optimization.AppliedMessage | src/app/optimization/page.tsx:231 | the toast text begins with the card title |
| Optimization.FilteredCards | src/app/optimization/page.tsx:236-243 | the shown cards keep their order, none is applied, and with a selection each has a selected risk |
| Optimization.NoSelectionShowsUnapplied | src/app/optimization/page.tsx:237-240 | with no selection, exactly the unapplied cards are shown; all of them when none is applied |
| Optimization.SelectionShowsExactly | src/app/optimization/page.tsx:237-242 | with a selection, exactly the unapplied cards whose risk is selected are shown |
| Optimization.ApplyHidesOnlyThatCard | src/app/optimization/page.tsx:225-243 | applying a card removes exactly that card from the shown list |
| Optimization.CountRisk | src/app/optimization/page.tsx:253-257 | a count never exceeds the number of cards |
| Optimization.ComputeRiskCounts | src/app/optimization/page.tsx:246-260 | the loop yields, for each of the three known labels, the number of cards with that risk |
| Optimization.CountsCoverKnownRisks | src/app/optimization/page.tsx:253-257 | the three counts add up to exactly the number of cards whose label is one of the three known labels |
| Optimization.RiskOptions | src/app/optimization/page.tsx:263-269 | the three options are each label followed by " (<count>)" |
| Optimization.RiskOptionsStripToLabels | src/app/optimization/page.tsx:263-269 | stripping the chip counts from the options gives back the three bare labels |
| Optimization.StripLowOption | src/components/ui/selector-chips.tsx:58 | "Low risk (n)" strips to "Low risk" for every n |
| Optimization.StripMediumOption | src/components/ui/selector-chips.tsx:58 | "Medium risk (n)" strips to "Medium risk" for every n |
| Optimization.StripHighOption | src/components/ui/selector-chips.tsx:58 | "High risk (n)" strips to "High risk" for every n |
| Optimization.CountUniform | src/app/optimization/page.tsx:253-257 | if every card has one risk, its count is all the cards and every other risk counts zero |
| Optimization.CatalogueCounts | src/app/optimization/page.tsx:35-260 | the catalogue counts 10 low, 1 medium and 0 high |
| Optimization.RiskTagColors | src/app/optimization/page.tsx:271-281 | the tag is green, orange or red as the lower-cased risk first contains "low", "medium" or "high", and neutral otherwise |
| Optimization.LowLabelLevel | src/app/optimization/page.tsx:272-274 | the "Low risk" label reads as the low level |
| Optimization.MediumLabelLevel | src/app/optimization/page.tsx:272-276 | the "Medium risk" label reads as the medium level |
| Optimization.HighLabelLevel | src/app/optimization/page.tsx:272-278 | the "High risk" label reads as the high level |
| Optimization.LowChipAndTagAgree | src/app/optimization/page.tsx:263-281 | the low chip and the low card tag both read as the low level (green) |
| Optimization.MediumChipAndTagAgree | src/app/optimization/page.tsx:263-281 | the medium chip and the medium card tag both read as the medium level (orange) |
| Optimization.HighChipAndTagAgree | src/app/optimization/page.tsx:263-281 | the high chip and the high card tag both read as the high level (red) |
| Optimization.OptimizationPage.constructor | src/app/optimization/page.tsx:32-33 | no risk is selected and no card is applied |
| Optimization.OptimizationPage.VisibleCards | src/app/optimization/page.tsx:236-243 | the shown cards keep the catalogue order |
| Optimization.OptimizationPage.SetSelectedRisks | src/app/optimization/page.tsx:349-352 | the chips' base labels become the selection |
| Optimization.OptimizationPage.HandleApplyOptimization | src/app/optimization/page.tsx:225-234 | the card joins the applied set, disappears from the shown list, and the toast names it |
| Optimization.OptimizationPage.RiskChipOptions | src/app/optimization/page.tsx:246-269 | the chip options are the labels with counts 10, 1 and 0 |
| SelectorChips.DigitsBefore | src/components/ui/selector-chips.tsx:14 | the maximal run of digits ending at a position |
| SelectorChips.SpacesBefore | src/components/ui/selector-chips.tsx:14 | the maximal run of whitespace ending at a position |
| SelectorChips.StripCount | src/components/ui/selector-chips.tsx:14 | `replace(/\s*\(\d+\)$/, '')`: the result is the prefix before the leftmost position where the pattern matches to the end, or the whole text if it matches nowhere |
| SelectorChips.NoMatchWithoutParen | src/components/ui/selector-chips.tsx:14 | a text that does not end in a digit followed by ")" has no match |
| SelectorChips.StripWithoutSuffix | src/components/ui/selector-chips.tsx:14 | a text without a match is kept as it is |
| SelectorChips.StripCountOfLabel | src/components/ui/selector-chips.tsx:50 | "<label> (<n>)" strips back to the label when the label does not end in whitespace |
| SelectorChips.StripOnceOnly | src/components/ui/selector-chips.tsx:14 | only the last count is removed: "a (1) (2)" becomes "a (1)" |
| SelectorChips.Toggle | src/components/ui/selector-chips.tsx:52-54 | a selected option is removed everywhere; an unselected one is appended |
| SelectorChips.ToggleNoDuplicates | src/components/ui/selector-chips.tsx:52-54 | the toggle keeps the selection free of duplicates |
| SelectorChips.ToggleMembership | src/components/ui/selector-chips.tsx:52-54 | after a toggle, the option is selected iff it was not before, and other options are unaffected |
| SelectorChips.ToggleTwiceAbsent | src/components/ui/selector-chips.tsx:52-54 | toggling an unselected option twice restores the selection |
| SelectorChips.ToggleTwicePresent | src/components/ui/selector-chips.tsx:52-54 | toggling a selected option twice moves it to the end |
| SelectorChips.BaseSelection | src/components/ui/selector-chips.tsx:58 | each selected option is reported with its count stripped, in order |
| SelectorChips.LevelOfText | src/components/ui/selector-chips.tsx:17-35 | low iff the text contains "low"; medium iff not low and it contains "medium"; high iff neither and it contains "high" |
| SelectorChips.RiskColors | src/components/ui/selector-chips.tsx:12-43 | a selected chip always has white text, on green (#22c55e) for low, orange (#f97316) for medium, red (#ef4444) for high and indigo (#6366f1) for any other label |
| SelectorChips.VariantsDiffer | src/components/ui/selector-chips.tsx:12-43 | selected and unselected chips differ in background and border; a high chip's unselected text colour is its selected border |
| SelectorChips.CountedLabelLevel | src/components/ui/selector-chips.tsx:14-15 | a counted label has the level of its lower-cased label |
| SelectorChips.ChipGroup.constructor | src/components/ui/selector-chips.tsx:46 | nothing is selected |
| SelectorChips.ChipGroup.ToggleChip | src/components/ui/selector-chips.tsx:48-60 | the selection becomes `Toggle` of the old one, the base labels are emitted, and there are still no duplicates |
| SelectorChips.ChipGroup.IsSelected | src/components/ui/selector-chips.tsx:65 | a chip is shown selected iff its option is in the selection |
| SourceDrawer.InitialSourceForm | src/components/ui/add-source-drawer.tsx:13-25 | the protocol is "syslog" and the tags, the pending tag and the name are empty |
| SourceDrawer.SetField | src/components/ui/add-source-drawer.tsx:47-52 | only the named field changes |
| SourceDrawer.FormExtensional | src/components/ui/add-source-drawer.tsx:13-25 | two forms with equal fields and tags are equal |
| SourceDrawer.SetFieldToItself | src/components/ui/add-source-drawer.tsx:47-52 | writing back a field's own value changes nothing |
| SourceDrawer.AddTag | src/components/ui/add-source-drawer.tsx:54-62 | a non-blank pending tag not yet present is appended trimmed and the input clears; otherwise nothing changes |
| SourceDrawer.TagUpdateKeepsFields | src/components/ui/add-source-drawer.tsx:56-60 | changing only the tags and the pending tag keeps every other field |
| SourceDrawer.AddTagChangesIff | src/components/ui/add-source-drawer.tsx:55 | the form changes iff the tag is accepted |
| SourceDrawer.RemoveTag | src/components/ui/add-source-drawer.tsx:64-69 | every copy of the tag goes, the others stay in order, and the fields are unchanged |
| SourceDrawer.AddTagKeepsValid | src/components/ui/add-source-drawer.tsx:54-62 | adding keeps the tags distinct, non-empty and trimmed |
| SourceDrawer.AppendTrimmedTag | src/components/ui/add-source-drawer.tsx:58 | appending a non-empty trimmed tag keeps every tag non-empty and trimmed |
| SourceDrawer.RemoveTagKeepsValid | src/components/ui/add-source-drawer.tsx:64-69 | removing keeps the tags distinct, non-empty and trimmed |
| SourceDrawer.AddThenRemoveTag | src/components/ui/add-source-drawer.tsx:54-69 | removing a tag that was just added restores the tag list |
| SourceDrawer.TrimmedDuplicateRejected | src/components/ui/add-source-drawer.tsx:55 | a second entry that trims to an existing tag is rejected |
| SourceDrawer.SourceDrawerState.constructor | src/components/ui/add-source-drawer.tsx:13-25 | the initial form, with valid tags |
| SourceDrawer.SourceDrawerState.HandleInputChange | src/components/ui/add-source-drawer.tsx:47-52 | the form becomes `SetField` of the old form |
| SourceDrawer.SourceDrawerState.HandleAddTag | src/components/ui/add-source-drawer.tsx:54-62 | the form becomes `AddTag` of the old form, and the tags stay valid |
| SourceDrawer.SourceDrawerState.HandleTagKeyPress | src/components/ui/add-source-drawer.tsx:279 | Enter adds the tag; any other key changes nothing |
| SourceDrawer.SourceDrawerState.HandleRemoveTag | src/components/ui/add-source-drawer.tsx:303 | the form becomes `RemoveTag` of the old form |
| SourceDrawer.SourceDrawerState.HandleSubmit | src/components/ui/add-source-drawer.tsx:71-76 | the form is logged and the drawer asks to close |
| DestinationDrawer.DefaultForm | src/components/ui/add-destination-drawer.tsx:31-38 | Splunk, cost 5, port 8089 and empty text fields |
| DestinationDrawer.OrDefault | src/components/ui/add-destination-drawer.tsx:54-59 | `value \|\| fallback`: an absent or empty value falls back |
| DestinationDrawer.RemoveFirstDollar | src/components/ui/add-destination-drawer.tsx:56 | `replace('$', '')` removes exactly one "$" when there is one |
| DestinationDrawer.PrefillCost | src/components/ui/add-destination-drawer.tsx:56 | the prefilled cost is never empty |
| DestinationDrawer.Prefill | src/components/ui/add-destination-drawer.tsx:52-60 | each field is taken from the edit data or falls back to its default |
| DestinationDrawer.FormForProps | src/components/ui/add-destination-drawer.tsx:51-71 | in edit mode with data the form is prefilled; otherwise it is the default form |
| DestinationDrawer.CostRoundTrip | src/components/ui/add-destination-drawer.tsx:56 | a "$"-prefixed cost prefills as the bare cost, or as 5 when it is empty |
| DestinationDrawer.CostWithoutDollar | src/components/ui/add-destination-drawer.tsx:56 | a cost without "$" prefills unchanged, or as 5 when empty or absent |
| DestinationDrawer.SetField | src/components/ui/add-destination-drawer.tsx:86-91 | only the named field changes |
| DestinationDrawer.NewDestinationRecord | src/components/ui/add-destination-drawer.tsx:98-106 | the new record is connecting, with a masked key, today's sync date and the cost prefixed with "$" |
| DestinationDrawer.EditDataOf | src/app/destination/page.tsx:257-263 | a listed record handed to the drawer has no port |
| DestinationDrawer.AddThenEditPrefill | src/components/ui/add-destination-drawer.tsx:52-106 | editing a just-added destination prefills the submitted form, except for the masked key and the default port |
| DestinationDrawer.SubmitDisabled | src/components/ui/add-destination-drawer.tsx:289 | submit is disabled iff connecting or showing success |
| DestinationDrawer.EditPathSequence | src/components/ui/add-destination-drawer.tsx:113-125 | connecting, then success, then idle again; submit is disabled throughout, and cancel only while connecting |
| DestinationDrawer.DestinationDrawerState.constructor | src/components/ui/add-destination-drawer.tsx:29-38 | the default form, not connecting and no success |
| DestinationDrawer.DestinationDrawerState.SyncWithProps | src/components/ui/add-destination-drawer.tsx:51-71 | the form becomes `FormForProps`, and the flags are kept |
| DestinationDrawer.DestinationDrawerState.HandleInputChange | src/components/ui/add-destination-drawer.tsx:86-91 | the form becomes `SetField` of the old form |
| DestinationDrawer.DestinationDrawerState.HandleSubmit | src/components/ui/add-destination-drawer.tsx:93-127 | in add mode with a receiver, the new record is handed over and the drawer closes; otherwise connecting starts |
| DestinationDrawer.DestinationDrawerState.ConnectionFinished | src/components/ui/add-destination-drawer.tsx:118-119 | connecting ends in success |
| DestinationDrawer.DestinationDrawerState.SuccessDismissed | src/components/ui/add-destination-drawer.tsx:122-125 | success clears and the drawer asks to close |
| DestinationPage.InitialRecords | src/app/destination/page.tsx:10-38 | three sample destinations |
| DestinationPage.RecordsOf | src/app/destination/page.tsx:44 | the shown records are the rows' records, in order |
| DestinationPage.ConfirmedRows | src/app/destination/page.tsx:62-68 | with a recorded deletion, the row at its index is dropped; otherwise nothing changes |
| DestinationPage.ConfirmRemovesRecordedIndex | src/app/destination/page.tsx:56-68 | confirming removes the row whose index was recorded: one row fewer, with the rows before and after kept |
| DestinationPage.ConfirmKeepsOthers | src/app/destination/page.tsx:62-68 | with unique keys, the deleted row's key is gone and every other row remains |
| DestinationPage.ConfirmKeepsKeys | src/app/destination/page.tsx:62-68 | deleting keeps the keys unique and below the next key |
| DestinationPage.Activate | src/app/destination/page.tsx:92-100 | the row with the key becomes active; other rows are unchanged |
| DestinationPage.AddThenActivate | src/app/destination/page.tsx:87-100 | after adding, the timer activates exactly the new row |
| DestinationPage.ActivateAbsentRow | src/app/destination/page.tsx:92-100 | activating a removed row changes nothing |
| DestinationPage.AppendKeepsUniqueKeys | src/app/destination/page.tsx:89 | appending with the next key keeps the keys unique |
| DestinationPage.ToggleMenu | src/app/destination/page.tsx:211 | clicking the open row's menu closes it; any other click opens that row's menu |
| DestinationPage.ToggleMenuTwice | src/app/destination/page.tsx:211 | two clicks on the same row leave the menu closed |
| DestinationPage.LastTwoRowsOpenUpward | src/app/destination/page.tsx:224 | the menu opens upward iff its row is one of the last two, so with two rows or fewer it always opens upward |
| DestinationPage.StatusBadge | src/app/destination/page.tsx:103-133 | a badge exists iff the status is active, connecting, error or inactive, and its caption is the status |
| DestinationPage.AddedRowBadges | src/app/destination/page.tsx:87-133 | an added row first shows the blue "connecting" badge, and "active" after the timer |
| DestinationPage.DestinationManagement.constructor | src/app/destination/page.tsx:41-47 | the sample rows, a closed drawer and dialog, and add mode |
| DestinationPage.DestinationManagement.HandleEditDestination | src/app/destination/page.tsx:49-54 | the drawer opens in edit mode on the destination, and the menu closes |
| DestinationPage.DestinationManagement.HandleDeleteDestination | src/app/destination/page.tsx:56-60 | the index and name are recorded, the dialog opens and the menu closes |
| DestinationPage.DestinationManagement.ConfirmDelete | src/app/destination/page.tsx:62-68 | the rows become `ConfirmedRows`, the dialog closes, and the keys stay valid |
| DestinationPage.DestinationManagement.CancelDelete | src/app/destination/page.tsx:70-73 | the dialog closes and the rows are unchanged |
| DestinationPage.DestinationManagement.HandleAddDestination | src/app/destination/page.tsx:75-79 | the drawer opens in add mode with no edit data |
| DestinationPage.DestinationManagement.HandleCloseDrawer | src/app/destination/page.tsx:81-85 | the drawer and the menu close and the edit data clears |
| DestinationPage.DestinationManagement.HandleAddNewDestination | src/app/destination/page.tsx:87-101 | the record is appended under a fresh key, which is returned for the timer |
| DestinationPage.DestinationManagement.ActivateDestination | src/app/destination/page.tsx:92-100 | the rows become `Activate` of the old rows for that key |
| DestinationPage.DestinationManagement.HandleMenuButton | src/app/destination/page.tsx:211 | the open menu becomes `ToggleMenu` of the old one |
| DestinationPage.DestinationManagement.HandleMenuOverlay | src/app/destination/page.tsx:221 | the menu closes |
| DestinationPage.DestinationManagement.DialogName | src/app/destination/page.tsx:270 | the dialog names the recorded destination, or nothing |
| Filters.InitialFilters | src/app/filters/page.tsx:21-49 | three sample filters |
| Filters.Flip | src/app/filters/page.tsx:54 | the switch flips, the status follows the old switch, and the other fields are kept |
| Filters.ToggleFilter | src/app/filters/page.tsx:51-57 | filters with the id flip in place, and all others are unchanged |
| Filters.FlipIsConsistent | src/app/filters/page.tsx:54 | after a flip, status and switch always agree |
| Filters.FlipTwice | src/app/filters/page.tsx:54 | flipping twice restores a consistent filter, and repairs the status of an inconsistent one |
| Filters.InitialConsistent | src/app/filters/page.tsx:21-49 | every sample filter's status agrees with its switch |
| Filters.ToggleKeepsConsistent | src/app/filters/page.tsx:51-57 | toggling keeps every status in agreement with its switch |
| Filters.ToggleTwice | src/app/filters/page.tsx:51-57 | toggling the same id twice restores a consistent list |
| Filters.ToggleUnknownId | src/app/filters/page.tsx:51-57 | an id that no filter has changes nothing |
| Filters.ToggleSecondInitial | src/app/filters/page.tsx:21-57 | toggling filter "2" turns off that filter alone |
| Filters.FiltersManagement.constructor | src/app/filters/page.tsx:21-49 | the sample filters, all consistent |
| Filters.FiltersManagement.ToggleFilterSwitch | src/app/filters/page.tsx:154 | the list becomes `ToggleFilter` of the old list, and a consistent list stays consistent |
| Pipeline.PipelineData | src/app/pipeline/page.tsx:7-50 | six sample pipelines |
| Pipeline.StatusBadge | src/app/pipeline/page.tsx:55-78 | active, error and deactivated each get their caption, icon and colour; a badge exists iff the status is one of them |
| Pipeline.EveryPipelineHasBadge | src/app/pipeline/page.tsx:7-78 | every sample pipeline shows a badge |
| Pipeline.FormatDestinations | src/app/pipeline/page.tsx:80-88 | one destination is shown as it is and two are joined by ", "; the text always begins with the first destination |
| Pipeline.FormatMany | src/app/pipeline/page.tsx:86 | three or more give "<first>, +<n-1> more" |
| Pipeline.FormatManyDependsOnFirstAndLength | src/app/pipeline/page.tsx:86 | from three destinations on, only the first one and the count matter |
| Pipeline.FormatEmpty | src/app/pipeline/page.tsx:86 | an empty list gives "undefined, +-1 more" |
| Pipeline.FormatShowsAllOfShortList | src/app/pipeline/page.tsx:81-84 | with one or two destinations, each one appears in the text |
| Pipeline.TableShowsAllDestinations | src/app/pipeline/page.tsx:7-88 | every sample pipeline's column shows all of its destinations |
| SourcePage.SourceRows | src/app/source/page.tsx:9-70 | five sample sources |
| SourcePage.StatusBadge | src/app/source/page.tsx:75-111 | each of the four branches as the code orders them, including the error text below the badge; a badge exists iff the status is active, error or inactive |
| SourcePage.CaptionIsStatus | src/app/source/page.tsx:75-111 | the caption is always the status itself |
| SourcePage.ErrorTextShown | src/app/source/page.tsx:83-109 | an inactive source never shows errors, an active one shows them iff it has any, and an error one always shows its error text |
| SourcePage.TableBadges | src/app/source/page.tsx:9-111 | the first row shows a plain badge, the second its "2 errors", and the last no error text |
| Sidebar.NavigationItems | src/components/ui/sidebar.tsx:35-42 | six navigation items |
| Sidebar.InitialFlags | src/components/ui/sidebar.tsx:45-47 | closed, not collapsed, on the dashboard |
| Sidebar.Resize | src/components/ui/sidebar.tsx:51-57 | the sidebar is open iff the width is at least 768 |
| Sidebar.ToggleSidebar | src/components/ui/sidebar.tsx:64 | only the open flag flips |
| Sidebar.ToggleCollapse | src/components/ui/sidebar.tsx:65 | only the collapsed flag flips |
| Sidebar.ItemClick | src/components/ui/sidebar.tsx:67-72 | the item becomes active, and a narrow window closes the sidebar |
| Sidebar.TogglesAreInvolutions | src/components/ui/sidebar.tsx:64-65 | each toggle undoes itself |
| Sidebar.ResizeIdempotent | src/components/ui/sidebar.tsx:51-57 | a second resize to the same width changes nothing |
| Sidebar.MountedSidebar | src/components/ui/sidebar.tsx:45-59 | after mounting, the sidebar is open iff on a desktop, not collapsed, on the dashboard |
| Sidebar.NavigationIdsDistinct | src/components/ui/sidebar.tsx:35-42 | the item ids are distinct |
| Sidebar.AtMostOneActive | src/components/ui/sidebar.tsx:159 | at most one item is highlighted |
| Sidebar.ClickActivates | src/components/ui/sidebar.tsx:164 | clicking an item highlights it |
| Sidebar.LogoutActivatesNone | src/components/ui/sidebar.tsx:262 | after logout, no item is highlighted |
| Sidebar.CollapsedBadge | src/components/ui/sidebar.tsx:205-208 | a badge whose integer value is above 9 shows "9+"; any other badge is shown as it is |
| Sidebar.CollapsedBadgeOfCount | src/components/ui/sidebar.tsx:208 | a decimal count shows as "9+" from 10 on, and as itself up to 9 |
| Sidebar.SidebarState.constructor | src/components/ui/sidebar.tsx:45-47 | the initial flags |
| Sidebar.SidebarState.HandleResize | src/components/ui/sidebar.tsx:51-57 | the flags become `Resize` of the old flags |
| Sidebar.SidebarState.HandleToggleSidebar | src/components/ui/sidebar.tsx:64 | the flags become `ToggleSidebar` of the old flags |
| Sidebar.SidebarState.HandleToggleCollapse | src/components/ui/sidebar.tsx:65 | the flags become `ToggleCollapse` of the old flags |
| Sidebar.SidebarState.HandleItemClick | src/components/ui/sidebar.tsx:67-72 | the flags become `ItemClick` of the old flags |
| TrafficChart.IngressVolumes | src/components/ui/ingress-egress-chart.tsx:29-60 | thirty daily ingress volumes |
| TrafficChart.EgressVolumes | src/components/ui/ingress-egress-chart.tsx:29-60 | thirty daily egress volumes |
| TrafficChart.ChartData | src/components/ui/ingress-egress-chart.tsx:29-60 | one point per day from 2024-04-01, in date order |
| TrafficChart.WindowDays | src/components/ui/ingress-egress-chart.tsx:82-87 | "30d" gives 30, "7d" gives 7, and anything else gives 90 |
| TrafficChart.FilteredDataKeepsWindow | src/components/ui/ingress-egress-chart.tsx:79-91 | a point is kept iff it lies on or after the window start, and the kept points keep their order |
| TrafficChart.NarrowerWindowIsPart | src/components/ui/ingress-egress-chart.tsx:79-91 | a narrower window keeps an order-preserving part of what a wider one keeps |
| TrafficChart.WholeDataInWindow | src/components/ui/ingress-egress-chart.tsx:88-90 | when every point is in the window, nothing is dropped |
| TrafficChart.NoDataInWindow | src/components/ui/ingress-egress-chart.tsx:88-90 | when no point is in the window, nothing is kept |
| TrafficChart.ChartDataInApril | src/components/ui/ingress-egress-chart.tsx:29-60 | every point falls in April 2024 |
| TrafficChart.AprilWindows | src/components/ui/ingress-egress-chart.tsx:77-91 | April data is shown whole for the default 90-day range and not at all for 30 or 7 days |
| TrafficChart.ChartDataWindows | src/components/ui/ingress-egress-chart.tsx:77-91 | the chart shows its thirty points by default and none for "30d" or "7d" |

## Behaviour modelled as the code has it

These edge cases follow the code, not a tidier reading of it:

- An empty destination list renders as "undefined, +-1 more" (`Pipeline.FormatEmpty`).
- A custom time frame with neither date set leaves a trailing " AND " in
  the query (`QueryDrawer.EmptyCustomRangeLeavesDanglingAnd`).
- The completion timer marks a row Completed whatever its status was
  (`Dehydrated.MarkCompleted`).
- Toggling a filter twice restores it only while its status agrees with its
  switch; the toggle itself keeps that agreement (`Filters.FlipTwice`,
  `Filters.ToggleKeepsConsistent`).
- The upward-menu rule uses `index >= length - 2`.
- The collapsed sidebar badge compares `parseInt` with 9, so a badge that is
  not a number is shown as it is.

## Left out

- QueryDrawer.PreviewMatchesSubmit: the preview and the submit compute the time
  clause separately, and each reads `new Date()`. For the four relative
  frames, the submitted `timestamp >= …` therefore differs from the text the
  preview showed, by the time between the two reads. The lemma holds for one
  shared clock reading. `PreviewMatchesSubmitWithoutClock` covers the frames
  where no clock is read.
- Rendering is not modelled: JSX markup, SVG paths, icons, CSS classes
  beyond the badge and chip colours, animations and the `motion` props.
- The `document.body.style.overflow` effects of the drawers and the wheel
  listener's `preventDefault` are not modelled. They touch the DOM, and every
  other drawer state is modelled.
- Timers (`setTimeout`) are not modelled as time. Each callback is a
  separate operation that the caller applies later. The 2 s, 3 s and 6 s
  delays, the ordering of two pending timers, and a timer firing after its
  row was deleted are covered only in part: `Dehydrated.MarkRunning` and
  `MarkCompleted` are total, and `DestinationPage.ActivateAbsentRow` covers
  a deleted row.
- `Math.random` (the mock result pick), `Date.now`, `new Date()`,
  `toISOString`, `toLocaleString` and `toLocaleDateString` are parameters.
- `toast`, `console.log` and `router.push` are not modelled; they have no
  effect on state. `HandleApplyOptimization` returns the toast's description.
- `Dehydrated.StorageRetrieved`: `parseFloat` is a parameter and reals
  stand in for JavaScript numbers. The final `toFixed(1) + " GB"` rendering
  and floating-point rounding are not modelled.
- The "Completed Today" metric is not modelled, because it compares
  clock-derived date strings.
- `FlowChart.Wheel`: zoom works in exact tenths, so the floating-point drift
  of repeated ±0.1 steps is not modelled.
- `TrafficChart.FilteredData`: dates are UTC day numbers. Time-zone effects
  of `new Date("YYYY-MM-DD")` and `setDate` are not modelled.
- `Sidebar.CollapsedBadge`: `parseInt` is modelled as an optional sign
  followed by ASCII digits after leading whitespace, without radix prefixes.
  None of the sidebar items has a badge.
- `Text.ToLower` lower-cases ASCII letters only.
- Object identity of destination rows (`dest === newDestination`) is modelled
  with a key per row. React's batching of state updates and stale closures
  are not modelled; each handler reads the state current when it runs.
- The source page's drawer flag and the filter page's other fields are
  display state only.
- Search inputs, the results modal's display-only fields, the dropdown-menu
  demo and the style guide are not modelled.
- The flow-chart test file describes a different chart, with a hub node,
  "+34 others" and pagination. It is not part of this model.
