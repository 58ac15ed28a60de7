/**
 * The bar chart widget's state machine
 * (client/components/barChart/barChart.directive.js): choosing the dataset,
 * querying with at most one query outstanding, drawing, and tracking the
 * bar the user filters on.
 *
 * Each operation of the widget is a method of `Widget` that updates its
 * fields; its contract ties the new state to a transition function on
 * `WidgetState`, and the lemmas below state what the transitions promise.
 * Asynchronous callbacks (a query's done/fail, a filter removal's callback)
 * are events of their own. The services the widget calls are not part of
 * this model: their answers are inputs and the calls it makes are recorded
 * in `calls`.
 */
module BarChart {
  import opened Values
  import opened Datasets
  import opened BarChartQuery

  /** The error a failed query reports (`responseJSON.error`, `responseJSON.stackTrace`). */
  datatype ErrorReport = ErrorReport(error: Json, stackTrace: Json)

  /** The options the chart is drawn with. */
  datatype ChartOpts = ChartOpts(data: seq<Json>, x: string, y: string, selectedKey: Option<Json>)

  /** What `filterService.getFilter` found for the x-axis field. */
  datatype FoundFilter = FoundFilter(lhs: string, rhs: Json, singleClause: bool)

  /**
   * `linksPopupService`: the key it makes for a bar, and how many links it
   * creates for a database, table, field and value.
   */
  datatype LinksService = LinksService(generateKey: (Field, Json) -> string, linkCount: (string, string, string, Json) -> nat)

  /** What the widget is created with: its bindings, `$.isNumeric` and the links service. */
  datatype Env = Env(bindings: Bindings, isNumeric: string -> bool, links: LinksService)

  /** A call the widget makes into a service or the chart. */
  datatype Call =
    | HideErrorMessage(report: ErrorReport)
    | ExecuteQuery(id: nat, query: Query)
    | AbortQuery(id: nat)
    | SetLinks(key: string, count: nat)
    | DeleteLinks
    | AddFilter(database: string, table: string, fields: seq<string>, clause: Clause)
    | RemoveFilter(database: string, table: string, fields: seq<string>)
    | ClearSelectedBar

  /**
   * The widget's scope. `pending` maps each query whose callbacks have not run
   * to whether its result rebuilds the chart; `chartBuilds` counts the charts
   * constructed; `removalsPending` counts filter removals awaiting their callback.
   */
  datatype WidgetState = WidgetState(
    databases: seq<Database>,
    tables: seq<Table>,
    fields: seq<Field>,
    options: Options,
    filterSet: Option<FilterSet>,
    filterValue: Json,
    errorMessage: Option<ErrorReport>,
    loadingData: bool,
    outstandingQuery: Option<nat>,
    pending: map<nat, bool>,
    nextQueryId: nat,
    chart: Option<ChartOpts>,
    chartBuilds: nat,
    queryLimitCount: int,
    linksPopupButtonIsDisabled: bool,
    removalsPending: nat,
    calls: seq<Call>)

  // ---------------------------------------------------------------------------
  // Transitions

  /** `link` and `initialize`: the scope's initial values, then a blank chart. */
  function Initial(env: Env): WidgetState {
    var o := Options(EmptyDatabase(), EmptyTable(), BlankField(), BlankField(),
                     OrStr(env.bindings.aggregation, "count"), OrNum(env.bindings.limit, 100), BlankField(), "");
    var s := WidgetState([], [], [], o, None, Undefined, None, false, None, map[], 0, None, 0, 0, true, 0, []);
    DrawChart(s, [], true)
  }

  /** The bar drawn as selected: the filter set's value when it is truthy. */
  function SelectedKey(filterSet: Option<FilterSet>): Option<Json> {
    if filterSet.Some? && Truthy(filterSet.value.value) then Some(filterSet.value.value) else None
  }

  /** `doDrawChart(data, destroy)`. */
  function DrawChart(s: WidgetState, rows: seq<Json>, destroy: bool): WidgetState {
    var opts := ChartOpts(rows, s.options.attrX.columnName, COUNT_FIELD_NAME, SelectedKey(s.filterSet));
    s.(chart := Some(opts),
       chartBuilds := if s.chart.None? || destroy then s.chartBuilds + 1 else s.chartBuilds,
       queryLimitCount := QueryLimitCount(|rows|, s.options.limitCount))
  }

  /** `queryForData` draws a blank chart instead of querying. */
  predicate ShortCircuits(o: Options, connected: bool) {
    !connected || !IsFieldValid(o.attrX) || (o.attrY.columnName == "" && o.barType != "count")
  }

  /** Any error shown is hidden and forgotten. */
  function ErrorHidden(s: WidgetState): WidgetState {
    if s.errorMessage.Some? then s.(calls := s.calls + [HideErrorMessage(s.errorMessage.value)], errorMessage := None)
    else s
  }

  /** Aborting a query: jQuery runs its fail callbacks at once, with status 0. */
  function Aborted(s: WidgetState, id: nat): WidgetState {
    QueryFailed(s.(calls := s.calls + [AbortQuery(id)]), id, 0, None)
  }

  /** Any outstanding query is aborted. */
  function OutstandingAborted(s: WidgetState): WidgetState {
    if s.outstandingQuery.Some? then Aborted(s, s.outstandingQuery.value) else s
  }

  /** The query is sent and becomes the outstanding one. */
  function Issued(s: WidgetState, env: Env, rebuild: bool): WidgetState {
    var q := BuildQuery(s.options, s.filterSet, s.filterValue, env.isNumeric);
    var s2 := OutstandingAborted(s);
    s2.(outstandingQuery := Some(s2.nextQueryId),
        pending := s2.pending[s2.nextQueryId := rebuild],
        nextQueryId := s2.nextQueryId + 1,
        calls := s2.calls + [ExecuteQuery(s2.nextQueryId, q)])
  }

  /** `drawBlankChart()`, then not loading. */
  function Blanked(s: WidgetState): WidgetState {
    DrawChart(s, [], true).(loadingData := false)
  }

  /** `queryForData(rebuildChart)`. */
  function QueryForDataStep(s: WidgetState, env: Env, rebuild: bool, connected: bool): WidgetState {
    var s1 := ErrorHidden(s);
    if ShortCircuits(s1.options, connected) then Blanked(s1) else Issued(s1, env, rebuild)
  }

  /** Query `id` has settled: its `always` callback forgets the outstanding query. */
  function Settled(s: WidgetState, id: nat): WidgetState {
    s.(outstandingQuery := None, pending := s.pending - {id})
  }

  /** The done callbacks of query `id`; a settled query calls nothing back. */
  function QueryDone(s: WidgetState, id: nat, rows: seq<Json>): WidgetState {
    if id !in s.pending then s
    else DrawChart(Settled(s, id), rows, s.pending[id]).(loadingData := false)
  }

  /** The fail callbacks of query `id`; status 0 is a cancelled query. */
  function QueryFailed(s: WidgetState, id: nat, status: int, response: Option<ErrorReport>): WidgetState {
    if id !in s.pending then s
    else if status == 0 then Settled(s, id)
    else
      var s2 := Blanked(Settled(s, id));
      if response.Some? then s2.(errorMessage := response) else s2
  }

  /** The private `clearFilterSet`. */
  function FilterSetCleared(s: WidgetState): WidgetState {
    s.(filterSet := None, calls := s.calls + [DeleteLinks])
  }

  /** `updateFilterSet`, given what the filter service holds for the x-axis field. */
  function UpdateFilterSetStep(s: WidgetState, found: Option<FoundFilter>): WidgetState {
    if !IsFieldValid(s.options.attrX) then s
    else if found.Some? && found.value.singleClause then
      s.(filterSet := Some(FilterSet(found.value.lhs, found.value.rhs, s.options.database.name, s.options.table.name)))
    else if found.None? && s.filterSet.Some? then FilterSetCleared(s.(calls := s.calls + [ClearSelectedBar]))
    else s
  }

  /** `handleFilterSet(field, value)`. */
  function HandleFilterSetStep(s: WidgetState, env: Env, field: string, value: Json): WidgetState {
    var db := s.options.database.name;
    var t := s.options.table.name;
    var key := env.links.generateKey(s.options.attrX, value);
    var n := env.links.linkCount(db, t, field, value);
    s.(filterSet := Some(FilterSet(field, value, db, t)),
       calls := s.calls + [SetLinks(key, n)],
       linksPopupButtonIsDisabled := n == 0)
  }

  /** `clickFilterHandler(value)`. */
  function ClickStep(s: WidgetState, env: Env, value: Json, connected: bool): WidgetState {
    var x := s.options.attrX.columnName;
    if x == "" then s
    else
      var s1 := HandleFilterSetStep(s, env, x, value).(filterValue := value);
      if connected then
        s1.(calls := s1.calls + [AddFilter(s.options.database.name, s.options.table.name, [x], XAxisFilterClause(x, value))])
      else s1
  }

  /** `$scope.clearFilterSet`: asks the filter service to remove the filter. */
  function ClearFilterSetStep(s: WidgetState): WidgetState {
    if s.filterSet.None? then s
    else
      var fs := s.filterSet.value;
      s.(calls := s.calls + [RemoveFilter(fs.database, fs.table, [fs.key])], removalsPending := s.removalsPending + 1)
  }

  /** The callback of a filter removal. */
  function FilterRemovedStep(s: WidgetState): WidgetState {
    if s.removalsPending == 0 then s
    else FilterSetCleared(s.(removalsPending := s.removalsPending - 1, calls := s.calls + [ClearSelectedBar]))
  }

  /** The filter-changed message concerns the widget's database and table. */
  predicate ConcernsWidget(s: WidgetState, added: Option<(string, string)>) {
    added.Some? && added.value.0 == s.options.database.name && added.value.1 == s.options.table.name
  }

  /** `onFiltersChanged`; `added` is the added filter's database and table, if any. */
  function FiltersChangedStep(s: WidgetState, env: Env, added: Option<(string, string)>,
                              found: Option<FoundFilter>, connected: bool): WidgetState {
    if ConcernsWidget(s, added) then QueryForDataStep(UpdateFilterSetStep(s, found), env, false, connected)
    else s
  }

  /** The options after `updateFields` resolves the fields of the chosen table. */
  function FieldsResolved(o: Options, b: Bindings, ds: DatasetService): Options {
    var db := o.database.name;
    var t := o.table.name;
    var fields := ds.sortedFields(db, t);
    o.(attrX := ResolvedField(fields, b.xAxisField, ds.mapping(db, t, BAR_GROUPS)),
       attrY := ResolvedField(fields, b.yAxisField, ds.mapping(db, t, Y_AXIS)),
       filterField := ResolvedField(fields, b.filterField, ""),
       filterValue := b.filterValue)
  }

  /** `updateFields` up to its choice of how to query: loading, with the table's fields resolved. */
  function FieldsSet(s: WidgetState, env: Env, ds: DatasetService): WidgetState {
    s.(loadingData := true,
       fields := ds.sortedFields(s.options.database.name, s.options.table.name),
       options := FieldsResolved(s.options, env.bindings, ds))
  }

  /** What `updateFields` does before it queries, whichever way it takes. */
  function BeforeQuery(s1: WidgetState, callback: bool, found: Option<FoundFilter>): WidgetState {
    if s1.filterSet.Some? then ClearFilterSetStep(s1)
    else if callback && s1.options.database.name != "" && s1.options.table.name != "" then UpdateFilterSetStep(s1, found)
    else s1
  }

  /**
   * `updateFields(callback)`; `callback` says whether it is the one of
   * `displayActiveDataset`, which first refreshes the filter set.
   */
  function UpdateFieldsStep(s: WidgetState, env: Env, ds: DatasetService, callback: bool,
                            found: Option<FoundFilter>, connected: bool): WidgetState {
    QueryForDataStep(BeforeQuery(FieldsSet(s, env, ds), callback, found), env, true, connected)
  }

  /** The tables of the chosen database and the service's table with the bar chart's mappings. */
  function TablesOf(s: WidgetState, ds: DatasetService): seq<Table> {
    ds.tablesOf(s.options.database.name)
  }

  function MappedTable(s: WidgetState, ds: DatasetService): Option<Table> {
    ds.firstTableWithMappings(s.options.database.name, [BAR_GROUPS, Y_AXIS])
  }

  /**
   * `updateTables(callback)`. When there is no table to choose, `updateFields`
   * fails on the missing table right after setting `loadingData`.
   */
  function UpdateTablesStep(s: WidgetState, env: Env, ds: DatasetService, callback: bool,
                            found: Option<FoundFilter>, connected: bool): WidgetState {
    var tables := TablesOf(s, ds);
    match ChosenTable(tables, MappedTable(s, ds), env.bindings.table)
    case None => s.(tables := tables, loadingData := true)
    case Some(t) => UpdateFieldsStep(s.(tables := tables, options := s.options.(table := t)), env, ds, callback, found, connected)
  }

  predicate TablesThrow(s: WidgetState, env: Env, ds: DatasetService) {
    ChosenTable(TablesOf(s, ds), MappedTable(s, ds), env.bindings.table).None?
  }

  /** `displayActiveDataset` does nothing while loading or without a dataset. */
  predicate DisplayIgnored(s: WidgetState, ds: DatasetService) {
    !ds.hasDataset || s.loadingData
  }

  /**
   * `displayActiveDataset()`. Without databases the widget fails on the
   * missing database after storing the empty list.
   */
  function DisplayStep(s: WidgetState, env: Env, ds: DatasetService, found: Option<FoundFilter>, connected: bool): WidgetState {
    if DisplayIgnored(s, ds) then s
    else match ChosenDatabase(ds.databases, env.bindings.database)
      case None => s.(databases := ds.databases)
      case Some(db) =>
        UpdateTablesStep(s.(databases := ds.databases, options := s.options.(database := db)), env, ds, true, found, connected)
  }

  predicate DisplayThrows(s: WidgetState, env: Env, ds: DatasetService) {
    var db := ChosenDatabase(ds.databases, env.bindings.database);
    !DisplayIgnored(s, ds) &&
    (db.None? || TablesThrow(s.(databases := ds.databases, options := s.options.(database := db.value)), env, ds))
  }

  // ---------------------------------------------------------------------------
  // Every event

  datatype Event =
    | QueryRequested(rebuild: bool, connected: bool)
    | Done(id: nat, rows: seq<Json>)
    | Failed(id: nat, status: int, response: Option<ErrorReport>)
    | Clicked(value: Json, connected: bool)
    | ClearRequested
    | FilterRemoved
    | FiltersChanged(added: Option<(string, string)>, found: Option<FoundFilter>, connected: bool)
    | DatasetShown(ds: DatasetService, found: Option<FoundFilter>, connected: bool)
    | TablesChanged(ds: DatasetService, connected: bool)
    | FieldsChanged(ds: DatasetService, connected: bool)

  function Step(s: WidgetState, env: Env, e: Event): WidgetState {
    match e
    case QueryRequested(rebuild, connected) => QueryForDataStep(s, env, rebuild, connected)
    case Done(id, rows) => QueryDone(s, id, rows)
    case Failed(id, status, response) => QueryFailed(s, id, status, response)
    case Clicked(value, connected) => ClickStep(s, env, value, connected)
    case ClearRequested => ClearFilterSetStep(s)
    case FilterRemoved => FilterRemovedStep(s)
    case FiltersChanged(added, found, connected) => FiltersChangedStep(s, env, added, found, connected)
    case DatasetShown(ds, found, connected) => DisplayStep(s, env, ds, found, connected)
    case TablesChanged(ds, connected) => UpdateTablesStep(s, env, ds, false, None, connected)
    case FieldsChanged(ds, connected) => UpdateFieldsStep(s, env, ds, false, None, connected)
  }

  /**
   * The widget's invariant: the chart exists, query ids are fresh, and the
   * only query whose callbacks can still run is the outstanding one.
   */
  predicate Valid(s: WidgetState) {
    s.chart.Some? &&
    (forall id :: id in s.pending ==> id < s.nextQueryId) &&
    (s.outstandingQuery.None? ==> s.pending == map[]) &&
    (s.outstandingQuery.Some? ==> s.pending.Keys == {s.outstandingQuery.value})
  }

  // ---------------------------------------------------------------------------
  // What the transitions promise

  /** The widget starts valid, not loading, with a blank chart and its bound aggregation and limit. */
  lemma InitialState(env: Env)
    ensures var s := Initial(env);
      Valid(s) && !s.loadingData && s.outstandingQuery.None? && s.filterSet.None? &&
      s.chart == Some(ChartOpts([], "", COUNT_FIELD_NAME, None)) && s.chartBuilds == 1 &&
      s.options.barType == (if env.bindings.aggregation != "" then env.bindings.aggregation else "count") &&
      s.options.limitCount == (if env.bindings.limit != 0 then env.bindings.limit else 100)
  {
  }

  /** Under the invariant there is at most one query whose callbacks can run: the outstanding one. */
  lemma AtMostOneOutstanding(s: WidgetState)
    requires Valid(s)
    ensures |s.pending.Keys| <= 1
    ensures forall id :: id in s.pending ==> s.outstandingQuery == Some(id)
  {
  }

  /** A short-circuited `queryForData` sends no query, draws a blank chart and stops loading. */
  lemma ShortCircuitDrawsBlank(s: WidgetState, env: Env, rebuild: bool, connected: bool)
    requires ShortCircuits(s.options, connected)
    ensures var r := QueryForDataStep(s, env, rebuild, connected);
      r.chart == Some(ChartOpts([], s.options.attrX.columnName, COUNT_FIELD_NAME, SelectedKey(s.filterSet))) &&
      !r.loadingData && r.errorMessage.None? &&
      r.outstandingQuery == s.outstandingQuery && r.pending == s.pending && r.nextQueryId == s.nextQueryId &&
      r.calls == s.calls + (if s.errorMessage.Some? then [HideErrorMessage(s.errorMessage.value)] else [])
  {
  }

  /**
   * Otherwise the outstanding query, if any, is aborted before the new one is
   * sent and stored, so the new query is the only one that can call back.
   */
  lemma NewQueryReplacesOutstanding(s: WidgetState, env: Env, rebuild: bool, connected: bool)
    requires Valid(s) && !ShortCircuits(s.options, connected)
    ensures var r := QueryForDataStep(s, env, rebuild, connected);
      r.outstandingQuery == Some(s.nextQueryId) &&
      r.pending == map[s.nextQueryId := rebuild] &&
      r.calls == s.calls
        + (if s.errorMessage.Some? then [HideErrorMessage(s.errorMessage.value)] else [])
        + (if s.outstandingQuery.Some? then [AbortQuery(s.outstandingQuery.value)] else [])
        + [ExecuteQuery(s.nextQueryId, BuildQuery(s.options, s.filterSet, s.filterValue, env.isNumeric))] &&
      r.errorMessage.None? && r.loadingData == s.loadingData && r.chart == s.chart && r.options == s.options
  {
    var s1 := ErrorHidden(s);
    assert QueryForDataStep(s, env, rebuild, connected) == Issued(s1, env, rebuild);
    AbortedOutstanding(s1);
  }

  /** Aborting the outstanding query records the abort and leaves no query pending. */
  lemma AbortedOutstanding(s: WidgetState)
    requires s.outstandingQuery.None? ==> s.pending == map[]
    requires s.outstandingQuery.Some? ==> s.pending.Keys == {s.outstandingQuery.value}
    ensures var r := OutstandingAborted(s);
      r == s.(calls := s.calls + (if s.outstandingQuery.Some? then [AbortQuery(s.outstandingQuery.value)] else []),
              outstandingQuery := None, pending := map[])
  {
    if s.outstandingQuery.Some? {
      var id := s.outstandingQuery.value;
      assert s.pending - {id} == map[];
    } else {
      assert s.calls + [] == s.calls;
    }
  }

  /** A cancelled query (status 0) only stops being outstanding: nothing is drawn and no error is set. */
  lemma CancelledQueryDrawsNothing(s: WidgetState, id: nat, response: Option<ErrorReport>)
    requires id in s.pending
    ensures QueryFailed(s, id, 0, response) == s.(outstandingQuery := None, pending := s.pending - {id})
  {
  }

  /** Any other failure draws a blank chart, stops loading, and sets an error only when one was reported. */
  lemma FailedQueryDrawsBlank(s: WidgetState, id: nat, status: int, response: Option<ErrorReport>)
    requires id in s.pending && status != 0
    ensures var r := QueryFailed(s, id, status, response);
      r.chart == Some(ChartOpts([], s.options.attrX.columnName, COUNT_FIELD_NAME, SelectedKey(s.filterSet))) &&
      !r.loadingData && r.outstandingQuery.None? && id !in r.pending &&
      r.errorMessage == (if response.Some? then response else s.errorMessage) &&
      r.calls == s.calls
  {
  }

  /**
   * A query's rows are drawn (rebuilding the chart when the query asked for
   * it), loading stops, and the limit indicator reflects the row count.
   */
  lemma DoneQueryDraws(s: WidgetState, id: nat, rows: seq<Json>)
    requires id in s.pending
    ensures var r := QueryDone(s, id, rows);
      r.chart == Some(ChartOpts(rows, s.options.attrX.columnName, COUNT_FIELD_NAME, SelectedKey(s.filterSet))) &&
      r.chartBuilds == (if s.pending[id] || s.chart.None? then s.chartBuilds + 1 else s.chartBuilds) &&
      r.queryLimitCount == (if |rows| >= s.options.limitCount then s.options.limitCount else 0) &&
      !r.loadingData && r.outstandingQuery.None? && id !in r.pending && r.calls == s.calls
  {
  }

  /** A query whose callbacks have run calls back no more. */
  lemma SettledQueryIgnored(s: WidgetState, id: nat, rows: seq<Json>, status: int, response: Option<ErrorReport>)
    requires id !in s.pending
    ensures QueryDone(s, id, rows) == s && QueryFailed(s, id, status, response) == s
  {
  }

  /** Every event keeps the invariant. */
  lemma {:induction false} StepKeepsValid(s: WidgetState, env: Env, e: Event)
    requires Valid(s)
    ensures Valid(Step(s, env, e))
  {
    match e
    case QueryRequested(rebuild, connected) => QueryForDataKeepsValid(s, env, rebuild, connected);
    case Done(id, rows) => SettledKeepsValid(s, env, e);
    case Failed(id, status, response) => SettledKeepsValid(s, env, e);
    case Clicked(value, connected) => FilterEventKeepsValid(s, env, e);
    case ClearRequested => FilterEventKeepsValid(s, env, e);
    case FilterRemoved => FilterEventKeepsValid(s, env, e);
    case FiltersChanged(added, found, connected) =>
      if ConcernsWidget(s, added) {
        var s1 := UpdateFilterSetStep(s, found);
        assert Valid(s1);
        QueryForDataKeepsValid(s1, env, false, connected);
        assert Step(s, env, e) == QueryForDataStep(s1, env, false, connected);
      }
    case DatasetShown(ds, found, connected) => DisplayKeepsValid(s, env, ds, found, connected);
    case TablesChanged(ds, connected) => UpdateTablesKeepsValid(s, env, ds, false, None, connected);
    case FieldsChanged(ds, connected) => UpdateFieldsKeepsValid(s, env, ds, false, None, connected);
  }

  /** A query's callbacks keep the invariant. */
  lemma SettledKeepsValid(s: WidgetState, env: Env, e: Event)
    requires Valid(s) && (e.Done? || e.Failed?)
    ensures Valid(Step(s, env, e))
  {
  }

  /** Clicking, clearing and the removal callback keep the invariant. */
  lemma FilterEventKeepsValid(s: WidgetState, env: Env, e: Event)
    requires Valid(s) && (e.Clicked? || e.ClearRequested? || e.FilterRemoved?)
    ensures Valid(Step(s, env, e))
  {
  }

  lemma QueryForDataKeepsValid(s: WidgetState, env: Env, rebuild: bool, connected: bool)
    requires Valid(s)
    ensures Valid(QueryForDataStep(s, env, rebuild, connected))
  {
    if !ShortCircuits(s.options, connected) {
      NewQueryReplacesOutstanding(s, env, rebuild, connected);
    }
  }

  lemma UpdateFieldsKeepsValid(s: WidgetState, env: Env, ds: DatasetService, callback: bool,
                               found: Option<FoundFilter>, connected: bool)
    requires Valid(s)
    ensures Valid(UpdateFieldsStep(s, env, ds, callback, found, connected))
  {
    var s1 := FieldsSet(s, env, ds);
    assert Valid(s1);
    var s2 := BeforeQuery(s1, callback, found);
    assert Valid(s2);
    QueryForDataKeepsValid(s2, env, true, connected);
  }

  lemma UpdateTablesKeepsValid(s: WidgetState, env: Env, ds: DatasetService, callback: bool,
                               found: Option<FoundFilter>, connected: bool)
    requires Valid(s)
    ensures Valid(UpdateTablesStep(s, env, ds, callback, found, connected))
  {
    var tables := TablesOf(s, ds);
    match ChosenTable(tables, MappedTable(s, ds), env.bindings.table)
    case None =>
    case Some(t) =>
      UpdateFieldsKeepsValid(s.(tables := tables, options := s.options.(table := t)), env, ds, callback, found, connected);
  }

  lemma DisplayKeepsValid(s: WidgetState, env: Env, ds: DatasetService, found: Option<FoundFilter>, connected: bool)
    requires Valid(s)
    ensures Valid(DisplayStep(s, env, ds, found, connected))
  {
    if !DisplayIgnored(s, ds) {
      match ChosenDatabase(ds.databases, env.bindings.database)
      case None =>
      case Some(db) =>
        UpdateTablesKeepsValid(s.(databases := ds.databases, options := s.options.(database := db)), env, ds, true, found, connected);
    }
  }

  /**
   * A click on a bar records the filter, enables the links button exactly
   * when links exist, and adds the filter `x = value`; the next query the
   * widget sends ignores exactly that filter.
   */
  lemma {:induction false} ClickedFilterIsIgnored(s: WidgetState, env: Env, value: Json, rebuild: bool)
    requires s.options.attrX.columnName != "" && Truthy(value)
    ensures var x := s.options.attrX.columnName;
      var db := s.options.database.name;
      var t := s.options.table.name;
      var n := env.links.linkCount(db, t, x, value);
      var c := ClickStep(s, env, value, true);
      c.filterSet == Some(FilterSet(x, value, db, t)) &&
      (c.linksPopupButtonIsDisabled <==> n == 0) &&
      c.calls == s.calls + [SetLinks(env.links.generateKey(s.options.attrX, value), n),
                            AddFilter(db, t, [x], XAxisFilterClause(x, value))] &&
      BuildQuery(c.options, c.filterSet, c.filterValue, env.isNumeric).ignoreFilters
        == [FilterKey(db, t, XAxisFilterClause(x, value))]
  {
    var c := ClickStep(s, env, value, true);
    assert HasOwnFilter(c.filterSet);
  }

  /**
   * A click on a bar whose value is falsy (0 or "") adds the filter too, but
   * the next query does not ignore it: the widget's own query is filtered by
   * its own click.
   */
  lemma {:induction false} FalsyClickNotIgnored(s: WidgetState, env: Env, value: Json)
    requires s.options.attrX.columnName != "" && !Truthy(value)
    ensures var x := s.options.attrX.columnName;
      var db := s.options.database.name;
      var t := s.options.table.name;
      var c := ClickStep(s, env, value, true);
      c.filterSet == Some(FilterSet(x, value, db, t)) &&
      c.calls[|c.calls| - 1] == AddFilter(db, t, [x], XAxisFilterClause(x, value)) &&
      BuildQuery(c.options, c.filterSet, c.filterValue, env.isNumeric).ignoreFilters == []
  {
    var c := ClickStep(s, env, value, true);
    assert !HasOwnFilter(c.filterSet);
  }

  /** `updateFilterSet` does nothing without a valid x field, adopts a single-clause filter, and drops a removed one. */
  lemma UpdateFilterSetCases(s: WidgetState, found: Option<FoundFilter>)
    ensures var r := UpdateFilterSetStep(s, found);
      (!IsFieldValid(s.options.attrX) ==> r == s) &&
      (IsFieldValid(s.options.attrX) && found.Some? && found.value.singleClause ==>
        r == s.(filterSet := Some(FilterSet(found.value.lhs, found.value.rhs, s.options.database.name, s.options.table.name)))) &&
      (IsFieldValid(s.options.attrX) && found.Some? && !found.value.singleClause ==> r == s) &&
      (IsFieldValid(s.options.attrX) && found.None? ==>
        r.filterSet.None? &&
        r.calls == s.calls + (if s.filterSet.Some? then [ClearSelectedBar, DeleteLinks] else []))
  {
  }

  /** Clearing the filter asks for its removal, and the removal's callback forgets it and deselects the bar. */
  lemma ClearThenRemoved(s: WidgetState)
    requires s.filterSet.Some?
    ensures var fs := s.filterSet.value;
      var r := FilterRemovedStep(ClearFilterSetStep(s));
      r.filterSet.None? && r.removalsPending == s.removalsPending &&
      r.calls == s.calls + [RemoveFilter(fs.database, fs.table, [fs.key]), ClearSelectedBar, DeleteLinks]
  {
  }

  /** A filter change elsewhere is ignored; one on the widget's table requeries without rebuilding. */
  lemma FiltersChangedGuard(s: WidgetState, env: Env, added: Option<(string, string)>, found: Option<FoundFilter>, connected: bool)
    ensures !ConcernsWidget(s, added) ==> FiltersChangedStep(s, env, added, found, connected) == s
    ensures ConcernsWidget(s, added) && Valid(s) && !ShortCircuits(s.options, connected) ==>
      FiltersChangedStep(s, env, added, found, connected).pending == map[s.nextQueryId := false]
  {
    if ConcernsWidget(s, added) && Valid(s) && !ShortCircuits(s.options, connected) {
      NewQueryReplacesOutstanding(UpdateFilterSetStep(s, found), env, false, connected);
    }
  }

  /** Showing the dataset is ignored while loading or without a dataset. */
  lemma DisplayWhileLoadingIgnored(s: WidgetState, env: Env, ds: DatasetService, found: Option<FoundFilter>, connected: bool)
    requires DisplayIgnored(s, ds)
    ensures DisplayStep(s, env, ds, found, connected) == s && !DisplayThrows(s, env, ds)
  {
  }

  /**
   * A short-circuited `queryForData` leaves an earlier query outstanding: when
   * that query's rows arrive they replace the blank chart.
   */
  lemma ShortCircuitKeepsEarlierQuery(s: WidgetState, env: Env, rebuild: bool, connected: bool, rows: seq<Json>)
    requires Valid(s) && s.outstandingQuery.Some? && ShortCircuits(s.options, connected)
    ensures var r := QueryDone(QueryForDataStep(s, env, rebuild, connected), s.outstandingQuery.value, rows);
      r.chart.Some? && r.chart.value.data == rows && r.outstandingQuery.None?
  {
  }

  /** The parts of the state a query, a filter update or a removal request leave alone. */
  predicate SameSelection(a: WidgetState, b: WidgetState) {
    a.databases == b.databases && a.tables == b.tables && a.fields == b.fields && a.options == b.options
  }

  lemma QueryKeepsSelection(s: WidgetState, env: Env, rebuild: bool, connected: bool)
    ensures SameSelection(QueryForDataStep(s, env, rebuild, connected), s)
    ensures QueryForDataStep(s, env, rebuild, connected).loadingData == (s.loadingData && !ShortCircuits(s.options, connected))
  {
  }

  lemma BeforeQueryKeepsSelection(s1: WidgetState, callback: bool, found: Option<FoundFilter>)
    ensures SameSelection(BeforeQuery(s1, callback, found), s1)
    ensures BeforeQuery(s1, callback, found).loadingData == s1.loadingData
  {
  }

  /**
   * `updateFields` resolves the fields of the chosen table by binding, then
   * mapping, and queries with them; it is still loading exactly when a query
   * was sent.
   */
  lemma {:induction false} UpdateFieldsResolves(s: WidgetState, env: Env, ds: DatasetService, callback: bool,
                                                found: Option<FoundFilter>, connected: bool)
    ensures var r := UpdateFieldsStep(s, env, ds, callback, found, connected);
      var db := s.options.database.name;
      var t := s.options.table.name;
      var fs := ds.sortedFields(db, t);
      r.databases == s.databases && r.tables == s.tables && r.fields == fs &&
      r.options == s.options.(
        attrX := ResolvedField(fs, env.bindings.xAxisField, ds.mapping(db, t, BAR_GROUPS)),
        attrY := ResolvedField(fs, env.bindings.yAxisField, ds.mapping(db, t, Y_AXIS)),
        filterField := ResolvedField(fs, env.bindings.filterField, ""),
        filterValue := env.bindings.filterValue) &&
      (r.loadingData <==> !ShortCircuits(r.options, connected))
  {
    var s1 := FieldsSet(s, env, ds);
    var s2 := BeforeQuery(s1, callback, found);
    BeforeQueryKeepsSelection(s1, callback, found);
    QueryKeepsSelection(s2, env, true, connected);
  }

  /** When it completes, `updateTables` chooses the table by the binding, then the mappings, and resolves its fields. */
  lemma {:induction false} UpdateTablesChooses(s: WidgetState, env: Env, ds: DatasetService, callback: bool,
                                               found: Option<FoundFilter>, connected: bool)
    requires !TablesThrow(s, env, ds)
    ensures var r := UpdateTablesStep(s, env, ds, callback, found, connected);
      var db := s.options.database.name;
      var t := ChosenTable(ds.tablesOf(db), ds.firstTableWithMappings(db, [BAR_GROUPS, Y_AXIS]), env.bindings.table).value;
      r.databases == s.databases && r.tables == ds.tablesOf(db) &&
      r.options.database == s.options.database && r.options.table == t &&
      r.fields == ds.sortedFields(db, t.name) &&
      r.options.attrX == ResolvedField(r.fields, env.bindings.xAxisField, ds.mapping(db, t.name, BAR_GROUPS))
  {
    var tables := TablesOf(s, ds);
    var t := ChosenTable(tables, MappedTable(s, ds), env.bindings.table).value;
    var s2 := s.(tables := tables, options := s.options.(table := t));
    UpdateFieldsResolves(s2, env, ds, callback, found, connected);
  }

  /** When it completes, `displayActiveDataset` chooses the database by the binding, then the table. */
  lemma {:induction false} DisplayChooses(s: WidgetState, env: Env, ds: DatasetService, found: Option<FoundFilter>, connected: bool)
    requires !DisplayIgnored(s, ds) && !DisplayThrows(s, env, ds)
    ensures ChosenDatabase(ds.databases, env.bindings.database).Some?
    ensures var r := DisplayStep(s, env, ds, found, connected);
      var db := ChosenDatabase(ds.databases, env.bindings.database).value;
      r.databases == ds.databases && r.options.database == db &&
      r.options.table == ChosenTable(ds.tablesOf(db.name), ds.firstTableWithMappings(db.name, [BAR_GROUPS, Y_AXIS]), env.bindings.table).value
  {
    var db := ChosenDatabase(ds.databases, env.bindings.database).value;
    var s1 := s.(databases := ds.databases, options := s.options.(database := db));
    assert !TablesThrow(s1, env, ds);
    assert DisplayStep(s, env, ds, found, connected) == UpdateTablesStep(s1, env, ds, true, found, connected);
    UpdateTablesChooses(s1, env, ds, true, found, connected);
  }

  // ---------------------------------------------------------------------------
  // The widget

  class Widget {
    const env: Env
    var databases: seq<Database>
    var tables: seq<Table>
    var fields: seq<Field>
    var options: Options
    var filterSet: Option<FilterSet>
    var filterValue: Json
    var errorMessage: Option<ErrorReport>
    var loadingData: bool
    var outstandingQuery: Option<nat>
    var pending: map<nat, bool>
    var nextQueryId: nat
    var chart: Option<ChartOpts>
    var chartBuilds: nat
    var queryLimitCount: int
    var linksPopupButtonIsDisabled: bool
    var removalsPending: nat
    var calls: seq<Call>

    function State(): WidgetState
      reads this
    {
      WidgetState(databases, tables, fields, options, filterSet, filterValue, errorMessage, loadingData,
                  outstandingQuery, pending, nextQueryId, chart, chartBuilds, queryLimitCount,
                  linksPopupButtonIsDisabled, removalsPending, calls)
    }

    /** `link` and `initialize`. */
    constructor(env: Env)
      ensures this.env == env
      ensures State() == Initial(env)
    {
      this.env := env;
      databases := [];
      tables := [];
      fields := [];
      var o := Options(EmptyDatabase(), EmptyTable(), BlankField(), BlankField(),
                       OrStr(env.bindings.aggregation, "count"), OrNum(env.bindings.limit, 100), BlankField(), "");
      options := o;
      filterSet := None;
      filterValue := Undefined;
      errorMessage := None;
      loadingData := false;
      outstandingQuery := None;
      pending := map[];
      nextQueryId := 0;
      var opts := ChartOpts([], BlankField().columnName, COUNT_FIELD_NAME, None);
      chart := Some(opts);
      chartBuilds := 1;
      queryLimitCount := QueryLimitCount(0, o.limitCount);
      linksPopupButtonIsDisabled := true;
      removalsPending := 0;
      calls := [];
    }

    /** `doDrawChart(data, destroy)`. */
    method DoDrawChart(rows: seq<Json>, destroy: bool)
      modifies this
      ensures State() == DrawChart(old(State()), rows, destroy)
    {
      var opts := ChartOpts(rows, options.attrX.columnName, COUNT_FIELD_NAME, SelectedKey(filterSet));
      if chart.None? || destroy {
        chartBuilds := chartBuilds + 1;
      }
      chart := Some(opts);
      queryLimitCount := QueryLimitCount(|rows|, options.limitCount);
    }

    method HideError()
      modifies this
      ensures State() == ErrorHidden(old(State()))
    {
      if errorMessage.Some? {
        calls := calls + [HideErrorMessage(errorMessage.value)];
        errorMessage := None;
      }
    }

    method AbortOutstanding()
      modifies this
      ensures State() == OutstandingAborted(old(State()))
    {
      if outstandingQuery.Some? {
        var id := outstandingQuery.value;
        calls := calls + [AbortQuery(id)];
        OnQueryFail(id, 0, None);
      }
    }

    method IssueQuery(rebuild: bool)
      modifies this
      ensures State() == Issued(old(State()), env, rebuild)
    {
      var query := BuildQuery(options, filterSet, filterValue, env.isNumeric);
      AbortOutstanding();
      var id := nextQueryId;
      nextQueryId := nextQueryId + 1;
      outstandingQuery := Some(id);
      pending := pending[id := rebuild];
      calls := calls + [ExecuteQuery(id, query)];
    }

    /** `drawBlankChart()`, then not loading. */
    method DrawBlankChart()
      modifies this
      ensures State() == Blanked(old(State()))
    {
      DoDrawChart([], true);
      loadingData := false;
    }

    /** `queryForData(rebuildChart)`; `connected` says whether there is an active connection. */
    method QueryForData(rebuild: bool, connected: bool)
      modifies this
      ensures State() == QueryForDataStep(old(State()), env, rebuild, connected)
    {
      HideError();
      if ShortCircuits(options, connected) {
        DrawBlankChart();
      } else {
        IssueQuery(rebuild);
      }
    }

    /** The done callbacks of query `id`, with the rows it returned. */
    method OnQueryDone(id: nat, rows: seq<Json>)
      modifies this
      ensures State() == QueryDone(old(State()), id, rows)
    {
      if id !in pending {
        return;
      }
      var rebuild := pending[id];
      outstandingQuery := None;
      pending := pending - {id};
      DoDrawChart(rows, rebuild);
      loadingData := false;
    }

    /** The fail callbacks of query `id`. */
    method OnQueryFail(id: nat, status: int, response: Option<ErrorReport>)
      modifies this
      ensures State() == QueryFailed(old(State()), id, status, response)
    {
      if id !in pending {
        return;
      }
      outstandingQuery := None;
      pending := pending - {id};
      if status != 0 {
        DrawBlankChart();
        if response.Some? {
          errorMessage := response;
        }
      }
    }

    /** The private `clearFilterSet`. */
    method ClearFilterSetLocally()
      modifies this
      ensures State() == FilterSetCleared(old(State()))
    {
      filterSet := None;
      calls := calls + [DeleteLinks];
    }

    /** `updateFilterSet()`, given what `filterService.getFilter` returns. */
    method UpdateFilterSet(found: Option<FoundFilter>)
      modifies this
      ensures State() == UpdateFilterSetStep(old(State()), found)
    {
      if IsFieldValid(options.attrX) {
        if found.Some? && found.value.singleClause {
          filterSet := Some(FilterSet(found.value.lhs, found.value.rhs, options.database.name, options.table.name));
        } else if found.None? && filterSet.Some? {
          calls := calls + [ClearSelectedBar];
          ClearFilterSetLocally();
        }
      }
    }

    /** `handleFilterSet(field, value)`. */
    method HandleFilterSet(field: string, value: Json)
      modifies this
      ensures State() == HandleFilterSetStep(old(State()), env, field, value)
    {
      filterSet := Some(FilterSet(field, value, options.database.name, options.table.name));
      var key := env.links.generateKey(options.attrX, value);
      var n := env.links.linkCount(options.database.name, options.table.name, field, value);
      calls := calls + [SetLinks(key, n)];
      linksPopupButtonIsDisabled := n == 0;
    }

    /** `clickFilterHandler(value)`. */
    method ClickFilterHandler(value: Json, connected: bool)
      modifies this
      ensures State() == ClickStep(old(State()), env, value, connected)
    {
      var x := options.attrX.columnName;
      if x == "" {
        return;
      }
      HandleFilterSet(x, value);
      filterValue := value;
      if connected {
        calls := calls + [AddFilter(options.database.name, options.table.name, [x], XAxisFilterClause(x, value))];
      }
    }

    /** `$scope.clearFilterSet()`. */
    method ClearFilterSet()
      modifies this
      ensures State() == ClearFilterSetStep(old(State()))
    {
      if filterSet.Some? {
        var fs := filterSet.value;
        calls := calls + [RemoveFilter(fs.database, fs.table, [fs.key])];
        removalsPending := removalsPending + 1;
      }
    }

    /** The callback `$scope.clearFilterSet` gives the filter service. */
    method OnFilterRemoved()
      modifies this
      ensures State() == FilterRemovedStep(old(State()))
    {
      if removalsPending > 0 {
        removalsPending := removalsPending - 1;
        calls := calls + [ClearSelectedBar];
        ClearFilterSetLocally();
      }
    }

    /** `onFiltersChanged(message)`. */
    method OnFiltersChanged(added: Option<(string, string)>, found: Option<FoundFilter>, connected: bool)
      modifies this
      ensures State() == FiltersChangedStep(old(State()), env, added, found, connected)
    {
      if added.Some? && added.value.0 == options.database.name && added.value.1 == options.table.name {
        UpdateFilterSet(found);
        QueryForData(false, connected);
      }
    }

    method SetFields(ds: DatasetService)
      modifies this
      ensures State() == FieldsSet(old(State()), env, ds)
    {
      loadingData := true;
      fields := ds.sortedFields(options.database.name, options.table.name);
      options := FieldsResolved(options, env.bindings, ds);
    }

    /** `updateFields(callback)`. */
    method UpdateFields(ds: DatasetService, callback: bool, found: Option<FoundFilter>, connected: bool)
      modifies this
      ensures State() == UpdateFieldsStep(old(State()), env, ds, callback, found, connected)
    {
      SetFields(ds);
      if filterSet.Some? {
        ClearFilterSet();
      } else if callback {
        if options.database.name != "" && options.table.name != "" {
          UpdateFilterSet(found);
        }
      }
      QueryForData(true, connected);
    }

    /** `updateTables(callback)`; `completed` is false when it fails on a missing table. */
    method UpdateTables(ds: DatasetService, callback: bool, found: Option<FoundFilter>, connected: bool)
      returns (completed: bool)
      modifies this
      ensures completed == !TablesThrow(old(State()), env, ds)
      ensures State() == UpdateTablesStep(old(State()), env, ds, callback, found, connected)
    {
      ghost var s0 := State();
      tables := ds.tablesOf(options.database.name);
      var mapped := ds.firstTableWithMappings(options.database.name, [BAR_GROUPS, Y_AXIS]);
      var t := ChooseTable(tables, mapped, env.bindings.table);
      assert t == ChosenTable(TablesOf(s0, ds), MappedTable(s0, ds), env.bindings.table);
      if t.None? {
        loadingData := true;
        assert State() == s0.(tables := tables, loadingData := true);
        return false;
      }
      options := options.(table := t.value);
      assert State() == s0.(tables := tables, options := s0.options.(table := t.value));
      UpdateFields(ds, callback, found, connected);
      return true;
    }

    /** `displayActiveDataset()`; `completed` is false when it fails on a missing database or table. */
    method DisplayActiveDataset(ds: DatasetService, found: Option<FoundFilter>, connected: bool)
      returns (completed: bool)
      modifies this
      ensures completed == !DisplayThrows(old(State()), env, ds)
      ensures State() == DisplayStep(old(State()), env, ds, found, connected)
    {
      if !ds.hasDataset || loadingData {
        return true;
      }
      databases := ds.databases;
      var db := ChooseDatabase(databases, env.bindings.database);
      if db.None? {
        return false;
      }
      options := options.(database := db.value);
      completed := UpdateTables(ds, true, found, connected);
    }
  }
}
