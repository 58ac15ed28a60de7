/**
 * The pure parts of the bar chart widget
 * (client/components/barChart/barChart.directive.js): the query it builds,
 * its legend and limit texts, and the bindings it saves to recreate its state.
 *
 * The neon query builder is not part of this model; `Query` records what the
 * widget asks of it, under the builder's reading that `groupBy`, `where`,
 * `ignoreFilters`, `sortBy` and `limit` set their part and `aggregate` adds one.
 */
module BarChartQuery {
  import opened Values
  import opened Strings
  import opened Datasets

  /** The name of the aggregated column, and the legend's y. */
  const COUNT_FIELD_NAME := "Count"

  /** `$scope.options`. */
  datatype Options = Options(
    database: Database,
    table: Table,
    attrX: Field,
    attrY: Field,
    barType: string,
    limitCount: int,
    filterField: Field,
    filterValue: string)

  /** The bar this widget filters on: its field, its value and where it lives. */
  datatype FilterSet = FilterSet(key: string, value: Json, database: string, table: string)

  /**
   * The attributes the widget is given (`bindTitle`, `bindXAxisField`, ...);
   * "" and 0 stand for a missing binding.
   */
  datatype Bindings = Bindings(
    title: string,
    xAxisField: string,
    yAxisField: string,
    aggregation: string,
    limit: int,
    filterField: string,
    filterValue: string,
    table: string,
    database: string)

  // ---------------------------------------------------------------------------
  // The query record

  /** A where operand: a JSON value, or `parseFloat` of a numeric text. */
  datatype Operand = Value(v: Json) | ParsedFloat(text: string)

  datatype Clause = Where(field: string, op: string, operand: Operand) | And(left: Clause, right: Clause)

  /** `filterService.getFilterKey(database, table, clause)`, by its arguments. */
  datatype FilterKey = FilterKey(database: string, table: string, clause: Clause)

  /** `neon.query.COUNT`, `SUM`, `AVG`, or the undefined operation of an unknown bar type. */
  datatype AggregateOp = CountOp | SumOp | AvgOp | NoOp

  datatype Aggregate = Aggregate(op: AggregateOp, field: string, name: string)

  datatype Direction = Ascending | Descending

  datatype Query = Query(
    database: string,
    table: string,
    groupBy: seq<Field>,
    where: Option<Clause>,
    ignoreFilters: seq<FilterKey>,
    aggregates: seq<Aggregate>,
    sortBy: seq<(string, Direction)>,
    limit: Option<int>)

  function NewQuery(): Query {
    Query("", "", [], None, [], [], [], None)
  }

  function SelectFrom(q: Query, database: string, table: string): Query {
    q.(database := database, table := table)
  }

  function GroupBy(q: Query, f: Field): Query {
    q.(groupBy := [f])
  }

  function WhereClause(q: Query, c: Clause): Query {
    q.(where := Some(c))
  }

  function IgnoreFilters(q: Query, keys: seq<FilterKey>): Query {
    q.(ignoreFilters := keys)
  }

  function AggregateBy(q: Query, op: AggregateOp, field: string, name: string): Query {
    q.(aggregates := q.aggregates + [Aggregate(op, field, name)])
  }

  function SortBy(q: Query, field: string, d: Direction): Query {
    q.(sortBy := [(field, d)])
  }

  function Limit(q: Query, n: int): Query {
    q.(limit := Some(n))
  }

  // ---------------------------------------------------------------------------
  // buildQuery

  /** `attrX != null`. */
  function NotNull(x: Field): Clause {
    Where(x.columnName, "!=", Value(Null))
  }

  /** `createFilterClauseForXAxis`: the x-axis field equals the last clicked value. */
  function XAxisFilterClause(xAxisField: string, clickedValue: Json): Clause {
    Where(xAxisField, "=", Value(clickedValue))
  }

  /** The unshared filter: `=` on the parsed number when the text is numeric, else `contains`. */
  function UnsharedClause(field: string, value: string, isNumeric: string -> bool): Clause {
    if isNumeric(value) then Where(field, "=", ParsedFloat(value))
    else Where(field, "contains", Value(Str(value)))
  }

  function AggregateOpFor(barType: string): AggregateOp {
    if barType == "count" then CountOp
    else if barType == "sum" then SumOp
    else if barType == "average" then AvgOp
    else NoOp
  }

  /** The filter set holds a field and a truthy value. */
  predicate HasOwnFilter(filterSet: Option<FilterSet>) {
    filterSet.Some? && filterSet.value.key != "" && Truthy(filterSet.value.value)
  }

  predicate HasUnsharedFilter(o: Options) {
    IsFieldValid(o.filterField) && o.filterValue != ""
  }

  /**
   * `buildQuery()`. `clickedValue` is `$scope.filterValue`, the last bar
   * clicked, and `isNumeric` is `$.isNumeric`.
   */
  function BuildQuery(o: Options, filterSet: Option<FilterSet>, clickedValue: Json, isNumeric: string -> bool): (q: Query)
    ensures q.database == o.database.name && q.table == o.table.name
    ensures q.groupBy == [o.attrX]
    ensures q.sortBy == [(COUNT_FIELD_NAME, Descending)] && q.limit == Some(o.limitCount)
    ensures |q.aggregates| == 1
    ensures q.aggregates[0].name == COUNT_FIELD_NAME
    ensures q.aggregates[0].field == if o.barType == "count" then "*" else o.attrY.columnName
    ensures q.aggregates[0].op == AggregateOpFor(o.barType)
    ensures q.where.Some?
    ensures q.where.value == NotNull(o.attrX) || (q.where.value.And? && q.where.value.left == NotNull(o.attrX))
    ensures q.where.value.And? <==> HasUnsharedFilter(o)
    ensures q.where.value.And? ==>
      q.where.value.right == UnsharedClause(o.filterField.columnName, o.filterValue, isNumeric)
    ensures q.ignoreFilters != [] <==> HasOwnFilter(filterSet)
    ensures q.ignoreFilters != [] ==>
      q.ignoreFilters == [FilterKey(o.database.name, o.table.name, XAxisFilterClause(o.attrX.columnName, clickedValue))]
  {
    var whereNotNull := NotNull(o.attrX);
    var q0 := WhereClause(GroupBy(SelectFrom(NewQuery(), o.database.name, o.table.name), o.attrX), whereNotNull);
    var q1 :=
      if HasOwnFilter(filterSet) then
        IgnoreFilters(q0, [FilterKey(o.database.name, o.table.name, XAxisFilterClause(o.attrX.columnName, clickedValue))])
      else q0;
    var op := AggregateOpFor(o.barType);
    var q2 :=
      if o.barType == "count" then AggregateBy(q1, op, "*", COUNT_FIELD_NAME)
      else AggregateBy(q1, op, o.attrY.columnName, COUNT_FIELD_NAME);
    var q3 :=
      if HasUnsharedFilter(o) then
        WhereClause(q2, And(whereNotNull, UnsharedClause(o.filterField.columnName, o.filterValue, isNumeric)))
      else q2;
    Limit(SortBy(q3, COUNT_FIELD_NAME, Descending), o.limitCount)
  }

  /**
   * The widget ignores its own filter: the filter set and the clicked value
   * change only the `ignoreFilters` part of the query, which is why a click
   * does not need a new query.
   */
  lemma OwnFilterOnlyIgnored(o: Options, f1: Option<FilterSet>, v1: Json, f2: Option<FilterSet>, v2: Json,
                             isNumeric: string -> bool)
    ensures BuildQuery(o, f1, v1, isNumeric).(ignoreFilters := []) == BuildQuery(o, f2, v2, isNumeric).(ignoreFilters := [])
  {
  }

  /** The unshared filter and its operator: `=` exactly when the text is numeric. */
  lemma UnsharedOperator(o: Options, f: Option<FilterSet>, v: Json, isNumeric: string -> bool)
    requires HasUnsharedFilter(o)
    ensures var w := BuildQuery(o, f, v, isNumeric).where.value;
      w.And? && w.right.Where? && w.right.field == o.filterField.columnName &&
      (w.right.op == "=" <==> isNumeric(o.filterValue)) &&
      (w.right.op == "contains" <==> !isNumeric(o.filterValue))
  {
  }

  // ---------------------------------------------------------------------------
  // Texts

  /** `getLegendText()`. */
  function LegendText(o: Options): string {
    if o.barType == "average" then "Average " + o.attrY.prettyName + " vs. " + o.attrX.prettyName
    else if o.barType == "sum" then "Sum " + o.attrY.prettyName + " vs. " + o.attrX.prettyName
    else if o.barType == "count" then "Count of " + o.attrX.prettyName
    else ""
  }

  /**
   * The legend names the query's aggregation: it is empty exactly when the bar
   * type gives no aggregate operation, it names the y field exactly when the
   * query aggregates it, and it always ends with the x field's pretty name.
   */
  lemma {:induction false} LegendMatchesQuery(o: Options, f: Option<FilterSet>, v: Json, isNumeric: string -> bool)
    ensures var q := BuildQuery(o, f, v, isNumeric);
      (LegendText(o) == "" <==> q.aggregates[0].op == NoOp) &&
      (q.aggregates[0].op == CountOp ==> q.aggregates[0].field == "*" && LegendText(o) == "Count of " + o.attrX.prettyName) &&
      (q.aggregates[0].op in {SumOp, AvgOp} ==>
        q.aggregates[0].field == o.attrY.columnName &&
        exists w :: LegendText(o) == w + " " + o.attrY.prettyName + " vs. " + o.attrX.prettyName)
  {
    var q := BuildQuery(o, f, v, isNumeric);
    if o.barType == "average" {
      assert LegendText(o) == "Average" + " " + o.attrY.prettyName + " vs. " + o.attrX.prettyName;
    } else if o.barType == "sum" {
      assert LegendText(o) == "Sum" + " " + o.attrY.prettyName + " vs. " + o.attrX.prettyName;
    } else if o.barType == "count" {
      assert |LegendText(o)| > 0;
    }
  }

  /** The number of bars the options button reports: the limit when the rows reached it, else 0. */
  function QueryLimitCount(rows: nat, limitCount: int): (r: int)
    ensures r == limitCount || r == 0
    ensures r == limitCount <== rows >= limitCount
    ensures r == 0 <== rows < limitCount
  {
    if rows >= limitCount then limitCount else 0
  }

  /** `showOptionsMenuButtonText()`. */
  predicate ShowOptionsMenuButtonText(queryLimitCount: int) {
    queryLimitCount > 0
  }

  /** `optionsMenuButtonText()`. */
  function OptionsMenuButtonText(queryLimitCount: int): (r: string)
    ensures r != "" <==> ShowOptionsMenuButtonText(queryLimitCount)
  {
    if queryLimitCount > 0 then "Limited to " + NatToString(queryLimitCount) + " Bars" else ""
  }

  /**
   * The button shows text exactly when the last result filled a positive
   * limit, and the number in the text reads back as that limit.
   */
  lemma {:induction false} LimitTextAfterQuery(rows: nat, limitCount: int)
    ensures var t := OptionsMenuButtonText(QueryLimitCount(rows, limitCount));
      (t != "" <==> limitCount > 0 && rows >= limitCount) &&
      (t != "" ==> (|t| > 16 && t[..11] == "Limited to " && t[|t| - 5..] == " Bars" &&
        (forall i :: 11 <= i < |t| - 5 ==> '0' <= t[i] <= '9') &&
        DecimalValue(t[11..|t| - 5]) == limitCount))
  {
    var n := QueryLimitCount(rows, limitCount);
    var t := OptionsMenuButtonText(n);
    if n > 0 {
      var digits := NatToString(n);
      assert t == "Limited to " + digits + " Bars";
      assert t[11..|t| - 5] == digits;
      NatToStringRoundTrip(n);
    }
  }

  // ---------------------------------------------------------------------------
  // Reading a saved binding back
  //
  // The bindings are `=` attributes of the directive, so a widget recreated
  // from saved bindings evaluates each saved text as an Angular expression.
  // The model reads a binding that is one single-quoted string literal, as
  // Angular's expression lexer reads it, and reads anything else as None.

  /** The character an escape sequence `\c` (other than `\u`) stands for. */
  function EscapeValue(c: char): char {
    match c
    case 'n' => '\n'
    case 'f' => '\U{000C}'
    case 'r' => '\r'
    case 't' => '\t'
    case 'v' => '\U{000B}'
    case _ => c
  }

  /**
   * The body of a single-quoted literal, read up to its closing quote: the
   * text it stands for and what follows the quote; None when the literal is
   * unterminated or holds a `\u` escape.
   */
  function ReadLiteral(t: string): Option<(string, string)>
    decreases |t|
  {
    if t == [] then None
    else if t[0] == '\'' then Some(("", t[1..]))
    else if t[0] == '\\' then
      if |t| < 2 || t[1] == 'u' then None
      else match ReadLiteral(t[2..])
        case None => None
        case Some(p) => Some(([EscapeValue(t[1])] + p.0, p.1))
    else match ReadLiteral(t[1..])
      case None => None
      case Some(p) => Some(([t[0]] + p.0, p.1))
  }

  /**
   * The text a saved binding gives the recreated widget: "" for an absent
   * binding, the literal's text for a binding that is exactly one string
   * literal, None for any other text.
   */
  function ReadBack(j: Json): Option<string> {
    if j == Undefined then Some("")
    else if j.Str? && |j.s| >= 1 && j.s[0] == '\'' then
      match ReadLiteral(j.s[1..])
      case Some(p) => if p.1 == [] then Some(p.0) else None
      case None => None
    else None
  }

  /** Text with neither a quote nor a backslash, which a literal holds verbatim. */
  predicate Plain(s: string) {
    forall i :: 0 <= i < |s| ==> s[i] != '\'' && s[i] != '\\'
  }

  /** Plain text followed by a quote is read as itself. */
  lemma {:induction false} ReadLiteralPlain(s: string, rest: string)
    requires Plain(s)
    ensures ReadLiteral(s + "'" + rest) == Some((s, rest))
    decreases |s|
  {
    if s != [] {
      var t := s + "'" + rest;
      assert t[0] == s[0] && t[1..] == s[1..] + "'" + rest;
      assert Plain(s[1..]) by {
        forall i | 0 <= i < |s[1..]| ensures s[1..][i] != '\'' && s[1..][i] != '\\' {
          assert s[1..][i] == s[i + 1];
        }
      }
      ReadLiteralPlain(s[1..], rest);
      assert s == [s[0]] + s[1..];
    }
  }

  /**
   * A literal's text is never longer than its body; it is exactly as long
   * only when the body is plain text followed by the closing quote.
   */
  lemma {:induction false} ReadLiteralLength(t: string)
    ensures ReadLiteral(t).Some? ==> |ReadLiteral(t).value.0| + 1 + |ReadLiteral(t).value.1| <= |t|
    ensures ReadLiteral(t).Some? && |ReadLiteral(t).value.0| + 1 + |ReadLiteral(t).value.1| == |t| ==>
      Plain(ReadLiteral(t).value.0) && t == ReadLiteral(t).value.0 + "'" + ReadLiteral(t).value.1
    decreases |t|
  {
    if t != [] && t[0] != '\'' {
      if t[0] == '\\' {
        if |t| >= 2 && t[1] != 'u' {
          ReadLiteralLength(t[2..]);
        }
      } else {
        ReadLiteralLength(t[1..]);
        if ReadLiteral(t).Some? {
          var p := ReadLiteral(t[1..]).value;
          assert ReadLiteral(t).value == ([t[0]] + p.0, p.1);
          if |p.0| + 1 + |p.1| == |t[1..]| {
            assert t == [t[0]] + t[1..];
          }
        }
      }
    }
  }

  /** `'s'` reads back as `s` exactly when `s` holds no quote and no backslash. */
  lemma {:induction false} QuotedReadBack(s: string)
    ensures ReadBack(Str(Quoted(s))) == Some(s) <==> Plain(s)
  {
    var q := Quoted(s);
    assert q[1..] == s + "'" + "";
    if Plain(s) {
      ReadLiteralPlain(s, "");
    } else {
      ReadLiteralLength(q[1..]);
    }
  }

  // ---------------------------------------------------------------------------
  // bindFields

  /** Angular's string literal `'s'`, as `bindFields` writes it: nothing is escaped. */
  function Quoted(s: string): string {
    "'" + s + "'"
  }

  /** `s` with every backslash and every quote preceded by a backslash. */
  function Escaped(s: string): (e: string)
    ensures |e| >= |s|
  {
    if s == [] then []
    else (if s[0] == '\'' || s[0] == '\\' then ['\\', s[0]] else [s[0]]) + Escaped(s[1..])
  }

  /** A string literal that stands for `s`, whatever `s` holds. */
  function QuotedEscaped(s: string): string {
    "'" + Escaped(s) + "'"
  }

  lemma {:induction false} EscapedPlain(s: string)
    requires Plain(s)
    ensures Escaped(s) == s
    decreases |s|
  {
    if s != [] {
      EscapedPlain(s[1..]);
    }
  }

  /** An escaped text followed by a quote is read as the original text. */
  lemma {:induction false} ReadLiteralEscaped(s: string, rest: string)
    ensures ReadLiteral(Escaped(s) + "'" + rest) == Some((s, rest))
    decreases |s|
  {
    if s != [] {
      var head := if s[0] == '\'' || s[0] == '\\' then ['\\', s[0]] else [s[0]];
      var t := Escaped(s) + "'" + rest;
      assert t == head + (Escaped(s[1..]) + "'" + rest);
      ReadLiteralEscaped(s[1..], rest);
      assert s == [s[0]] + s[1..];
      if |head| == 2 {
        assert t[0] == '\\' && t[1] == s[0] && t[2..] == Escaped(s[1..]) + "'" + rest;
      } else {
        assert t[0] == s[0] && t[1..] == Escaped(s[1..]) + "'" + rest;
      }
    }
  }

  lemma QuotedEscapedReadBack(s: string)
    ensures ReadBack(Str(QuotedEscaped(s))) == Some(s)
  {
    var q := QuotedEscaped(s);
    assert q[1..] == Escaped(s) + "'" + "";
    ReadLiteralEscaped(s, "");
  }

  /** A saved text binding: absent, or a string literal with or without escaping. */
  function SavedText(present: bool, s: string, escaped: bool): (j: Json)
    ensures IsTextBinding(j)
  {
    if !present then Undefined
    else if escaped then Str(QuotedEscaped(s))
    else Str(Quoted(s))
  }

  predicate HasYAxis(o: Options) {
    o.barType != "" && o.barType != "count" && o.attrY.columnName != ""
  }

  predicate HasFilterValue(o: Options) {
    o.filterField.columnName != "" && o.filterValue != ""
  }

  /**
   * The object `bindFields` returns, one property per binding
   * ("bind-title", "bind-x-axis-field", "bind-aggregation", "bind-y-axis-field",
   * "bind-table", "bind-database", "bind-limit", "bind-filter-field",
   * "bind-filter-value").
   */
  datatype BindingFields = BindingFields(
    title: Json,
    xAxisField: Json,
    aggregation: Json,
    yAxisField: Json,
    table: Json,
    database: Json,
    limit: Json,
    filterField: Json,
    filterValue: Json)

  /** A saved text binding is a quoted string or absent. */
  predicate IsTextBinding(j: Json) {
    j == Undefined || (j.Str? && |j.s| >= 2 && j.s[0] == '\'' && j.s[|j.s| - 1] == '\'')
  }

  /** Each binding is saved when it is set, quoted with or without escaping. */
  function SavedFields(o: Options, bindTitle: string, escaped: bool): (b: BindingFields)
    ensures IsTextBinding(b.title) && IsTextBinding(b.xAxisField) && IsTextBinding(b.aggregation)
    ensures IsTextBinding(b.yAxisField) && IsTextBinding(b.table) && IsTextBinding(b.database)
    ensures IsTextBinding(b.filterField) && IsTextBinding(b.filterValue)
    ensures b.limit == Num(o.limitCount)
  {
    BindingFields(
      SavedText(bindTitle != "", bindTitle, escaped),
      SavedText(o.attrX.columnName != "", o.attrX.columnName, escaped),
      SavedText(o.barType != "", o.barType, escaped),
      SavedText(HasYAxis(o), o.attrY.columnName, escaped),
      SavedText(o.table.name != "", o.table.name, escaped),
      SavedText(o.database.name != "", o.database.name, escaped),
      Num(o.limitCount),
      SavedText(o.filterField.columnName != "", o.filterField.columnName, escaped),
      SavedText(HasFilterValue(o), o.filterValue, escaped))
  }

  /** `bindFields()` as written: each set text is wrapped in quotes, unescaped. */
  function BindFieldsAsWritten(o: Options, bindTitle: string): (b: BindingFields)
    ensures b.title == if bindTitle == "" then Undefined else Str("'" + bindTitle + "'")
    ensures b.limit == Num(o.limitCount)
  {
    SavedFields(o, bindTitle, false)
  }

  /** `bindFields()` with every saved text escaped before it is quoted. */
  function BindFields(o: Options, bindTitle: string): (b: BindingFields)
    ensures IsTextBinding(b.title) && IsTextBinding(b.xAxisField) && IsTextBinding(b.aggregation)
    ensures IsTextBinding(b.yAxisField) && IsTextBinding(b.table) && IsTextBinding(b.database)
    ensures IsTextBinding(b.filterField) && IsTextBinding(b.filterValue)
    ensures b.limit == Num(o.limitCount)
  {
    SavedFields(o, bindTitle, true)
  }

  /**
   * What a widget created from the saved bindings receives as its
   * attributes; None when one of the texts is not a single string literal.
   */
  function BindingsOf(b: BindingFields): Option<Bindings> {
    var title, x, y, agg := ReadBack(b.title), ReadBack(b.xAxisField), ReadBack(b.yAxisField), ReadBack(b.aggregation);
    var ff, fv, tb, db := ReadBack(b.filterField), ReadBack(b.filterValue), ReadBack(b.table), ReadBack(b.database);
    if title.Some? && x.Some? && y.Some? && agg.Some? && ff.Some? && fv.Some? && tb.Some? && db.Some? then
      Some(Bindings(title.value, x.value, y.value, agg.value, if b.limit.Num? then b.limit.n else 0,
        ff.value, fv.value, tb.value, db.value))
    else None
  }

  lemma SavedTextReadBack(present: bool, s: string)
    ensures ReadBack(SavedText(present, s, true)) == Some(if present then s else "")
  {
    if present {
      QuotedEscapedReadBack(s);
    }
  }

  /**
   * As written, a title holding a quote (`Today's events`) is saved as text
   * that is not a single string literal, so no widget can be recreated with it.
   */
  lemma AsWrittenQuotedTitleLost(o: Options)
    ensures ReadBack(BindFieldsAsWritten(o, "Today's events").title) == None
    ensures BindingsOf(BindFieldsAsWritten(o, "Today's events")) == None
  {
    var q := Quoted("Today's events");
    assert q[1..] == "Today" + "'" + "s events'";
    ReadLiteralPlain("Today", "s events'");
  }

  /** On names with no quote and no backslash, escaping changes nothing. */
  lemma {:induction false} AsWrittenAgreesOnPlainText(o: Options, bindTitle: string)
    requires Plain(bindTitle) && Plain(o.attrX.columnName) && Plain(o.attrY.columnName) && Plain(o.barType)
    requires Plain(o.table.name) && Plain(o.database.name) && Plain(o.filterField.columnName) && Plain(o.filterValue)
    ensures BindFieldsAsWritten(o, bindTitle) == BindFields(o, bindTitle)
  {
    EscapedPlain(bindTitle);
    EscapedPlain(o.attrX.columnName);
    EscapedPlain(o.attrY.columnName);
    EscapedPlain(o.barType);
    EscapedPlain(o.table.name);
    EscapedPlain(o.database.name);
    EscapedPlain(o.filterField.columnName);
    EscapedPlain(o.filterValue);
  }

  /**
   * The saved bindings read back as the widget's options: every name, the
   * aggregation, the limit, and the y field and filter value exactly when
   * they take part in the query.
   */
  lemma {:induction false} BindFieldsRoundTrip(o: Options, bindTitle: string)
    ensures BindingsOf(BindFields(o, bindTitle)) == Some(Bindings(
      bindTitle,
      o.attrX.columnName,
      if HasYAxis(o) then o.attrY.columnName else "",
      o.barType,
      o.limitCount,
      o.filterField.columnName,
      if HasFilterValue(o) then o.filterValue else "",
      o.table.name,
      o.database.name))
  {
    SavedTextReadBack(bindTitle != "", bindTitle);
    SavedTextReadBack(o.attrX.columnName != "", o.attrX.columnName);
    SavedTextReadBack(HasYAxis(o), o.attrY.columnName);
    SavedTextReadBack(o.barType != "", o.barType);
    SavedTextReadBack(o.filterField.columnName != "", o.filterField.columnName);
    SavedTextReadBack(HasFilterValue(o), o.filterValue);
    SavedTextReadBack(o.table.name != "", o.table.name);
    SavedTextReadBack(o.database.name != "", o.database.name);
  }

  /**
   * A widget created from the saved bindings chooses the same x field: the
   * bound name wins over any mapping, and the field found is the first one
   * with the saved column name.
   */
  lemma {:induction false} BoundXAxisRestored(o: Options, bindTitle: string, fields: seq<Field>, mapping: string, i: nat)
    requires i < |fields| && fields[i] == o.attrX && o.attrX.columnName != ""
    requires forall j :: 0 <= j < i ==> fields[j].columnName != o.attrX.columnName
    ensures BindingsOf(BindFields(o, bindTitle)).Some?
    ensures ResolvedField(fields, BindingsOf(BindFields(o, bindTitle)).value.xAxisField, mapping) == o.attrX
  {
    BindFieldsRoundTrip(o, bindTitle);
    FieldNamedFirst(fields, o.attrX.columnName, i);
  }
}
