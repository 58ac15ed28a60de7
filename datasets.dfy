/**
 * The dataset as the bar chart sees it, and the bar chart's choice of
 * database, table and fields (client/components/barChart/barChart.directive.js,
 * displayActiveDataset, updateTables and updateFields).
 *
 * The dataset service itself is not part of this model: it is an interface
 * whose answers are inputs. Of it the model assumes only that a blank field
 * has no column name and that a field is valid exactly when it has one.
 */
module Datasets {
  import opened Values

  datatype Field = Field(columnName: string, prettyName: string)

  /** A table; `mappings` maps a neon mapping key (such as "bar_groups") to a column name. */
  datatype Table = Table(name: string, prettyName: string, fields: seq<Field>, mappings: map<string, string>)

  datatype Database = Database(name: string, prettyName: string, tables: seq<Table>)

  /** The mapping keys the bar chart reads. */
  const BAR_GROUPS := "bar_groups"
  const Y_AXIS := "y_axis"

  /** `datasetService.createBlankField()`. */
  function BlankField(): Field {
    Field("", "")
  }

  /** The `{}` the widget starts with as its database and table. */
  function EmptyDatabase(): Database {
    Database("", "", [])
  }

  function EmptyTable(): Table {
    Table("", "", [], map[])
  }

  /** `datasetService.isFieldValid(field)`. */
  predicate IsFieldValid(f: Field) {
    f.columnName != ""
  }

  // ---------------------------------------------------------------------------
  // The dataset service, as an interface

  /**
   * What the widget asks of `datasetService`: whether a dataset is active, its
   * databases, the tables of a database, the service's first table having a
   * list of mappings (or none), the sorted fields of a table, and the column a
   * mapping key names ("" when there is none).
   */
  datatype DatasetService = DatasetService(
    hasDataset: bool,
    databases: seq<Database>,
    tablesOf: string -> seq<Table>,
    firstTableWithMappings: (string, seq<string>) -> Option<Table>,
    sortedFields: (string, string) -> seq<Field>,
    mapping: (string, string, string) -> string)

  // ---------------------------------------------------------------------------
  // The widget's choices

  /** The index of the first occurrence of `name` in `names`, or -1. */
  function FirstIndexOf(names: seq<string>, name: string): (r: int)
    ensures -1 <= r < |names|
    ensures r >= 0 ==> names[r] == name && forall j :: 0 <= j < r ==> names[j] != name
    ensures r == -1 ==> forall j :: 0 <= j < |names| ==> names[j] != name
    decreases |names|
  {
    if names == [] then -1
    else if names[0] == name then 0
    else
      var r := FirstIndexOf(names[1..], name);
      if r < 0 then -1 else r + 1
  }

  function DatabaseNames(dbs: seq<Database>): (names: seq<string>)
    ensures |names| == |dbs| && forall i :: 0 <= i < |dbs| ==> names[i] == dbs[i].name
  {
    seq(|dbs|, i requires 0 <= i < |dbs| => dbs[i].name)
  }

  function TableNames(tables: seq<Table>): (names: seq<string>)
    ensures |names| == |tables| && forall i :: 0 <= i < |tables| ==> names[i] == tables[i].name
  {
    seq(|tables|, i requires 0 <= i < |tables| => tables[i].name)
  }

  /** The database chosen: the first one named `bind` when `bind` is set and matches, else the first. */
  function ChosenDatabase(dbs: seq<Database>, bind: string): Option<Database> {
    if dbs == [] then None
    else if bind != "" && FirstIndexOf(DatabaseNames(dbs), bind) >= 0 then Some(dbs[FirstIndexOf(DatabaseNames(dbs), bind)])
    else Some(dbs[0])
  }

  /**
   * The table chosen: the first one named `bind` when `bind` is set and
   * matches, else the service's first table with the bar chart's mappings,
   * else the first table.
   */
  function ChosenTable(tables: seq<Table>, mapped: Option<Table>, bind: string): Option<Table> {
    if bind != "" && FirstIndexOf(TableNames(tables), bind) >= 0 then Some(tables[FirstIndexOf(TableNames(tables), bind)])
    else if mapped.Some? then mapped
    else if tables != [] then Some(tables[0])
    else None
  }

  /** The field with the bound name, else the mapped name, else "": that field if listed, else blank. */
  function ResolvedField(fields: seq<Field>, bound: string, mapping: string): Field {
    var name := OrStr(bound, mapping);
    FieldNamed(fields, name)
  }

  /** `_.find(fields, f => f.columnName === name) || createBlankField()`. */
  function FieldNamed(fields: seq<Field>, name: string): (r: Field)
    ensures r == BlankField() || (r in fields && r.columnName == name)
    ensures (forall i :: 0 <= i < |fields| ==> fields[i].columnName != name) ==> r == BlankField()
    ensures forall i :: 0 <= i < |fields| && fields[i].columnName == name ==> r.columnName == name
    decreases |fields|
  {
    if fields == [] then BlankField()
    else if fields[0].columnName == name then fields[0]
    else FieldNamed(fields[1..], name)
  }

  /** The database search loop of `displayActiveDataset`. */
  method ChooseDatabase(dbs: seq<Database>, bind: string) returns (r: Option<Database>)
    ensures r == ChosenDatabase(dbs, bind)
  {
    if dbs == [] {
      return None;
    }
    r := Some(dbs[0]);
    if bind != "" {
      var i := 0;
      while i < |dbs|
        invariant 0 <= i <= |dbs|
        invariant forall j :: 0 <= j < i ==> dbs[j].name != bind
        invariant r == Some(dbs[0])
      {
        if bind == dbs[i].name {
          r := Some(dbs[i]);
          break;
        }
        i := i + 1;
      }
    }
  }

  /** The table choice of `updateTables`, with its search loop. */
  method ChooseTable(tables: seq<Table>, mapped: Option<Table>, bind: string) returns (r: Option<Table>)
    ensures r == ChosenTable(tables, mapped, bind)
  {
    r := if mapped.Some? then mapped else if tables != [] then Some(tables[0]) else None;
    if bind != "" {
      var i := 0;
      while i < |tables|
        invariant 0 <= i <= |tables|
        invariant forall j :: 0 <= j < i ==> tables[j].name != bind
        invariant r == if mapped.Some? then mapped else if tables != [] then Some(tables[0]) else None
      {
        if bind == tables[i].name {
          r := Some(tables[i]);
          break;
        }
        i := i + 1;
      }
    }
  }

  // ---------------------------------------------------------------------------
  // Properties of the choices

  /** A bound name that matches picks the first match; otherwise the first database is taken. */
  lemma ChosenDatabaseSpec(dbs: seq<Database>, bind: string)
    ensures ChosenDatabase(dbs, bind).None? <==> dbs == []
    ensures ChosenDatabase(dbs, bind).Some? ==> ChosenDatabase(dbs, bind).value in dbs
    ensures forall i :: (0 <= i < |dbs| && bind != "" && dbs[i].name == bind
      && (forall j :: 0 <= j < i ==> dbs[j].name != bind)) ==> ChosenDatabase(dbs, bind) == Some(dbs[i])
    ensures dbs != [] && (bind == "" || forall i :: 0 <= i < |dbs| ==> dbs[i].name != bind) ==>
      ChosenDatabase(dbs, bind) == Some(dbs[0])
  {
  }

  /** The table choice: a bound match first, then the mapped table, then the first table. */
  lemma ChosenTableSpec(tables: seq<Table>, mapped: Option<Table>, bind: string)
    ensures ChosenTable(tables, mapped, bind).None? <==>
      tables == [] && mapped.None?
    ensures forall i :: (0 <= i < |tables| && bind != "" && tables[i].name == bind
      && (forall j :: 0 <= j < i ==> tables[j].name != bind)) ==> ChosenTable(tables, mapped, bind) == Some(tables[i])
    ensures (bind == "" || forall i :: 0 <= i < |tables| ==> tables[i].name != bind) ==>
      ChosenTable(tables, mapped, bind) == if mapped.Some? then mapped else if tables != [] then Some(tables[0]) else None
  {
  }

  /**
   * Field resolution: the bound name wins over the mapping, even when no
   * field has the bound name (the result is then blank, not the mapped field).
   */
  lemma ResolvedFieldSpec(fields: seq<Field>, bound: string, mapping: string)
    ensures bound != "" ==> ResolvedField(fields, bound, mapping) == FieldNamed(fields, bound)
    ensures bound == "" ==> ResolvedField(fields, bound, mapping) == FieldNamed(fields, mapping)
    ensures bound != "" && (forall i :: 0 <= i < |fields| ==> fields[i].columnName != bound) ==>
      ResolvedField(fields, bound, mapping) == BlankField()
  {
  }

  /** The field found for a name is the first listed field with that name. */
  lemma {:induction false} FieldNamedFirst(fields: seq<Field>, name: string, i: nat)
    requires i < |fields| && fields[i].columnName == name
    requires forall j :: 0 <= j < i ==> fields[j].columnName != name
    ensures FieldNamed(fields, name) == fields[i]
    decreases i
  {
    if i > 0 {
      FieldNamedFirst(fields[1..], name, i - 1);
    }
  }
}
