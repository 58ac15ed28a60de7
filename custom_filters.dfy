/**
 * Normalisation of the custom-filter configuration
 * (client/app/neonGTDSetup.js, saveCustomFilters): every group of every table
 * of every database gets an input operator and an item list, every item a
 * label, a value and an operator, and every multi-field filter a list of
 * `where` clauses whose values are arrays.
 *
 * The source rewrites the configuration objects in place; the model returns
 * the normalised configuration, with input and output types of its own.
 */
module CustomFilters {
  import opened Values

  // ---------------------------------------------------------------------------
  // The configuration as read

  /** The `value` of a `where` clause: an array, or any other JSON value (undefined when missing). */
  datatype WhereValue = Scalar(v: Json) | Array(items: seq<Json>)

  /** A `where` clause; a missing operator is "". */
  datatype WhereIn = WhereIn(value: WhereValue, operator: string)

  /** A filter item; `multi` maps a field to its list of `where` clauses (a missing `multi` is empty). */
  datatype ItemIn = ItemIn(display: Json, value: Json, field: Json, operator: string,
                           multi: map<string, seq<WhereIn>>)

  datatype GroupInput = GroupInput(operator: string)

  /** A filter group, whose `input` and `items` may be missing. */
  datatype GroupIn = GroupIn(input: Option<GroupInput>, items: Option<seq<ItemIn>>)

  /** `customFilters`: database -> table -> groups. */
  type FiltersIn = map<string, map<string, seq<GroupIn>>>

  // ---------------------------------------------------------------------------
  // The configuration as normalised

  datatype Where = Where(value: seq<Json>, operator: string)

  /** `item.multi[field]` after normalisation: an object holding the clauses under `where`. */
  datatype MultiFilter = MultiFilter(where: seq<Where>)

  datatype Item = Item(display: Json, value: Json, field: Json, operator: string, multi: map<string, MultiFilter>)

  datatype Group = Group(input: GroupInput, items: seq<Item>)

  type Filters = map<string, map<string, seq<Group>>>

  // ---------------------------------------------------------------------------
  // Specification

  function NormalWhereValue(v: WhereValue): seq<Json> {
    match v
    case Array(xs) => xs
    case Scalar(x) => if Truthy(x) then [x] else [Null]
  }

  /** `where.value[0] === null` (false on an empty array, whose first element is undefined). */
  predicate NullFirst(vs: seq<Json>) {
    |vs| > 0 && vs[0] == Null
  }

  function NormalWhere(w: WhereIn): Where {
    var vs := NormalWhereValue(w.value);
    Where(vs, OrStr(w.operator, if NullFirst(vs) then "!=" else "="))
  }

  function NormalWheres(ws: seq<WhereIn>): seq<Where> {
    seq(|ws|, i requires 0 <= i < |ws| => NormalWhere(ws[i]))
  }

  function NormalMulti(m: map<string, seq<WhereIn>>): map<string, MultiFilter> {
    map f | f in m :: MultiFilter(NormalWheres(m[f]))
  }

  function NormalItem(it: ItemIn): Item {
    var value := Or(it.value, Null);
    Item(Or(Or(it.display, it.value), it.field), value, it.field,
         OrStr(it.operator, if value == Null then "!=" else "="), NormalMulti(it.multi))
  }

  function NormalItems(items: seq<ItemIn>): seq<Item> {
    seq(|items|, i requires 0 <= i < |items| => NormalItem(items[i]))
  }

  function NormalGroup(g: GroupIn): Group {
    var op := if g.input.Some? then g.input.value.operator else "";
    var items := if g.items.Some? then g.items.value else [];
    Group(GroupInput(OrStr(op, "=")), NormalItems(items))
  }

  function NormalGroups(gs: seq<GroupIn>): seq<Group> {
    seq(|gs|, i requires 0 <= i < |gs| => NormalGroup(gs[i]))
  }

  function NormalTables(t: map<string, seq<GroupIn>>): map<string, seq<Group>> {
    map k | k in t :: NormalGroups(t[k])
  }

  function NormalFilters(cf: FiltersIn): Filters {
    map k | k in cf :: NormalTables(cf[k])
  }

  // ---------------------------------------------------------------------------
  // The loops of saveCustomFilters

  /** The `where.forEach` loop of one multi-field filter. */
  method NormaliseWheres(ws: seq<WhereIn>) returns (r: seq<Where>)
    ensures r == NormalWheres(ws)
  {
    r := [];
    var i := 0;
    while i < |ws|
      invariant 0 <= i <= |ws|
      invariant |r| == i && forall j :: 0 <= j < i ==> r[j] == NormalWhere(ws[j])
    {
      var w := ws[i];
      var value := match w.value
        case Array(xs) => xs
        case Scalar(x) => if Truthy(x) then [x] else [Null];
      var operator := if w.operator != "" then w.operator
                      else if |value| > 0 && value[0] == Null then "!=" else "=";
      r := r + [Where(value, operator)];
      i := i + 1;
    }
  }

  /** The `Object.keys(item.multi).forEach` loop. */
  method NormaliseMulti(m: map<string, seq<WhereIn>>) returns (r: map<string, MultiFilter>)
    ensures r == NormalMulti(m)
  {
    r := map[];
    var todo := m.Keys;
    while todo != {}
      invariant todo <= m.Keys
      invariant r.Keys == m.Keys - todo
      invariant forall f :: f in r ==> r[f] == MultiFilter(NormalWheres(m[f]))
      decreases todo
    {
      var f :| f in todo;
      var wheres := NormaliseWheres(m[f]);
      r := r[f := MultiFilter(wheres)];
      todo := todo - {f};
    }
  }

  /** The `group.items.forEach` loop. */
  method NormaliseItems(items: seq<ItemIn>) returns (r: seq<Item>)
    ensures r == NormalItems(items)
  {
    r := [];
    var i := 0;
    while i < |items|
      invariant 0 <= i <= |items|
      invariant |r| == i && forall j :: 0 <= j < i ==> r[j] == NormalItem(items[j])
    {
      var it := items[i];
      var display := Or(Or(it.display, it.value), it.field);
      var value := Or(it.value, Null);
      var operator := if it.operator != "" then it.operator else if value == Null then "!=" else "=";
      var multi := NormaliseMulti(it.multi);
      r := r + [Item(display, value, it.field, operator, multi)];
      i := i + 1;
    }
  }

  /** The `customFilters[database][table].forEach` loop over groups. */
  method NormaliseGroups(gs: seq<GroupIn>) returns (r: seq<Group>)
    ensures r == NormalGroups(gs)
  {
    r := [];
    var i := 0;
    while i < |gs|
      invariant 0 <= i <= |gs|
      invariant |r| == i && forall j :: 0 <= j < i ==> r[j] == NormalGroup(gs[j])
    {
      var g := gs[i];
      var input := if g.input.Some? then g.input.value else GroupInput("");
      input := input.(operator := if input.operator != "" then input.operator else "=");
      var items := NormaliseItems(if g.items.Some? then g.items.value else []);
      r := r + [Group(input, items)];
      i := i + 1;
    }
  }

  /** The `Object.keys(customFilters[database]).forEach` loop over tables. */
  method NormaliseTables(t: map<string, seq<GroupIn>>) returns (r: map<string, seq<Group>>)
    ensures r == NormalTables(t)
  {
    r := map[];
    var todo := t.Keys;
    while todo != {}
      invariant todo <= t.Keys
      invariant r.Keys == t.Keys - todo
      invariant forall k :: k in r ==> r[k] == NormalGroups(t[k])
      decreases todo
    {
      var k :| k in todo;
      var groups := NormaliseGroups(t[k]);
      r := r[k := groups];
      todo := todo - {k};
    }
  }

  /** `saveCustomFilters`: the value it registers as `customFilters` (an empty object when none is configured). */
  method SaveCustomFilters(customFilters: Option<FiltersIn>) returns (r: Filters)
    ensures r == NormalFilters(if customFilters.Some? then customFilters.value else map[])
  {
    var cf := if customFilters.Some? then customFilters.value else map[];
    r := map[];
    var todo := cf.Keys;
    while todo != {}
      invariant todo <= cf.Keys
      invariant r.Keys == cf.Keys - todo
      invariant forall k :: k in r ==> r[k] == NormalTables(cf[k])
      decreases todo
    {
      var k :| k in todo;
      var tables := NormaliseTables(cf[k]);
      r := r[k := tables];
      todo := todo - {k};
    }
  }

  // ---------------------------------------------------------------------------
  // What normalisation guarantees

  /**
   * A normalised `where` clause: a missing or falsy value becomes `[null]`, a
   * single truthy value a one-element array, an array stays as it is; the
   * value is non-empty unless the input was an empty array; the operator is
   * set, and when it was missing it is "!=" exactly when the first value is null.
   */
  lemma WhereNormal(w: WhereIn)
    ensures var r := NormalWhere(w);
      && (w.value.Scalar? && !Truthy(w.value.v) ==> r.value == [Null])
      && (w.value.Scalar? && Truthy(w.value.v) ==> r.value == [w.value.v])
      && (w.value.Array? ==> r.value == w.value.items)
      && (|r.value| == 0 <==> w.value == Array([]))
      && r.operator != ""
      && (w.operator != "" ==> r.operator == w.operator)
      && (w.operator == "" ==> (r.operator == "!=" <==> NullFirst(r.value)))
  {
  }

  /**
   * A normalised item: its label is the first truthy one of label, value and
   * field; its value is truthy or null; its operator is set, "!=" by default
   * exactly when the value is null.
   */
  lemma ItemNormal(it: ItemIn)
    ensures var r := NormalItem(it);
      && (Truthy(it.display) ==> r.display == it.display)
      && (!Truthy(it.display) && Truthy(it.value) ==> r.display == it.value)
      && (!Truthy(it.display) && !Truthy(it.value) ==> r.display == it.field)
      && (Truthy(it.display) || Truthy(it.value) || Truthy(it.field) <==> Truthy(r.display))
      && (Truthy(r.value) || r.value == Null)
      && (Truthy(it.value) ==> r.value == it.value)
      && (!Truthy(it.value) ==> r.value == Null)
      && r.operator != ""
      && (it.operator == "" ==> (r.operator == "!=" <==> r.value == Null))
      && r.multi.Keys == it.multi.Keys
  {
  }

  /** A normalised group has an input operator, "=" by default, and its items normalised in order. */
  lemma GroupNormal(g: GroupIn)
    ensures var r := NormalGroup(g);
      && r.input.operator != ""
      && (g.input.None? ==> r.input.operator == "=")
      && (g.items.None? ==> r.items == [])
      && (g.items.Some? ==>
            |r.items| == |g.items.value| &&
            forall i :: 0 <= i < |r.items| ==> r.items[i] == NormalItem(g.items.value[i]))
  {
  }

  /** Normalisation keeps every database, table, group, item and multi-field filter, and no more. */
  lemma FiltersShape(cf: FiltersIn, db: string, table: string)
    requires db in cf && table in cf[db]
    ensures db in NormalFilters(cf) && table in NormalFilters(cf)[db]
    ensures NormalFilters(cf).Keys == cf.Keys && NormalFilters(cf)[db].Keys == cf[db].Keys
    ensures |NormalFilters(cf)[db][table]| == |cf[db][table]|
    ensures forall i :: 0 <= i < |cf[db][table]| ==> NormalFilters(cf)[db][table][i] == NormalGroup(cf[db][table][i])
  {
  }

  // ---------------------------------------------------------------------------
  // Normalising what is already normal changes nothing

  /** A normalised clause read back as configuration. */
  function WhereAsConfig(w: Where): WhereIn {
    WhereIn(Array(w.value), w.operator)
  }

  /** A normalised item without multi-field filters read back as configuration. */
  function ItemAsConfig(it: Item): ItemIn {
    ItemIn(it.display, it.value, it.field, it.operator, map[])
  }

  function GroupAsConfig(g: Group): GroupIn {
    GroupIn(Some(g.input), Some(seq(|g.items|, i requires 0 <= i < |g.items| => ItemAsConfig(g.items[i]))))
  }

  lemma WhereIdempotent(w: WhereIn)
    ensures NormalWhere(WhereAsConfig(NormalWhere(w))) == NormalWhere(w)
  {
  }

  lemma ItemIdempotent(it: ItemIn)
    requires it.multi == map[]
    ensures NormalItem(ItemAsConfig(NormalItem(it))) == NormalItem(it)
  {
  }

  lemma GroupIdempotent(g: GroupIn)
    requires g.items.Some? ==> forall i :: 0 <= i < |g.items.value| ==> g.items.value[i].multi == map[]
    ensures NormalGroup(GroupAsConfig(NormalGroup(g))) == NormalGroup(g)
  {
    var r := NormalGroup(g);
    var g2 := GroupAsConfig(r);
    assert |NormalGroup(g2).items| == |r.items|;
    forall i | 0 <= i < |r.items| ensures NormalGroup(g2).items[i] == r.items[i] {
      var items := if g.items.Some? then g.items.value else [];
      assert r.items[i] == NormalItem(items[i]);
      ItemIdempotent(items[i]);
    }
  }
}
