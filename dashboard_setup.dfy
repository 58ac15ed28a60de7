/**
 * The configuration steps of the dashboard setup object
 * (client/app/neonGTDSetup.js): the merge of configured visualizations into
 * the visualization catalogue and their size defaults (saveDashboards), the
 * filling of layout entries from the catalogue (saveLayouts), and the values
 * the setup registers with the application (saveCustomFilters, saveExternal).
 */
module DashboardSetup {
  import opened Values
  import ExternalServices
  import CustomFilters

  /**
   * A visualization of the catalogue or of a layout. A missing or zero size
   * is 0 (both are falsy); `exclude` is false when missing.
   */
  datatype Visualization = Visualization(vtype: string, name: string,
                                         sizeX: int, sizeY: int, minSizeX: int, minSizeY: int,
                                         minPixelX: int, minPixelY: int, exclude: bool)

  datatype Help = Help(guide: Json, webVideo: Json, localVideo: Json)

  /**
   * The dashboard settings: the boolean options (`hideNavbarItems`,
   * `showImport`, ...) by name, `showExport`, the gridster column count and
   * margins (0 when missing), the theme and the help settings.
   */
  datatype Dashboard = Dashboard(flags: map<string, Json>, showExport: Json, gridsterColumns: int,
                                 gridsterMargins: int, theme: Json, help: Help)

  /** The parts of the dashboard configuration file `saveDashboards` reads. */
  datatype DashboardConfig = DashboardConfig(dashboard: Option<Dashboard>, help: Option<Help>, theme: Json,
                                             visualizations: Option<seq<Visualization>>)

  /** The `external` constant: how many services there are, and the services. */
  datatype External = External(active: nat, services: map<string, ExternalServices.Service>)

  // ---------------------------------------------------------------------------
  // The dashboard settings

  function DefaultHelp(): Help {
    Help(Undefined, Undefined, Undefined)
  }

  function DefaultDashboard(): Dashboard {
    Dashboard(map["hideNavbarItems" := Bool(false), "hideAddVisualizationsButton" := Bool(false),
                  "hideAdvancedOptions" := Bool(false), "hideErrorNotifications" := Bool(false),
                  "hideHeader" := Bool(false), "showImport" := Bool(false)],
              Bool(true), 0, 0, Undefined, DefaultHelp())
  }

  /** `showExport` is true unless it is set to a falsy value. */
  function ShowExport(v: Json): (r: Json)
    ensures r == Bool(true) || r == Bool(false)
    ensures r == Bool(true) <==> v == Undefined || Truthy(v)
  {
    if v == Undefined || Truthy(v) then Bool(true) else Bool(false)
  }

  /** The `config` constant `saveDashboards` registers. */
  function DashboardValue(cfg: DashboardConfig): Dashboard {
    var d := if cfg.dashboard.Some? then cfg.dashboard.value else DefaultDashboard();
    d.(theme := cfg.theme,
       gridsterColumns := OrNum(d.gridsterColumns, 24),
       gridsterMargins := OrNum(d.gridsterMargins, 10),
       help := if cfg.help.Some? then cfg.help.value else DefaultHelp(),
       showExport := ShowExport(d.showExport))
  }

  // ---------------------------------------------------------------------------
  // The visualization catalogue

  /** `_.findIndex(vis, {type: t})`: the first index with type `t`, or -1. */
  function FindIndex(vis: seq<Visualization>, t: string): (r: int)
    ensures -1 <= r < |vis|
    ensures r >= 0 ==> vis[r].vtype == t && forall j :: 0 <= j < r ==> vis[j].vtype != t
    ensures r == -1 <==> forall j :: 0 <= j < |vis| ==> vis[j].vtype != t
    decreases |vis|
  {
    if vis == [] then -1
    else if vis[0].vtype == t then 0
    else
      var r := FindIndex(vis[1..], t);
      if r < 0 then -1 else r + 1
  }

  /** The catalogue after one configured visualization: appended, spliced out, or replacing its type. */
  function MergeOne(vis: seq<Visualization>, v: Visualization): seq<Visualization> {
    var i := FindIndex(vis, v.vtype);
    if i < 0 then vis + [v]
    else if v.exclude then vis[..i] + vis[i + 1..]
    else vis[i := v]
  }

  /** The catalogue after the configured visualizations, in order. */
  function Merged(vis: seq<Visualization>, vs: seq<Visualization>): seq<Visualization>
    decreases |vs|
  {
    if vs == [] then vis else MergeOne(Merged(vis, vs[..|vs| - 1]), vs[|vs| - 1])
  }

  /** A catalogue entry after the size defaults of `saveDashboards`. */
  function WithDefaults(v: Visualization, columns: int, minPixel: (int, int)): Visualization {
    v.(sizeX := OrNum(v.sizeX, columns / 4),
       sizeY := OrNum(v.sizeY, columns / 5),
       minPixelX := OrNum(v.minPixelX, minPixel.0),
       minPixelY := OrNum(v.minPixelY, minPixel.1),
       minSizeX := 1,
       minSizeY := 1)
  }

  function AllWithDefaults(vis: seq<Visualization>, columns: int, minPixel: (int, int)): seq<Visualization> {
    seq(|vis|, i requires 0 <= i < |vis| => WithDefaults(vis[i], columns, minPixel))
  }

  /** The first catalogue entry of type `t`. */
  function Find(vis: seq<Visualization>, t: string): Option<Visualization> {
    var i := FindIndex(vis, t);
    if i < 0 then None else Some(vis[i])
  }

  /** No two catalogue entries share a type. */
  predicate DistinctTypes(vis: seq<Visualization>) {
    forall i, j :: 0 <= i < j < |vis| ==> vis[i].vtype != vis[j].vtype
  }

  /** A layout entry filled from the catalogue entry of its type, if there is one. */
  function Filled(v: Visualization, vis: seq<Visualization>): Visualization {
    match Find(vis, v.vtype)
    case None => v
    case Some(c) =>
      v.(name := c.name,
         sizeX := OrNum(v.sizeX, c.sizeX), sizeY := OrNum(v.sizeY, c.sizeY),
         minSizeX := OrNum(v.minSizeX, c.minSizeX), minSizeY := OrNum(v.minSizeY, c.minSizeY),
         minPixelX := OrNum(v.minPixelX, c.minPixelX), minPixelY := OrNum(v.minPixelY, c.minPixelY))
  }

  function FilledLayout(layout: seq<Visualization>, vis: seq<Visualization>): seq<Visualization> {
    seq(|layout|, i requires 0 <= i < |layout| => Filled(layout[i], vis))
  }

  function FilledLayouts(layouts: map<string, seq<Visualization>>, vis: seq<Visualization>)
    : map<string, seq<Visualization>>
  {
    map l | l in layouts :: FilledLayout(layouts[l], vis)
  }

  // ---------------------------------------------------------------------------
  // The loops of saveDashboards and saveLayouts

  /** The dashboard settings with their defaults. */
  method BuildDashboard(cfg: DashboardConfig) returns (d: Dashboard)
    ensures d == DashboardValue(cfg)
  {
    d := if cfg.dashboard.Some? then cfg.dashboard.value else DefaultDashboard();
    d := d.(theme := cfg.theme);
    d := d.(gridsterColumns := if d.gridsterColumns != 0 then d.gridsterColumns else 24);
    d := d.(gridsterMargins := if d.gridsterMargins != 0 then d.gridsterMargins else 10);
    d := d.(help := if cfg.help.Some? then cfg.help.value else DefaultHelp());
    d := d.(showExport := if d.showExport == Undefined || Truthy(d.showExport) then Bool(true) else Bool(false));
  }

  /** The `(config.visualizations || []).forEach` loop over the catalogue. */
  method MergeVisualizations(vis: seq<Visualization>, vs: seq<Visualization>) returns (r: seq<Visualization>)
    ensures r == Merged(vis, vs)
  {
    r := vis;
    var i := 0;
    while i < |vs|
      invariant 0 <= i <= |vs|
      invariant r == Merged(vis, vs[..i])
    {
      assert vs[..i + 1][..i] == vs[..i];
      var v := vs[i];
      var index := FindIndex(r, v.vtype);
      if index < 0 {
        r := r + [v];
      } else if v.exclude {
        r := r[..index] + r[index + 1..];
      } else {
        r := r[index := v];
      }
      i := i + 1;
    }
    assert vs[..|vs|] == vs;
  }

  /** The `VISUALIZATIONS.forEach` loop that fills the size defaults. */
  method ApplyDefaults(vis: seq<Visualization>, columns: int, minPixel: (int, int)) returns (r: seq<Visualization>)
    ensures r == AllWithDefaults(vis, columns, minPixel)
  {
    r := vis;
    var j := 0;
    while j < |r|
      invariant 0 <= j <= |r| == |vis|
      invariant forall k :: 0 <= k < j ==> r[k] == WithDefaults(vis[k], columns, minPixel)
      invariant forall k :: j <= k < |vis| ==> r[k] == vis[k]
    {
      var v := r[j];
      v := v.(sizeX := if v.sizeX != 0 then v.sizeX else columns / 4);
      v := v.(sizeY := if v.sizeY != 0 then v.sizeY else columns / 5);
      v := v.(minPixelX := if v.minPixelX != 0 then v.minPixelX else minPixel.0);
      v := v.(minPixelY := if v.minPixelY != 0 then v.minPixelY else minPixel.1);
      v := v.(minSizeX := 1, minSizeY := 1);
      r := r[j := v];
      j := j + 1;
    }
  }

  /** The `layouts[layout].forEach` loop of one layout. */
  method FillLayout(layout: seq<Visualization>, vis: seq<Visualization>) returns (filled: seq<Visualization>)
    ensures filled == FilledLayout(layout, vis)
  {
    filled := [];
    var i := 0;
    while i < |layout|
      invariant 0 <= i <= |layout|
      invariant |filled| == i && forall k :: 0 <= k < i ==> filled[k] == Filled(layout[k], vis)
    {
      var v := layout[i];
      var index := FindIndex(vis, v.vtype);
      if index >= 0 {
        var c := vis[index];
        v := v.(name := c.name);
        v := v.(sizeX := OrNum(v.sizeX, c.sizeX), sizeY := OrNum(v.sizeY, c.sizeY));
        v := v.(minSizeX := OrNum(v.minSizeX, c.minSizeX), minSizeY := OrNum(v.minSizeY, c.minSizeY));
        v := v.(minPixelX := OrNum(v.minPixelX, c.minPixelX), minPixelY := OrNum(v.minPixelY, c.minPixelY));
      }
      filled := filled + [v];
      i := i + 1;
    }
  }

  /** The `Object.keys(layouts).forEach` loop. */
  method FillLayouts(ls: map<string, seq<Visualization>>, vis: seq<Visualization>)
    returns (r: map<string, seq<Visualization>>)
    ensures r == FilledLayouts(ls, vis)
  {
    r := map[];
    var todo := ls.Keys;
    while todo != {}
      invariant todo <= ls.Keys
      invariant r.Keys == ls.Keys - todo
      invariant forall l :: l in r ==> r[l] == FilledLayout(ls[l], vis)
      decreases todo
    {
      var l :| l in todo;
      var filled := FillLayout(ls[l], vis);
      r := r[l := filled];
      todo := todo - {l};
    }
  }

  // ---------------------------------------------------------------------------
  // The setup object and what it registers

  class Setup {
    /** The global visualization catalogue, updated in place by `saveDashboards`. */
    var visualizations: seq<Visualization>
    /** `neonVisualizationMinPixel`, a global of the page. */
    const minPixel: (int, int)

    /** The values registered with the application so far. */
    var config: Option<Dashboard>
    var registeredVisualizations: Option<seq<Visualization>>
    var layouts: Option<map<string, seq<Visualization>>>
    var customFilters: Option<CustomFilters.Filters>
    var external: Option<External>

    /** A setup over the catalogue the page defines (empty when it defines none). */
    constructor(catalogue: seq<Visualization>, minPixel: (int, int))
      ensures visualizations == catalogue && this.minPixel == minPixel
      ensures config == None && registeredVisualizations == None && layouts == None
      ensures customFilters == None && external == None
    {
      visualizations := catalogue;
      this.minPixel := minPixel;
      config := None;
      registeredVisualizations := None;
      layouts := None;
      customFilters := None;
      external := None;
    }

    /**
     * `saveDashboards(config)`: registers the dashboard settings, merges the
     * configured visualizations into the catalogue, gives every entry its
     * size defaults and registers the catalogue.
     */
    method SaveDashboards(cfg: DashboardConfig)
      modifies this
      ensures config == Some(DashboardValue(cfg))
      ensures visualizations == AllWithDefaults(
        Merged(old(visualizations), if cfg.visualizations.Some? then cfg.visualizations.value else []),
        DashboardValue(cfg).gridsterColumns, minPixel)
      ensures registeredVisualizations == Some(visualizations)
      ensures layouts == old(layouts) && customFilters == old(customFilters) && external == old(external)
    {
      var d := BuildDashboard(cfg);
      config := Some(d);
      var vs := if cfg.visualizations.Some? then cfg.visualizations.value else [];
      var merged := MergeVisualizations(visualizations, vs);
      var defaulted := ApplyDefaults(merged, d.gridsterColumns, minPixel);
      visualizations := defaulted;
      registeredVisualizations := Some(visualizations);
    }

    /** `saveLayouts(layouts)`: fills every layout entry from the catalogue and registers the layouts. */
    method SaveLayouts(ls: map<string, seq<Visualization>>)
      modifies this
      ensures layouts == Some(FilledLayouts(ls, visualizations))
      ensures visualizations == old(visualizations) && config == old(config)
      ensures registeredVisualizations == old(registeredVisualizations)
      ensures customFilters == old(customFilters) && external == old(external)
    {
      var r := FillLayouts(ls, visualizations);
      layouts := Some(r);
    }

    /** `saveCustomFilters(config)`: registers the normalised custom filters. */
    method SaveCustomFilters(cf: Option<CustomFilters.FiltersIn>)
      modifies this
      ensures customFilters == Some(CustomFilters.NormalFilters(if cf.Some? then cf.value else map[]))
      ensures visualizations == old(visualizations) && config == old(config) && layouts == old(layouts)
      ensures registeredVisualizations == old(registeredVisualizations) && external == old(external)
    {
      var r := CustomFilters.SaveCustomFilters(cf);
      customFilters := Some(r);
    }

    /** `saveExternal(services)`: registers the services with the number of services as `active`. */
    method SaveExternal(services: map<string, ExternalServices.Service>)
      modifies this
      ensures external == Some(External(|services.Keys|, services))
      ensures visualizations == old(visualizations) && config == old(config) && layouts == old(layouts)
      ensures registeredVisualizations == old(registeredVisualizations) && customFilters == old(customFilters)
    {
      external := Some(External(|services.Keys|, services));
    }
  }

  // ---------------------------------------------------------------------------
  // Properties of the merge and the defaults

  /**
   * One merge step leaves the entries of every other type as they were, and
   * for the configured type: an unknown one is appended (even when marked
   * `exclude`), a known one is replaced, or removed when marked `exclude`.
   */
  /**
   * Where one merge step puts the configured visualization: at the end for
   * an unknown type; at the position of the first one of its type for a
   * replacement, every other position unchanged; a removal closes the gap.
   */
  lemma MergeOnePositions(vis: seq<Visualization>, v: Visualization)
    ensures (forall j :: 0 <= j < |vis| ==> vis[j].vtype != v.vtype) ==> MergeOne(vis, v) == vis + [v]
    ensures forall i :: 0 <= i < |vis| && vis[i].vtype == v.vtype && (forall j :: 0 <= j < i ==> vis[j].vtype != v.vtype) ==>
      MergeOne(vis, v) == if v.exclude then vis[..i] + vis[i + 1..] else vis[i := v]
  {
  }

  lemma MergeOneFind(vis: seq<Visualization>, v: Visualization, t: string)
    requires DistinctTypes(vis)
    ensures t != v.vtype ==> Find(MergeOne(vis, v), t) == Find(vis, t)
    ensures Find(vis, v.vtype).None? ==> Find(MergeOne(vis, v), v.vtype) == Some(v)
    ensures Find(vis, v.vtype).Some? && !v.exclude ==> Find(MergeOne(vis, v), v.vtype) == Some(v)
    ensures Find(vis, v.vtype).Some? && v.exclude ==> Find(MergeOne(vis, v), v.vtype) == None
  {
    if t != v.vtype {
      MergeOneOthers(vis, v, t);
    }
    MergeOneOwn(vis, v);
  }

  lemma FindIndexAt(vis: seq<Visualization>, t: string, m: int)
    requires 0 <= m < |vis| && vis[m].vtype == t
    requires forall j :: 0 <= j < m ==> vis[j].vtype != t
    ensures FindIndex(vis, t) == m
  {
  }

  lemma MergeOneOthers(vis: seq<Visualization>, v: Visualization, t: string)
    requires t != v.vtype
    ensures Find(MergeOne(vis, v), t) == Find(vis, t)
  {
    var i := FindIndex(vis, v.vtype);
    if i < 0 {
      AppendedFind(vis, v, t);
    } else if v.exclude {
      SplicedFind(vis, i, t);
    } else {
      ReplacedFind(vis, i, v, t);
    }
  }

  lemma AppendedFind(vis: seq<Visualization>, v: Visualization, t: string)
    requires t != v.vtype
    ensures Find(vis + [v], t) == Find(vis, t)
  {
    var r := vis + [v];
    var m := FindIndex(vis, t);
    if m >= 0 {
      FindIndexAt(r, t, m);
    } else {
      assert forall j :: 0 <= j < |r| ==> r[j].vtype != t by {
        forall j | 0 <= j < |r| ensures r[j].vtype != t {
          if j < |vis| { assert r[j] == vis[j]; }
        }
      }
    }
  }

  lemma SplicedFind(vis: seq<Visualization>, i: int, t: string)
    requires 0 <= i < |vis| && vis[i].vtype != t
    ensures Find(vis[..i] + vis[i + 1..], t) == Find(vis, t)
  {
    var r := vis[..i] + vis[i + 1..];
    assert forall j :: 0 <= j < |r| ==> r[j] == if j < i then vis[j] else vis[j + 1];
    var m := FindIndex(vis, t);
    if m >= 0 {
      var m' := if m < i then m else m - 1;
      FindIndexAt(r, t, m');
    }
  }

  lemma ReplacedFind(vis: seq<Visualization>, i: int, v: Visualization, t: string)
    requires 0 <= i < |vis| && v.vtype != t && vis[i].vtype != t
    ensures Find(vis[i := v], t) == Find(vis, t)
  {
    var m := FindIndex(vis, t);
    if m >= 0 {
      FindIndexAt(vis[i := v], t, m);
    }
  }

  lemma MergeOneOwn(vis: seq<Visualization>, v: Visualization)
    requires DistinctTypes(vis)
    ensures Find(vis, v.vtype).None? ==> Find(MergeOne(vis, v), v.vtype) == Some(v)
    ensures Find(vis, v.vtype).Some? && !v.exclude ==> Find(MergeOne(vis, v), v.vtype) == Some(v)
    ensures Find(vis, v.vtype).Some? && v.exclude ==> Find(MergeOne(vis, v), v.vtype) == None
  {
    var i := FindIndex(vis, v.vtype);
    if i < 0 {
      AppendedOwn(vis, v);
    } else if v.exclude {
      SplicedOwn(vis, i);
    } else {
      FindIndexAt(vis[i := v], v.vtype, i);
    }
  }

  lemma AppendedOwn(vis: seq<Visualization>, v: Visualization)
    requires FindIndex(vis, v.vtype) < 0
    ensures Find(vis + [v], v.vtype) == Some(v)
  {
    var r := vis + [v];
    forall j | 0 <= j < |vis| ensures r[j].vtype != v.vtype {
      assert r[j] == vis[j];
    }
    FindIndexAt(r, v.vtype, |vis|);
  }

  lemma SplicedOwn(vis: seq<Visualization>, i: int)
    requires DistinctTypes(vis) && 0 <= i < |vis|
    ensures Find(vis[..i] + vis[i + 1..], vis[i].vtype) == None
  {
    var r := vis[..i] + vis[i + 1..];
    forall j | 0 <= j < |r| ensures r[j].vtype != vis[i].vtype {
      if j < i { assert r[j] == vis[j]; } else { assert r[j] == vis[j + 1]; }
    }
  }

  /** The merge keeps the catalogue free of two entries of the same type. */
  lemma MergeOneDistinct(vis: seq<Visualization>, v: Visualization)
    requires DistinctTypes(vis)
    ensures DistinctTypes(MergeOne(vis, v))
  {
    if FindIndex(vis, v.vtype) < 0 {
      AppendedDistinct(vis, v);
    } else if v.exclude {
      SplicedDistinct(vis, v);
    } else {
      ReplacedDistinct(vis, v);
    }
  }

  lemma AppendedDistinct(vis: seq<Visualization>, v: Visualization)
    requires DistinctTypes(vis) && FindIndex(vis, v.vtype) < 0
    ensures DistinctTypes(MergeOne(vis, v))
  {
    var r := vis + [v];
    assert MergeOne(vis, v) == r;
    forall a, b | 0 <= a < b < |r| ensures r[a].vtype != r[b].vtype {
      assert r[a] == vis[a];
    }
  }

  lemma SplicedDistinct(vis: seq<Visualization>, v: Visualization)
    requires DistinctTypes(vis) && FindIndex(vis, v.vtype) >= 0 && v.exclude
    ensures DistinctTypes(MergeOne(vis, v))
  {
    var i := FindIndex(vis, v.vtype);
    var r := vis[..i] + vis[i + 1..];
    assert MergeOne(vis, v) == r;
    assert |r| == |vis| - 1;
    forall a, b | 0 <= a < b < |r| ensures r[a].vtype != r[b].vtype {
      var a' := if a < i then a else a + 1;
      var b' := if b < i then b else b + 1;
      assert r[a] == vis[a'] && r[b] == vis[b'];
    }
  }

  lemma ReplacedDistinct(vis: seq<Visualization>, v: Visualization)
    requires DistinctTypes(vis) && FindIndex(vis, v.vtype) >= 0 && !v.exclude
    ensures DistinctTypes(MergeOne(vis, v))
  {
    var i := FindIndex(vis, v.vtype);
    var r := vis[i := v];
    assert MergeOne(vis, v) == r;
    forall a, b | 0 <= a < b < |r| ensures r[a].vtype != r[b].vtype {
      assert r[a].vtype == vis[a].vtype && r[b].vtype == vis[b].vtype;
    }
  }

  lemma {:induction false} MergedDistinct(vis: seq<Visualization>, vs: seq<Visualization>)
    requires DistinctTypes(vis)
    ensures DistinctTypes(Merged(vis, vs))
    decreases |vs|
  {
    if vs != [] {
      MergedDistinct(vis, vs[..|vs| - 1]);
      MergeOneDistinct(Merged(vis, vs[..|vs| - 1]), vs[|vs| - 1]);
    }
  }

  /**
   * After the defaults every entry has minimum sizes 1, keeps a size it had,
   * gets a quarter and a fifth of the columns otherwise, and keeps its type,
   * name and order; applying the defaults again changes nothing.
   */
  lemma DefaultsApplied(vis: seq<Visualization>, columns: int, minPixel: (int, int), i: nat)
    requires i < |vis|
    ensures var r := AllWithDefaults(vis, columns, minPixel);
      && |r| == |vis|
      && r[i].minSizeX == 1 && r[i].minSizeY == 1
      && r[i].vtype == vis[i].vtype && r[i].name == vis[i].name
      && (vis[i].sizeX != 0 ==> r[i].sizeX == vis[i].sizeX)
      && (vis[i].sizeX == 0 ==> r[i].sizeX == columns / 4)
      && (vis[i].sizeY != 0 ==> r[i].sizeY == vis[i].sizeY)
      && (vis[i].sizeY == 0 ==> r[i].sizeY == columns / 5)
      && (columns >= 5 ==> r[i].sizeX != 0 && r[i].sizeY != 0)
      && AllWithDefaults(r, columns, minPixel) == r
  {
  }

  /** The configured column count is never 0: it defaults to 24. */
  lemma DashboardColumns(cfg: DashboardConfig)
    ensures DashboardValue(cfg).gridsterColumns != 0 && DashboardValue(cfg).gridsterMargins != 0
    ensures cfg.dashboard.None? ==> DashboardValue(cfg).gridsterColumns == 24
    ensures cfg.dashboard.None? ==> DashboardValue(cfg).showExport == Bool(true)
    ensures cfg.dashboard.Some? ==>
      (DashboardValue(cfg).showExport == Bool(false) <==>
         cfg.dashboard.value.showExport != Undefined && !Truthy(cfg.dashboard.value.showExport))
  {
  }

  /**
   * A layout entry takes the catalogue name of its type and keeps the sizes
   * it has; one whose type is not in the catalogue is left as it is; filling
   * twice is filling once.
   */
  lemma FilledEntry(v: Visualization, vis: seq<Visualization>)
    ensures Find(vis, v.vtype).None? ==> Filled(v, vis) == v
    ensures Find(vis, v.vtype).Some? ==> Filled(v, vis).name == Find(vis, v.vtype).value.name
    ensures Filled(v, vis).vtype == v.vtype && Filled(v, vis).exclude == v.exclude
    ensures v.sizeX != 0 ==> Filled(v, vis).sizeX == v.sizeX
    ensures v.minPixelY != 0 ==> Filled(v, vis).minPixelY == v.minPixelY
    ensures Filled(Filled(v, vis), vis) == Filled(v, vis)
  {
  }
}
