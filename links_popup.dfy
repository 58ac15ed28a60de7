/**
 * The links popup (app/js/directives/linksPopup.js): cleaning of link records
 * (drop rule, defaults, substitution of neon mappings by data values, URL
 * rendering) and the popup's two-level store `source -> key -> [link]`.
 *
 * Links are modelled as values: the source edits the caller's link objects in
 * place and pushes the same objects, the model returns cleaned copies.
 */
module LinksPopup {
  import opened Values

  /**
   * The `mappings` of a link argument: a single neon mapping name, or an
   * object whose entries are neon mapping names. After substitution an entry
   * (or the single value) holds whatever the link's data gave for that name.
   */
  datatype ArgMappings = Single(v: Json) | Multi(entries: map<string, Json>)

  datatype LinkArg = LinkArg(variable: string, mappings: ArgMappings)

  /**
   * A link record. A missing string property is "" (both are falsy); a missing
   * `args` or `data` is None. `data` lists its entries in `Object.keys` order.
   */
  datatype Link = Link(url: string, name: string, image: string, tab: string,
                       args: Option<seq<LinkArg>>, data: Option<seq<(string, Json)>>)

  /** `Mustache.render(template, view)`, a library call the model takes as a parameter. */
  type Renderer = (string, map<string, ArgMappings>) -> string

  /** A link is cleaned only when all of `url`, `name`, `image`, `args` and `data` are truthy. */
  predicate IsKept(l: Link) {
    l.url != "" && l.name != "" && l.image != "" && l.args.Some? && l.data.Some?
  }

  predicate IsNullish(v: Json) {
    v == Null || v == Undefined
  }

  // ---------------------------------------------------------------------------
  // Specification of argument substitution

  /** One comparison `value === dataMapping ? link.data[dataMapping] : value`. */
  function Replaced(v: Json, key: string, val: Json): Json {
    if v == Str(key) then val else v
  }

  /**
   * The effect of one data key on an argument's mappings. A string is
   * compared as a whole; anything else goes through `Object.keys`, which
   * throws on null and undefined and yields no keys for a number or boolean.
   */
  function SubstitutionStep(m: ArgMappings, key: string, val: Json): Outcome<ArgMappings> {
    match m
    case Single(v) =>
      if v.Str? then Ok(Single(Replaced(v, key, val)))
      else if IsNullish(v) then Thrown
      else Ok(m)
    case Multi(e) => Ok(Multi(map k | k in e :: Replaced(e[k], key, val)))
  }

  /** The mappings after the loop over all of the link's data keys, in key order. */
  function Substituted(m: ArgMappings, data: seq<(string, Json)>): Outcome<ArgMappings>
    decreases |data|
  {
    if data == [] then Ok(m)
    else
      match SubstitutionStep(m, data[0].0, data[0].1)
      case Thrown => Thrown
      case Ok(m') => Substituted(m', data[1..])
  }

  /** What one mapping name becomes: replaced at most once per data key, in key order. */
  function Chased(v: Json, data: seq<(string, Json)>): Json
    decreases |data|
  {
    if data == [] then v else Chased(Replaced(v, data[0].0, data[0].1), data[1..])
  }

  /** The `args` view handed to the renderer: one entry per argument variable. */
  function BuiltArgs(args: seq<LinkArg>, data: seq<(string, Json)>): Outcome<map<string, ArgMappings>>
    decreases |args|
  {
    if args == [] then Ok(map[])
    else
      match BuiltArgs(args[..|args| - 1], data)
      case Thrown => Thrown
      case Ok(a) =>
        match Substituted(args[|args| - 1].mappings, data)
        case Thrown => Thrown
        case Ok(m) => Ok(a[args[|args| - 1].variable := m])
  }

  function PrefixedImage(image: string): string {
    if |image| > 0 && image[0] == '/' then "." + image else image
  }

  /** A kept link after cleaning. */
  function CleanedLink(l: Link, render: Renderer): Outcome<Link>
    requires IsKept(l)
  {
    match BuiltArgs(l.args.value, l.data.value)
    case Thrown => Thrown
    case Ok(a) =>
      Ok(l.(tab := OrStr(l.tab, l.name), image := PrefixedImage(l.image), url := render(l.url, a)))
  }

  /** The cleaned links of one key: the kept links, cleaned, in input order. */
  function CleanedLinks(links: seq<Link>, render: Renderer): Outcome<seq<Link>>
    decreases |links|
  {
    if links == [] then Ok([])
    else
      match CleanedLinks(links[..|links| - 1], render)
      case Thrown => Thrown
      case Ok(r) =>
        var l := links[|links| - 1];
        if !IsKept(l) then Ok(r)
        else
          match CleanedLink(l, render)
          case Thrown => Thrown
          case Ok(c) => Ok(r + [c])
  }

  /** `cleanData(data)`: every key of the input, each with its cleaned links. */
  function CleanedData(data: map<string, seq<Link>>, render: Renderer): Outcome<map<string, seq<Link>>> {
    if exists k :: k in data && CleanedLinks(data[k], render).Thrown? then Thrown
    else Ok(map k | k in data :: CleanedLinks(data[k], render).value)
  }

  // ---------------------------------------------------------------------------
  // The cleaning code, loop by loop

  /** The body of the `Object.keys(link.data)` loop for one data key. */
  method ApplyDataKey(m: ArgMappings, key: string, val: Json) returns (r: Outcome<ArgMappings>)
    ensures r == SubstitutionStep(m, key, val)
  {
    match m {
      case Single(v) =>
        if v.Str? {
          r := Ok(Single(if v == Str(key) then val else v));
        } else if IsNullish(v) {
          r := Thrown;
        } else {
          r := Ok(m);
        }
      case Multi(e) =>
        var pending := e.Keys;
        var done: map<string, Json> := map[];
        while pending != {}
          invariant pending <= e.Keys
          invariant done.Keys == e.Keys - pending
          invariant forall k :: k in done ==> done[k] == Replaced(e[k], key, val)
          decreases pending
        {
          var k :| k in pending;
          done := done[k := if e[k] == Str(key) then val else e[k]];
          pending := pending - {k};
        }
        assert done == map k | k in e :: Replaced(e[k], key, val);
        r := Ok(Multi(done));
    }
  }

  /** The substitution loop for one argument (its mappings are a deep copy, so the link is not changed). */
  method SubstituteMappings(m: ArgMappings, data: seq<(string, Json)>) returns (r: Outcome<ArgMappings>)
    ensures r == Substituted(m, data)
  {
    var current := m;
    var i := 0;
    while i < |data|
      invariant 0 <= i <= |data|
      invariant Substituted(current, data[i..]) == Substituted(m, data)
    {
      assert data[i..][1..] == data[i + 1..];
      var step := ApplyDataKey(current, data[i].0, data[i].1);
      if step.Thrown? {
        return Thrown;
      }
      current := step.value;
      i := i + 1;
    }
    assert data[i..] == [];
    r := Ok(current);
  }

  /** The `link.args.forEach` loop that fills the renderer's view. */
  method BuildArgs(args: seq<LinkArg>, data: seq<(string, Json)>) returns (r: Outcome<map<string, ArgMappings>>)
    ensures r == BuiltArgs(args, data)
  {
    var view: map<string, ArgMappings> := map[];
    var i := 0;
    while i < |args|
      invariant 0 <= i <= |args|
      invariant BuiltArgs(args[..i], data) == Ok(view)
    {
      assert args[..i + 1][..i] == args[..i];
      var m := SubstituteMappings(args[i].mappings, data);
      if m.Thrown? {
        BuiltArgsThrowsOnward(args, data, i + 1);
        return Thrown;
      }
      view := view[args[i].variable := m.value];
      i := i + 1;
    }
    assert args[..i] == args;
    r := Ok(view);
  }

  lemma {:induction false} BuiltArgsThrowsOnward(args: seq<LinkArg>, data: seq<(string, Json)>, n: nat)
    requires n <= |args|
    requires BuiltArgs(args[..n], data).Thrown?
    ensures BuiltArgs(args, data).Thrown?
    decreases |args| - n
  {
    if n < |args| {
      assert args[..n + 1][..n] == args[..n];
      BuiltArgsThrowsOnward(args, data, n + 1);
    } else {
      assert args[..n] == args;
    }
  }

  /** The body of `links.forEach` for a kept link. */
  method CleanLink(l: Link, render: Renderer) returns (r: Outcome<Link>)
    requires IsKept(l)
    ensures r == CleanedLink(l, render)
  {
    var tab := if l.tab != "" then l.tab else l.name;
    var image := l.image;
    if image[0] == '/' {
      image := "." + image;
    }
    var args := BuildArgs(l.args.value, l.data.value);
    if args.Thrown? {
      return Thrown;
    }
    r := Ok(l.(tab := tab, image := image, url := render(l.url, args.value)));
  }

  lemma {:induction false} CleanedLinksThrowsOnward(links: seq<Link>, render: Renderer, n: nat)
    requires n <= |links|
    requires CleanedLinks(links[..n], render).Thrown?
    ensures CleanedLinks(links, render).Thrown?
    decreases |links| - n
  {
    if n < |links| {
      assert links[..n + 1][..n] == links[..n];
      CleanedLinksThrowsOnward(links, render, n + 1);
    } else {
      assert links[..n] == links;
    }
  }

  /** The `links.forEach` loop of one key. */
  method CleanLinks(links: seq<Link>, render: Renderer) returns (r: Outcome<seq<Link>>)
    ensures r == CleanedLinks(links, render)
  {
    var cleaned: seq<Link> := [];
    var i := 0;
    while i < |links|
      invariant 0 <= i <= |links|
      invariant CleanedLinks(links[..i], render) == Ok(cleaned)
    {
      assert links[..i + 1][..i] == links[..i];
      var l := links[i];
      if IsKept(l) {
        var c := CleanLink(l, render);
        if c.Thrown? {
          CleanedLinksThrowsOnward(links, render, i + 1);
          return Thrown;
        }
        cleaned := cleaned + [c.value];
      }
      i := i + 1;
    }
    assert links[..i] == links;
    r := Ok(cleaned);
  }

  /** `cleanData(data)`: the `Object.keys(data)` loop. */
  method CleanData(data: map<string, seq<Link>>, render: Renderer) returns (r: Outcome<map<string, seq<Link>>>)
    ensures r == CleanedData(data, render)
  {
    var pending := data.Keys;
    var cleaned: map<string, seq<Link>> := map[];
    while pending != {}
      invariant pending <= data.Keys
      invariant cleaned.Keys == data.Keys - pending
      invariant forall k :: k in cleaned ==> CleanedLinks(data[k], render) == Ok(cleaned[k])
      decreases pending
    {
      var k :| k in pending;
      var c := CleanLinks(data[k], render);
      if c.Thrown? {
        return Thrown;
      }
      cleaned := cleaned[k := c.value];
      pending := pending - {k};
    }
    assert cleaned == map k | k in data :: CleanedLinks(data[k], render).value;
    r := Ok(cleaned);
  }

  // ---------------------------------------------------------------------------
  // Properties of cleaning

  /** A single link that is not kept leaves nothing behind. */
  lemma DroppedLink(l: Link, render: Renderer)
    requires !IsKept(l)
    ensures CleanedLinks([l], render) == Ok([])
  {
    assert [l][..0] == [];
  }

  /** A single kept link yields exactly its cleaned form. */
  lemma KeptLink(l: Link, render: Renderer)
    requires IsKept(l)
    ensures CleanedLinks([l], render) == match CleanedLink(l, render)
                                         case Thrown => Thrown
                                         case Ok(c) => Ok([c])
  {
    assert [l][..0] == [];
    match CleanedLink(l, render)
    case Thrown =>
    case Ok(c) => assert [] + [c] == [c];
  }

  /** Cleaning works link by link and keeps the order: the result for `a + b` is that of `a` followed by that of `b`. */
  lemma {:induction false} CleanedLinksAppend(a: seq<Link>, b: seq<Link>, render: Renderer)
    ensures CleanedLinks(a + b, render) ==
      match CleanedLinks(a, render)
      case Thrown => Thrown
      case Ok(ra) =>
        match CleanedLinks(b, render)
        case Thrown => Thrown
        case Ok(rb) => Ok(ra + rb)
    decreases |b|
  {
    if b == [] {
      assert a + b == a;
      if CleanedLinks(a, render).Ok? {
        assert CleanedLinks(a, render).value + [] == CleanedLinks(a, render).value;
      }
    } else {
      var b' := b[..|b| - 1];
      var l := b[|b| - 1];
      assert (a + b)[..|a + b| - 1] == a + b';
      assert (a + b)[|a + b| - 1] == l;
      CleanedLinksAppend(a, b', render);
      match CleanedLinks(a, render)
      case Thrown =>
      case Ok(ra) =>
        match CleanedLinks(b', render)
        case Thrown =>
        case Ok(rb') =>
          if IsKept(l) && CleanedLink(l, render).Ok? {
            var c := CleanedLink(l, render).value;
            assert (ra + rb') + [c] == ra + (rb' + [c]);
          }
    }
  }

  /** Every key of the input is a key of the output; a key whose links were all dropped maps to []. */
  lemma CleanedDataKeys(data: map<string, seq<Link>>, render: Renderer, k: string)
    requires CleanedData(data, render).Ok?
    ensures CleanedData(data, render).value.Keys == data.Keys
    ensures k in data ==> CleanedLinks(data[k], render) == Ok(CleanedData(data, render).value[k])
    ensures k in data && (forall i :: 0 <= i < |data[k]| ==> !IsKept(data[k][i])) ==>
              CleanedData(data, render).value[k] == []
  {
    if k in data && forall i :: 0 <= i < |data[k]| ==> !IsKept(data[k][i]) {
      AllDropped(data[k], render);
    }
  }

  lemma {:induction false} AllDropped(links: seq<Link>, render: Renderer)
    requires forall i :: 0 <= i < |links| ==> !IsKept(links[i])
    ensures CleanedLinks(links, render) == Ok([])
    decreases |links|
  {
    if links != [] {
      AllDropped(links[..|links| - 1], render);
    }
  }

  /**
   * A cleaned link has a non-empty tab (its own, else its name), its name and
   * data unchanged, and an image that does not start with '/'.
   */
  lemma CleanedLinkShape(l: Link, render: Renderer)
    requires IsKept(l) && CleanedLink(l, render).Ok?
    ensures var c := CleanedLink(l, render).value;
      && c.tab == (if l.tab != "" then l.tab else l.name) && c.tab != ""
      && c.name == l.name && c.args == l.args && c.data == l.data
      && c.image[0] != '/'
      && (l.image[0] == '/' <==> c.image == "." + l.image)
  {
    var c := CleanedLink(l, render).value;
    if l.image[0] == '/' {
      assert c.image == "." + l.image;
    } else {
      assert c.image == l.image;
      assert |c.image| != |"." + l.image|;
    }
  }

  /**
   * Cleaning a cleaned link again (it is kept again whenever its rendered URL
   * is non-empty) adds no second '.' to its image and keeps its tab.
   */
  lemma CleanTwiceKeepsImageAndTab(l: Link, render: Renderer)
    requires IsKept(l) && CleanedLink(l, render).Ok?
    ensures var c := CleanedLink(l, render).value;
      (c.url != "" ==> IsKept(c)) &&
      (IsKept(c) && CleanedLink(c, render).Ok? ==>
        CleanedLink(c, render).value.image == c.image && CleanedLink(c, render).value.tab == c.tab)
  {
    CleanedLinkShape(l, render);
  }

  // ---------------------------------------------------------------------------
  // Properties of substitution

  /** A name that equals no data key is left as it is. */
  lemma {:induction false} ChasedUnmatched(v: Json, data: seq<(string, Json)>)
    requires forall i :: 0 <= i < |data| ==> v != Str(data[i].0)
    ensures Chased(v, data) == v
    decreases |data|
  {
    if data != [] {
      ChasedUnmatched(v, data[1..]);
    }
  }

  /** Substitution runs key by key: the keys of `a` act first, then those of `b` act on the result. */
  lemma {:induction false} ChasedAppend(v: Json, a: seq<(string, Json)>, b: seq<(string, Json)>)
    ensures Chased(v, a + b) == Chased(Chased(v, a), b)
    decreases |a|
  {
    if a == [] {
      assert a + b == b;
    } else {
      assert (a + b)[0] == a[0];
      assert (a + b)[1..] == a[1..] + b;
      ChasedAppend(Replaced(v, a[0].0, a[0].1), a[1..], b);
    }
  }

  /** A replacement that equals a later key is replaced again; an earlier key is not revisited. */
  lemma ChainedReplacement(x: string, y: string, z: Json)
    requires x != y
    ensures Chased(Str(x), [(x, Str(y)), (y, z)]) == z
    ensures Chased(Str(x), [(y, z), (x, Str(y))]) == Str(y)
  {
    var d1: seq<(string, Json)> := [(x, Str(y)), (y, z)];
    assert d1[1..] == [(y, z)] && d1[1..][1..] == [];
    assert Chased(Str(y), [(y, z)]) == Chased(z, []) == z;
    assert Chased(Str(x), d1) == Chased(Str(y), [(y, z)]);
    var d2: seq<(string, Json)> := [(y, z), (x, Str(y))];
    assert d2[1..] == [(x, Str(y))] && d2[1..][1..] == [];
    assert Chased(Str(x), [(x, Str(y))]) == Chased(Str(y), []) == Str(y);
    assert Chased(Str(x), d2) == Chased(Str(x), [(x, Str(y))]);
  }

  /** Every entry of an object of mappings, chased on its own. */
  function ChasedEntries(e: map<string, Json>, data: seq<(string, Json)>): map<string, Json> {
    map k | k in e :: Chased(e[k], data)
  }

  /** An object of mappings never throws, and each entry is substituted on its own. */
  lemma {:induction false} SubstitutedMulti(e: map<string, Json>, data: seq<(string, Json)>)
    ensures Substituted(Multi(e), data) == Ok(Multi(ChasedEntries(e, data)))
    decreases |data|
  {
    if data == [] {
      assert ChasedEntries(e, data) == e;
    } else {
      var e' := map k | k in e :: Replaced(e[k], data[0].0, data[0].1);
      assert SubstitutionStep(Multi(e), data[0].0, data[0].1) == Ok(Multi(e'));
      assert Substituted(Multi(e), data) == Substituted(Multi(e'), data[1..]);
      SubstitutedMulti(e', data[1..]);
      var lhs := ChasedEntries(e', data[1..]);
      var rhs := ChasedEntries(e, data);
      assert e'.Keys == e.Keys;
      assert lhs.Keys == rhs.Keys;
      forall k | k in e ensures lhs[k] == rhs[k] {
        assert Chased(e[k], data) == Chased(Replaced(e[k], data[0].0, data[0].1), data[1..]);
      }
      assert lhs == rhs;
    }
  }

  /**
   * A single mapping ends as its chased value, unless the value it has reached
   * before some data key is null or undefined, where `Object.keys` throws.
   */
  lemma {:induction false} SubstitutedSingle(v: Json, data: seq<(string, Json)>)
    ensures Substituted(Single(v), data) ==
      if exists i :: 0 <= i < |data| && IsNullish(Chased(v, data[..i])) then Thrown
      else Ok(Single(Chased(v, data)))
    decreases |data|
  {
    if data != [] {
      var v' := Replaced(v, data[0].0, data[0].1);
      SubstitutedSingle(v', data[1..]);
      assert data[..0] == [];
      forall i | 1 <= i <= |data| ensures Chased(v, data[..i]) == Chased(v', data[1..][..i - 1]) {
        assert data[..i][1..] == data[1..][..i - 1];
      }
      if IsNullish(v) {
        assert IsNullish(Chased(v, data[..0]));
      } else {
        assert SubstitutionStep(Single(v), data[0].0, data[0].1) == Ok(Single(v'));
        var throwsHere := exists i :: 0 <= i < |data| && IsNullish(Chased(v, data[..i]));
        var throwsLater := exists i :: 0 <= i < |data[1..]| && IsNullish(Chased(v', data[1..][..i]));
        if throwsLater {
          var i :| 0 <= i < |data[1..]| && IsNullish(Chased(v', data[1..][..i]));
          assert IsNullish(Chased(v, data[..i + 1]));
        }
        if throwsHere {
          var i :| 0 <= i < |data| && IsNullish(Chased(v, data[..i]));
          assert i != 0;
          assert IsNullish(Chased(v', data[1..][..i - 1]));
        }
      }
    }
  }

  /** The view has exactly one entry per argument variable. */
  lemma {:induction false} BuiltArgsKeys(args: seq<LinkArg>, data: seq<(string, Json)>)
    requires BuiltArgs(args, data).Ok?
    ensures BuiltArgs(args, data).value.Keys == set i | 0 <= i < |args| :: args[i].variable
    decreases |args|
  {
    if args != [] {
      var n := |args| - 1;
      var init := args[..n];
      BuiltArgsKeys(init, data);
      var before := set i | 0 <= i < n :: init[i].variable;
      var after := set i | 0 <= i < |args| :: args[i].variable;
      forall x | x in after ensures x in before + {args[n].variable} {
        var i :| 0 <= i < |args| && args[i].variable == x;
        if i < n { assert init[i] == args[i]; }
      }
      forall x | x in before ensures x in after {
        var i :| 0 <= i < n && init[i].variable == x;
        assert init[i] == args[i];
      }
    }
  }

  /** The last argument with a given variable decides that variable's entry. */
  lemma {:induction false} BuiltArgsLastWins(args: seq<LinkArg>, data: seq<(string, Json)>, i: nat)
    requires BuiltArgs(args, data).Ok?
    requires i < |args| && forall j :: i < j < |args| ==> args[j].variable != args[i].variable
    ensures args[i].variable in BuiltArgs(args, data).value
    ensures Substituted(args[i].mappings, data) == Ok(BuiltArgs(args, data).value[args[i].variable])
    decreases |args|
  {
    BuiltArgsKeys(args, data);
    var n := |args| - 1;
    if i < n {
      var init := args[..n];
      assert init[i] == args[i];
      assert BuiltArgs(init, data).Ok?;
      forall j | i < j < |init| ensures init[j].variable != init[i].variable {
        assert init[j] == args[j];
      }
      BuiltArgsLastWins(init, data, i);
    }
  }

  /** Building the view throws exactly when substituting some argument's mappings throws. */
  lemma {:induction false} BuiltArgsThrows(args: seq<LinkArg>, data: seq<(string, Json)>)
    ensures BuiltArgs(args, data).Thrown? <==> exists i :: 0 <= i < |args| && Substituted(args[i].mappings, data).Thrown?
    decreases |args|
  {
    if args != [] {
      var n := |args| - 1;
      BuiltArgsThrows(args[..n], data);
      forall i | 0 <= i < n ensures args[..n][i] == args[i] { }
    }
  }

  // ---------------------------------------------------------------------------
  // The popup's store

  /** The state `$scope.cleanedData` and `$scope.links` that the `popups.links` functions update. */
  class Popup {
    /** source -> key -> cleaned links */
    var cleanedData: map<string, map<string, seq<Link>>>
    /** The links currently shown. */
    var links: seq<Link>
    const render: Renderer

    constructor(render: Renderer)
      ensures cleanedData == map[] && links == [] && this.render == render
    {
      cleanedData := map[];
      links := [];
      this.render := render;
    }

    /** `setData`: the whole entry of `source` becomes the cleaned data; `completed` is false when cleaning throws. */
    method SetData(source: string, data: map<string, seq<Link>>) returns (completed: bool)
      modifies this
      ensures completed == CleanedData(data, render).Ok?
      ensures cleanedData == if completed then old(cleanedData)[source := CleanedData(data, render).value]
                             else old(cleanedData)
      ensures links == old(links)
    {
      var cleaned := CleanData(data, render);
      completed := cleaned.Ok?;
      if completed {
        cleanedData := cleanedData[source := cleaned.value];
      }
    }

    /** `setView`: show the links at `[source][key]` when that entry exists, else keep the shown links. */
    method SetView(source: string, key: string)
      modifies this
      ensures cleanedData == old(cleanedData)
      ensures links == if source in cleanedData && key in cleanedData[source] then cleanedData[source][key]
                       else old(links)
    {
      if source in cleanedData && key in cleanedData[source] {
        links := cleanedData[source][key];
      }
    }

    /**
     * `addLinks`: the entry of `source` is created when missing (before cleaning,
     * so even when cleaning throws), then only `[source][key]` is replaced.
     */
    method AddLinks(source: string, key: string, newLinks: seq<Link>) returns (completed: bool)
      modifies this
      ensures completed == CleanedLinks(newLinks, render).Ok?
      ensures var before := if source in old(cleanedData) then old(cleanedData)[source] else map[];
        cleanedData == old(cleanedData)[source := if completed then before[key := CleanedLinks(newLinks, render).value]
                                                  else before]
      ensures forall s :: s in old(cleanedData) && s != source ==> s in cleanedData && cleanedData[s] == old(cleanedData)[s]
      ensures links == old(links)
    {
      if source !in cleanedData {
        cleanedData := cleanedData[source := map[]];
      }
      var single := map[key := newLinks];
      var cleaned := CleanData(single, render);
      assert key in single && single[key] == newLinks;
      assert CleanedLinks(newLinks, render).Thrown? ==> cleaned.Thrown?;
      completed := cleaned.Ok?;
      if completed {
        assert key in single;
        cleanedData := cleanedData[source := cleanedData[source][key := cleaned.value[key]]];
      }
    }

    /** `removeLinksForKey`: removes `[source][key]` when present, and nothing else. */
    method RemoveLinksForKey(source: string, key: string)
      modifies this
      ensures cleanedData == if source in old(cleanedData) && key in old(cleanedData)[source]
                             then old(cleanedData)[source := old(cleanedData)[source] - {key}]
                             else old(cleanedData)
      ensures links == old(links)
    {
      if source in cleanedData && key in cleanedData[source] {
        cleanedData := cleanedData[source := cleanedData[source] - {key}];
      }
    }

    /** `deleteData`: removes the entry of `source` when present, and nothing else. */
    method DeleteData(source: string)
      modifies this
      ensures cleanedData == old(cleanedData) - {source}
      ensures links == old(links)
    {
      if source in cleanedData {
        cleanedData := cleanedData - {source};
      }
    }
  }
}
