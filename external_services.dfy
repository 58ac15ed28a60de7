/**
 * The external-services builder of the dashboard setup
 * (client/app/neonGTDSetup.js, createExternalService and createServices).
 *
 * For one app of a linked-application configuration file and one of its
 * service types, the builder finds the neon service mappings for that type —
 * exact matches, and for a multiple-service type such as "bounds,date" every
 * combination of the subservices' mappings, sorted and joined with "," — and
 * registers the app under each of them in `external.services`, creating the
 * service entry with its arguments the first time a mapping is seen.
 */
module ExternalServices {
  import opened Values
  import opened Strings
  import opened Permutations
  import opened LinksPopup

  /** The icon and link template registered for one app under one service mapping. */
  datatype AppLink = AppLink(image: string, url: string)

  /** An entry of `external.services`: the apps linked to it and the link arguments. */
  datatype Service = Service(apps: map<string, AppLink>, args: seq<LinkArg>)

  /**
   * The linking part of the configuration. `servicesMappings` maps each neon
   * service mapping name to its service type and is listed in `Object.keys`
   * order; `argsMappings` gives the argument mappings of a neon service
   * mapping; `imageDirectory` is "" when it is not configured.
   */
  datatype LinkConfig = LinkConfig(servicesMappings: seq<(string, string)>,
                                   argsMappings: map<string, map<string, ArgMappings>>,
                                   imageDirectory: string)

  /**
   * One app of a configuration file, read through the configured property
   * names: its name, image and url, and the path it offers per service type.
   */
  datatype AppConfig = AppConfig(name: string, image: string, url: string, services: map<string, string>)

  // ---------------------------------------------------------------------------
  // createExternalService

  /** `argsMappings[name]`, undefined when absent. */
  function MappingFor(am: map<string, ArgMappings>, name: string): ArgMappings {
    if name in am then am[name] else Single(Undefined)
  }

  /** The service `createExternalService(args, am)` returns. */
  function NewService(args: seq<string>, am: map<string, ArgMappings>): Service {
    Service(map[], seq(|args|, i requires 0 <= i < |args| => LinkArg(args[i], MappingFor(am, args[i]))))
  }

  /** A fresh service with no apps and one argument per name, in order. */
  method CreateExternalService(args: seq<string>, am: map<string, ArgMappings>) returns (s: Service)
    ensures s == NewService(args, am)
    ensures s.apps == map[] && |s.args| == |args|
    ensures forall i :: 0 <= i < |args| ==>
      s.args[i].variable == args[i] && s.args[i].mappings == MappingFor(am, args[i])
  {
    var out: seq<LinkArg> := [];
    var i := 0;
    while i < |args|
      invariant 0 <= i <= |args|
      invariant |out| == i
      invariant forall j :: 0 <= j < i ==> out[j] == LinkArg(args[j], MappingFor(am, args[j]))
    {
      out := out + [LinkArg(args[i], MappingFor(am, args[i]))];
      i := i + 1;
    }
    s := Service(map[], out);
  }

  // ---------------------------------------------------------------------------
  // Which neon service mappings a service type gets

  /** The neon service mappings whose service type is exactly `t`, in key order. */
  function NamesOfType(sm: seq<(string, string)>, t: string): seq<string>
    decreases |sm|
  {
    if sm == [] then []
    else NamesOfType(sm[..|sm| - 1], t) + (if sm[|sm| - 1].1 == t then [sm[|sm| - 1].0] else [])
  }

  /** For each subservice type, its neon service mappings. */
  function SubserviceLists(sm: seq<(string, string)>, subs: seq<string>): (lists: seq<seq<string>>)
    ensures |lists| == |subs|
    ensures forall i :: 0 <= i < |subs| ==> lists[i] == NamesOfType(sm, subs[i])
  {
    seq(|subs|, i requires 0 <= i < |subs| => NamesOfType(sm, subs[i]))
  }

  /** Some subservice has no neon service mapping. */
  predicate Failed(lists: seq<seq<string>>) {
    exists i :: 0 <= i < |lists| && lists[i] == []
  }

  /** The name of a combined mapping: its parts sorted and joined with ",". */
  function CombinedName(c: seq<string>): string {
    Join(Sort(c), ',')
  }

  /** `names` after pushing the combined name of each choice that is not already present. */
  function AddCombined(names: seq<string>, choices: seq<seq<string>>): seq<string>
    decreases |choices|
  {
    if choices == [] then names
    else
      var acc := AddCombined(names, choices[..|choices| - 1]);
      var n := CombinedName(choices[|choices| - 1]);
      if n in acc then acc else acc + [n]
  }

  /** The effect of one entry of `servicesMappings` on the mappings found for `st`. */
  function MappingStep(sm: seq<(string, string)>, st: string, acc: seq<string>, e: (string, string)): seq<string> {
    if st == e.1 then acc + [e.0]
    else if IndexOf(st, e.1) >= 0 then
      var lists := SubserviceLists(sm, Split(st, ','));
      if Failed(lists) then acc else AddCombined(acc, Choices(lists))
    else acc
  }

  /** The mappings found after the first `n` entries of `servicesMappings`. */
  function MappingsUpTo(sm: seq<(string, string)>, st: string, n: nat): seq<string>
    requires n <= |sm|
  {
    if n == 0 then [] else MappingStep(sm, st, MappingsUpTo(sm, st, n - 1), sm[n - 1])
  }

  /** `neonServiceMappings` as `createServices` computes it for service type `st`. */
  function NeonServiceMappings(sm: seq<(string, string)>, st: string): seq<string> {
    MappingsUpTo(sm, st, |sm|)
  }

  /** The inner `Object.keys(config.servicesMappings)` loop for one subservice type. */
  method NamesFor(sm: seq<(string, string)>, t: string) returns (names: seq<string>)
    ensures names == NamesOfType(sm, t)
  {
    names := [];
    var i := 0;
    while i < |sm|
      invariant 0 <= i <= |sm|
      invariant names == NamesOfType(sm[..i], t)
    {
      assert sm[..i + 1][..i] == sm[..i];
      if sm[i].1 == t {
        names := names + [sm[i].0];
      }
      i := i + 1;
    }
    assert sm[..|sm|] == sm;
  }

  /** The `subserviceTypes.forEach` loop: the mapping lists and the failure flag. */
  method SubserviceMappings(sm: seq<(string, string)>, subs: seq<string>)
    returns (lists: seq<seq<string>>, failure: bool)
    ensures lists == SubserviceLists(sm, subs)
    ensures failure == Failed(lists)
  {
    lists := [];
    failure := false;
    var i := 0;
    while i < |subs|
      invariant 0 <= i <= |subs|
      invariant |lists| == i
      invariant forall j :: 0 <= j < i ==> lists[j] == NamesOfType(sm, subs[j])
      invariant failure == exists j :: 0 <= j < i && lists[j] == []
    {
      var names := NamesFor(sm, subs[i]);
      lists := lists + [names];
      failure := failure || |names| == 0;
      i := i + 1;
    }
  }

  /** The `neonMultipleServicesMappingsLists.forEach` loop. */
  method AddCombinedNames(names: seq<string>, choices: seq<seq<string>>) returns (r: seq<string>)
    ensures r == AddCombined(names, choices)
  {
    r := names;
    var i := 0;
    while i < |choices|
      invariant 0 <= i <= |choices|
      invariant r == AddCombined(names, choices[..i])
    {
      assert choices[..i + 1][..i] == choices[..i];
      var n := Join(Sort(choices[i]), ',');
      if n !in r {
        r := r + [n];
      }
      i := i + 1;
    }
    assert choices[..|choices|] == choices;
  }

  /** The `Object.keys(config.servicesMappings).forEach` loop of `createServices`. */
  method FindServiceMappings(sm: seq<(string, string)>, st: string) returns (names: seq<string>)
    ensures names == NeonServiceMappings(sm, st)
  {
    names := [];
    var i := 0;
    while i < |sm|
      invariant 0 <= i <= |sm|
      invariant names == MappingsUpTo(sm, st, i)
    {
      var e := sm[i];
      if st == e.1 {
        names := names + [e.0];
      } else if IndexOf(st, e.1) >= 0 {
        var lists, failure := SubserviceMappings(sm, Split(st, ','));
        if !failure {
          var choices := GeneratePermutations(lists, [], 0, []);
          PrefixedEmpty(Choices(lists));
          assert lists[0..] == lists;
          names := AddCombinedNames(names, choices);
        }
      }
      i := i + 1;
    }
  }

  lemma PrefixedEmpty(xs: seq<seq<string>>)
    ensures [] + Prefixed([], xs) == xs
  {
    forall i | 0 <= i < |xs| ensures [] + xs[i] == xs[i] { }
  }

  // ---------------------------------------------------------------------------
  // Argument mappings of a combined mapping

  /**
   * The union of the argument mappings of the subservices, a later one
   * overriding an earlier one; `Object.keys` throws on a subservice that has
   * no argument mappings.
   */
  function MergedArgs(cfgArgs: map<string, map<string, ArgMappings>>, subs: seq<string>)
    : Outcome<map<string, ArgMappings>>
    decreases |subs|
  {
    if subs == [] then Ok(map[])
    else
      match MergedArgs(cfgArgs, subs[..|subs| - 1])
      case Thrown => Thrown
      case Ok(m) =>
        var last := subs[|subs| - 1];
        if last in cfgArgs then Ok(m + cfgArgs[last]) else Thrown
  }

  /** The argument mappings used for neon service mapping `n`. */
  function ArgsMappingsFor(cfg: LinkConfig, n: string): Outcome<map<string, ArgMappings>> {
    if n in cfg.argsMappings then Ok(cfg.argsMappings[n]) else MergedArgs(cfg.argsMappings, Split(n, ','))
  }

  lemma {:induction false} MergedArgsThrowsOnward(cfgArgs: map<string, map<string, ArgMappings>>,
                                                  subs: seq<string>, n: nat)
    requires n <= |subs| && MergedArgs(cfgArgs, subs[..n]) == Thrown
    ensures MergedArgs(cfgArgs, subs) == Thrown
    decreases |subs| - n
  {
    if n < |subs| {
      assert subs[..n + 1][..n] == subs[..n];
      MergedArgsThrowsOnward(cfgArgs, subs, n + 1);
    } else {
      assert subs[..n] == subs;
    }
  }

  /** The loop that builds `argsMappings` for a combined mapping. */
  method MergeArgsMappings(cfgArgs: map<string, map<string, ArgMappings>>, subs: seq<string>)
    returns (r: Outcome<map<string, ArgMappings>>)
    ensures r == MergedArgs(cfgArgs, subs)
  {
    var merged: map<string, ArgMappings> := map[];
    var i := 0;
    while i < |subs|
      invariant 0 <= i <= |subs|
      invariant MergedArgs(cfgArgs, subs[..i]) == Ok(merged)
    {
      assert subs[..i + 1][..i] == subs[..i];
      if subs[i] !in cfgArgs {
        MergedArgsThrowsOnward(cfgArgs, subs, i + 1);
        return Thrown;
      }
      merged := CopyEntries(merged, cfgArgs[subs[i]]);
      i := i + 1;
    }
    assert subs[..|subs|] == subs;
    r := Ok(merged);
  }

  /** `Object.keys(from).forEach(k => into[k] = from[k])`. */
  method CopyEntries(into: map<string, ArgMappings>, from: map<string, ArgMappings>)
    returns (r: map<string, ArgMappings>)
    ensures r == into + from
  {
    r := into;
    var todo := from.Keys;
    while todo != {}
      invariant todo <= from.Keys
      invariant r.Keys == into.Keys + (from.Keys - todo)
      invariant forall k :: k in r ==> r[k] == (if k in from && k !in todo then from[k] else into[k])
      decreases todo
    {
      var k :| k in todo;
      r := r[k := from[k]];
      todo := todo - {k};
    }
  }

  // ---------------------------------------------------------------------------
  // Registering the app

  /** The app is the neon dashboard itself: its lower-cased name starts with "neon". */
  predicate IsNeonApp(name: string) {
    IndexOf(Lower(name), "neon") == 0
  }

  /** The entry registered for `app` under service type `st`. */
  function AppEntry(cfg: LinkConfig, app: AppConfig, st: string): AppLink
    requires st in app.services
  {
    AppLink(OrStr(cfg.imageDirectory, ".") + "/" + app.image, app.url + "/" + app.services[st])
  }

  /** `services` after registering `app` under each of `names` in turn. */
  function Registered(services: map<string, Service>, cfg: LinkConfig, app: AppConfig, st: string,
                      names: seq<string>): Outcome<map<string, Service>>
    requires st in app.services
    decreases |names|
  {
    if names == [] then Ok(services)
    else
      match Registered(services, cfg, app, st, names[..|names| - 1])
      case Thrown => Thrown
      case Ok(s) =>
        var n := names[|names| - 1];
        match ArgsMappingsFor(cfg, n)
        case Thrown => Thrown
        case Ok(am) =>
          var svc := if n in s then s[n] else NewService(Split(st, ','), am);
          Ok(s[n := svc.(apps := svc.apps[app.name := AppEntry(cfg, app, st)])])
  }

  /** `services` after `createServices(data, appType, st)`. */
  function ServicesAfter(services: map<string, Service>, cfg: LinkConfig, app: AppConfig, st: string)
    : Outcome<map<string, Service>>
    requires st in app.services
  {
    if IsNeonApp(app.name) then Ok(services)
    else Registered(services, cfg, app, st, NeonServiceMappings(cfg.servicesMappings, st))
  }

  lemma {:induction false} RegisteredThrowsOnward(services: map<string, Service>, cfg: LinkConfig,
                                                  app: AppConfig, st: string, names: seq<string>, n: nat)
    requires st in app.services
    requires n <= |names| && Registered(services, cfg, app, st, names[..n]) == Thrown
    ensures Registered(services, cfg, app, st, names) == Thrown
    decreases |names| - n
  {
    if n < |names| {
      assert names[..n + 1][..n] == names[..n];
      RegisteredThrowsOnward(services, cfg, app, st, names, n + 1);
    } else {
      assert names[..n] == names;
    }
  }

  /**
   * `createServices(data, appType, st)`, with the evidently intended call to
   * `createExternalService` for a mapping seen for the first time.
   */
  method CreateServices(services: map<string, Service>, cfg: LinkConfig, app: AppConfig, st: string)
    returns (r: Outcome<map<string, Service>>)
    requires st in app.services
    ensures r == ServicesAfter(services, cfg, app, st)
    ensures IsNeonApp(app.name) ==> r == Ok(services)
  {
    var names := FindServiceMappings(cfg.servicesMappings, st);
    if IndexOf(Lower(app.name), "neon") == 0 {
      return Ok(services);
    }
    var s := services;
    var i := 0;
    while i < |names|
      invariant 0 <= i <= |names|
      invariant Registered(services, cfg, app, st, names[..i]) == Ok(s)
    {
      assert names[..i + 1][..i] == names[..i];
      var n := names[i];
      var am: map<string, ArgMappings>;
      if n in cfg.argsMappings {
        am := cfg.argsMappings[n];
      } else {
        var merged := MergeArgsMappings(cfg.argsMappings, Split(n, ','));
        if merged.Thrown? {
          RegisteredThrowsOnward(services, cfg, app, st, names, i + 1);
          return Thrown;
        }
        am := merged.value;
      }
      var svc: Service;
      if n in s {
        svc := s[n];
      } else {
        svc := CreateExternalService(Split(st, ','), am);
      }
      s := s[n := svc.(apps := svc.apps[app.name := AppEntry(cfg, app, st)])];
      i := i + 1;
    }
    assert names[..|names|] == names;
    r := Ok(s);
  }

  // ---------------------------------------------------------------------------
  // Properties of the mappings found

  /** The mappings of exactly type `t` are the keys whose entry has type `t`. */
  lemma {:induction false} NamesOfTypeMembers(sm: seq<(string, string)>, t: string, n: string)
    ensures n in NamesOfType(sm, t) <==> (n, t) in sm
    decreases |sm|
  {
    if sm != [] {
      var init := sm[..|sm| - 1];
      NamesOfTypeMembers(init, t, n);
      assert sm == init + [sm[|sm| - 1]];
      assert (n, t) in sm <==> (n, t) in init || sm[|sm| - 1] == (n, t);
    }
  }

  /**
   * When a subservice of the type has no neon mapping, no combined mapping is
   * added: the mappings found are exactly the keys of that precise type.
   */
  lemma {:induction false} FailedSubserviceAddsNothing(sm: seq<(string, string)>, st: string, n: nat)
    requires n <= |sm|
    requires Failed(SubserviceLists(sm, Split(st, ',')))
    ensures MappingsUpTo(sm, st, n) == NamesOfType(sm[..n], st)
  {
    if n > 0 {
      FailedSubserviceAddsNothing(sm, st, n - 1);
      assert sm[..n][..n - 1] == sm[..n - 1];
    }
  }

  lemma FailedSubserviceMappings(sm: seq<(string, string)>, st: string)
    requires Failed(SubserviceLists(sm, Split(st, ',')))
    ensures NeonServiceMappings(sm, st) == NamesOfType(sm, st)
  {
    FailedSubserviceAddsNothing(sm, st, |sm|);
    assert sm[..|sm|] == sm;
  }

  predicate NoDuplicates(xs: seq<string>) {
    forall i, j :: 0 <= i < j < |xs| ==> xs[i] != xs[j]
  }

  /**
   * Pushing combined names only appends: the list keeps its old elements in
   * front, and it stays free of duplicates.
   */
  lemma {:induction false} AddCombinedAppends(names: seq<string>, choices: seq<seq<string>>)
    ensures |AddCombined(names, choices)| >= |names|
    ensures AddCombined(names, choices)[..|names|] == names
    ensures NoDuplicates(names) ==> NoDuplicates(AddCombined(names, choices))
    decreases |choices|
  {
    if choices != [] {
      AddCombinedAppends(names, choices[..|choices| - 1]);
      var acc := AddCombined(names, choices[..|choices| - 1]);
      assert (acc + [CombinedName(choices[|choices| - 1])])[..|names|] == acc[..|names|];
    }
  }

  /** Every combined name ends up in the list, and nothing but combined names is added. */
  lemma {:induction false} AddCombinedMembers(names: seq<string>, choices: seq<seq<string>>, x: string)
    ensures x in AddCombined(names, choices) <==>
      x in names || exists c :: c in choices && x == CombinedName(c)
    decreases |choices|
  {
    if choices != [] {
      var init := choices[..|choices| - 1];
      var last := choices[|choices| - 1];
      AddCombinedMembers(names, init, x);
      AddCombinedStep(names, choices, x);
      ChoicesSplit(choices, x);
    }
  }

  lemma AddCombinedStep(names: seq<string>, choices: seq<seq<string>>, x: string)
    requires choices != []
    ensures x in AddCombined(names, choices) <==>
      x in AddCombined(names, choices[..|choices| - 1]) || x == CombinedName(choices[|choices| - 1])
  {
  }

  lemma ChoicesSplit(choices: seq<seq<string>>, x: string)
    requires choices != []
    ensures (exists c :: c in choices && x == CombinedName(c)) <==>
      (exists c :: c in choices[..|choices| - 1] && x == CombinedName(c)) || x == CombinedName(choices[|choices| - 1])
  {
    var init := choices[..|choices| - 1];
    var last := choices[|choices| - 1];
    assert choices == init + [last];
    if exists c :: c in choices && x == CombinedName(c) {
      var c :| c in choices && x == CombinedName(c);
      if c != last { assert c in init; }
    }
    if exists c :: c in init && x == CombinedName(c) {
      var c :| c in init && x == CombinedName(c);
      assert c in choices;
    }
    assert last in choices;
  }

  /**
   * A combined mapping name splits back into its parts in sorted order: one
   * part per subservice, the parts being a choice of one mapping per
   * subservice (when no mapping name contains ",").
   */
  lemma CombinedNameParts(lists: seq<seq<string>>, c: seq<string>)
    requires |lists| >= 1
    requires c in Choices(lists)
    requires forall i, j :: 0 <= i < |lists| && 0 <= j < |lists[i]| ==> ',' !in lists[i][j]
    ensures Split(CombinedName(c), ',') == Sort(c)
    ensures Sorted(Sort(c)) && multiset(Sort(c)) == multiset(c)
    ensures |Sort(c)| == |lists| && IsChoice(c, lists)
  {
    ChoicesAreChoices(lists, c);
    var s := Sort(c);
    assert |s| == |multiset(s)| == |multiset(c)| == |c|;
    forall i | 0 <= i < |s| ensures ',' !in s[i] {
      assert s[i] in multiset(c);
      var d :| 0 <= d < |c| && c[d] == s[i];
      var j :| 0 <= j < |lists[d]| && lists[d][j] == c[d];
    }
    SplitJoin(s, ',');
  }

  // ---------------------------------------------------------------------------
  // Properties of the merge and the registration

  /** The merge throws exactly when some subservice has no argument mappings. */
  lemma {:induction false} MergedArgsThrows(cfgArgs: map<string, map<string, ArgMappings>>, subs: seq<string>)
    ensures MergedArgs(cfgArgs, subs) == Thrown <==> exists i :: 0 <= i < |subs| && subs[i] !in cfgArgs
    decreases |subs|
  {
    if subs != [] {
      var init := subs[..|subs| - 1];
      MergedArgsThrows(cfgArgs, init);
      if exists i :: 0 <= i < |init| && init[i] !in cfgArgs {
        var i :| 0 <= i < |init| && init[i] !in cfgArgs;
        assert subs[i] == init[i];
      }
      if exists i :: 0 <= i < |subs| && subs[i] !in cfgArgs {
        var i :| 0 <= i < |subs| && subs[i] !in cfgArgs;
        if i < |init| { assert init[i] == subs[i]; }
      }
    }
  }

  /**
   * A successful merge holds the keys of every subservice's argument
   * mappings, and a key takes its mapping from the last subservice having it.
   */
  lemma MergedArgsEntries(cfgArgs: map<string, map<string, ArgMappings>>, subs: seq<string>, k: string)
    requires MergedArgs(cfgArgs, subs).Ok?
    ensures k in MergedArgs(cfgArgs, subs).value <==>
      exists i :: 0 <= i < |subs| && subs[i] in cfgArgs && k in cfgArgs[subs[i]]
    ensures forall i :: (0 <= i < |subs| && subs[i] in cfgArgs && k in cfgArgs[subs[i]] &&
                         (forall j :: i < j < |subs| ==> !(subs[j] in cfgArgs && k in cfgArgs[subs[j]]))) ==>
      MergedArgs(cfgArgs, subs).value[k] == cfgArgs[subs[i]][k]
  {
    MergedArgsKeys(cfgArgs, subs, k);
    forall i | 0 <= i < |subs| && subs[i] in cfgArgs && k in cfgArgs[subs[i]] &&
      (forall j :: i < j < |subs| ==> !(subs[j] in cfgArgs && k in cfgArgs[subs[j]]))
      ensures MergedArgs(cfgArgs, subs).value[k] == cfgArgs[subs[i]][k]
    {
      MergedArgsLastWins(cfgArgs, subs, k, i);
    }
  }

  /** Merging one more subservice adds its entries over the earlier ones. */
  lemma MergedArgsStep(cfgArgs: map<string, map<string, ArgMappings>>, subs: seq<string>)
    requires subs != [] && MergedArgs(cfgArgs, subs).Ok?
    ensures MergedArgs(cfgArgs, subs[..|subs| - 1]).Ok? && subs[|subs| - 1] in cfgArgs
    ensures MergedArgs(cfgArgs, subs).value ==
      MergedArgs(cfgArgs, subs[..|subs| - 1]).value + cfgArgs[subs[|subs| - 1]]
  {
  }

  lemma {:induction false} MergedArgsKeys(cfgArgs: map<string, map<string, ArgMappings>>, subs: seq<string>, k: string)
    requires MergedArgs(cfgArgs, subs).Ok?
    ensures k in MergedArgs(cfgArgs, subs).value <==>
      exists i :: 0 <= i < |subs| && subs[i] in cfgArgs && k in cfgArgs[subs[i]]
    decreases |subs|
  {
    if subs != [] {
      var init := subs[..|subs| - 1];
      MergedArgsStep(cfgArgs, subs);
      MergedArgsKeys(cfgArgs, init, k);
      if exists i :: 0 <= i < |subs| && subs[i] in cfgArgs && k in cfgArgs[subs[i]] {
        var i :| 0 <= i < |subs| && subs[i] in cfgArgs && k in cfgArgs[subs[i]];
        if i < |init| { assert init[i] == subs[i]; }
      }
      if exists i :: 0 <= i < |init| && init[i] in cfgArgs && k in cfgArgs[init[i]] {
        var i :| 0 <= i < |init| && init[i] in cfgArgs && k in cfgArgs[init[i]];
        assert subs[i] == init[i];
      }
    }
  }

  lemma {:induction false} MergedArgsLastWins(cfgArgs: map<string, map<string, ArgMappings>>, subs: seq<string>,
                                              k: string, i: nat)
    requires MergedArgs(cfgArgs, subs).Ok?
    requires i < |subs| && subs[i] in cfgArgs && k in cfgArgs[subs[i]]
    requires forall j :: i < j < |subs| ==> !(subs[j] in cfgArgs && k in cfgArgs[subs[j]])
    ensures k in MergedArgs(cfgArgs, subs).value && MergedArgs(cfgArgs, subs).value[k] == cfgArgs[subs[i]][k]
    decreases |subs|
  {
    var init := subs[..|subs| - 1];
    var last := subs[|subs| - 1];
    MergedArgsStep(cfgArgs, subs);
    if i < |init| {
      assert k !in cfgArgs[last];
      assert init[i] == subs[i];
      forall j | i < j < |init| ensures !(init[j] in cfgArgs && k in cfgArgs[init[j]]) {
        assert init[j] == subs[j];
      }
      MergedArgsLastWins(cfgArgs, init, k, i);
    }
  }

  /**
   * Registration throws exactly when some mapping needs a merge that throws;
   * otherwise every mapping holds a service, existing services keep their
   * arguments, and services under other names are untouched.
   */
  lemma RegisteredKeys(services: map<string, Service>, cfg: LinkConfig, app: AppConfig,
                       st: string, names: seq<string>)
    requires st in app.services
    ensures Registered(services, cfg, app, st, names) == Thrown <==>
      exists i :: 0 <= i < |names| && ArgsMappingsFor(cfg, names[i]) == Thrown
    ensures Registered(services, cfg, app, st, names).Ok? ==>
      var s := Registered(services, cfg, app, st, names).value;
      && s.Keys == services.Keys + (set i | 0 <= i < |names| :: names[i])
      && (forall k :: k in services && k !in names ==> s[k] == services[k])
      && (forall k :: k in services ==> s[k].args == services[k].args)
  {
    RegisteredThrows(services, cfg, app, st, names);
    if Registered(services, cfg, app, st, names).Ok? {
      RegisteredState(services, cfg, app, st, names);
    }
  }

  lemma {:induction false} RegisteredThrows(services: map<string, Service>, cfg: LinkConfig, app: AppConfig,
                                            st: string, names: seq<string>)
    requires st in app.services
    ensures Registered(services, cfg, app, st, names) == Thrown <==>
      exists i :: 0 <= i < |names| && ArgsMappingsFor(cfg, names[i]) == Thrown
    decreases |names|
  {
    if names != [] {
      var init := names[..|names| - 1];
      RegisteredThrows(services, cfg, app, st, init);
      if exists i :: 0 <= i < |init| && ArgsMappingsFor(cfg, init[i]) == Thrown {
        var i :| 0 <= i < |init| && ArgsMappingsFor(cfg, init[i]) == Thrown;
        assert names[i] == init[i];
      }
      if exists i :: 0 <= i < |names| && ArgsMappingsFor(cfg, names[i]) == Thrown {
        var i :| 0 <= i < |names| && ArgsMappingsFor(cfg, names[i]) == Thrown;
        if i < |init| { assert init[i] == names[i]; }
      }
    }
  }

  lemma {:induction false} RegisteredState(services: map<string, Service>, cfg: LinkConfig, app: AppConfig,
                                           st: string, names: seq<string>)
    requires st in app.services && Registered(services, cfg, app, st, names).Ok?
    ensures var s := Registered(services, cfg, app, st, names).value;
      && s.Keys == services.Keys + (set i | 0 <= i < |names| :: names[i])
      && (forall k :: k in services && k !in names ==> s[k] == services[k])
      && (forall k :: k in services ==> s[k].args == services[k].args)
    decreases |names|
  {
    if names != [] {
      var init := names[..|names| - 1];
      var n := names[|names| - 1];
      assert Registered(services, cfg, app, st, init).Ok?;
      RegisteredState(services, cfg, app, st, init);
      assert names == init + [n];
      assert (set i | 0 <= i < |names| :: names[i]) ==
        (set i | 0 <= i < |init| :: init[i]) + {n};
    }
  }

  /**
   * After a successful registration the app is linked under every mapping
   * found, with its image and url, and a service created for a new mapping
   * has the arguments `createExternalService` gives it.
   */
  lemma {:induction false} RegisteredApps(services: map<string, Service>, cfg: LinkConfig, app: AppConfig,
                                          st: string, names: seq<string>, n: string)
    requires st in app.services
    requires Registered(services, cfg, app, st, names).Ok?
    requires n in names
    ensures var s := Registered(services, cfg, app, st, names).value;
      && n in s && app.name in s[n].apps && s[n].apps[app.name] == AppEntry(cfg, app, st)
      && (n !in services ==>
            ArgsMappingsFor(cfg, n).Ok? &&
            s[n].args == NewService(Split(st, ','), ArgsMappingsFor(cfg, n).value).args)
    decreases |names|
  {
    var init := names[..|names| - 1];
    var last := names[|names| - 1];
    assert names == init + [last];
    if n in init {
      RegisteredApps(services, cfg, app, st, init, n);
      RegisteredKeys(services, cfg, app, st, init);
    } else {
      assert n == last;
      RegisteredKeys(services, cfg, app, st, init);
    }
  }

  // ---------------------------------------------------------------------------
  // As written: `this.createExternalService` inside a strict-mode callback

  /**
   * Registration as the source writes it: the `forEach` callback runs with
   * `this` undefined (strict mode, no `thisArg`), so reaching
   * `this.createExternalService` for a mapping with no service yet throws.
   */
  function RegisteredAsWritten(services: map<string, Service>, cfg: LinkConfig, app: AppConfig, st: string,
                               names: seq<string>): Outcome<map<string, Service>>
    requires st in app.services
    decreases |names|
  {
    if names == [] then Ok(services)
    else
      match RegisteredAsWritten(services, cfg, app, st, names[..|names| - 1])
      case Thrown => Thrown
      case Ok(s) =>
        var n := names[|names| - 1];
        match ArgsMappingsFor(cfg, n)
        case Thrown => Thrown
        case Ok(am) =>
          if n !in s then Thrown
          else Ok(s[n := s[n].(apps := s[n].apps[app.name := AppEntry(cfg, app, st)])])
  }

  function ServicesAfterAsWritten(services: map<string, Service>, cfg: LinkConfig, app: AppConfig, st: string)
    : Outcome<map<string, Service>>
    requires st in app.services
  {
    if IsNeonApp(app.name) then Ok(services)
    else RegisteredAsWritten(services, cfg, app, st, NeonServiceMappings(cfg.servicesMappings, st))
  }

  /** As written, registration never adds a service: it throws on the first new mapping. */
  lemma {:induction false} AsWrittenAddsNoService(services: map<string, Service>, cfg: LinkConfig, app: AppConfig,
                                                  st: string, names: seq<string>)
    requires st in app.services
    ensures RegisteredAsWritten(services, cfg, app, st, names).Ok? ==>
      RegisteredAsWritten(services, cfg, app, st, names).value.Keys == services.Keys
    ensures (exists i :: 0 <= i < |names| && names[i] !in services) ==>
      RegisteredAsWritten(services, cfg, app, st, names) == Thrown
    decreases |names|
  {
    if names != [] {
      var init := names[..|names| - 1];
      AsWrittenAddsNoService(services, cfg, app, st, init);
      if exists i :: 0 <= i < |names| && names[i] !in services {
        var i :| 0 <= i < |names| && names[i] !in services;
        if i < |init| { assert init[i] == names[i]; }
      }
    }
  }

  /** A one-mapping configuration that shows the discrepancy. */
  function ExampleConfig(): LinkConfig {
    LinkConfig([("neonUser", "user")], map["neonUser" := map["user" := Single(Str("userName"))]], "")
  }

  function ExampleApp(): AppConfig {
    AppConfig("App1", "app.png", "http://app", map["user" := "?user={{user}}"])
  }

  /**
   * Loading one app with one matching mapping into empty `external.services`
   * throws as written, while the intended code registers the app.
   */
  lemma AsWrittenFirstRegistrationThrows()
    ensures ServicesAfterAsWritten(map[], ExampleConfig(), ExampleApp(), "user") == Thrown
    ensures ServicesAfter(map[], ExampleConfig(), ExampleApp(), "user") ==
      Ok(map["neonUser" := Service(map["App1" := AppLink("./app.png", "http://app/?user={{user}}")],
                                   [LinkArg("user", Single(Str("userName")))])])
  {
    ExampleAsWrittenThrows();
    ExampleRegisters();
  }

  /** The example app is not a Neon app and has the one mapping `neonUser` for `user`. */
  lemma ExampleMappings()
    ensures !IsNeonApp("App1")
    ensures NeonServiceMappings(ExampleConfig().servicesMappings, "user") == ["neonUser"]
  {
    var sm := ExampleConfig().servicesMappings;
    assert "App1"[0] == 'A';
    assert !OccursAt(Lower("App1"), "neon", 0);
    assert sm[..0] == [];
    assert MappingsUpTo(sm, "user", 1) == ["neonUser"];
  }

  lemma ExampleAsWrittenThrows()
    ensures ServicesAfterAsWritten(map[], ExampleConfig(), ExampleApp(), "user") == Thrown
  {
    ExampleMappings();
    var cfg := ExampleConfig();
    assert ["neonUser"][..0] == [];
    assert ArgsMappingsFor(cfg, "neonUser").Ok?;
    assert RegisteredAsWritten(map[], cfg, ExampleApp(), "user", []) == Ok(map[]);
  }

  lemma ExampleRegisters()
    ensures ServicesAfter(map[], ExampleConfig(), ExampleApp(), "user") ==
      Ok(map["neonUser" := Service(map["App1" := AppLink("./app.png", "http://app/?user={{user}}")],
                                   [LinkArg("user", Single(Str("userName")))])])
  {
    ExampleMappings();
    var cfg := ExampleConfig();
    assert ["neonUser"][..0] == [];
    assert Split("user", ',') == ["user"] by {
      SplitWithoutSeparator("user", ',');
    }
    var am := cfg.argsMappings["neonUser"];
    assert ArgsMappingsFor(cfg, "neonUser") == Ok(am);
    var svc := NewService(["user"], am);
    assert svc.args == [LinkArg("user", Single(Str("userName")))];
    var entry := AppEntry(cfg, ExampleApp(), "user");
    assert "." + "/" + "app.png" == "./app.png";
    assert "http://app" + "/" + "?user={{user}}" == "http://app/?user={{user}}";
    assert entry == AppLink("./app.png", "http://app/?user={{user}}");
    assert Registered(map[], cfg, ExampleApp(), "user", []) == Ok(map[]);
    assert Registered(map[], cfg, ExampleApp(), "user", ["neonUser"]) ==
      Ok(map["neonUser" := svc.(apps := map["App1" := entry])]);
  }
}
