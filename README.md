# Neon GTD dashboard core, modelled in Dafny

This project models three parts of the Neon GTD dashboard client.

- **The links popup** (`app/js/directives/linksPopup.js`). This covers how
  link records are cleaned. A record missing any of url, name, image, args and
  data is dropped. The tab and image get defaults. Argument mappings are
  replaced by the link's data values, key by key. The URL is rendered from
  its template. The popup also keeps a two-level store,
  `source -> key -> [link]`, behind `setData`, `setView`, `addLinks`,
  `removeLinksForKey` and `deleteData`.
- **The dashboard setup** (`client/app/neonGTDSetup.js`):
  - the creation of `external.services` from linked-application
    configurations, including the combined mappings of a multiple-service
    type such as `"bounds,date"`. These come from the cartesian product of
    `generatePermutations`, sorted and joined with `","`;
  - the merge of configured visualizations into the catalogue, with their
    size defaults;
  - the filling of layouts;
  - the normalisation of custom filters;
  - the values registered by `saveDashboards`, `saveLayouts`,
    `saveCustomFilters` and `saveExternal`.
- **The bar chart widget** (`client/components/barChart/barChart.directive.js`):
  - the choice of database, table and fields, by binding first, then by
    mapping;
  - the query it builds;
  - its query state machine. At most one query is outstanding, and a new
    query aborts the old one. A cancelled query draws nothing. A failed query
    draws a blank chart and may show an error;
  - the filter it sets by clicking a bar, which its own queries ignore;
  - its legend, its limit text, and the bindings it saves. The bindings are read back the way Angular reads a single-quoted string literal, and the model saves them escaped (see "## Findings").

Pure computations are functions. Loops of the source are methods with
invariants, each proved equal to a specification function. Properties of
those functions are lemmas.

The links popup, the setup object and the widget update their state in
place, so they are classes:

- `LinksPopup.Popup`
- `DashboardSetup.Setup`
- `BarChart.Widget`

The widget's methods tie its new `State()` to a transition function on the
`WidgetState` datatype. The `BarChart.Step` function over `BarChart.Event`
collects those transitions, so the widget's invariant `Valid` can be proved
once for every event.

The services these files call but do not define are inputs to the model, not
code inside it:

- the dataset service;
- the filter service;
- the links-popup service;
- the connection service;
- the error notification service;
- the neon query builder;
- Mustache.

The widget records the calls it makes to them in `calls`.

JavaScript values are modelled by `Values.Json`. This is a scalar with
integer numbers and `Undefined` for a missing property, and `Values.Truthy`
gives its truthiness.

Where the documented behaviour and the code differ, the model follows the
code. One case is `saveCustomFilters`. In the code, a `where` clause whose
value is an empty array keeps the empty array, and its default operator is
`"="`. This is because `[][0] === null` is false. The documentation has the
value always become non-empty.

## Model

| member | source | states |
|---|---|---|
| Strings.Split | client/app/neonGTDSetup.js:131 | `split` always yields at least one piece |
| Strings.SplitHasNoSeparator | client/app/neonGTDSetup.js:168 | no piece produced by `split` contains the separator |
| Strings.JoinSplit | client/app/neonGTDSetup.js:150 | joining the pieces of a split gives back the string |
| Strings.SplitWithoutSeparator | client/app/neonGTDSetup.js:168 | a string without the separator splits into itself alone |
| Strings.SplitAfterPiece | client/app/neonGTDSetup.js:168 | splitting `p + sep + t` yields `p` followed by the pieces of `t` |
| Strings.SplitJoin | client/app/neonGTDSetup.js:150 | splitting a join gives back the pieces when no piece contains the separator |
| Strings.IndexFrom | client/app/neonGTDSetup.js:129 | the first occurrence at or after `k`, or -1 exactly when there is none |
| Strings.IndexOf | client/app/neonGTDSetup.js:129 | `indexOf`: the first occurrence, or -1 exactly when the text does not occur |
| Strings.IndexOfZeroIsPrefix | client/app/neonGTDSetup.js:162 | `indexOf(p) === 0` holds exactly when `p` is a prefix |
| Strings.Lower | client/app/neonGTDSetup.js:162 | `toLowerCase` keeps the length and lowers each character |
| Strings.StrLeTotal | client/app/neonGTDSetup.js:150 | the default sort order is total |
| Strings.StrLeTransitive | client/app/neonGTDSetup.js:150 | the default sort order is transitive |
| Strings.StrLeAntisymmetric | client/app/neonGTDSetup.js:150 | the default sort order is antisymmetric |
| Strings.Insert | client/app/neonGTDSetup.js:150 | insertion adds exactly one element and keeps a sorted list sorted |
| Strings.InsertFront | client/app/neonGTDSetup.js:150 | an element no greater than a sorted list's head may be put in front |
| Strings.InsertBehind | client/app/neonGTDSetup.js:150 | a sorted list's head stays in front of any permutation of its tail with one more element no smaller |
| Strings.Sort | client/app/neonGTDSetup.js:150 | `sort()` yields a sorted permutation of its input |
| Strings.NatToString | client/components/barChart/barChart.directive.js:84 | the decimal text of a number is non-empty and made of digits |
| Strings.NatToStringRoundTrip | client/components/barChart/barChart.directive.js:84 | the decimal text reads back as the number |
| Permutations.Prefixed | client/app/neonGTDSetup.js:113-122 | prefixing keeps the count and puts the prefix before each element |
| Permutations.GeneratePermutations | client/app/neonGTDSetup.js:113-122 | the recursion appends to `result` every choice for the lists from `depth` on, each behind `current`, in order |
| Permutations.GenerateStep | client/app/neonGTDSetup.js:119-121 | one turn of the loop over the current list keeps the generator's invariant |
| Permutations.PrefixedConcat | client/app/neonGTDSetup.js:120 | prefixing with `current + [x]` is prefixing with `[x]` and then with `current` |
| Permutations.PrefixedAppend | client/app/neonGTDSetup.js:119-121 | prefixing distributes over concatenation |
| Permutations.ExpandStep | client/app/neonGTDSetup.js:119-121 | one more element of the current list appends its expansions |
| Permutations.ExpandLength | client/app/neonGTDSetup.js:119-121 | an expansion has as many elements as the product of the two lengths |
| Permutations.ChoicesCount | client/app/neonGTDSetup.js:113-122 | there are as many choices as the product of the lengths, and none when a list is empty |
| Permutations.ExpandIndex | client/app/neonGTDSetup.js:119-121 | the element at `i` times the length of `rest`, plus `j`, is `l[i]` in front of `rest[j]` |
| Permutations.ChoicesOrder | client/app/neonGTDSetup.js:113-122 | the choices come in lexicographic index order, the first list varying slowest |
| Permutations.ExpandMember | client/app/neonGTDSetup.js:119-121 | every element of an expansion is an element of `l` in front of one of `rest` |
| Permutations.ChoicesAreChoices | client/app/neonGTDSetup.js:113-122 | every generated combination takes one element from each list, in position |
| Permutations.ChoicesComplete | client/app/neonGTDSetup.js:113-122 | every combination of one element per list is generated |
| LinksPopup.ApplyDataKey | app/js/directives/linksPopup.js:110-118 | one data key replaces a matching string mapping, or the matching entries of an object of mappings, and throws on null or undefined |
| LinksPopup.SubstituteMappings | app/js/directives/linksPopup.js:108-118 | the loop over the data keys equals the key-by-key substitution |
| LinksPopup.BuildArgs | app/js/directives/linksPopup.js:104-121 | the `args.forEach` loop builds the renderer's view as specified |
| LinksPopup.BuiltArgsThrowsOnward | app/js/directives/linksPopup.js:104-121 | once an argument's substitution throws, building the view throws |
| LinksPopup.CleanLink | app/js/directives/linksPopup.js:98-127 | a kept link gets its tab, image and rendered url |
| LinksPopup.CleanedLinksThrowsOnward | app/js/directives/linksPopup.js:95-132 | once a link's cleaning throws, the key's cleaning throws |
| LinksPopup.CleanLinks | app/js/directives/linksPopup.js:95-132 | the loop over one key's links equals the cleaned kept links in order |
| LinksPopup.CleanData | app/js/directives/linksPopup.js:91-135 | `cleanData` equals the key-by-key cleaning of the input |
| LinksPopup.DroppedLink | app/js/directives/linksPopup.js:97 | a link missing url, name, image, args or data leaves nothing behind |
| LinksPopup.KeptLink | app/js/directives/linksPopup.js:97-129 | a kept link yields exactly its cleaned form, or the throw |
| LinksPopup.CleanedLinksAppend | app/js/directives/linksPopup.js:95-132 | cleaning works link by link and keeps input order |
| LinksPopup.CleanedDataKeys | app/js/directives/linksPopup.js:91-135 | every input key is kept; a key whose links were all dropped maps to `[]` |
| LinksPopup.AllDropped | app/js/directives/linksPopup.js:95-132 | a key with no kept link cleans to `[]` |
| LinksPopup.CleanedLinkShape | app/js/directives/linksPopup.js:98-102 | a cleaned link has a non-empty tab (its own, else its name), its name and data unchanged, and an image not starting with `/` |
| LinksPopup.CleanTwiceKeepsImageAndTab | app/js/directives/linksPopup.js:98-102 | cleaning a cleaned link again keeps its tab and adds no second `.` to its image |
| LinksPopup.ChasedUnmatched | app/js/directives/linksPopup.js:110-118 | a mapping that matches no data key is left unchanged |
| LinksPopup.ChasedAppend | app/js/directives/linksPopup.js:110-118 | substitution runs key by key, in key order |
| LinksPopup.ChainedReplacement | app/js/directives/linksPopup.js:110-118 | a replacement equal to a later key is replaced again; an earlier key is not revisited |
| LinksPopup.SubstitutedMulti | app/js/directives/linksPopup.js:113-117 | an object of mappings never throws, and each entry is substituted on its own |
| LinksPopup.SubstitutedSingle | app/js/directives/linksPopup.js:110-118 | a single mapping ends as its chased value unless it reaches null or undefined before a key, where `Object.keys` throws |
| LinksPopup.BuiltArgsKeys | app/js/directives/linksPopup.js:104-121 | the view has exactly one entry per argument variable |
| LinksPopup.BuiltArgsLastWins | app/js/directives/linksPopup.js:104-121 | the last argument with a given variable decides its entry |
| LinksPopup.BuiltArgsThrows | app/js/directives/linksPopup.js:104-121 | building the view throws exactly when some argument's substitution throws |
| LinksPopup.Popup.constructor | app/js/directives/linksPopup.js:27-30 | the popup starts with no data and no links shown |
| LinksPopup.Popup.SetData | app/js/directives/linksPopup.js:143-145 | the entry of `source` becomes the cleaned data, and nothing else changes (nothing at all when cleaning throws) |
| LinksPopup.Popup.SetView | app/js/directives/linksPopup.js:153-157 | the links at `[source][key]` are shown when present, otherwise the shown links stay |
| LinksPopup.Popup.AddLinks | app/js/directives/linksPopup.js:166-171 | the entry of `source` is created first, then only `[source][key]` gets the cleaned links; other sources are untouched |
| LinksPopup.Popup.RemoveLinksForKey | app/js/directives/linksPopup.js:179-183 | only `[source][key]` is removed, when present |
| LinksPopup.Popup.DeleteData | app/js/directives/linksPopup.js:190-194 | only the entry of `source` is removed |
| ExternalServices.CreateExternalService | client/app/neonGTDSetup.js:34-48 | a new service has no apps and one argument per name, in order, with that name's argument mapping |
| ExternalServices.SubserviceLists | client/app/neonGTDSetup.js:135-144 | one list of neon mappings per subservice type, in order |
| ExternalServices.NamesFor | client/app/neonGTDSetup.js:137-141 | the inner key loop collects the mappings of exactly that type |
| ExternalServices.SubserviceMappings | client/app/neonGTDSetup.js:135-144 | the subservice loop yields the lists, and fails exactly when a list is empty |
| ExternalServices.AddCombinedNames | client/app/neonGTDSetup.js:149-154 | the combined-name loop pushes each sorted joined name that is not yet present |
| ExternalServices.FindServiceMappings | client/app/neonGTDSetup.js:125-157 | the mapping loop yields the exact matches and, for a multiple-service type, the combined names |
| ExternalServices.PrefixedEmpty | client/app/neonGTDSetup.js:148 | starting the generator with empty `result` and `current` yields just the choices |
| ExternalServices.MergedArgsThrowsOnward | client/app/neonGTDSetup.js:168-173 | once a subservice without argument mappings is reached, the merge throws |
| ExternalServices.MergeArgsMappings | client/app/neonGTDSetup.js:164-174 | the merge loop equals the union of the subservices' argument mappings, later ones winning |
| ExternalServices.CopyEntries | client/app/neonGTDSetup.js:170-172 | copying the keys of one object into another is their map union |
| ExternalServices.RegisteredThrowsOnward | client/app/neonGTDSetup.js:163-182 | once a registration throws, the rest throws |
| ExternalServices.CreateServices | client/app/neonGTDSetup.js:124-184 | `createServices` registers the app under every mapping found (corrected call), and leaves the services alone for a neon app |
| ExternalServices.NamesOfTypeMembers | client/app/neonGTDSetup.js:127-128 | a mapping is listed for a type exactly when its entry has that type |
| ExternalServices.FailedSubserviceAddsNothing | client/app/neonGTDSetup.js:143-146 | when a subservice has no mapping, no combined name is added at any step |
| ExternalServices.FailedSubserviceMappings | client/app/neonGTDSetup.js:146 | the mappings found are then exactly those of the precise type |
| ExternalServices.AddCombinedAppends | client/app/neonGTDSetup.js:149-154 | pushing combined names only appends and keeps the list free of duplicates |
| ExternalServices.AddCombinedMembers | client/app/neonGTDSetup.js:149-154 | every combined name ends up in the list, and nothing else is added |
| ExternalServices.CombinedNameParts | client/app/neonGTDSetup.js:148-150 | a combined name splits back into its parts, sorted, one per subservice, a choice of one mapping per subservice |
| ExternalServices.MergedArgsThrows | client/app/neonGTDSetup.js:168-173 | the merge throws exactly when some subservice has no argument mappings |
| ExternalServices.MergedArgsEntries | client/app/neonGTDSetup.js:168-173 | the merged keys are the union of the subservices' keys, each taken from the last subservice having it |
| ExternalServices.RegisteredKeys | client/app/neonGTDSetup.js:163-182 | registration throws exactly when a needed merge throws; otherwise every mapping has a service, existing ones keep their arguments, others are untouched |
| ExternalServices.RegisteredApps | client/app/neonGTDSetup.js:163-182 | the app is linked under every mapping with its image and url; a new service gets the arguments `createExternalService` gives it |
| ExternalServices.AsWrittenAddsNoService | client/app/neonGTDSetup.js:163-182 | as written, registration never adds a service: it throws at the first mapping with no service yet |
| ExternalServices.AsWrittenFirstRegistrationThrows | client/app/neonGTDSetup.js:176 | one app with one new mapping throws as written and is registered by the corrected code |
| CustomFilters.NormaliseWheres | client/app/neonGTDSetup.js:340-343 | the `where` loop equals the clause-by-clause normalisation |
| CustomFilters.NormaliseMulti | client/app/neonGTDSetup.js:336-344 | the `multi` loop normalises every field's clauses |
| CustomFilters.NormaliseItems | client/app/neonGTDSetup.js:331-345 | the item loop normalises every item in order |
| CustomFilters.NormaliseGroups | client/app/neonGTDSetup.js:327-346 | the group loop normalises every group in order |
| CustomFilters.NormaliseTables | client/app/neonGTDSetup.js:326-347 | the table loop normalises every table |
| CustomFilters.SaveCustomFilters | client/app/neonGTDSetup.js:322-351 | the registered value is the normalised configuration, or an empty object when none is given |
| CustomFilters.WhereNormal | client/app/neonGTDSetup.js:341-342 | a falsy value becomes `[null]`, a truthy scalar a one-element array, an array stays; the default operator is `!=` exactly when the first value is null |
| CustomFilters.ItemNormal | client/app/neonGTDSetup.js:332-335 | the item's display text is the first truthy of label, value and field; its value is truthy or null; the default operator is `!=` exactly for null |
| CustomFilters.GroupNormal | client/app/neonGTDSetup.js:328-331 | a group gets input operator `=` by default and its items normalised in order |
| CustomFilters.FiltersShape | client/app/neonGTDSetup.js:325-348 | every database, table, group and item is kept, and nothing is added |
| CustomFilters.WhereIdempotent | client/app/neonGTDSetup.js:341-342 | normalising a normalised clause changes nothing |
| CustomFilters.ItemIdempotent | client/app/neonGTDSetup.js:332-334 | for an item without multi-field filters, normalising the normalised item again changes nothing |
| CustomFilters.GroupIdempotent | client/app/neonGTDSetup.js:328-334 | for a group whose items have no multi-field filters, normalising the normalised group again changes nothing |
| DashboardSetup.ShowExport | client/app/neonGTDSetup.js:373 | `showExport` is a boolean, true exactly when unset or truthy |
| DashboardSetup.FindIndex | client/app/neonGTDSetup.js:385-387 | the first index of the type, or -1 exactly when the type is absent |
| DashboardSetup.BuildDashboard | client/app/neonGTDSetup.js:354-373 | the dashboard settings with their defaults |
| DashboardSetup.MergeVisualizations | client/app/neonGTDSetup.js:384-395 | the merge loop applies the configured visualizations in order |
| DashboardSetup.ApplyDefaults | client/app/neonGTDSetup.js:398-405 | the defaults loop gives each entry its size defaults |
| DashboardSetup.FillLayout | client/app/neonGTDSetup.js:209-222 | the loop over one layout fills each entry from the catalogue |
| DashboardSetup.FillLayouts | client/app/neonGTDSetup.js:208-225 | every layout is filled |
| DashboardSetup.Setup.constructor | client/app/neonGTDSetup.js:30-32 | the setup starts from the page's catalogue with nothing registered |
| DashboardSetup.Setup.SaveDashboards | client/app/neonGTDSetup.js:353-408 | registers the settings, merges the configured visualizations, applies the defaults and registers the catalogue; nothing else changes |
| DashboardSetup.Setup.SaveLayouts | client/app/neonGTDSetup.js:207-226 | registers the filled layouts; nothing else changes |
| DashboardSetup.Setup.SaveCustomFilters | client/app/neonGTDSetup.js:322-351 | registers the normalised custom filters; nothing else changes |
| DashboardSetup.Setup.SaveExternal | client/app/neonGTDSetup.js:410-415 | registers the services with the number of services as `active`; nothing else changes |
| DashboardSetup.MergeOneFind | client/app/neonGTDSetup.js:384-395 | one merge step keeps other types; an unknown type is appended, a known one replaced, or removed when excluded |
| DashboardSetup.FindIndexAt | client/app/neonGTDSetup.js:385-387 | an index holding the type with none before it is the one found |
| DashboardSetup.MergeOneOthers | client/app/neonGTDSetup.js:384-395 | a merge step leaves the entry of every other type as it was |
| DashboardSetup.AppendedFind | client/app/neonGTDSetup.js:388-389 | appending an entry of another type does not change what is found |
| DashboardSetup.SplicedFind | client/app/neonGTDSetup.js:390-391 | removing an entry of another type does not change what is found |
| DashboardSetup.ReplacedFind | client/app/neonGTDSetup.js:392-393 | replacing an entry of another type does not change what is found |
| DashboardSetup.MergeOneOwn | client/app/neonGTDSetup.js:388-394 | the configured type is appended, replaced, or removed when excluded |
| DashboardSetup.MergeOnePositions | client/app/neonGTDSetup.js:384-395 | an unknown type is appended at the end; a known type is replaced at the position of its first entry, every other position unchanged, or that entry is removed when excluded |
| DashboardSetup.AppendedOwn | client/app/neonGTDSetup.js:388-389 | an appended entry of a new type is the one found |
| DashboardSetup.SplicedOwn | client/app/neonGTDSetup.js:390-391 | a removed type is no longer found |
| DashboardSetup.MergeOneDistinct | client/app/neonGTDSetup.js:384-395 | a merge step keeps the catalogue free of two entries of one type |
| DashboardSetup.MergedDistinct | client/app/neonGTDSetup.js:384-395 | the whole merge keeps the catalogue free of duplicate types |
| DashboardSetup.DefaultsApplied | client/app/neonGTDSetup.js:398-405 | every entry has minimum sizes 1, keeps a size it had, else gets a quarter or a fifth of the columns, keeps type, name and order; applying twice changes nothing |
| DashboardSetup.DashboardColumns | client/app/neonGTDSetup.js:359-373 | the columns and margins are never 0; without a dashboard entry the columns are 24 and export is shown |
| DashboardSetup.FilledEntry | client/app/neonGTDSetup.js:210-221 | a layout entry takes its type's catalogue name and keeps its sizes; an unknown type is left alone; filling twice is filling once |
| Datasets.FirstIndexOf | client/components/barChart/barChart.directive.js:280-285 | the first position of the name, or -1 exactly when the name is absent; the database and table searches both use it |
| Datasets.FieldNamed | client/components/barChart/barChart.directive.js:314-316 | the found field has the name or is blank; blank exactly when no field has it |
| Datasets.ChooseDatabase | client/components/barChart/barChart.directive.js:277-286 | the database loop picks the chosen database |
| Datasets.ChooseTable | client/components/barChart/barChart.directive.js:297-305 | the table loop picks the chosen table |
| Datasets.ChosenDatabaseSpec | client/components/barChart/barChart.directive.js:277-286 | the first database matching the binding when there is one, else the first database; none only without databases |
| Datasets.ChosenTableSpec | client/components/barChart/barChart.directive.js:297-305 | the first table matching the binding, else the service's mapped table, else the first table |
| Datasets.ResolvedFieldSpec | client/components/barChart/barChart.directive.js:313-320 | a bound field name wins over the mapping even when no field has it (the field is then blank) |
| Datasets.FieldNamedFirst | client/components/barChart/barChart.directive.js:314-316 | the field found is the first with the name |
| BarChartQuery.BuildQuery | client/components/barChart/barChart.directive.js:336-376 | the query groups by x, filters `x != null` (and the unshared filter exactly when set), aggregates Count per bar type, sorts by Count descending, limits, and ignores a filter exactly when the widget has one |
| BarChartQuery.OwnFilterOnlyIgnored | client/components/barChart/barChart.directive.js:340-346 | the widget's own filter changes only the ignored filters of its query |
| BarChartQuery.UnsharedOperator | client/components/barChart/barChart.directive.js:363-371 | the unshared filter uses `=` on the parsed number exactly when the text is numeric, else `contains` |
| BarChartQuery.LegendMatchesQuery | client/components/barChart/barChart.directive.js:587-598 | the legend is empty exactly when the bar type has no aggregate; it names y exactly when the query aggregates y; it ends with x's name |
| BarChartQuery.QueryLimitCount | client/components/barChart/barChart.directive.js:584 | the count is the limit when the rows reached it, else 0 |
| BarChartQuery.OptionsMenuButtonText | client/components/barChart/barChart.directive.js:82-87 | the text is non-empty exactly when the button shows it |
| BarChartQuery.LimitTextAfterQuery | client/components/barChart/barChart.directive.js:82-90 | after a query the text shows exactly when the rows filled a positive limit, and its number reads back as the limit |
| BarChartQuery.ReadLiteralPlain | client/components/barChart/barChart.directive.js:37-46 | a literal body of plain text (no quote, no backslash) followed by a quote reads as that text, and reading goes on after the quote |
| BarChartQuery.ReadLiteralLength | client/components/barChart/barChart.directive.js:37-46 | a literal's text is never longer than its body, and exactly as long only when the body is plain text followed by the closing quote |
| BarChartQuery.QuotedReadBack | client/components/barChart/barChart.directive.js:37-46 | a text wrapped in quotes without escaping reads back as itself exactly when it holds no quote and no backslash |
| BarChartQuery.Escaped | client/components/barChart/barChart.directive.js:670-680 | escaping never shortens a text |
| BarChartQuery.EscapedPlain | client/components/barChart/barChart.directive.js:670-680 | escaping leaves a text with no quote and no backslash unchanged |
| BarChartQuery.ReadLiteralEscaped | client/components/barChart/barChart.directive.js:37-46 | an escaped text followed by a quote reads as the original text, whatever it holds |
| BarChartQuery.QuotedEscapedReadBack | client/components/barChart/barChart.directive.js:37-46 | an escaped, quoted text reads back as the original text |
| BarChartQuery.SavedFields | client/components/barChart/barChart.directive.js:667-683 | every saved text binding is a quoted string or absent, and the limit is saved as a number |
| BarChartQuery.BindFieldsAsWritten | client/components/barChart/barChart.directive.js:667-683 | as written, the title is saved wrapped in quotes with nothing escaped, or absent when empty, and the limit as a number |
| BarChartQuery.BindFields | client/components/barChart/barChart.directive.js:667-683 | with escaping, every saved text binding is still a quoted string or absent, and the limit is saved as a number |
| BarChartQuery.SavedTextReadBack | client/components/barChart/barChart.directive.js:667-683 | an escaped saved binding reads back as its text, and an absent one as "" |
| BarChartQuery.AsWrittenQuotedTitleLost | client/components/barChart/barChart.directive.js:670 | as written, the title `Today's events` is saved as text that is not one string literal, so the bindings do not read back |
| BarChartQuery.AsWrittenAgreesOnPlainText | client/components/barChart/barChart.directive.js:667-683 | when no saved text holds a quote or a backslash, the bindings as written and with escaping are the same |
| BarChartQuery.BindFieldsRoundTrip | client/components/barChart/barChart.directive.js:667-683 | the saved bindings read back as the options' names, aggregation and limit, and the y field and filter value exactly when they take part in the query, whatever characters the texts hold |
| BarChartQuery.BoundXAxisRestored | client/components/barChart/barChart.directive.js:313-316 | a widget created from the saved bindings chooses the same x field |
| BarChart.InitialState | client/components/barChart/barChart.directive.js:57-109 | the widget starts valid, not loading, with a blank chart, the bound aggregation or `count`, and the bound limit or 100 |
| BarChart.AtMostOneOutstanding | client/components/barChart/barChart.directive.js:408-415 | under the invariant at most one query can call back, and it is the outstanding one |
| BarChart.ShortCircuitDrawsBlank | client/components/barChart/barChart.directive.js:387-393 | without a connection, with an invalid x field, or with no y column for an aggregation other than `count`, no query is sent, a blank chart is drawn and loading stops |
| BarChart.NewQueryReplacesOutstanding | client/components/barChart/barChart.directive.js:395-415 | otherwise the outstanding query is aborted and the new query becomes the only one that can call back |
| BarChart.CancelledQueryDrawsNothing | client/components/barChart/barChart.directive.js:442-455 | a cancelled query (status 0) only stops being outstanding |
| BarChart.FailedQueryDrawsBlank | client/components/barChart/barChart.directive.js:455-471 | any other failure draws a blank chart, stops loading and sets an error only when the response carries one |
| BarChart.DoneQueryDraws | client/components/barChart/barChart.directive.js:416-441 | a query's rows are drawn (rebuilding when asked), loading stops and the limit count reflects the rows |
| BarChart.SettledQueryIgnored | client/components/barChart/barChart.directive.js:412-415 | a query whose callbacks have run calls back no more |
| BarChart.StepKeepsValid | client/components/barChart/barChart.directive.js:378-473 | every event keeps the widget's invariant |
| BarChart.QueryForDataKeepsValid | client/components/barChart/barChart.directive.js:378-473 | `queryForData` keeps the invariant |
| BarChart.UpdateFieldsKeepsValid | client/components/barChart/barChart.directive.js:309-334 | `updateFields` keeps the invariant |
| BarChart.UpdateTablesKeepsValid | client/components/barChart/barChart.directive.js:295-307 | `updateTables` keeps the invariant |
| BarChart.DisplayKeepsValid | client/components/barChart/barChart.directive.js:272-293 | `displayActiveDataset` keeps the invariant |
| BarChart.ClickedFilterIsIgnored | client/components/barChart/barChart.directive.js:481-500 | a click records the filter, enables links exactly when there are some, adds `x = value`, and the next query ignores exactly that filter |
| BarChart.FalsyClickNotIgnored | client/components/barChart/barChart.directive.js:340 | a click on a bar whose value is falsy (0 or "") adds the filter, but the next query ignores no filter, so it is filtered by the widget's own click |
| BarChart.UpdateFilterSetCases | client/components/barChart/barChart.directive.js:249-265 | nothing happens without a valid x field; a single-clause filter is adopted; a removed one is dropped |
| BarChart.ClearThenRemoved | client/components/barChart/barChart.directive.js:539-555 | clearing asks for the filter's removal; its callback forgets the filter and deselects the bar |
| BarChart.FiltersChangedGuard | client/components/barChart/barChart.directive.js:226-242 | a change elsewhere is ignored; one on the widget's table requeries without rebuilding |
| BarChart.DisplayWhileLoadingIgnored | client/components/barChart/barChart.directive.js:273-275 | showing the dataset is ignored while loading or without a dataset |
| BarChart.ShortCircuitKeepsEarlierQuery | client/components/barChart/barChart.directive.js:387-415 | a short-circuit leaves an earlier query outstanding, whose rows later replace the blank chart |
| BarChart.QueryKeepsSelection | client/components/barChart/barChart.directive.js:378-473 | a query leaves the selection alone and is loading exactly when it was and did not short-circuit |
| BarChart.BeforeQueryKeepsSelection | client/components/barChart/barChart.directive.js:327-333 | the filter refresh before a query leaves the selection and loading alone |
| BarChart.UpdateFieldsResolves | client/components/barChart/barChart.directive.js:309-334 | the table's fields are resolved by binding then mapping, and loading goes on exactly when a query was sent |
| BarChart.UpdateTablesChooses | client/components/barChart/barChart.directive.js:295-307 | the table is chosen by binding, then mappings, then first, and its fields resolved |
| BarChart.DisplayChooses | client/components/barChart/barChart.directive.js:272-293 | the database is chosen by binding, else first, and then the table |
| BarChart.Widget.constructor | client/components/barChart/barChart.directive.js:57-109 | the widget's fields hold the initial state |
| BarChart.Widget.DoDrawChart | client/components/barChart/barChart.directive.js:557-585 | draws the rows, rebuilding when asked, and sets the limit count |
| BarChart.Widget.HideError | client/components/barChart/barChart.directive.js:379-382 | any error shown is hidden |
| BarChart.Widget.AbortOutstanding | client/components/barChart/barChart.directive.js:408-410 | the outstanding query is aborted and its fail callbacks run |
| BarChart.Widget.IssueQuery | client/components/barChart/barChart.directive.js:395-415 | the built query is sent and becomes outstanding |
| BarChart.Widget.DrawBlankChart | client/components/barChart/barChart.directive.js:475-479 | draws a blank chart and stops loading |
| BarChart.Widget.QueryForData | client/components/barChart/barChart.directive.js:378-473 | performs `queryForData` |
| BarChart.Widget.OnQueryDone | client/components/barChart/barChart.directive.js:412-441 | runs a query's done and always callbacks |
| BarChart.Widget.OnQueryFail | client/components/barChart/barChart.directive.js:412-472 | runs a query's fail and always callbacks |
| BarChart.Widget.ClearFilterSetLocally | client/components/barChart/barChart.directive.js:534-537 | forgets the filter set and deletes the widget's links |
| BarChart.Widget.UpdateFilterSet | client/components/barChart/barChart.directive.js:249-265 | refreshes the filter set from the filter service |
| BarChart.Widget.HandleFilterSet | client/components/barChart/barChart.directive.js:514-532 | records the filter and hands the bar's links to the links service; the links button is disabled exactly when there are none |
| BarChart.Widget.ClickFilterHandler | client/components/barChart/barChart.directive.js:481-500 | records the clicked bar and adds or replaces the filter |
| BarChart.Widget.ClearFilterSet | client/components/barChart/barChart.directive.js:539-555 | asks for the filter's removal |
| BarChart.Widget.OnFilterRemoved | client/components/barChart/barChart.directive.js:550-553 | the removal callback forgets the filter and deletes the links |
| BarChart.Widget.OnFiltersChanged | client/components/barChart/barChart.directive.js:226-242 | requeries when the change concerns the widget |
| BarChart.Widget.SetFields | client/components/barChart/barChart.directive.js:309-325 | sets loading and resolves the fields |
| BarChart.Widget.UpdateFields | client/components/barChart/barChart.directive.js:309-334 | performs `updateFields` |
| BarChart.Widget.UpdateTables | client/components/barChart/barChart.directive.js:295-307 | performs `updateTables`, reporting whether it completes |
| BarChart.Widget.DisplayActiveDataset | client/components/barChart/barChart.directive.js:272-293 | performs `displayActiveDataset`, reporting whether it completes |

## Left out

- `app/js/directives/importFile.js` is not part of this model. It is a file-upload directive that handles the DOM and the browser's file API.
- The setup functions that load configuration over the network are left out: `readAndSaveExternalServices` with its `readConfig` recursion, `readLayoutFilesAndSaveLayouts`, `readDatasetFilesAndSaveDatasets` and `getExternalConfig`. They are I/O. Their results are inputs to the modelled functions.
- `angularApp.value` and `angularApp.constant` are modelled as storing the value in a field of `DashboardSetup.Setup`. Angular's injector is not modelled.
- `saveUserAle` and `saveOpenCpu` are left out. They only hand a configuration object to a global.
- The video autoplay handling of `saveDashboards` is left out, because it is DOM work.
- The popup's `createLinkHtml`/`createDisabledLinkHtml` templates, its open and close handlers, its link-event logging and its `$destroy` handler are left out. They are UI and telemetry.
- Mustache rendering is a parameter of the popup (`Renderer`), because it is a library call.
- `$sce.trustAsResourceUrl` is modelled as the identity, because it only marks a URL as trusted.
- LinksPopup.CleanData: works on values, so the deep copy of `linkArg.mappings` needs no modelling: the caller's mappings are never changed. It returns cleaned copies instead of editing the caller's link objects in place, so aliasing between the input and the stored links is not captured.
- ExternalServices.CreateServices: when a registration throws part way, the model returns `Thrown` and does not model the services already changed before the throw.
- DashboardSetup.DefaultsApplied: `Math.floor(columns * 0.25)` and `Math.floor(columns * 0.20)` are modelled as `columns / 4` and `columns / 5` on integers. Floating-point rounding is not modelled.
- Numbers in `Values.Json` are integers. Fractions, NaN and infinities are not modelled.
- `$.isNumeric` and `parseFloat` are an abstract predicate (`Env.isNumeric`) and a `ParsedFloat` operand, because floating point is not modelled.
- The neon query builder, the dataset service, the filter service, the links-popup service, the connection service and the error-notification service are interfaces. Their answers are inputs, and the calls made into them are recorded.
  - The model assumes that `groupBy`, `where`, `ignoreFilters`, `sortBy` and `limit` set their part of a query, and that `aggregate` appends one.
  - `getFirstTableWithMappings` is an abstract answer.
  - The handle that `errorNotificationService.showErrorMessage` returns is represented by the recorded error.
- Asynchronous timing is modelled as events. A query's done and fail callbacks are separate events, and so is the callback of a filter removal. Aborting a query runs its fail callbacks right away with status 0, as jQuery does.
- The bar chart's rendering, sizing (`updateChartSize`, resize handlers), user-activity logging, messenger subscriptions, `$watch` handlers, export object, title generation and `$destroy` handler are left out. They are DOM, telemetry or wiring that computes nothing the model's properties depend on.
- BarChart.Widget.ClickFilterHandler: the display name object passed with `addFilter` is not recorded. The call records the database, table, fields and clause.
- BarChart.Widget.UpdateTables: when there is no table, the source sets `options.table` to undefined and then throws. The model reports `completed == false` and keeps the previous table.
- BarChart.Widget.DisplayActiveDataset: when there is no database, the source sets `options.database` to undefined and then throws. The model reports `completed == false` and keeps the previous database.
- Angular's expression parser is not part of this model. `BarChartQuery.ReadBack` reads a saved binding only when it is one single-quoted string literal and reads any other text as None. Angular would reject such text or evaluate it as some other expression (`'a' + 'b'` gives `ab`), and the model does not follow either.
- BarChartQuery.ReadLiteral: a `\u` escape is read as None rather than as the character its hexadecimal digits name.
- CustomFilters.ItemIdempotent: stated only for items without multi-field filters. A second pass wraps each `multi` entry again in `{where: ...}`, so `where` is then an object, and its `forEach` throws at `client/app/neonGTDSetup.js:340`.
- CustomFilters.GroupIdempotent: stated only for groups whose items have no multi-field filters, for the same reason.
- Strings.Lower: lowers ASCII letters only. JavaScript's `toLowerCase` also lowers other Unicode letters and can change the length of a string.
- Strings.StrLeTotal: the model orders strings by Unicode scalar values. JavaScript's default `sort` compares UTF-16 code units, and the two orders differ for characters above U+FFFF.
- Strings.NatToString: writes every number in plain decimal digits. JavaScript switches to exponent form from 1e21.
- The links a bar gets are reduced to their number, through `LinksService.linkCount`. The link objects themselves belong to the links-popup service.

## Findings

| source | as written | input that shows it | evidently intended | confidence | as-written member | corrected member |
|---|---|---|---|---|---|---|
| client/app/neonGTDSetup.js:176 | `this.createExternalService(...)` is called inside a `forEach` callback in strict mode with no `thisArg`, so `this` is undefined and the call throws | app `App1` with service type `user`, one neon mapping `neonUser` of type `user`, and empty `external.services` | the service for a newly seen mapping is created and the app registered under it | not executed | ExternalServices.AsWrittenFirstRegistrationThrows | ExternalServices.CreateServices |
| client/components/barChart/barChart.directive.js:670-680 | each set text binding is saved as `'` + text + `'` with nothing escaped | a title `Today's events`, or a column name holding `'` or a backslash | the saved binding reads back as the same text, which needs the backslash and the quote escaped | not executed | BarChartQuery.AsWrittenQuotedTitleLost | BarChartQuery.BindFieldsRoundTrip |
