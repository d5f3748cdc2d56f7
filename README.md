# Gravplasser Sankey: aggregation and view state, in Dafny

A model of the two pieces of logic in the gravplasser prototype. The prototype is a
React page that draws a Sankey diagram of public consultation feedback ("innspill")
on activities at Oslo's cemeteries.

- **Aggregation** (`buildSankeyData`, `web/src/App.jsx`). Each feedback record names
  some sites, some theme tags and an attitude ("holdning"). The record is
  normalised like this:
  - The attitude is collapsed to a sentiment (`negativ` or `positiv`).
  - The site tag `alle` is dropped. A record left with no site is counted under
    "Ikke spesifisert".
  - Each raw tag is mapped to its canonical theme through the grouping table.

  Every (site, theme, sentiment) triple of a record increments one counter. The
  counters become weighted links `sted:<site>` → `tema:<theme>`. Then come the nodes:
  the sites sorted by collation, followed by the themes sorted by decreasing inflow,
  each node with its table colour or the fallback colour.
- **Filter and view state** (`handleFilter` in `App.jsx`; `hexToRgba` and the
  view-state memo in `web/src/Sankey.jsx`). One click at a time toggles a
  site or theme filter. From the filter, the view computes three things:
  - an opacity for every node;
  - an opacity for every link;
  - a stroke colour for every link.

Modules:

| file | module | contents |
|---|---|---|
| `wrappers.dfy` | `Wrappers` | `Option` |
| `seqs.dfy` | `Seqs` | the JavaScript collections the code relies on (see below) |
| `normalize.dfy` | `Normalize` | the constant tables, sentiment, site normalisation, theme canonicalisation, colours |
| `aggregate.dfy` | `Aggregate` | the graph datatypes, the loops of `buildSankeyData` as methods, and `SankeyGraph` |
| `sankey_properties.dfy` | `SankeyProperties` | what is proved about `SankeyGraph` |
| `sankey_scenarios.dfy` | `SankeyScenarios` | two aggregations computed in full |
| `filter_state.dfy` | `FilterState` | the toggle rule |
| `colour.dfy` | `Colour` | `hexToRgba` as written and as intended, and colour round trips |
| `view_state.dfy` | `ViewState` | endpoint resolution, the view-state loops as methods, and their rules |

The JavaScript collections the code relies on are modelled as follows:
- a `Set` is duplicate removal that keeps first occurrences (`Seqs.Dedup`);
- `Array.prototype.sort` is a stable insertion sort over a comparator (`Seqs.SortBy`);
- the `Map` counter is a key list in insertion order plus counts (`Aggregate.LinkMap`,
  updated by `Aggregate.Increment`).

`Aggregate.BuildSankeyData` is the imperative counterpart of the loops in the source.
It is proved to return `SankeyGraph(innspill, collate)`, the functional definition
that every lemma in `SankeyProperties` is about.

The site comparator `collate` stands for `localeCompare(…, 'nb')`. It is a parameter
and is not defined. Facts about site order hold whenever it is total and
transitive.

Opacities and alphas are whole hundredths, so `0.07` is `7`.

## Where the model follows the code

- Themes without a colour get `DEFAULT_TEMA_COLOR` (`#555`), not `#888`. Only sites
  fall back to `#888`.
- Node ids use the prefixes `sted:` and `tema:`.
- A site or a tag listed twice in one record counts twice. The counter increments
  once per (site, tag) pair.
- Setting a filter does not always dim a node. When every node is joined to the
  selected one, every node stays fully opaque (`ViewState.JoinedNodesOpaque`, with an
  instance in `ViewState.FilterMayDimNothing`).

## Model

| member | source | states |
|---|---|---|
| Normalize.SentimentOf | web/src/App.jsx:83-84 | a record without an attitude is positive, and a negative sentiment comes only from an attitude in the negative set |
| Normalize.SentimentOfNegative | web/src/App.jsx:77-84 | a record is negative exactly when its attitude is "kritisk", "negativ" or "sterkt negativ"; a missing or other attitude is positive |
| Normalize.WithoutAlle | web/src/App.jsx:87 | the filtered list holds exactly the record's sites other than "alle" and is never longer |
| Normalize.WithoutAlleAppend | web/src/App.jsx:87 | the filter keeps order: it distributes over concatenation |
| Normalize.NormalizeSteder | web/src/App.jsx:87-88 | the counted sites are never empty and never contain "alle"; a record with no specific site counts under exactly ["Ikke spesifisert"], any other under its filtered sites |
| Normalize.TemaMapEntry | web/src/App.jsx:25-75 | the grouping table, entry for entry: the canonical theme of each listed raw tag, and none for any other tag; stated by `CanonicalTemaCases`, `CanonicalTemaDigital` and `CanonicalTemaNature` |
| Normalize.CanonicalTema | web/src/App.jsx:92 | the tag's entry in the grouping table, or the tag itself when the table has none; what the result can be is stated by `CanonicalTemaCases` |
| Normalize.CanonicalTemaCases | web/src/App.jsx:92 | a tag in the grouping table maps to that entry, which is one of the thirteen canonical themes; any other tag is kept unchanged |
| Normalize.CanonicalTemaDigital | web/src/App.jsx:26-29 | "QR-koder", "video" and "app" all become "Digital formidling" |
| Normalize.CanonicalTemaNature | web/src/App.jsx:49 | "natur" becomes "Natur / botanikk" |
| Normalize.CanonicalTemaCaseSensitive | web/src/App.jsx:92 | the lookup is exact: "Natur" is not in the table and stays "Natur" |
| Normalize.ColorOr | web/src/App.jsx:115-125 | the table lookup with a fallback through JavaScript's logical or: the entry when the key has a non-empty one, the fallback otherwise |
| Normalize.StedColor | web/src/App.jsx:115 | a site's table colour, or `#888`; stated by `NodeColors` and `SiteColoursWellFormed` |
| Normalize.TemaColor | web/src/App.jsx:125 | a theme's table colour, or `DEFAULT_TEMA_COLOR` (`#555`); stated by `NodeColors` |
| Normalize.NodeColors | web/src/App.jsx:5-22 | a site in the table gets its entry, any other site "#888"; "Bevare ro" gets "#C0392B", every other theme "#555" |
| Seqs.Dedup | web/src/App.jsx:99-106 | a `Set` filled by `add`: never longer than the values added; its contents and order are stated by `DedupMembers`, `DedupDistinct` and `DedupSnoc` |
| Seqs.Insert | web/src/App.jsx:111-120 | one insertion step of the sort: the result has the same elements plus the new one, and one more element |
| Seqs.SortBy | web/src/App.jsx:111-120 | `Array.prototype.sort` over a comparator: the result is a permutation of the input (same multiset, same length); its order is stated by `SortBySorted` and `SortByPairwise` |
| Seqs.DedupMembers | web/src/App.jsx:99-106 | the set of names holds exactly the values added to it |
| Seqs.DedupDistinct | web/src/App.jsx:99-106 | the set holds no value twice |
| Seqs.DedupSnoc | web/src/App.jsx:105-106 | adding a value appends it when new and changes nothing otherwise (insertion order) |
| Seqs.SortByMembers | web/src/App.jsx:111-120 | sorting keeps exactly the same names |
| Seqs.SortBySorted | web/src/App.jsx:111-120 | with a total comparator, each name may be placed before its successor |
| Seqs.SortByPairwise | web/src/App.jsx:111-120 | with a total, transitive comparator, every earlier name may be placed before every later one |
| Seqs.SortByDistinct | web/src/App.jsx:111-120 | sorting distinct names keeps them distinct |
| Seqs.FlatMapMembers | web/src/App.jsx:82-96 | a key is counted exactly when some record contributes it |
| Aggregate.TemaKeys | web/src/App.jsx:91-94 | the keys one site of a record counts, one per raw tag in tag order, under that tag's canonical theme; as many keys as tags; stated by `SankeyProperties.TemaKeysIff` |
| Aggregate.StedKeys | web/src/App.jsx:90-95 | the keys of a record over its sites, sites outermost; stated by `SankeyProperties.StedKeysIff` |
| Aggregate.RecordKeys | web/src/App.jsx:82-96 | the keys one record counts, over its normalised sites with its sentiment; stated by `SankeyProperties.RecordKeysIff` |
| Aggregate.Contributions | web/src/App.jsx:82-96 | every increment of the aggregation, record by record in order: the reference the counting loops are proved against (`CountLinks`); stated by `SankeyProperties.ContributionsIff` and `ContributionsLength` |
| Aggregate.Increment | web/src/App.jsx:94 | the key's count goes up by one, a missing key counting as 0, and every other count is unchanged; the key joins the key set; a new key is appended to the insertion order and a known key leaves the order as it was |
| Aggregate.TallyFrom | web/src/App.jsx:82-96 | the counter after a list of increments, one `linkMap.set(key, (linkMap.get(key) or 0) + 1)` per key in order; the counting loops are proved against it, and its counts and key order are stated by `TallyCounted` and `TallyFromAppend` |
| Aggregate.CountSite | web/src/App.jsx:91-95 | the inner loop increments the counter once per tag of the record, under that tag's canonical theme, in tag order |
| Aggregate.CountRecord | web/src/App.jsx:83-96 | one record increments the counter once per (normalised site, tag) pair, sites outermost |
| Aggregate.CountLinks | web/src/App.jsx:80-97 | the counter after all records is the counter fed every contribution of every record in order |
| Aggregate.TallyCounted | web/src/App.jsx:94 | each key's count is its number of increments, and the key order is the order of first increment |
| Aggregate.TallyFromAppend | web/src/App.jsx:82-97 | feeding the counter two key lists one after the other is feeding it their concatenation |
| Aggregate.EmitLinks | web/src/App.jsx:99-108 | the emission loop produces one link per counter entry in insertion order, and collects the distinct sites and themes in first-seen order |
| Aggregate.MakeLink | web/src/App.jsx:107 | the link object of a key: source `sted:<site>`, target `tema:<theme>`, the count as value and the key's sentiment |
| Aggregate.MapLinks | web/src/App.jsx:103-107 | the `links.push` loop over the counter's entries: one link per key in insertion order, each with that key's count; stated by `MapLinksCounted` |
| Aggregate.MapLinksCounted | web/src/App.jsx:103-107 | the emitted link for each key carries exactly that key's number of increments |
| Aggregate.StedNodes | web/src/App.jsx:111-116 | one site node per name, in order, with id `sted:<name>`, the name as label and the site colour; stated by `SankeyProperties.BuildNodesAt` |
| Aggregate.TemaNodes | web/src/App.jsx:121-126 | one theme node per name, in order, with id `tema:<name>`, the name as label and the theme colour; stated by `SankeyProperties.BuildNodesAt` |
| Aggregate.BuildNodes | web/src/App.jsx:110-127 | the sorted site nodes followed by the theme nodes sorted by inflow; stated by `SankeyProperties.BuildNodesFrom`, `SitesBeforeThemes`, `NodeIdsDistinct` and `ThemeNodesByWeight` |
| Aggregate.Inflow | web/src/App.jsx:118-119 | the sum of the values of the links into a theme id |
| Aggregate.HeavierFirst | web/src/App.jsx:117-120 | the theme comparator `bTotal - aTotal`: a theme goes before another when its inflow is at least as large; total and transitive by `SankeyProperties.HeavierFirstOrders` |
| Aggregate.SankeyGraph | web/src/App.jsx:79-130 | the graph has one node per distinct site and per distinct theme of the counted keys, and one link per distinct key |
| Aggregate.BuildSankeyData | web/src/App.jsx:79-130 | the imperative aggregation returns exactly the graph `SankeyGraph` that the properties below are about |
| SankeyProperties.IdsInjective | web/src/App.jsx:107-122 | the prefixed ids determine the name, and no site id equals a theme id |
| SankeyProperties.TemaKeysIff | web/src/App.jsx:91-94 | one site's keys are exactly that site with the record's sentiment and the canonical theme of one of its tags |
| SankeyProperties.StedKeysIff | web/src/App.jsx:90-95 | a record's keys over its sites are exactly a listed site, the sentiment and the canonical theme of one of its tags |
| SankeyProperties.RecordKeysIff | web/src/App.jsx:82-95 | a record contributes a key exactly when its site is a normalised site, its theme the canonical theme of one of its tags and its sentiment that of its attitude; the site is never "alle" |
| SankeyProperties.ContributionsIff | web/src/App.jsx:82-97 | a key is contributed exactly when some record contributes it |
| SankeyProperties.NoAlleKey | web/src/App.jsx:87-93 | no counted key has site "alle" |
| SankeyProperties.LinksExactly | web/src/App.jsx:103-107 | the links are exactly one per contributed key, carrying its number of contributions |
| SankeyProperties.LinkValuesPositive | web/src/App.jsx:94-107 | every link has value at least 1 and goes from a site id other than `sted:alle` to a theme id |
| SankeyProperties.LinksUnique | web/src/App.jsx:93-107 | no two links share source, target and sentiment |
| SankeyProperties.ContributionsLength | web/src/App.jsx:90-96 | the number of increments is the sum over records of normalised sites × tags |
| SankeyProperties.EmptyTemaContributesNothing | web/src/App.jsx:91 | a record without tags adds nothing |
| SankeyProperties.WeightConservation | web/src/App.jsx:79-108 | the link values add up to the sum over records of normalised sites × tags |
| SankeyProperties.BuildNodesAt | web/src/App.jsx:110-127 | position i of the node list holds the node of the i-th sorted site, or after the sites the node of the corresponding sorted theme |
| SankeyProperties.BuildNodesFrom | web/src/App.jsx:110-127 | every node is the node of a listed site or of a listed theme, with its kind, name and id prefix |
| SankeyProperties.NodesExactly | web/src/App.jsx:99-127 | a node appears exactly when some contributed key names its site or its theme, coloured by the tables |
| SankeyProperties.NodeFromKey | web/src/App.jsx:99-127 | every node is the site node or the theme node of some counted key |
| SankeyProperties.KeyGivesNodes | web/src/App.jsx:99-127 | both the site and the theme of a counted key have their node in the graph |
| SankeyProperties.LinkEndpointsAreNodes | web/src/App.jsx:103-127 | every link's source is a site node and its target a theme node of the graph |
| SankeyProperties.SitesBeforeThemes | web/src/App.jsx:110-127 | all site nodes come before all theme nodes |
| SankeyProperties.NodeIdsDistinct | web/src/App.jsx:99-127 | no two nodes share an id |
| SankeyProperties.ThemeNodesByWeight | web/src/App.jsx:117-120 | theme nodes are in order of non-increasing total incoming link value |
| SankeyProperties.SiteNodesCollated | web/src/App.jsx:111 | site nodes are in collation order whenever the collation is total and transitive |
| SankeyScenarios.AlleScenario | web/src/App.jsx:79-130 | a critical record tagged "natur" for "alle" only gives the nodes "Ikke spesifisert" (#999) and "Natur / botanikk" (#555) and one negative link of weight 1 |
| SankeyScenarios.DigitalScenario | web/src/App.jsx:79-130 | a positive "QR-koder" record and a negative "video" record for site A give one theme node "Digital formidling" and two weight-1 links that differ only in sentiment |
| FilterState.Toggle | web/src/App.jsx:157-163 | clicking the selected item clears the filter; clicking any other item selects exactly it |
| FilterState.ToggleTwice | web/src/App.jsx:157-163 | a second click on the same item returns the state to the item if it was selected before, and to null otherwise; from null it returns to null |
| FilterState.SingleSelection | web/src/App.jsx:157-163 | after any clicks the filter is null or the last item clicked |
| FilterState.RepeatedClicks | web/src/App.jsx:157-163 | from null, an even number of clicks on one item gives null and an odd number selects it |
| Colour.FirstIndex | web/src/Sankey.jsx:11 | the position found holds the character, and no earlier position does |
| Colour.RemoveFirst | web/src/Sankey.jsx:11 | without a `#` the string is unchanged; with one, the result is the string with its first `#` cut out and nothing else changed, and a string that starts with `#` loses exactly that character |
| Colour.Substring | web/src/Sankey.jsx:12-14 | within bounds the result is the slice; it is never longer than the string |
| Colour.HexPrefix | web/src/Sankey.jsx:12-14 | parsing stops at the first non-hexadecimal character |
| Colour.HexValue | web/src/Sankey.jsx:12-14 | the number a string of hexadecimal digits denotes, most significant first; stated by `ParsePair` |
| Colour.ParseHex | web/src/Sankey.jsx:12-14 | `parseInt(…, 16)`: the value of the leading hexadecimal digits, or `NaN` when there are none; stated by `ParsePair`, `ShortHexAsWritten` and `LongHexAsWritten` |
| Colour.ParsePair | web/src/Sankey.jsx:12-14 | two hexadecimal digits parse to their value, which lies in 0..255 |
| Colour.LongHexAsWritten | web/src/Sankey.jsx:10-16 | on `#rrggbb` each component is the value of its pair, in 0..255 |
| Colour.HexToRgbaAsWritten | web/src/Sankey.jsx:10-16 | `hexToRgba` as written: the colour without its first `#`, sliced at 0–2, 2–4 and 4–6 and each slice parsed; what it gives is stated by `LongHexAsWritten` and `ShortHexAsWritten` |
| Colour.ShortHexAsWritten | web/src/Sankey.jsx:10-16 | on any `#rgb` the written reading puts the first two digits in red, the third alone in green, and `NaN` in blue |
| Colour.GreysAsWritten | web/src/Sankey.jsx:10-16 | the three-digit colours `#999` and `#888` read as `rgba(153,9,NaN,…)` and `rgba(136,8,NaN,…)` |
| Colour.HexToRgba | web/src/Sankey.jsx:10-16 | `hexToRgba` as intended: three digits expanded to six before slicing; what it gives is stated by `LongHexUnchanged`, `ShortHex` and `ToHexRoundTrip` |
| Colour.LongHexUnchanged | web/src/Sankey.jsx:10-16 | on `#rrggbb` the corrected reading is the written one |
| Colour.ShortHex | web/src/Sankey.jsx:10-16 | with the correction, `#rgb` reads as 17 × each digit |
| Colour.ToHexRoundTrip | web/src/Sankey.jsx:10-16 | reading back a `#rrggbb` made from components in 0..255 gives those components |
| Colour.SiteColoursWellFormed | web/src/App.jsx:5-16 | every site colour, the fallback included, is `#rgb` or `#rrggbb` |
| Colour.SiteStrokesDefined | web/src/Sankey.jsx:56-60 | with the correction, no site stroke has a `NaN` component |
| ViewState.ResolveLinks | web/src/Sankey.jsx:33-36 | when layout succeeds it gives one laid-out link per link |
| ViewState.FindNode | web/src/Sankey.jsx:24 | the lookup by id returns a node with that id, and fails only when no node has it |
| ViewState.ResolvedLinksAgree | web/src/Sankey.jsx:33-40 | laid-out links keep their endpoint ids, value and sentiment, and their endpoints are nodes of the graph |
| ViewState.ResolveSucceeds | web/src/Sankey.jsx:33-40 | layout succeeds whenever every endpoint id names a node |
| ViewState.GraphResolves | web/src/Sankey.jsx:33-40 | the aggregated graph always lays out |
| ViewState.ActiveId | web/src/Sankey.jsx:67 | the selected node's id: `sted:` or `tema:` and the filter's value |
| ViewState.IsActive | web/src/Sankey.jsx:92-94 | a link is active when it leaves the selected site or enters the selected theme |
| ViewState.Linked | web/src/Sankey.jsx:70-80 | the far ends of the active links; stated by `LinkedIff` |
| ViewState.ConnectedIds | web/src/Sankey.jsx:66-80 | the selected node is always among the connected ones |
| ViewState.NodeOpacity | web/src/Sankey.jsx:51-85 | every node is at 1 or 0.07, and the selected node is always at 1 |
| ViewState.LinkOpacity | web/src/Sankey.jsx:53-106 | a link is at 0.02 exactly when a filter is set and the link is not active; under a filter every other link is at 0.6 or more |
| ViewState.SourceColour | web/src/Sankey.jsx:56 | the colour of the link's source site in the site table, or `#888` when it has none |
| ViewState.LinkStroke | web/src/Sankey.jsx:53-106 | the stroke the program draws, with site colours read by `hexToRgba` as written; stated by `NegativeLinksRed`, `InactiveLinksFaint`, `LongColourStrokesAgree` and `UnspecifiedStrokeAsWritten` |
| ViewState.LinkStrokeIntended | web/src/Sankey.jsx:53-106 | the same rules with the corrected reading; stated by `StrokesDefined` and `LongColourStrokesAgree` |
| ViewState.AllOpaque | web/src/Sankey.jsx:51-52 | without a filter every node id gets opacity 1, and only node ids get an entry |
| ViewState.StyleUnfiltered | web/src/Sankey.jsx:53-61 | without a filter every link index gets opacity 0.55 (negative) or 0.4, and the red stroke (alpha 0.65) or its site's colour, read as written, at alpha 0.6 |
| ViewState.Connect | web/src/Sankey.jsx:66-80 | the collected set is the selected id plus the far end of every link leaving the selected site or entering the selected theme |
| ViewState.DimUnconnected | web/src/Sankey.jsx:83-85 | every node id gets 1 when connected and 0.07 otherwise |
| ViewState.StyleFiltered | web/src/Sankey.jsx:88-106 | active links get 0.7 or 0.6 and the red stroke or the site colour read as written, at alpha 0.75; every other link gets 0.02 and `rgba(200,200,200,0.05)` |
| ViewState.ViewStateOf | web/src/Sankey.jsx:46-109 | the three maps are total on node ids and link indices and hold exactly the per-node and per-link rules for the current filter, strokes as the program draws them |
| ViewState.NodeIdsMembers | web/src/Sankey.jsx:52-84 | the node map's keys are exactly the ids of the nodes |
| ViewState.LinkedIff | web/src/Sankey.jsx:70-80 | an id is a far end exactly when some active link ends there |
| ViewState.ConnectedIff | web/src/Sankey.jsx:66-80 | with a site selected, the connected ids are the site and the targets of its links; with a theme selected, the theme and the sources of its links |
| ViewState.ActiveLinkEndpointsOpaque | web/src/Sankey.jsx:83-98 | both endpoints of an active link are fully opaque, and the link is at least 0.6 |
| ViewState.DimmedIff | web/src/Sankey.jsx:83-85 | a node is at 0.07 exactly when a filter is set, it is not the selected node and no active link reaches it; otherwise it is at 1 |
| ViewState.InactiveLinksFaint | web/src/Sankey.jsx:102-105 | a filtered-out link is at 0.02 and grey at alpha 0.05, whatever its sentiment |
| ViewState.NegativeLinksRed | web/src/Sankey.jsx:57-59 | a shown negative link is drawn in rgb(192,57,43) and is more opaque than the positive one: +15 hundredths without a filter, +10 under one |
| ViewState.StrokesDefined | web/src/Sankey.jsx:56-101 | with the application's site colours and the correction, every intended stroke has all three components |
| ViewState.LongColourStrokesAgree | web/src/Sankey.jsx:56-101 | when the site colour is `#rrggbb`, the drawn stroke is the intended one, under every filter |
| ViewState.UnspecifiedStrokeAsWritten | web/src/Sankey.jsx:56-60 | a positive link from "Ikke spesifisert" is drawn as `rgba(153,9,NaN,0.6)`, which has a `NaN` component, where `rgba(153,153,153,0.6)` was intended |
| ViewState.UncolouredStrokeAsWritten | web/src/Sankey.jsx:56-60 | a positive link from a site without a table colour is drawn from `#888` as `rgba(136,8,NaN,0.6)`, where `rgba(136,136,136,0.6)` was intended |
| ViewState.JoinedNodesOpaque | web/src/Sankey.jsx:66-85 | under a filter, the selected node and every far end of an active link are fully opaque; so when every node is joined to the selected one, none is dimmed |
| ViewState.FilterMayDimNothing | web/src/Sankey.jsx:66-85 | in a graph whose only site A is linked to its only theme T, selecting A leaves both nodes at 1 |
| ViewState.SiteFilterScenario | web/src/Sankey.jsx:66-106 | selecting site A, linked only to T: A and T are opaque, the other nodes are at 0.07, A's negative link is at 0.7 and the other link at 0.02 |

## Left out

- Loading the feedback file (`fetch`, `useEffect`), React state and memoisation,
  the JSX markup and the tooltip are not modelled. The filter is a parameter of
  the view state.
- The d3-sankey layout is modelled only by the id lookup that turns each link's
  endpoint ids into node records. Positions, widths and `sankeyLinkHorizontal`
  paths are not modelled.
- `localeCompare(…, 'nb')` is an abstract comparator `collate`. Norwegian collation
  is not defined.
- Aggregate.Innspill: a record always has a site list and a tag list; only its
  attitude may be absent. In the source a record without `steder` throws a
  `TypeError` at `item.steder.filter` (web/src/App.jsx:87), and one without `tema`
  throws at `for … of item.tema` (web/src/App.jsx:91); either aborts the whole
  aggregation. The model has no such records, so it does not model that failure.
- Aggregate.LinkMap: the counter key `sted|||tema|||sentiment` is a triple. A site or
  theme name containing `|||` would split wrongly in the source; the model does not
  reproduce that.
- Normalize.CanonicalTema: a tag or site that names an `Object.prototype` property
  (such as `constructor`) would find an inherited value in the source's object
  tables. The model's tables hold only their own entries.
- Colour.ParseHex: `parseInt`'s handling of leading whitespace, signs and `0x` is not
  modelled. The strings it receives here are slices of a colour.
- Colour.Rgba: the `rgba(…)` string is modelled as its four components, not as text.
  An alpha is in hundredths.
- Seqs.SortBy: stability of the sort is not stated as a lemma. Equal-weight themes
  keep their first-seen order in the model, as `Array.prototype.sort` guarantees.
- Aggregating the same records twice gives the same graph because `SankeyGraph` is
  a function. No separate lemma states this.

## Findings

| source | as written | input that shows it | evidently intended | confidence | as-written member | corrected member |
|---|---|---|---|---|---|---|
| web/src/Sankey.jsx:10-16 | `hexToRgba` reads the components at characters 0–2, 2–4 and 4–6 of the colour without `#`, whatever its length | the site colour `#999` of "Ikke spesifisert" (web/src/App.jsx:6) gives `rgba(153,9,NaN,0.6)`, and the fallback `#888` gives `rgba(136,8,NaN,0.6)`; neither is a valid CSS colour, so those links lose their stroke colour | `#rgb` read as `#rrggbb`, giving `rgba(153,153,153,0.6)` | not executed | Colour.GreysAsWritten | Colour.ShortHex |

The as-written reading is `Colour.HexToRgbaAsWritten`. The corrected reading
`Colour.HexToRgba` expands three digits to six before slicing. `ViewState.LinkStroke`,
and so the view-state methods, draw with the as-written reading, as the program does;
`ViewState.UnspecifiedStrokeAsWritten` shows the `NaN` it gives on a real link.
`ViewState.LinkStrokeIntended` applies the same rules with the corrected reading.
`Colour.SiteStrokesDefined` and `ViewState.StrokesDefined` prove that with it no
stroke has a `NaN` component, and `ViewState.LongColourStrokesAgree` that the two
differ only where a site colour is not `#rrggbb`.
