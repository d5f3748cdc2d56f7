/**
  The graph aggregator: `buildSankeyData` turns the list of feedback records into the
  bipartite site/theme graph of the Sankey diagram, one weighted link per
  (site, canonical theme, sentiment) that occurs.

  `SankeyGraph` is the reference definition of the result; `BuildSankeyData` is the
  loop-by-loop model of the source, proved to compute it.
*/
module Aggregate {
  import opened Wrappers
  import opened Seqs
  import opened Normalize

  /** One feedback record ("innspill"): its sites, raw theme tags and attitude. */
  datatype Innspill = Innspill(steder: seq<string>, tema: seq<string>, holdning: Option<string>)

  /** The counter key; the source joins these three strings with "|||". */
  datatype LinkKey = LinkKey(sted: string, tema: string, sentiment: Sentiment)

  datatype NodeType = Sted | Tema

  datatype Node = Node(id: string, name: string, kind: NodeType, color: string)

  /** A flow from a site node to a theme node; `source` and `target` are node ids. */
  datatype Link = Link(source: string, target: string, value: nat, sentiment: Sentiment)

  datatype Graph = Graph(nodes: seq<Node>, links: seq<Link>)

  function StedId(sted: string): string {
    "sted:" + sted
  }

  function TemaId(tema: string): string {
    "tema:" + tema
  }

  /** The keys counted for one site over a record's raw tags, in loop order. */
  function TemaKeys(sted: string, tema: seq<string>, sentiment: Sentiment): (r: seq<LinkKey>)
    ensures |r| == |tema|
  {
    if |tema| == 0 then []
    else TemaKeys(sted, tema[..|tema| - 1], sentiment)
         + [LinkKey(sted, CanonicalTema(tema[|tema| - 1]), sentiment)]
  }

  /** The keys counted for a record's sites, one per (site, raw tag) pair. */
  function StedKeys(steder: seq<string>, tema: seq<string>, sentiment: Sentiment): seq<LinkKey> {
    if |steder| == 0 then []
    else StedKeys(steder[..|steder| - 1], tema, sentiment) + TemaKeys(steder[|steder| - 1], tema, sentiment)
  }

  lemma TemaKeysSnoc(sted: string, tema: seq<string>, t: nat, sentiment: Sentiment)
    requires t < |tema|
    ensures TemaKeys(sted, tema[..t + 1], sentiment)
         == TemaKeys(sted, tema[..t], sentiment) + [LinkKey(sted, CanonicalTema(tema[t]), sentiment)]
  {
    assert tema[..t + 1][..t] == tema[..t];
  }

  lemma StedKeysSnoc(steder: seq<string>, j: nat, tema: seq<string>, sentiment: Sentiment)
    requires j < |steder|
    ensures StedKeys(steder[..j + 1], tema, sentiment)
         == StedKeys(steder[..j], tema, sentiment) + TemaKeys(steder[j], tema, sentiment)
  {
    assert steder[..j + 1][..j] == steder[..j];
  }

  /** Every counter increment one record causes. */
  function RecordKeys(item: Innspill): seq<LinkKey> {
    StedKeys(NormalizeSteder(item.steder), item.tema, SentimentOf(item.holdning))
  }

  /** Every counter increment of the aggregation, in the order the loops make them. */
  function Contributions(innspill: seq<Innspill>): seq<LinkKey> {
    FlatMap(innspill, RecordKeys)
  }

  function MakeLink(key: LinkKey, value: nat): Link {
    Link(StedId(key.sted), TemaId(key.tema), value, key.sentiment)
  }

  /** The links emitted for the counter's keys, each weighted by its count. */
  function LinksOf(keys: seq<LinkKey>, counts: multiset<LinkKey>): (r: seq<Link>)
    ensures |r| == |keys|
  {
    if |keys| == 0 then []
    else LinksOf(keys[..|keys| - 1], counts) + [MakeLink(keys[|keys| - 1], counts[keys[|keys| - 1]])]
  }

  /** The site of each key, in order. */
  function Steds(keys: seq<LinkKey>): seq<string>
  {
    if |keys| == 0 then [] else Steds(keys[..|keys| - 1]) + [keys[|keys| - 1].sted]
  }

  /** The canonical theme of each key, in order. */
  function Temas(keys: seq<LinkKey>): seq<string>
  {
    if |keys| == 0 then [] else Temas(keys[..|keys| - 1]) + [keys[|keys| - 1].tema]
  }

  lemma KeysSnoc(keys: seq<LinkKey>, i: nat, m: LinkMap)
    requires i < |keys|
    ensures Steds(keys[..i + 1]) == Steds(keys[..i]) + [keys[i].sted]
    ensures Temas(keys[..i + 1]) == Temas(keys[..i]) + [keys[i].tema]
    ensures MapLinks(keys[..i + 1], m) == MapLinks(keys[..i], m) + [MakeLink(keys[i], CountOf(m, keys[i]))]
  {
    assert keys[..i + 1][..i] == keys[..i];
  }

  /** Total weight of the links into node `target`. */
  function Inflow(links: seq<Link>, target: string): nat {
    if |links| == 0 then 0
    else
      var last := links[|links| - 1];
      Inflow(links[..|links| - 1], target) + (if last.target == target then last.value else 0)
  }

  /** The theme comparator: heavier themes first. */
  function HeavierFirst(links: seq<Link>): (string, string) -> bool {
    (a: string, b: string) => Inflow(links, TemaId(a)) >= Inflow(links, TemaId(b))
  }

  function StedNode(sted: string): Node {
    Node(StedId(sted), sted, Sted, StedColor(sted))
  }

  function TemaNode(tema: string): Node {
    Node(TemaId(tema), tema, Tema, TemaColor(tema))
  }

  /** `names.map(s => ({id: "sted:" + s, …}))`. */
  function StedNodes(names: seq<string>): (r: seq<Node>)
    ensures |r| == |names|
  {
    if |names| == 0 then [] else StedNodes(names[..|names| - 1]) + [StedNode(names[|names| - 1])]
  }

  /** `names.map(t => ({id: "tema:" + t, …}))`. */
  function TemaNodes(names: seq<string>): (r: seq<Node>)
    ensures |r| == |names|
  {
    if |names| == 0 then [] else TemaNodes(names[..|names| - 1]) + [TemaNode(names[|names| - 1])]
  }

  /**
    The node list: the sites sorted by the collation `collate` (the source's
    `localeCompare(…, 'nb')`, which this model does not define), then the themes sorted
    by descending incoming weight.
  */
  function BuildNodes(steder: seq<string>, temaer: seq<string>, links: seq<Link>,
                      collate: (string, string) -> bool): seq<Node>
  {
    StedNodes(SortBy(steder, collate)) + TemaNodes(SortBy(temaer, HeavierFirst(links)))
  }

  /** The distinct keys of the counter, in first-counted order. */
  function Keys(innspill: seq<Innspill>): seq<LinkKey> {
    Dedup(Contributions(innspill))
  }

  /** The links of the graph: one per distinct key, weighted by how often it was counted. */
  function GraphLinks(innspill: seq<Innspill>): seq<Link> {
    LinksOf(Keys(innspill), multiset(Contributions(innspill)))
  }

  /** The distinct sites of the links, in first-seen order. */
  function SiteNames(innspill: seq<Innspill>): seq<string> {
    Dedup(Steds(Keys(innspill)))
  }

  /** The distinct themes of the links, in first-seen order. */
  function ThemeNames(innspill: seq<Innspill>): seq<string> {
    Dedup(Temas(Keys(innspill)))
  }

  /** The graph that `buildSankeyData` returns, defined from the list of increments. */
  function SankeyGraph(innspill: seq<Innspill>, collate: (string, string) -> bool): (g: Graph)
    ensures |g.nodes| == |SiteNames(innspill)| + |ThemeNames(innspill)|
    ensures |g.links| == |Keys(innspill)|
  {
    Graph(BuildNodes(SiteNames(innspill), ThemeNames(innspill), GraphLinks(innspill), collate), GraphLinks(innspill))
  }

  /** The source's `linkMap`: a JavaScript `Map`, so its keys in insertion order, and a count per key. */
  datatype LinkMap = LinkMap(order: seq<LinkKey>, counts: map<LinkKey, nat>)

  const EmptyLinkMap := LinkMap([], map[])

  /** `linkMap.set(key, (linkMap.get(key) || 0) + 1)`: a new key goes to the end of the order. */
  function Increment(m: LinkMap, key: LinkKey): (r: LinkMap)
    ensures CountOf(r, key) == CountOf(m, key) + 1
    ensures forall k :: k != key ==> CountOf(r, k) == CountOf(m, k)
    ensures r.counts.Keys == m.counts.Keys + {key}
    ensures r.order == (if key in m.counts then m.order else m.order + [key])
  {
    LinkMap(if key in m.counts then m.order else m.order + [key],
            m.counts[key := (if key in m.counts then m.counts[key] else 0) + 1])
  }

  /** The map `m` after the increments `keys`, in order. */
  function TallyFrom(m: LinkMap, keys: seq<LinkKey>): LinkMap {
    if |keys| == 0 then m
    else Increment(TallyFrom(m, keys[..|keys| - 1]), keys[|keys| - 1])
  }

  lemma TallyFromSnoc(m: LinkMap, keys: seq<LinkKey>, key: LinkKey)
    ensures TallyFrom(m, keys + [key]) == Increment(TallyFrom(m, keys), key)
  {
    assert (keys + [key])[..|keys|] == keys;
  }

  /** Counting `a` and then `b` is counting `a + b`. */
  lemma {:induction false} TallyFromAppend(m: LinkMap, a: seq<LinkKey>, b: seq<LinkKey>)
    ensures TallyFrom(TallyFrom(m, a), b) == TallyFrom(m, a + b)
    decreases |b|
  {
    if |b| == 0 {
      assert a + b == a;
    } else {
      var b', key := b[..|b| - 1], b[|b| - 1];
      assert b == b' + [key];
      assert a + b == (a + b') + [key];
      TallyFromAppend(m, a, b');
      TallyFromSnoc(m, a + b', key);
    }
  }

  /** The keys of a map built by increments are the distinct increments, in first-seen order. */
  ghost predicate Counted(m: LinkMap, done: seq<LinkKey>) {
    && m.order == Dedup(done)
    && (forall k :: k in m.counts <==> k in done)
    && (forall k :: k in m.counts ==> m.counts[k] == multiset(done)[k])
  }

  lemma {:induction false} TallyCounted(done: seq<LinkKey>)
    ensures Counted(TallyFrom(EmptyLinkMap, done), done)
  {
    if |done| > 0 {
      var p, key := done[..|done| - 1], done[|done| - 1];
      assert done == p + [key];
      TallyCounted(p);
      DedupSnoc(p, key);
    }
  }

  /** The innermost loop of the source: one site of a record, over its raw tags. */
  method CountSite(linkMap: LinkMap, sted: string, tema: seq<string>, sentiment: Sentiment)
    returns (result: LinkMap)
    ensures result == TallyFrom(linkMap, TemaKeys(sted, tema, sentiment))
  {
    result := linkMap;
    for t := 0 to |tema|
      invariant result == TallyFrom(linkMap, TemaKeys(sted, tema[..t], sentiment))
    {
      var key := LinkKey(sted, CanonicalTema(tema[t]), sentiment);
      TemaKeysSnoc(sted, tema, t, sentiment);
      TallyFromSnoc(linkMap, TemaKeys(sted, tema[..t], sentiment), key);
      result := Increment(result, key);
    }
    assert tema[..|tema|] == tema;
  }

  /** The middle loop of the source: one record, over its normalised sites. */
  method CountRecord(linkMap: LinkMap, item: Innspill) returns (result: LinkMap)
    ensures result == TallyFrom(linkMap, RecordKeys(item))
  {
    var sentiment := SentimentOf(item.holdning);
    var steder := NormalizeSteder(item.steder);
    result := linkMap;
    assert TallyFrom(linkMap, StedKeys(steder[..0], item.tema, sentiment)) == linkMap;
    for j := 0 to |steder|
      invariant result == TallyFrom(linkMap, StedKeys(steder[..j], item.tema, sentiment))
    {
      ghost var previous := StedKeys(steder[..j], item.tema, sentiment);
      result := CountSite(result, steder[j], item.tema, sentiment);
      TallyFromAppend(linkMap, previous, TemaKeys(steder[j], item.tema, sentiment));
      StedKeysSnoc(steder, j, item.tema, sentiment);
    }
    assert steder[..|steder|] == steder;
  }

  /** The outer loop of the source: every record in turn. */
  method CountLinks(innspill: seq<Innspill>) returns (linkMap: LinkMap)
    ensures linkMap == TallyFrom(EmptyLinkMap, Contributions(innspill))
  {
    linkMap := EmptyLinkMap;
    for i := 0 to |innspill|
      invariant linkMap == TallyFrom(EmptyLinkMap, Contributions(innspill[..i]))
    {
      ghost var previous := Contributions(innspill[..i]);
      linkMap := CountRecord(linkMap, innspill[i]);
      TallyFromAppend(EmptyLinkMap, previous, RecordKeys(innspill[i]));
      FlatMapSnoc(innspill, RecordKeys, i);
    }
    assert innspill[..|innspill|] == innspill;
  }

  /** The count the map holds for `key`, or 0 for a key it lacks. */
  function CountOf(m: LinkMap, key: LinkKey): nat {
    if key in m.counts then m.counts[key] else 0
  }

  /** The links emitted for the keys `keys`, weighted by the counts of `m`. */
  function MapLinks(keys: seq<LinkKey>, m: LinkMap): (r: seq<Link>)
    ensures |r| == |keys|
  {
    if |keys| == 0 then []
    else MapLinks(keys[..|keys| - 1], m) + [MakeLink(keys[|keys| - 1], CountOf(m, keys[|keys| - 1]))]
  }

  lemma {:induction false} MapLinksCounted(keys: seq<LinkKey>, m: LinkMap, done: seq<LinkKey>)
    requires Counted(m, done)
    requires forall k :: k in keys ==> k in done
    ensures MapLinks(keys, m) == LinksOf(keys, multiset(done))
  {
    if |keys| > 0 {
      MapLinksCounted(keys[..|keys| - 1], m, done);
    }
  }

  /** The second loop of the source: the Sets of sites and themes and the list of links. */
  method EmitLinks(linkMap: LinkMap) returns (steder: seq<string>, temaer: seq<string>, links: seq<Link>)
    ensures steder == Dedup(Steds(linkMap.order))
    ensures temaer == Dedup(Temas(linkMap.order))
    ensures links == MapLinks(linkMap.order, linkMap)
  {
    var order := linkMap.order;
    // JavaScript Sets, iterated in insertion order
    steder, temaer, links := [], [], [];
    for i := 0 to |order|
      invariant steder == Dedup(Steds(order[..i]))
      invariant temaer == Dedup(Temas(order[..i]))
      invariant links == MapLinks(order[..i], linkMap)
    {
      var key := order[i];
      KeysSnoc(order, i, linkMap);
      DedupSnoc(Steds(order[..i]), key.sted);
      DedupMembers(Steds(order[..i]), key.sted);
      DedupSnoc(Temas(order[..i]), key.tema);
      DedupMembers(Temas(order[..i]), key.tema);
      if key.sted !in steder {
        steder := steder + [key.sted];
      }
      if key.tema !in temaer {
        temaer := temaer + [key.tema];
      }
      links := links + [MakeLink(key, CountOf(linkMap, key))];
    }
    assert order[..|order|] == order;
  }

  /** Aggregation as the source does it: count in a map, then emit links and nodes. */
  method BuildSankeyData(innspill: seq<Innspill>, collate: (string, string) -> bool) returns (g: Graph)
    ensures g == SankeyGraph(innspill, collate)
  {
    var linkMap := CountLinks(innspill);
    ghost var done := Contributions(innspill);
    TallyCounted(done);
    var steder, temaer, links := EmitLinks(linkMap);
    forall k | k in linkMap.order ensures k in done {
      DedupMembers(done, k);
    }
    MapLinksCounted(linkMap.order, linkMap, done);
    g := Graph(BuildNodes(steder, temaer, links, collate), links);
  }

}
