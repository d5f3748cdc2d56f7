/**
  What `buildSankeyData` promises about its result, proved of the reference definition
  `SankeyGraph` (which `BuildSankeyData` computes): which links exist and with what
  weight, that the weights add up to the size of the cross products counted, and that
  the node list is consistent with the links and ordered as the diagram needs.
*/
module SankeyProperties {
  import opened Seqs
  import opened Normalize
  import opened Aggregate

  // ----- node ids -----

  /** Ids are injective per kind, and a site id is never a theme id. */
  lemma IdsInjective(a: string, b: string)
    ensures StedId(a) == StedId(b) ==> a == b
    ensures TemaId(a) == TemaId(b) ==> a == b
    ensures StedId(a) != TemaId(b)
  {
    assert StedId(a)[5..] == a && StedId(b)[5..] == b;
    assert TemaId(a)[5..] == a && TemaId(b)[5..] == b;
    assert StedId(a)[0] == 's' && TemaId(b)[0] == 't';
  }

  // ----- which keys are counted -----

  /** One site's keys: exactly that site, the record's sentiment and a canonicalised tag. */
  lemma {:induction false} TemaKeysIff(sted: string, tema: seq<string>, sentiment: Sentiment, k: LinkKey)
    ensures k in TemaKeys(sted, tema, sentiment) <==>
      k.sted == sted && k.sentiment == sentiment && exists b :: b in tema && k.tema == CanonicalTema(b)
  {
    if |tema| > 0 {
      var p, last := tema[..|tema| - 1], tema[|tema| - 1];
      var key := LinkKey(sted, CanonicalTema(last), sentiment);
      assert tema == p + [last];
      assert TemaKeys(sted, tema, sentiment) == TemaKeys(sted, p, sentiment) + [key];
      TemaKeysIff(sted, p, sentiment, k);
      if k in TemaKeys(sted, p, sentiment) {
        var b :| b in p && k.tema == CanonicalTema(b);
        assert b in tema;
      } else if k == key {
        assert last in tema;
      }
    }
  }

  /** A record's keys over its sites: a site of the list, the sentiment, a canonicalised tag. */
  lemma {:induction false} StedKeysIff(steder: seq<string>, tema: seq<string>, sentiment: Sentiment, k: LinkKey)
    ensures k in StedKeys(steder, tema, sentiment) <==>
      k.sted in steder && k.sentiment == sentiment && exists b :: b in tema && k.tema == CanonicalTema(b)
  {
    if |steder| > 0 {
      var p, last := steder[..|steder| - 1], steder[|steder| - 1];
      assert steder == p + [last];
      StedKeysIff(p, tema, sentiment, k);
      TemaKeysIff(last, tema, sentiment, k);
    }
  }

  /**
    The keys one record counts: a normalised site (so never "alle"), the record's
    sentiment, and the canonical theme of one of its tags; and every such triple.
  */
  lemma RecordKeysIff(item: Innspill, k: LinkKey)
    ensures k in RecordKeys(item) <==>
      && k.sted in NormalizeSteder(item.steder)
      && k.sentiment == SentimentOf(item.holdning)
      && exists b :: b in item.tema && k.tema == CanonicalTema(b)
    ensures k in RecordKeys(item) ==> k.sted != Alle
  {
    StedKeysIff(NormalizeSteder(item.steder), item.tema, SentimentOf(item.holdning), k);
  }

  /** A key is counted exactly when some record counts it. */
  lemma ContributionsIff(innspill: seq<Innspill>, k: LinkKey)
    ensures k in Contributions(innspill) <==> exists i :: 0 <= i < |innspill| && k in RecordKeys(innspill[i])
  {
    FlatMapMembers(innspill, RecordKeys, k);
  }

  /** "alle" is never counted as a site. */
  lemma NoAlleKey(innspill: seq<Innspill>, k: LinkKey)
    requires k in Contributions(innspill)
    ensures k.sted != Alle
  {
    ContributionsIff(innspill, k);
    var i :| 0 <= i < |innspill| && k in RecordKeys(innspill[i]);
    RecordKeysIff(innspill[i], k);
  }

  // ----- the links -----

  lemma {:induction false} LinksOfIndex(keys: seq<LinkKey>, counts: multiset<LinkKey>, i: nat)
    requires i < |keys|
    ensures LinksOf(keys, counts)[i] == MakeLink(keys[i], counts[keys[i]])
  {
    if i < |keys| - 1 {
      var p := keys[..|keys| - 1];
      LinksOfIndex(p, counts, i);
    }
  }

  lemma LinksOfMembers(keys: seq<LinkKey>, counts: multiset<LinkKey>, l: Link)
    ensures l in LinksOf(keys, counts) <==> exists k :: k in keys && l == MakeLink(k, counts[k])
  {
    var r := LinksOf(keys, counts);
    if l in r {
      var i :| 0 <= i < |r| && r[i] == l;
      LinksOfIndex(keys, counts, i);
    }
    if exists k :: k in keys && l == MakeLink(k, counts[k]) {
      var k :| k in keys && l == MakeLink(k, counts[k]);
      var i :| 0 <= i < |keys| && keys[i] == k;
      LinksOfIndex(keys, counts, i);
      assert r[i] == l;
    }
  }

  /**
    The links are exactly one per counted key, weighted by the number of times that
    key was counted.
  */
  lemma LinksExactly(innspill: seq<Innspill>, collate: (string, string) -> bool, l: Link)
    ensures var done := Contributions(innspill);
      l in SankeyGraph(innspill, collate).links <==> exists k :: k in done && l == MakeLink(k, multiset(done)[k])
  {
    var done := Contributions(innspill);
    LinksOfMembers(Dedup(done), multiset(done), l);
    forall k ensures k in Dedup(done) <==> k in done {
      DedupMembers(done, k);
    }
  }

  /** Every link weighs at least 1, and it joins a site node id to a theme node id. */
  lemma LinkValuesPositive(innspill: seq<Innspill>, collate: (string, string) -> bool, l: Link)
    requires l in SankeyGraph(innspill, collate).links
    ensures l.value >= 1
    ensures exists s, t :: l.source == StedId(s) && l.target == TemaId(t) && s != Alle
  {
    var done := Contributions(innspill);
    LinksExactly(innspill, collate, l);
    var k :| k in done && l == MakeLink(k, multiset(done)[k]);
    NoAlleKey(innspill, k);
  }

  /** No two links share the same (source, target, sentiment). */
  lemma LinksUnique(innspill: seq<Innspill>, collate: (string, string) -> bool)
    ensures var links := SankeyGraph(innspill, collate).links;
      forall i, j :: 0 <= i < j < |links| ==>
        (links[i].source, links[i].target, links[i].sentiment) != (links[j].source, links[j].target, links[j].sentiment)
  {
    var links := SankeyGraph(innspill, collate).links;
    forall i, j | 0 <= i < j < |links|
      ensures (links[i].source, links[i].target, links[i].sentiment) != (links[j].source, links[j].target, links[j].sentiment)
    {
      LinkPairDiffers(innspill, i, j);
    }
  }

  lemma LinkPairDiffers(innspill: seq<Innspill>, i: nat, j: nat)
    requires i < j < |Keys(innspill)|
    ensures var links := GraphLinks(innspill);
      (links[i].source, links[i].target, links[i].sentiment) != (links[j].source, links[j].target, links[j].sentiment)
  {
    var done := Contributions(innspill);
    var order := Keys(innspill);
    DedupDistinct(done);
    LinksOfIndex(order, multiset(done), i);
    LinksOfIndex(order, multiset(done), j);
    IdsInjective(order[i].sted, order[j].sted);
    IdsInjective(order[i].tema, order[j].tema);
  }

  // ----- weight conservation -----

  /** The sum of all link values. */
  function SumValues(links: seq<Link>): nat {
    if |links| == 0 then 0 else SumValues(links[..|links| - 1]) + links[|links| - 1].value
  }

  /** The number of increments one record makes: |normalised sites| × |tema|. */
  function RecordWeight(item: Innspill): nat {
    |NormalizeSteder(item.steder)| * |item.tema|
  }

  /** The sum of the record weights. */
  function TotalWeight(innspill: seq<Innspill>): nat {
    if |innspill| == 0 then 0 else TotalWeight(innspill[..|innspill| - 1]) + RecordWeight(innspill[|innspill| - 1])
  }

  lemma {:induction false} StedKeysLength(steder: seq<string>, tema: seq<string>, sentiment: Sentiment)
    ensures |StedKeys(steder, tema, sentiment)| == |steder| * |tema|
  {
    if |steder| > 0 {
      var p := steder[..|steder| - 1];
      StedKeysLength(p, tema, sentiment);
      assert (|p| + 1) * |tema| == |p| * |tema| + |tema|;
    }
  }

  /** One increment per (normalised site, raw tag) pair of every record. */
  lemma {:induction false} ContributionsLength(innspill: seq<Innspill>)
    ensures |Contributions(innspill)| == TotalWeight(innspill)
  {
    if |innspill| > 0 {
      var item := innspill[|innspill| - 1];
      ContributionsLength(innspill[..|innspill| - 1]);
      StedKeysLength(NormalizeSteder(item.steder), item.tema, SentimentOf(item.holdning));
    }
  }

  /** A record without tags counts nothing. */
  lemma EmptyTemaContributesNothing(innspill: seq<Innspill>, item: Innspill)
    requires item.tema == []
    ensures Contributions(innspill + [item]) == Contributions(innspill)
  {
    assert (innspill + [item])[..|innspill|] == innspill;
    StedKeysLength(NormalizeSteder(item.steder), item.tema, SentimentOf(item.holdning));
  }

  /** Counting `k` once more raises the total exactly when `k` is one of the listed keys. */
  lemma {:induction false} BumpSum(keys: seq<LinkKey>, counts: multiset<LinkKey>, k: LinkKey)
    requires Distinct(keys)
    ensures SumValues(LinksOf(keys, counts + multiset{k}))
         == SumValues(LinksOf(keys, counts)) + (if k in keys then 1 else 0)
  {
    if |keys| > 0 {
      var p, x := keys[..|keys| - 1], keys[|keys| - 1];
      assert keys == p + [x];
      assert Distinct(p);
      BumpSum(p, counts, k);
      var before, after := LinksOf(keys, counts), LinksOf(keys, counts + multiset{k});
      assert before[..|before| - 1] == LinksOf(p, counts);
      assert after[..|after| - 1] == LinksOf(p, counts + multiset{k});
      if x == k {
        assert k !in p;
      }
    }
  }

  /** The emitted weights add up to the number of increments. */
  lemma {:induction false} LinksOfSum(done: seq<LinkKey>)
    ensures SumValues(LinksOf(Dedup(done), multiset(done))) == |done|
  {
    if |done| > 0 {
      var p, k := done[..|done| - 1], done[|done| - 1];
      assert done == p + [k];
      LinksOfSum(p);
      DedupSnoc(p, k);
      DedupDistinct(done);
      DedupDistinct(p);
      DedupMembers(p, k);
      BumpSum(Dedup(done), multiset(p), k);
      if k !in p {
        // the new last link carries the single count of `k`
        var links := LinksOf(Dedup(done), multiset(p));
        assert links[..|links| - 1] == LinksOf(Dedup(p), multiset(p));
        assert multiset(p)[k] == 0;
      }
    }
  }

  /**
    Weight conservation: the link values add up to the sum over records of
    |normalised sites| × |tema|.
  */
  lemma WeightConservation(innspill: seq<Innspill>, collate: (string, string) -> bool)
    ensures SumValues(SankeyGraph(innspill, collate).links) == TotalWeight(innspill)
  {
    LinksOfSum(Contributions(innspill));
    ContributionsLength(innspill);
  }

  // ----- the nodes -----

  lemma {:induction false} StedsMembers(keys: seq<LinkKey>, s: string)
    ensures s in Steds(keys) <==> exists k :: k in keys && k.sted == s
  {
    if |keys| > 0 {
      var p := keys[..|keys| - 1];
      assert keys == p + [keys[|keys| - 1]];
      StedsMembers(p, s);
    }
  }

  lemma {:induction false} TemasMembers(keys: seq<LinkKey>, t: string)
    ensures t in Temas(keys) <==> exists k :: k in keys && k.tema == t
  {
    if |keys| > 0 {
      var p := keys[..|keys| - 1];
      assert keys == p + [keys[|keys| - 1]];
      TemasMembers(p, t);
    }
  }

  lemma {:induction false} StedNodesIndex(names: seq<string>, i: nat)
    requires i < |names|
    ensures StedNodes(names)[i] == StedNode(names[i])
  {
    if i < |names| - 1 {
      StedNodesIndex(names[..|names| - 1], i);
    }
  }

  lemma {:induction false} TemaNodesIndex(names: seq<string>, i: nat)
    requires i < |names|
    ensures TemaNodes(names)[i] == TemaNode(names[i])
  {
    if i < |names| - 1 {
      TemaNodesIndex(names[..|names| - 1], i);
    }
  }

  /** The node list is the site nodes in sorted order followed by the theme nodes. */
  lemma BuildNodesAt(steder: seq<string>, temaer: seq<string>, links: seq<Link>,
                     collate: (string, string) -> bool, i: nat)
    ensures var nodes, s, t := BuildNodes(steder, temaer, links, collate), SortBy(steder, collate), SortBy(temaer, HeavierFirst(links));
      && |nodes| == |steder| + |temaer|
      && (i < |s| ==> nodes[i] == StedNode(s[i]))
      && (|s| <= i < |nodes| ==> nodes[i] == TemaNode(t[i - |s|]))
  {
    var s, t := SortBy(steder, collate), SortBy(temaer, HeavierFirst(links));
    if i < |s| {
      StedNodesIndex(s, i);
    } else if i < |s| + |t| {
      TemaNodesIndex(t, i - |s|);
    }
  }

  /** Every node is the node of a listed site or of a listed theme. */
  lemma BuildNodesFrom(steder: seq<string>, temaer: seq<string>, links: seq<Link>,
                       collate: (string, string) -> bool, i: nat)
    requires i < |BuildNodes(steder, temaer, links, collate)|
    ensures var n := BuildNodes(steder, temaer, links, collate)[i];
      (n.kind == Sted && n == StedNode(n.name) && n.name in steder) ||
      (n.kind == Tema && n == TemaNode(n.name) && n.name in temaer)
  {
    var s, t := SortBy(steder, collate), SortBy(temaer, HeavierFirst(links));
    BuildNodesAt(steder, temaer, links, collate, i);
    if i < |s| {
      var x := s[i];
      assert x in s;
      SortByMembers(steder, collate, x);
      assert BuildNodes(steder, temaer, links, collate)[i] == StedNode(x);
    } else {
      var x := t[i - |s|];
      assert x in t;
      SortByMembers(temaer, HeavierFirst(links), x);
      assert BuildNodes(steder, temaer, links, collate)[i] == TemaNode(x);
    }
  }

  /** Every listed site has its node. */
  lemma BuildNodesHasSted(steder: seq<string>, temaer: seq<string>, links: seq<Link>,
                          collate: (string, string) -> bool, x: string)
    requires x in steder
    ensures StedNode(x) in BuildNodes(steder, temaer, links, collate)
  {
    var s := SortBy(steder, collate);
    SortByMembers(steder, collate, x);
    var i :| 0 <= i < |s| && s[i] == x;
    BuildNodesAt(steder, temaer, links, collate, i);
  }

  /** Every listed theme has its node. */
  lemma BuildNodesHasTema(steder: seq<string>, temaer: seq<string>, links: seq<Link>,
                          collate: (string, string) -> bool, x: string)
    requires x in temaer
    ensures TemaNode(x) in BuildNodes(steder, temaer, links, collate)
  {
    var s, t := SortBy(steder, collate), SortBy(temaer, HeavierFirst(links));
    SortByMembers(temaer, HeavierFirst(links), x);
    var i :| 0 <= i < |t| && t[i] == x;
    BuildNodesAt(steder, temaer, links, collate, |s| + i);
  }

  /** Site nodes come before theme nodes. */
  lemma BuildNodesKinds(steder: seq<string>, temaer: seq<string>, links: seq<Link>,
                        collate: (string, string) -> bool, i: nat, j: nat)
    requires i < j < |BuildNodes(steder, temaer, links, collate)|
    requires BuildNodes(steder, temaer, links, collate)[j].kind == Sted
    ensures BuildNodes(steder, temaer, links, collate)[i].kind == Sted
  {
    BuildNodesAt(steder, temaer, links, collate, i);
    BuildNodesAt(steder, temaer, links, collate, j);
  }

  /** Distinct names give distinct node ids. */
  lemma BuildNodesDistinct(steder: seq<string>, temaer: seq<string>, links: seq<Link>,
                           collate: (string, string) -> bool, i: nat, j: nat)
    requires Distinct(steder) && Distinct(temaer)
    requires i < j < |BuildNodes(steder, temaer, links, collate)|
    ensures BuildNodes(steder, temaer, links, collate)[i].id != BuildNodes(steder, temaer, links, collate)[j].id
  {
    SortByDistinct(steder, collate);
    SortByDistinct(temaer, HeavierFirst(links));
    NodeListDistinct(SortBy(steder, collate), SortBy(temaer, HeavierFirst(links)), i, j);
  }

  /** Site nodes of distinct names followed by theme nodes of distinct names have distinct ids. */
  lemma NodeListDistinct(s: seq<string>, t: seq<string>, i: nat, j: nat)
    requires Distinct(s) && Distinct(t)
    requires i < j < |s| + |t|
    ensures (StedNodes(s) + TemaNodes(t))[i].id != (StedNodes(s) + TemaNodes(t))[j].id
  {
    NodeListAt(s, t, i);
    NodeListAt(s, t, j);
    if j < |s| {
      DistinctAt(s, i, j);
    } else if i < |s| {
      IdsInjective(s[i], t[j - |s|]);
    } else {
      DistinctAt(t, i - |s|, j - |s|);
    }
  }

  /** The id at position `i` of the site nodes followed by the theme nodes. */
  lemma NodeListAt(s: seq<string>, t: seq<string>, i: nat)
    requires i < |s| + |t|
    ensures (StedNodes(s) + TemaNodes(t))[i].id == if i < |s| then StedId(s[i]) else TemaId(t[i - |s|])
  {
    var nodes := StedNodes(s) + TemaNodes(t);
    if i < |s| {
      assert nodes[i] == StedNodes(s)[i];
      StedNodesIndex(s, i);
    } else {
      assert nodes[i] == TemaNodes(t)[i - |s|];
      TemaNodesIndex(t, i - |s|);
    }
  }

  lemma DistinctAt(names: seq<string>, i: nat, j: nat)
    requires Distinct(names) && i < j < |names|
    ensures StedId(names[i]) != StedId(names[j]) && TemaId(names[i]) != TemaId(names[j])
  {
    IdsInjective(names[i], names[j]);
  }

  /** Theme nodes come in order of non-increasing inflow over `links`. */
  lemma BuildNodesThemeOrder(steder: seq<string>, temaer: seq<string>, links: seq<Link>,
                             collate: (string, string) -> bool, i: nat, j: nat)
    requires i < j < |BuildNodes(steder, temaer, links, collate)|
    requires BuildNodes(steder, temaer, links, collate)[i].kind == Tema
    ensures var nodes := BuildNodes(steder, temaer, links, collate);
      Inflow(links, nodes[i].id) >= Inflow(links, nodes[j].id)
  {
    var s, t := SortBy(steder, collate), SortBy(temaer, HeavierFirst(links));
    var le := HeavierFirst(links);
    BuildNodesAt(steder, temaer, links, collate, i);
    BuildNodesAt(steder, temaer, links, collate, j);
    assert i >= |s|;
    HeavierFirstOrders(links);
    SortByPairwise(temaer, le, i - |s|, j - |s|);
    assert le(t[i - |s|], t[j - |s|]);
  }

  /** Ordering themes by inflow is total and transitive. */
  lemma HeavierFirstOrders(links: seq<Link>)
    ensures Total(HeavierFirst(links)) && Transitive(HeavierFirst(links))
  {
  }

  /** Site nodes come first, in the order of a total, transitive collation. */
  lemma BuildNodesSiteOrder(steder: seq<string>, temaer: seq<string>, links: seq<Link>,
                            collate: (string, string) -> bool, i: nat, j: nat)
    requires Total(collate) && Transitive(collate)
    requires i < j < |BuildNodes(steder, temaer, links, collate)|
    requires BuildNodes(steder, temaer, links, collate)[j].kind == Sted
    ensures var nodes := BuildNodes(steder, temaer, links, collate);
      nodes[i].kind == Sted && collate(nodes[i].name, nodes[j].name)
  {
    BuildNodesAt(steder, temaer, links, collate, i);
    BuildNodesAt(steder, temaer, links, collate, j);
    SortByPairwise(steder, collate, i, j);
  }

  /** A counted site (theme) is exactly a name in the graph's site (theme) list. */
  lemma NamesMembers(innspill: seq<Innspill>, x: string)
    ensures x in SiteNames(innspill) <==> exists k :: k in Contributions(innspill) && k.sted == x
    ensures x in ThemeNames(innspill) <==> exists k :: k in Contributions(innspill) && k.tema == x
  {
    var done := Contributions(innspill);
    var order := Keys(innspill);
    DedupMembers(Steds(order), x);
    DedupMembers(Temas(order), x);
    StedsMembers(order, x);
    TemasMembers(order, x);
    forall k ensures k in order <==> k in done {
      DedupMembers(done, k);
    }
  }

  /**
    The nodes are exactly one site node per distinct counted site and one theme node
    per distinct counted theme; each carries its kind's id prefix, its name as label
    and its colour from the tables.
  */
  lemma NodesExactly(innspill: seq<Innspill>, collate: (string, string) -> bool, n: Node)
    ensures n in SankeyGraph(innspill, collate).nodes <==>
      exists k :: k in Contributions(innspill) && (n == StedNode(k.sted) || n == TemaNode(k.tema))
  {
    if n in SankeyGraph(innspill, collate).nodes {
      NodeFromKey(innspill, collate, n);
    }
    if exists k :: k in Contributions(innspill) && (n == StedNode(k.sted) || n == TemaNode(k.tema)) {
      var k :| k in Contributions(innspill) && (n == StedNode(k.sted) || n == TemaNode(k.tema));
      KeyGivesNodes(innspill, collate, k);
    }
  }

  /** Every node comes from a counted key. */
  lemma NodeFromKey(innspill: seq<Innspill>, collate: (string, string) -> bool, n: Node)
    requires n in SankeyGraph(innspill, collate).nodes
    ensures exists k :: k in Contributions(innspill) && (n == StedNode(k.sted) || n == TemaNode(k.tema))
  {
    var steder, temaer, links := SiteNames(innspill), ThemeNames(innspill), GraphLinks(innspill);
    var nodes := BuildNodes(steder, temaer, links, collate);
    assert nodes == SankeyGraph(innspill, collate).nodes;
    var i :| 0 <= i < |nodes| && nodes[i] == n;
    BuildNodesFrom(steder, temaer, links, collate, i);
    NamesMembers(innspill, n.name);
  }

  /** Both names of a counted key have their nodes. */
  lemma KeyGivesNodes(innspill: seq<Innspill>, collate: (string, string) -> bool, k: LinkKey)
    requires k in Contributions(innspill)
    ensures StedNode(k.sted) in SankeyGraph(innspill, collate).nodes
    ensures TemaNode(k.tema) in SankeyGraph(innspill, collate).nodes
  {
    var steder, temaer, links := SiteNames(innspill), ThemeNames(innspill), GraphLinks(innspill);
    assert BuildNodes(steder, temaer, links, collate) == SankeyGraph(innspill, collate).nodes;
    NamesMembers(innspill, k.sted);
    NamesMembers(innspill, k.tema);
    BuildNodesHasSted(steder, temaer, links, collate, k.sted);
    BuildNodesHasTema(steder, temaer, links, collate, k.tema);
  }

  /** Every link's source is the id of a site node, its target the id of a theme node. */
  lemma LinkEndpointsAreNodes(innspill: seq<Innspill>, collate: (string, string) -> bool, l: Link)
    requires l in SankeyGraph(innspill, collate).links
    ensures exists n :: n in SankeyGraph(innspill, collate).nodes && n.id == l.source && n.kind == Sted
    ensures exists n :: n in SankeyGraph(innspill, collate).nodes && n.id == l.target && n.kind == Tema
  {
    var done := Contributions(innspill);
    LinksExactly(innspill, collate, l);
    var k :| k in done && l == MakeLink(k, multiset(done)[k]);
    NodesExactly(innspill, collate, StedNode(k.sted));
    NodesExactly(innspill, collate, TemaNode(k.tema));
  }

  /** Site nodes all come before theme nodes. */
  lemma SitesBeforeThemes(innspill: seq<Innspill>, collate: (string, string) -> bool)
    ensures var nodes := SankeyGraph(innspill, collate).nodes;
      forall i, j :: 0 <= i < j < |nodes| && nodes[j].kind == Sted ==> nodes[i].kind == Sted
  {
    var nodes := SankeyGraph(innspill, collate).nodes;
    forall i, j | 0 <= i < j < |nodes| && nodes[j].kind == Sted
      ensures nodes[i].kind == Sted
    {
      BuildNodesKinds(SiteNames(innspill), ThemeNames(innspill), GraphLinks(innspill), collate, i, j);
    }
  }

  /** No two nodes share an id. */
  lemma NodeIdsDistinct(innspill: seq<Innspill>, collate: (string, string) -> bool)
    ensures var nodes := SankeyGraph(innspill, collate).nodes;
      forall i, j :: 0 <= i < j < |nodes| ==> nodes[i].id != nodes[j].id
  {
    var nodes := SankeyGraph(innspill, collate).nodes;
    DedupDistinct(Steds(Keys(innspill)));
    DedupDistinct(Temas(Keys(innspill)));
    forall i, j | 0 <= i < j < |nodes|
      ensures nodes[i].id != nodes[j].id
    {
      BuildNodesDistinct(SiteNames(innspill), ThemeNames(innspill), GraphLinks(innspill), collate, i, j);
    }
  }

  /** Theme nodes are in order of non-increasing incoming weight. */
  lemma ThemeNodesByWeight(innspill: seq<Innspill>, collate: (string, string) -> bool)
    ensures var g := SankeyGraph(innspill, collate);
      forall i, j :: 0 <= i < j < |g.nodes| && g.nodes[i].kind == Tema ==>
        Inflow(g.links, g.nodes[i].id) >= Inflow(g.links, g.nodes[j].id)
  {
    var g := SankeyGraph(innspill, collate);
    forall i, j | 0 <= i < j < |g.nodes| && g.nodes[i].kind == Tema
      ensures Inflow(g.links, g.nodes[i].id) >= Inflow(g.links, g.nodes[j].id)
    {
      BuildNodesThemeOrder(SiteNames(innspill), ThemeNames(innspill), GraphLinks(innspill), collate, i, j);
    }
  }

  /** Site nodes are in the order of the collation, whenever it is a total preorder. */
  lemma SiteNodesCollated(innspill: seq<Innspill>, collate: (string, string) -> bool)
    requires Total(collate) && Transitive(collate)
    ensures var nodes := SankeyGraph(innspill, collate).nodes;
      forall i, j :: 0 <= i < j < |nodes| && nodes[j].kind == Sted ==> collate(nodes[i].name, nodes[j].name)
  {
    var nodes := SankeyGraph(innspill, collate).nodes;
    forall i, j | 0 <= i < j < |nodes| && nodes[j].kind == Sted
      ensures collate(nodes[i].name, nodes[j].name)
    {
      BuildNodesSiteOrder(SiteNames(innspill), ThemeNames(innspill), GraphLinks(innspill), collate, i, j);
    }
  }

}
