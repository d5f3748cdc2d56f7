/**
  Worked examples of the aggregation, computed in full from the record list: a
  record tagged only "alle", and two records whose tags share a canonical theme but
  whose attitudes differ.
*/
module SankeyScenarios {
  import opened Wrappers
  import opened Seqs
  import opened Normalize
  import opened Aggregate

  /** A critical record about nature that names no specific site. */
  const AlleRecord := Innspill(["alle"], ["natur"], Some("kritisk"))
  const UnspecifiedKey := LinkKey("Ikke spesifisert", "Natur / botanikk", Negativ)

  lemma UnspecifiedSite()
    ensures NormalizeSteder(["alle"]) == ["Ikke spesifisert"]
  {
    assert WithoutAlle(["alle"]) == [];
  }

  lemma AlleRecordKeys()
    ensures RecordKeys(AlleRecord) == [UnspecifiedKey]
  {
    UnspecifiedSite();
    CanonicalTemaNature();
    assert TemaKeys("Ikke spesifisert", ["natur"], Negativ) == [UnspecifiedKey];
    assert StedKeys(["Ikke spesifisert"], ["natur"], Negativ) == [UnspecifiedKey];
  }

  lemma Single(item: Innspill)
    ensures Contributions([item]) == RecordKeys(item)
  {
    FlatMapSnoc([item], RecordKeys, 0);
    assert [item][..1] == [item];
  }

  lemma OneOfEach(a: string, b: string, links: seq<Link>, collate: (string, string) -> bool)
    ensures BuildNodes([a], [b], links, collate) == [StedNode(a), TemaNode(b)]
  {
    assert SortBy([a], collate) == [a];
    assert SortBy([b], HeavierFirst(links)) == [b];
    assert StedNodes([a]) == [StedNode(a)];
    assert TemaNodes([b]) == [TemaNode(b)];
  }

  /** The graph of a single increment. */
  lemma GraphOfOneKey(innspill: seq<Innspill>, collate: (string, string) -> bool, k: LinkKey)
    requires Contributions(innspill) == [k]
    ensures SankeyGraph(innspill, collate) == Graph([StedNode(k.sted), TemaNode(k.tema)], [MakeLink(k, 1)])
  {
    assert Keys(innspill) == [k];
    assert GraphLinks(innspill) == [MakeLink(k, 1)];
    assert Steds([k]) == [k.sted];
    assert Temas([k]) == [k.tema];
    OneOfEach(k.sted, k.tema, GraphLinks(innspill), collate);
  }

  lemma AlleContributions()
    ensures Contributions([AlleRecord]) == [UnspecifiedKey]
  {
    AlleRecordKeys();
    Single(AlleRecord);
  }

  lemma UnspecifiedColor()
    ensures StedColor("Ikke spesifisert") == "#999"
  {
    assert StedColors["Ikke spesifisert"] == "#999";
  }

  lemma UnspecifiedNode()
    ensures StedNode("Ikke spesifisert") == Node(StedId("Ikke spesifisert"), "Ikke spesifisert", Sted, "#999")
  {
    UnspecifiedColor();
  }

  lemma NatureNode()
    ensures TemaNode("Natur / botanikk") == Node(TemaId("Natur / botanikk"), "Natur / botanikk", Tema, "#555")
  {
    NodeColors("", "Natur / botanikk");
  }

  lemma UnspecifiedLink()
    ensures MakeLink(UnspecifiedKey, 1) == Link(StedId("Ikke spesifisert"), TemaId("Natur / botanikk"), 1, Negativ)
  {
  }

  /**
    A record for "alle" only is counted under "Ikke spesifisert", negatively, under the
    canonical theme of "natur": one link of weight 1 and its two nodes.
  */
  lemma AlleScenario(collate: (string, string) -> bool)
    ensures SankeyGraph([AlleRecord], collate) == Graph(
      [Node(StedId("Ikke spesifisert"), "Ikke spesifisert", Sted, "#999"),
       Node(TemaId("Natur / botanikk"), "Natur / botanikk", Tema, "#555")],
      [Link(StedId("Ikke spesifisert"), TemaId("Natur / botanikk"), 1, Negativ)])
  {
    AlleContributions();
    GraphOfOneKey([AlleRecord], collate, UnspecifiedKey);
    UnspecifiedNode();
    NatureNode();
    UnspecifiedLink();
  }

  /** Two records about site "A": a positive one tagged "QR-koder", a negative one tagged "video". */
  const QrRecord := Innspill(["A"], ["QR-koder"], Some("positiv"))
  const VideoRecord := Innspill(["A"], ["video"], Some("negativ"))
  const DigitalPositive := LinkKey("A", "Digital formidling", Positiv)
  const DigitalNegative := LinkKey("A", "Digital formidling", Negativ)

  lemma Pair(a: Innspill, b: Innspill)
    ensures Contributions([a, b]) == RecordKeys(a) + RecordKeys(b)
  {
    FlatMapSnoc([a, b], RecordKeys, 1);
    Single(a);
    assert [a, b][..1] == [a];
    assert [a, b][..2] == [a, b];
  }

  lemma OneSiteOneTag(sted: string, raw: string, sentiment: Sentiment)
    ensures StedKeys([sted], [raw], sentiment) == [LinkKey(sted, CanonicalTema(raw), sentiment)]
  {
    assert TemaKeys(sted, [raw], sentiment) == [LinkKey(sted, CanonicalTema(raw), sentiment)];
  }

  lemma SiteA()
    ensures NormalizeSteder(["A"]) == ["A"]
  {
    assert WithoutAlle(["A"]) == ["A"];
  }

  lemma Attitudes()
    ensures SentimentOf(Some("positiv")) == Positiv
    ensures SentimentOf(Some("negativ")) == Negativ
  {
  }

  lemma QrRecordKeys()
    ensures RecordKeys(QrRecord) == [DigitalPositive]
  {
    SiteA();
    Attitudes();
    CanonicalTemaDigital();
    OneSiteOneTag("A", "QR-koder", Positiv);
  }

  lemma VideoRecordKeys()
    ensures RecordKeys(VideoRecord) == [DigitalNegative]
  {
    SiteA();
    Attitudes();
    CanonicalTemaDigital();
    OneSiteOneTag("A", "video", Negativ);
  }

  lemma DigitalContributions()
    ensures Contributions([QrRecord, VideoRecord]) == [DigitalPositive, DigitalNegative]
  {
    Pair(QrRecord, VideoRecord);
    QrRecordKeys();
    VideoRecordKeys();
  }

  lemma DedupTwo<T>(x: T, y: T)
    ensures Dedup([x, y]) == if x == y then [x] else [x, y]
  {
    assert [x, y][..1] == [x];
    assert Dedup([x]) == [x];
  }

  lemma LinksOfTwo(k1: LinkKey, k2: LinkKey, counts: multiset<LinkKey>)
    ensures LinksOf([k1, k2], counts) == [MakeLink(k1, counts[k1]), MakeLink(k2, counts[k2])]
  {
    assert [k1, k2][..1] == [k1];
  }

  lemma NamesOfTwo(k1: LinkKey, k2: LinkKey)
    ensures Steds([k1, k2]) == [k1.sted, k2.sted]
    ensures Temas([k1, k2]) == [k1.tema, k2.tema]
  {
    assert [k1, k2][..1] == [k1];
    assert [k1][..0] == [];
    assert Steds([k1]) == [k1.sted];
    assert Temas([k1]) == [k1.tema];
  }

  lemma TwoSentimentsParts(innspill: seq<Innspill>, sted: string, tema: string)
    requires Contributions(innspill) == [LinkKey(sted, tema, Positiv), LinkKey(sted, tema, Negativ)]
    ensures Keys(innspill) == [LinkKey(sted, tema, Positiv), LinkKey(sted, tema, Negativ)]
    ensures GraphLinks(innspill) == [MakeLink(LinkKey(sted, tema, Positiv), 1), MakeLink(LinkKey(sted, tema, Negativ), 1)]
    ensures SiteNames(innspill) == [sted]
    ensures ThemeNames(innspill) == [tema]
  {
    var k1, k2 := LinkKey(sted, tema, Positiv), LinkKey(sted, tema, Negativ);
    DedupTwo(k1, k2);
    assert multiset([k1, k2])[k1] == 1 && multiset([k1, k2])[k2] == 1;
    LinksOfTwo(k1, k2, multiset([k1, k2]));
    NamesOfTwo(k1, k2);
    DedupTwo(sted, sted);
    DedupTwo(tema, tema);
  }

  /** The graph of two increments that differ only in sentiment. */
  lemma GraphOfTwoSentiments(innspill: seq<Innspill>, collate: (string, string) -> bool, sted: string, tema: string)
    requires Contributions(innspill) == [LinkKey(sted, tema, Positiv), LinkKey(sted, tema, Negativ)]
    ensures SankeyGraph(innspill, collate) == Graph([StedNode(sted), TemaNode(tema)],
      [MakeLink(LinkKey(sted, tema, Positiv), 1), MakeLink(LinkKey(sted, tema, Negativ), 1)])
  {
    TwoSentimentsParts(innspill, sted, tema);
    OneOfEach(sted, tema, GraphLinks(innspill), collate);
  }

  lemma NodeA()
    ensures StedNode("A") == Node(StedId("A"), "A", Sted, "#888")
  {
    NodeColors("A", "");
  }

  lemma DigitalNode()
    ensures TemaNode("Digital formidling") == Node(TemaId("Digital formidling"), "Digital formidling", Tema, "#555")
  {
    NodeColors("", "Digital formidling");
  }

  /**
    Both tags become "Digital formidling": one theme node, and two links of weight 1
    that share their endpoints and differ in sentiment.
  */
  lemma DigitalScenario(collate: (string, string) -> bool)
    ensures SankeyGraph([QrRecord, VideoRecord], collate) == Graph(
      [Node(StedId("A"), "A", Sted, "#888"),
       Node(TemaId("Digital formidling"), "Digital formidling", Tema, "#555")],
      [Link(StedId("A"), TemaId("Digital formidling"), 1, Positiv),
       Link(StedId("A"), TemaId("Digital formidling"), 1, Negativ)])
  {
    DigitalContributions();
    GraphOfTwoSentiments([QrRecord, VideoRecord], collate, "A", "Digital formidling");
    NodeA();
    DigitalNode();
  }
}
