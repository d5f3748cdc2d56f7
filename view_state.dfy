/**
  The diagram's visual state: from the laid-out nodes and links and the current
  filter, the opacity of every node and the opacity and stroke colour of every link.
  Opacities are in hundredths (`0.07` is 7). The layout step only resolves each
  link's endpoint ids to the node records; positions and sizes are not modelled.
*/
module ViewState {
  import opened Wrappers
  import opened Normalize
  import opened Aggregate
  import opened FilterState
  import opened Colour
  import SankeyProperties

  /** A link after layout: its endpoints are the node records themselves. */
  datatype ViewLink = ViewLink(source: Node, target: Node, value: nat, sentiment: Sentiment)

  // ---------------------------------------------------------------------------
  // Resolving endpoint ids to nodes

  /** The node registered under `id`; of several with that id, the last one wins. */
  function FindNode(nodes: seq<Node>, id: string): (r: Option<Node>)
    ensures r.Some? ==> r.value in nodes && r.value.id == id
    ensures r.None? ==> forall n :: n in nodes ==> n.id != id
  {
    if |nodes| == 0 then None
    else if nodes[|nodes| - 1].id == id then Some(nodes[|nodes| - 1])
    else FindNode(nodes[..|nodes| - 1], id)
  }

  /** Every link with its endpoints replaced by their nodes; `None` when an id is missing. */
  function ResolveLinks(nodes: seq<Node>, links: seq<Link>): (r: Option<seq<ViewLink>>)
    ensures r.Some? ==> |r.value| == |links|
  {
    if |links| == 0 then Some([])
    else
      var l := links[|links| - 1];
      match (ResolveLinks(nodes, links[..|links| - 1]), FindNode(nodes, l.source), FindNode(nodes, l.target))
      case (Some(done), Some(s), Some(t)) => Some(done + [ViewLink(s, t, l.value, l.sentiment)])
      case _ => None
  }

  /** Resolution keeps each link's endpoint ids, value and sentiment. */
  lemma {:induction false} ResolvedLinksAgree(nodes: seq<Node>, links: seq<Link>, i: nat)
    requires ResolveLinks(nodes, links).Some? && i < |links|
    ensures var v := ResolveLinks(nodes, links).value[i];
      v.source.id == links[i].source && v.target.id == links[i].target &&
      v.source in nodes && v.target in nodes &&
      v.value == links[i].value && v.sentiment == links[i].sentiment
  {
    if i < |links| - 1 {
      ResolvedLinksAgree(nodes, links[..|links| - 1], i);
    }
  }

  /** Some node has id `id`. */
  predicate HasNode(nodes: seq<Node>, id: string) {
    exists n :: n in nodes && n.id == id
  }

  /** Resolution fails only when some endpoint id names no node. */
  lemma {:induction false} ResolveSucceeds(nodes: seq<Node>, links: seq<Link>)
    requires forall i :: 0 <= i < |links| ==> HasNode(nodes, links[i].source) && HasNode(nodes, links[i].target)
    ensures ResolveLinks(nodes, links).Some?
  {
    if |links| > 0 {
      var l := links[|links| - 1];
      ResolveSucceeds(nodes, links[..|links| - 1]);
      assert HasNode(nodes, l.source) && HasNode(nodes, l.target);
      var s :| s in nodes && s.id == l.source;
      var t :| t in nodes && t.id == l.target;
      assert FindNode(nodes, l.source).Some? && FindNode(nodes, l.target).Some?;
    }
  }

  /** Both endpoints of a link of the aggregated graph are among its nodes. */
  lemma EndpointsPresent(innspill: seq<Innspill>, collate: (string, string) -> bool, l: Link)
    requires l in SankeyGraph(innspill, collate).links
    ensures HasNode(SankeyGraph(innspill, collate).nodes, l.source)
    ensures HasNode(SankeyGraph(innspill, collate).nodes, l.target)
  {
    SankeyProperties.LinkEndpointsAreNodes(innspill, collate, l);
  }

  /** The aggregated graph always lays out: every link's endpoints are among its nodes. */
  lemma GraphResolves(innspill: seq<Innspill>, collate: (string, string) -> bool)
    ensures var g := SankeyGraph(innspill, collate);
      ResolveLinks(g.nodes, g.links).Some?
  {
    var g := SankeyGraph(innspill, collate);
    forall i | 0 <= i < |g.links|
      ensures HasNode(g.nodes, g.links[i].source) && HasNode(g.nodes, g.links[i].target)
    {
      EndpointsPresent(innspill, collate, g.links[i]);
    }
    ResolveSucceeds(g.nodes, g.links);
  }

  // ---------------------------------------------------------------------------
  // The rules, one node or link at a time

  /** The id of the selected node. */
  function ActiveId(f: Filter): string {
    if f.kind == Sted then StedId(f.value) else TemaId(f.value)
  }

  /** A link leaves the selected site, or enters the selected theme. */
  predicate IsActive(f: Filter, l: ViewLink) {
    (f.kind == Sted && l.source.id == ActiveId(f)) || (f.kind == Tema && l.target.id == ActiveId(f))
  }

  /** The far end of a link, seen from the selected node. */
  function Other(f: Filter, l: ViewLink): string {
    if f.kind == Sted then l.target.id else l.source.id
  }

  /** Far ends of the active links among `links`. */
  function Linked(f: Filter, links: seq<ViewLink>): set<string> {
    if |links| == 0 then {}
    else
      var l := links[|links| - 1];
      Linked(f, links[..|links| - 1]) + if IsActive(f, l) then {Other(f, l)} else {}
  }

  /** The selected node and every node an active link joins it to. */
  function ConnectedIds(f: Filter, links: seq<ViewLink>): (r: set<string>)
    ensures ActiveId(f) in r
  {
    {ActiveId(f)} + Linked(f, links)
  }

  /** Full opacity without a filter; with one, full for connected nodes and 7 for the rest. */
  function NodeOpacity(filter: Option<Filter>, links: seq<ViewLink>, id: string): (r: nat)
    ensures r == 100 || r == 7
    ensures filter.Some? && id == ActiveId(filter.value) ==> r == 100
  {
    match filter
    case None => 100
    case Some(f) => if id in ConnectedIds(f, links) then 100 else 7
  }

  /**
    Without a filter, 55 for negative links and 40 for positive ones; with one, 70 and 60
    for active links and 2 for the rest.
  */
  function LinkOpacity(filter: Option<Filter>, l: ViewLink): (r: nat)
    ensures r == 2 <==> filter.Some? && !IsActive(filter.value, l)
    ensures filter.Some? && r != 2 ==> r >= 60
  {
    match filter
    case None => if l.sentiment == Negativ then 55 else 40
    case Some(f) =>
      if IsActive(f, l) then (if l.sentiment == Negativ then 70 else 60) else 2
  }

  /** The colour a positive link is drawn in: its site's colour, `#888` when it has none. */
  function SourceColour(stedColors: map<string, string>, l: ViewLink): string {
    ColorOr(stedColors, l.source.name, "#888")
  }

  /**
    Red for negative links; the site colour for positive ones; faint grey when filtered out.
    The site colour goes through `hexToRgba` as written, so a three-digit colour reads wrongly.
  */
  function LinkStroke(filter: Option<Filter>, stedColors: map<string, string>, l: ViewLink): Rgba {
    match filter
    case None =>
      if l.sentiment == Negativ then Rgba(Num(192), Num(57), Num(43), 65)
      else HexToRgbaAsWritten(SourceColour(stedColors, l), 60)
    case Some(f) =>
      if IsActive(f, l) then
        if l.sentiment == Negativ then Rgba(Num(192), Num(57), Num(43), 75)
        else HexToRgbaAsWritten(SourceColour(stedColors, l), 75)
      else Rgba(Num(200), Num(200), Num(200), 5)
  }

  /** The same rules with the corrected `hexToRgba`, which expands `#rgb` first. */
  function LinkStrokeIntended(filter: Option<Filter>, stedColors: map<string, string>, l: ViewLink): Rgba {
    match filter
    case None =>
      if l.sentiment == Negativ then Rgba(Num(192), Num(57), Num(43), 65)
      else HexToRgba(SourceColour(stedColors, l), 60)
    case Some(f) =>
      if IsActive(f, l) then
        if l.sentiment == Negativ then Rgba(Num(192), Num(57), Num(43), 75)
        else HexToRgba(SourceColour(stedColors, l), 75)
      else Rgba(Num(200), Num(200), Num(200), 5)
  }

  /** The ids of `nodes`. */
  function NodeIds(nodes: seq<Node>): set<string> {
    if |nodes| == 0 then {} else NodeIds(nodes[..|nodes| - 1]) + {nodes[|nodes| - 1].id}
  }

  // ---------------------------------------------------------------------------
  // The loops of the view-state computation

  /** Without a filter every node is fully opaque. */
  method AllOpaque(nodes: seq<Node>) returns (nOp: map<string, nat>)
    ensures nOp.Keys == NodeIds(nodes)
    ensures forall id :: id in nOp ==> nOp[id] == 100
  {
    nOp := map[];
    for k := 0 to |nodes|
      invariant nOp.Keys == NodeIds(nodes[..k])
      invariant forall id :: id in nOp ==> nOp[id] == 100
    {
      assert nodes[..k + 1][..k] == nodes[..k];
      nOp := nOp[nodes[k].id := 100];
    }
    assert nodes[..|nodes|] == nodes;
  }

  /** The connected ids, collected link by link. */
  method Connect(f: Filter, links: seq<ViewLink>) returns (connected: set<string>)
    ensures connected == ConnectedIds(f, links)
  {
    var activeId := ActiveId(f);
    connected := {activeId};
    for i := 0 to |links|
      invariant connected == {activeId} + Linked(f, links[..i])
    {
      assert links[..i + 1][..i] == links[..i];
      var srcId := links[i].source.id;
      var tgtId := links[i].target.id;
      // the source's two branches: `IsActive` split by filter kind, adding `Other`
      if f.kind == Sted && srcId == activeId {
        connected := connected + {tgtId};
      } else if f.kind == Tema && tgtId == activeId {
        connected := connected + {srcId};
      }
    }
    assert links[..|links|] == links;
  }

  /** Connected nodes stay opaque, the rest are dimmed to 7. */
  method DimUnconnected(nodes: seq<Node>, connected: set<string>) returns (nOp: map<string, nat>)
    ensures nOp.Keys == NodeIds(nodes)
    ensures forall id :: id in nOp ==> nOp[id] == if id in connected then 100 else 7
  {
    nOp := map[];
    for k := 0 to |nodes|
      invariant nOp.Keys == NodeIds(nodes[..k])
      invariant forall id :: id in nOp ==> nOp[id] == if id in connected then 100 else 7
    {
      assert nodes[..k + 1][..k] == nodes[..k];
      nOp := nOp[nodes[k].id := if nodes[k].id in connected then 100 else 7];
    }
    assert nodes[..|nodes|] == nodes;
  }

  /** Link styles without a filter. */
  method StyleUnfiltered(links: seq<ViewLink>, stedColors: map<string, string>)
    returns (lOp: map<nat, nat>, lStroke: map<nat, Rgba>)
    ensures forall i: nat :: i in lOp <==> i < |links|
    ensures forall i: nat :: i in lStroke <==> i < |links|
    ensures forall i :: 0 <= i < |links| ==>
      lOp[i] == LinkOpacity(None, links[i]) && lStroke[i] == LinkStroke(None, stedColors, links[i])
  {
    lOp, lStroke := map[], map[];
    for i := 0 to |links|
      invariant forall j: nat :: j in lOp <==> j < i
      invariant forall j: nat :: j in lStroke <==> j < i
      invariant forall j :: 0 <= j < i ==>
        lOp[j] == LinkOpacity(None, links[j]) && lStroke[j] == LinkStroke(None, stedColors, links[j])
    {
      var link := links[i];
      var stedColor := ColorOr(stedColors, link.source.name, "#888");
      lOp := lOp[i := if link.sentiment == Negativ then 55 else 40];
      lStroke := lStroke[i := if link.sentiment == Negativ then Rgba(Num(192), Num(57), Num(43), 65)
                              else HexToRgbaAsWritten(stedColor, 60)];
    }
  }

  /** Link styles under a filter: active links bright, the rest faint. */
  method StyleFiltered(f: Filter, links: seq<ViewLink>, stedColors: map<string, string>)
    returns (lOp: map<nat, nat>, lStroke: map<nat, Rgba>)
    ensures forall i: nat :: i in lOp <==> i < |links|
    ensures forall i: nat :: i in lStroke <==> i < |links|
    ensures forall i :: 0 <= i < |links| ==>
      lOp[i] == LinkOpacity(Some(f), links[i]) && lStroke[i] == LinkStroke(Some(f), stedColors, links[i])
  {
    lOp, lStroke := map[], map[];
    for i := 0 to |links|
      invariant forall j: nat :: j in lOp <==> j < i
      invariant forall j: nat :: j in lStroke <==> j < i
      invariant forall j :: 0 <= j < i ==>
        lOp[j] == LinkOpacity(Some(f), links[j]) && lStroke[j] == LinkStroke(Some(f), stedColors, links[j])
    {
      var link := links[i];
      if IsActive(f, link) {
        var stedColor := ColorOr(stedColors, link.source.name, "#888");
        lOp := lOp[i := if link.sentiment == Negativ then 70 else 60];
        lStroke := lStroke[i := if link.sentiment == Negativ then Rgba(Num(192), Num(57), Num(43), 75)
                                else HexToRgbaAsWritten(stedColor, 75)];
      } else {
        lOp := lOp[i := 2];
        lStroke := lStroke[i := Rgba(Num(200), Num(200), Num(200), 5)];
      }
    }
  }

  /**
    The whole view state: an opacity for every node id, and an opacity and a stroke
    for every link index, each by the rules above.
  */
  method ViewStateOf(nodes: seq<Node>, links: seq<ViewLink>, filter: Option<Filter>, stedColors: map<string, string>)
    returns (nOp: map<string, nat>, lOp: map<nat, nat>, lStroke: map<nat, Rgba>)
    ensures nOp.Keys == NodeIds(nodes)
    ensures forall id :: id in nOp ==> nOp[id] == NodeOpacity(filter, links, id)
    ensures forall i: nat :: i in lOp <==> i < |links|
    ensures forall i: nat :: i in lStroke <==> i < |links|
    ensures forall i :: 0 <= i < |links| ==>
      lOp[i] == LinkOpacity(filter, links[i]) && lStroke[i] == LinkStroke(filter, stedColors, links[i])
  {
    if filter.None? {
      nOp := AllOpaque(nodes);
      lOp, lStroke := StyleUnfiltered(links, stedColors);
      return;
    }
    var connected := Connect(filter.value, links);
    nOp := DimUnconnected(nodes, connected);
    lOp, lStroke := StyleFiltered(filter.value, links, stedColors);
  }

  // ---------------------------------------------------------------------------
  // Properties

  /** The keys of the node map are exactly the node ids. */
  lemma {:induction false} NodeIdsMembers(nodes: seq<Node>, id: string)
    ensures id in NodeIds(nodes) <==> exists n :: n in nodes && n.id == id
  {
    if |nodes| > 0 {
      var p := nodes[..|nodes| - 1];
      NodeIdsMembers(p, id);
      assert forall n :: n in nodes <==> n in p || n == nodes[|nodes| - 1];
    }
  }

  /** An id is in the far-end set exactly when some active link ends there. */
  lemma {:induction false} LinkedIff(f: Filter, links: seq<ViewLink>, id: string)
    ensures id in Linked(f, links) <==> exists i :: 0 <= i < |links| && IsActive(f, links[i]) && Other(f, links[i]) == id
  {
    if |links| > 0 {
      var n := |links|;
      var p, last := links[..n - 1], links[n - 1];
      LinkedIff(f, p, id);
      assert Linked(f, links) == Linked(f, p) + if IsActive(f, last) then {Other(f, last)} else {};
      if id in Linked(f, p) {
        var i :| 0 <= i < |p| && IsActive(f, p[i]) && Other(f, p[i]) == id;
        assert links[i] == p[i];
      } else if !(IsActive(f, last) && Other(f, last) == id) {
        forall i | 0 <= i < n && IsActive(f, links[i])
          ensures Other(f, links[i]) != id
        {
          if i < n - 1 {
            assert links[i] == p[i];
          }
        }
      }
    }
  }

  /**
    With a site selected, the connected nodes are the site and the targets of its
    links; with a theme selected, the theme and the sources of its links.
  */
  lemma ConnectedIff(f: Filter, links: seq<ViewLink>, id: string)
    ensures f.kind == Sted ==>
      (id in ConnectedIds(f, links) <==>
        id == StedId(f.value) || exists i :: 0 <= i < |links| && links[i].source.id == StedId(f.value) && links[i].target.id == id)
    ensures f.kind == Tema ==>
      (id in ConnectedIds(f, links) <==>
        id == TemaId(f.value) || exists i :: 0 <= i < |links| && links[i].target.id == TemaId(f.value) && links[i].source.id == id)
  {
    LinkedIff(f, links, id);
  }

  /** Both ends of an active link are drawn at full opacity. */
  lemma ActiveLinkEndpointsOpaque(f: Filter, links: seq<ViewLink>, i: nat)
    requires i < |links| && IsActive(f, links[i])
    ensures NodeOpacity(Some(f), links, links[i].source.id) == 100
    ensures NodeOpacity(Some(f), links, links[i].target.id) == 100
    ensures LinkOpacity(Some(f), links[i]) >= 60
  {
    LinkedIff(f, links, Other(f, links[i]));
  }

  /** A node is dimmed exactly when a filter is set and no active link reaches it. */
  lemma DimmedIff(filter: Option<Filter>, links: seq<ViewLink>, id: string)
    ensures NodeOpacity(filter, links, id) == 7 <==>
      filter.Some? && id != ActiveId(filter.value) &&
      forall i :: 0 <= i < |links| && IsActive(filter.value, links[i]) ==> Other(filter.value, links[i]) != id
    ensures NodeOpacity(filter, links, id) == 100 || NodeOpacity(filter, links, id) == 7
  {
    if filter.Some? {
      LinkedIff(filter.value, links, id);
    }
  }

  /** Filtered-out links are faint and grey, whatever their sentiment. */
  lemma InactiveLinksFaint(f: Filter, stedColors: map<string, string>, l: ViewLink)
    requires !IsActive(f, l)
    ensures LinkOpacity(Some(f), l) == 2
    ensures LinkStroke(Some(f), stedColors, l) == Rgba(Num(200), Num(200), Num(200), 5)
  {
  }

  /** Negative links are drawn red, a little stronger than positive ones, in every state that shows them. */
  lemma NegativeLinksRed(filter: Option<Filter>, stedColors: map<string, string>, l: ViewLink)
    requires l.sentiment == Negativ
    requires filter.None? || IsActive(filter.value, l)
    ensures LinkStroke(filter, stedColors, l).r == Num(192) && LinkStroke(filter, stedColors, l).g == Num(57)
    ensures LinkStroke(filter, stedColors, l).b == Num(43)
    ensures LinkOpacity(filter, l) == LinkOpacity(filter, l.(sentiment := Positiv)) + 10 + (if filter.None? then 5 else 0)
  {
  }

  /** With the application's site colours and the correction, every stroke is a complete colour. */
  lemma StrokesDefined(filter: Option<Filter>, l: ViewLink)
    ensures Defined(LinkStrokeIntended(filter, StedColors, l))
  {
    assert SourceColour(StedColors, l) == StedColor(l.source.name);
    SiteStrokesDefined(l.source.name, 60);
    SiteStrokesDefined(l.source.name, 75);
  }

  /** Where the site colour has six digits, the drawn stroke is the intended one. */
  lemma LongColourStrokesAgree(filter: Option<Filter>, stedColors: map<string, string>, l: ViewLink)
    requires IsLongHex(SourceColour(stedColors, l))
    ensures LinkStroke(filter, stedColors, l) == LinkStrokeIntended(filter, stedColors, l)
  {
    LongHexUnchanged(SourceColour(stedColors, l), 60);
    LongHexUnchanged(SourceColour(stedColors, l), 75);
  }

  /**
    As drawn, a positive link from "Ikke spesifisert" (`#999`) has no blue component,
    unlike its intended grey.
  */
  lemma UnspecifiedStrokeAsWritten(l: ViewLink)
    requires l.source.name == IkkeSpesifisert && l.sentiment == Positiv
    ensures LinkStroke(None, StedColors, l) == Rgba(Num(153), Num(9), NaN, 60)
    ensures !Defined(LinkStroke(None, StedColors, l))
    ensures LinkStrokeIntended(None, StedColors, l) == Rgba(Num(153), Num(153), Num(153), 60)
  {
    assert StedColors[IkkeSpesifisert] == "#999";
    assert SourceColour(StedColors, l) == "#999";
    GreysAsWritten(60);
    ShortHex("#999", 60);
  }

  /** A positive link from a site with no colour of its own is drawn from `#888`, also without blue. */
  lemma UncolouredStrokeAsWritten(l: ViewLink)
    requires l.source.name !in StedColors && l.sentiment == Positiv
    ensures LinkStroke(None, StedColors, l) == Rgba(Num(136), Num(8), NaN, 60)
    ensures LinkStrokeIntended(None, StedColors, l) == Rgba(Num(136), Num(136), Num(136), 60)
  {
    GreysAsWritten(60);
    ShortHex("#888", 60);
  }

  /**
    A node that is the selected one, or the far end of an active link, is never
    dimmed; so when every node is joined to the selected one, none is.
  */
  lemma JoinedNodesOpaque(f: Filter, links: seq<ViewLink>)
    ensures forall id ::
      (id == ActiveId(f) || exists i :: 0 <= i < |links| && IsActive(f, links[i]) && Other(f, links[i]) == id) ==>
        NodeOpacity(Some(f), links, id) == 100
  {
    forall id | id == ActiveId(f) || exists i :: 0 <= i < |links| && IsActive(f, links[i]) && Other(f, links[i]) == id
      ensures NodeOpacity(Some(f), links, id) == 100
    {
      LinkedIff(f, links, id);
    }
  }

  /**
    Selecting a node need not dim anything: when every node is joined to the
    selected one, all stay fully opaque.
  */
  lemma FilterMayDimNothing()
    ensures var a, t := StedNode("A"), TemaNode("T");
      var links := [ViewLink(a, t, 1, Positiv)];
      NodeOpacity(Some(Filter(Sted, "A")), links, a.id) == 100 &&
      NodeOpacity(Some(Filter(Sted, "A")), links, t.id) == 100
  {
    var a, t := StedNode("A"), TemaNode("T");
    var links := [ViewLink(a, t, 1, Positiv)];
    assert links[..0] == [];
  }

  /** Selecting a site dims the themes it has no link to and the other sites. */
  lemma SiteFilterScenario()
    ensures var a, b, t, u := StedNode("A"), StedNode("B"), TemaNode("T"), TemaNode("U");
      var links := [ViewLink(a, t, 2, Negativ), ViewLink(b, u, 1, Positiv)];
      var f := Some(Filter(Sted, "A"));
      NodeOpacity(f, links, a.id) == 100 && NodeOpacity(f, links, t.id) == 100 &&
      NodeOpacity(f, links, b.id) == 7 && NodeOpacity(f, links, u.id) == 7 &&
      LinkOpacity(f, links[0]) == 70 && LinkOpacity(f, links[1]) == 2
  {
    var a, b, t, u := StedNode("A"), StedNode("B"), TemaNode("T"), TemaNode("U");
    var links := [ViewLink(a, t, 2, Negativ), ViewLink(b, u, 1, Positiv)];
    var f := Filter(Sted, "A");
    SankeyProperties.IdsInjective("A", "B");
    SankeyProperties.IdsInjective("T", "U");
    SankeyProperties.IdsInjective("B", "T");
    SankeyProperties.IdsInjective("A", "U");
    assert IsActive(f, links[0]) && !IsActive(f, links[1]);
    assert links[..1] == [links[0]];
    assert [links[0]][..0] == [];
    assert Linked(f, [links[0]]) == {t.id};
    assert Linked(f, links) == {t.id};
  }

}
