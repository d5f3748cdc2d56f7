/**
  The category normaliser of the feedback aggregator: the fixed tables of the
  application (negative attitudes, theme grouping, site and theme colours) and the
  per-record normalisation rules applied before counting.
*/
module Normalize {
  import opened Wrappers

  /** The two sentiments a feedback record ("innspill") is collapsed to. */
  datatype Sentiment = Positiv | Negativ

  /** Attitudes ("holdninger") that count as negative; matched exactly, case-sensitively. */
  const NegativeHoldninger: set<string> := {"kritisk", "negativ", "sterkt negativ"}

  /** The site tag meaning "applies to all sites"; it is dropped before counting. */
  const Alle: string := "alle"

  /** The site a record is counted under when it names no specific site. */
  const IkkeSpesifisert: string := "Ikke spesifisert"

  /** Sentiment of an attitude; an absent attitude is positive. */
  function SentimentOf(holdning: Option<string>): (r: Sentiment)
    ensures holdning.None? ==> r == Positiv
    ensures r == Negativ ==> holdning.value in NegativeHoldninger
  {
    if holdning.Some? && holdning.value in NegativeHoldninger then Negativ else Positiv
  }

  /** Negative exactly for the three listed attitudes, in both directions. */
  lemma SentimentOfNegative(holdning: Option<string>)
    ensures SentimentOf(holdning) == Negativ <==>
      holdning == Some("kritisk") || holdning == Some("negativ") || holdning == Some("sterkt negativ")
  {
  }

  /** The record's site list with every "alle" removed, order kept. */
  function WithoutAlle(steder: seq<string>): (r: seq<string>)
    ensures forall s :: s in r <==> s in steder && s != Alle
    ensures |r| <= |steder|
  {
    if |steder| == 0 then []
    else
      var p := WithoutAlle(steder[..|steder| - 1]);
      if steder[|steder| - 1] == Alle then p else p + [steder[|steder| - 1]]
  }

  /** Removing "alle" distributes over concatenation: it is the order-keeping filter. */
  lemma {:induction false} WithoutAlleAppend(a: seq<string>, b: seq<string>)
    ensures WithoutAlle(a + b) == WithoutAlle(a) + WithoutAlle(b)
    decreases |b|
  {
    if |b| > 0 {
      var b' := b[..|b| - 1];
      assert (a + b)[..|a + b| - 1] == a + b';
      WithoutAlleAppend(a, b');
    } else {
      assert a + b == a;
    }
  }

  /** Sites a record is counted under. */
  function NormalizeSteder(steder: seq<string>): (r: seq<string>)
    ensures |r| > 0 && Alle !in r
    ensures (forall s :: s in steder ==> s == Alle) ==> r == [IkkeSpesifisert]
    ensures (exists s :: s in steder && s != Alle) ==> r == WithoutAlle(steder)
  {
    var specific := WithoutAlle(steder);
    if |specific| == 0 then [IkkeSpesifisert]
    else
      assert specific[0] in specific;
      specific
  }

  /** The theme grouping table: the canonical theme of each granular tag it lists. */
  function TemaMapEntry(raw: string): Option<string> {
    match raw
    case "digital formidling" => Some("Digital formidling")
    case "QR-koder"           => Some("Digital formidling")
    case "app"                => Some("Digital formidling")
    case "video"              => Some("Digital formidling")
    case "lydformidling"      => Some("Digital formidling")
    case "lydopplevelse"      => Some("Digital formidling")
    case "omvisning"          => Some("Omvisning / vandring")
    case "historisk vandring" => Some("Omvisning / vandring")
    case "vandring"           => Some("Omvisning / vandring")
    case "informasjon"        => Some("Informasjon om gravlagte")
    case "skilting"           => Some("Informasjon om gravlagte")
    case "kjente personer"    => Some("Informasjon om gravlagte")
    case "slektshistorie"     => Some("Informasjon om gravlagte")
    case "slektsforskning"    => Some("Informasjon om gravlagte")
    case "kulturhistorie"     => Some("Kulturhistorie")
    case "kulturformidling"   => Some("Kulturhistorie")
    case "lokalhistorie"      => Some("Kulturhistorie")
    case "byhistorie"         => Some("Kulturhistorie")
    case "litteratur"         => Some("Kulturhistorie")
    case "kultur"             => Some("Kulturhistorie")
    case "foredrag"           => Some("Foredrag / formidling")
    case "gravskikker"        => Some("Foredrag / formidling")
    case "trosretninger"      => Some("Foredrag / formidling")
    case "natur"              => Some("Natur / botanikk")
    case "botanikk"           => Some("Natur / botanikk")
    case "biologisk mangfold" => Some("Natur / botanikk")
    case "bevare ro"          => Some("Bevare ro")
    case "gravvern"           => Some("Bevare ro")
    case "musikk"             => Some("Musikk / kultur")
    case "konsert"            => Some("Musikk / kultur")
    case "kulturarrangement"  => Some("Musikk / kultur")
    case "kunst"              => Some("Musikk / kultur")
    case "lysvandring"        => Some("Lysvandring")
    case "vedlikehold"        => Some("Vedlikehold / infrastruktur")
    case "infrastruktur"      => Some("Vedlikehold / infrastruktur")
    case "belysning"          => Some("Vedlikehold / infrastruktur")
    case "tilgjengelighet"    => Some("Vedlikehold / infrastruktur")
    case "minnestund"         => Some("Minnestund / seremoni")
    case "seremoni"           => Some("Minnestund / seremoni")
    case "minnekultur"        => Some("Minnestund / seremoni")
    case "barn og unge"       => Some("Pedagogikk / skoler")
    case "pedagogikk"         => Some("Pedagogikk / skoler")
    case "krigshistorie"      => Some("Pedagogikk / skoler")
    case "barneaktiviteter"   => Some("Pedagogikk / skoler")
    case "turområde"          => Some("Annet")
    case "forskning"          => Some("Annet")
    case "meditasjon"         => Some("Annet")
    case "kafé"               => Some("Annet")
    case "rusproblematikk"    => Some("Annet")
    case _ => None
  }

  /** The canonical themes the grouping table produces. */
  const CanonicalThemes: set<string> := {
    "Digital formidling", "Omvisning / vandring", "Informasjon om gravlagte",
    "Kulturhistorie", "Foredrag / formidling", "Natur / botanikk", "Bevare ro",
    "Musikk / kultur", "Lysvandring", "Vedlikehold / infrastruktur",
    "Minnestund / seremoni", "Pedagogikk / skoler", "Annet"
  }

  /** Canonical theme of a raw tag: the table entry, or the tag itself when it has none. */
  function CanonicalTema(raw: string): string {
    match TemaMapEntry(raw)
    case Some(t) => t
    case None => raw
  }

  /** A tag in the table goes to one of the canonical themes; any other tag stays as it is. */
  lemma CanonicalTemaCases(raw: string)
    ensures TemaMapEntry(raw).Some? ==>
      CanonicalTema(raw) == TemaMapEntry(raw).value && CanonicalTema(raw) in CanonicalThemes
    ensures TemaMapEntry(raw).None? ==> CanonicalTema(raw) == raw
  {
  }

  /** The digital tags are grouped together, as the page's description promises. */
  lemma CanonicalTemaDigital()
    ensures CanonicalTema("QR-koder") == "Digital formidling"
    ensures CanonicalTema("video") == "Digital formidling"
    ensures CanonicalTema("app") == "Digital formidling"
  {
  }

  /** The lookup is exact: a tag differing only in case is not in the table. */
  lemma CanonicalTemaCaseSensitive()
    ensures CanonicalTema("Natur") == "Natur"
  {
  }

  lemma CanonicalTemaNature()
    ensures CanonicalTema("natur") == "Natur / botanikk"
  {
  }

  /** Colour of each site. */
  const StedColors: map<string, string> := map[
    "Ikke spesifisert" := "#999",
    "Alfaset gravlund" := "#E67E22",
    "Høybråten kirkegård" := "#8E44AD",
    "Nordre gravlund" := "#1f42aa",
    "Ris kirkegård" := "#034b45",
    "Ullern kirkegård" := "#C0392B",
    "Vestre gravlund" := "#16A085",
    "Voksen kirkegård" := "#B8860B",
    "Vår Frelsers gravlund" := "#2a2859",
    "Østre Aker kirkegård" := "#6C3483"
  ]

  /** Colour of a site without an entry. */
  const DefaultStedColor: string := "#888"

  /** Colour of each theme with a colour of its own. */
  const TemaColors: map<string, string> := map["Bevare ro" := "#C0392B"]

  /** Colour of every other theme. */
  const DefaultTemaColor: string := "#555"

  /** Colour lookup with a fallback; every table value is a non-empty string, so `||` falls back exactly on a miss. */
  function ColorOr(table: map<string, string>, key: string, fallback: string): string {
    if key in table && table[key] != "" then table[key] else fallback
  }

  function StedColor(sted: string): string {
    ColorOr(StedColors, sted, DefaultStedColor)
  }

  function TemaColor(tema: string): string {
    ColorOr(TemaColors, tema, DefaultTemaColor)
  }

  /** Node colours: the table entry when there is one, otherwise the kind's fallback. */
  lemma NodeColors(sted: string, tema: string)
    ensures sted in StedColors ==> StedColor(sted) == StedColors[sted]
    ensures sted !in StedColors ==> StedColor(sted) == "#888"
    ensures tema == "Bevare ro" ==> TemaColor(tema) == "#C0392B"
    ensures tema != "Bevare ro" ==> TemaColor(tema) == "#555"
  {
    assert forall s :: s in StedColors ==> StedColors[s] != "";
  }

}
