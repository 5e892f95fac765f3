/** What the template page shows for each saved template
    (components/TemplateManager.tsx): the channel label and colour, the
    series badge, the format and language labels, and the empty-state block
    when there is no template. Markup and styling are left out. */
module TemplateManager {
  import opened Wrappers
  import opened Seqs
  import opened Types

  const UnknownChannel: string := "Chaîne inconnue"
  const DefaultColor: string := "text-gray-400"

  /** The first channel with the id is found at `k`. */
  predicate FirstWithId(channels: seq<Channel>, id: string, k: int) {
    0 <= k < |channels| && channels[k].id == id && forall j :: 0 <= j < k ==> channels[j].id != id
  }

  /** `getChannelName`: the name of the first channel with the id, or the
      unknown-channel label when there is none or its name is empty. */
  function ChannelName(channels: seq<Channel>, id: string): (r: string)
    ensures forall k :: FirstWithId(channels, id, k) ==>
              r == (if channels[k].name != "" then channels[k].name else UnknownChannel)
    ensures (forall k :: 0 <= k < |channels| ==> channels[k].id != id) ==> r == UnknownChannel
  {
    match FindChannelById(channels, id)
    case Some(c) => if c.name != "" then c.name else UnknownChannel
    case None => UnknownChannel
  }

  /** `getChannelColor`: the colour of the first channel with the id, or the
      grey default when there is none or its colour is empty. */
  function ChannelColor(channels: seq<Channel>, id: string): (r: string)
    ensures forall k :: FirstWithId(channels, id, k) ==>
              r == (if channels[k].color != "" then channels[k].color else DefaultColor)
    ensures (forall k :: 0 <= k < |channels| ==> channels[k].id != id) ==> r == DefaultColor
  {
    match FindChannelById(channels, id)
    case Some(c) => if c.color != "" then c.color else DefaultColor
    case None => DefaultColor
  }

  function FormatLabel(f: Format): (r: string)
    ensures r == "Shorts (9:16)" <==> f == Shorts
    ensures r == "Long (16:9)" <==> f == LongForm
  {
    match f
    case Shorts => "Shorts (9:16)"
    case LongForm => "Long (16:9)"
  }

  function LanguageLabel(l: Language): (r: string)
    ensures r == "Français" <==> l == Fr
    ensures r == "Anglais" <==> l == En
  {
    match l
    case Fr => "Français"
    case En => "Anglais"
  }

  /** One card of the grid. */
  datatype Card = Card(
    channelLabel: string,
    channelColor: string,
    seriesBadge: bool,
    name: string,
    description: string,
    formatLabel: string,
    languageLabel: string)

  /** The page: a card per template, in order, and the empty-state block. */
  datatype Page = Page(cards: seq<Card>, emptyState: bool)

  function Render(templates: seq<Template>, channels: seq<Channel>): (r: Page)
    ensures |r.cards| == |templates|
    ensures r.emptyState <==> |r.cards| == 0
    ensures forall i :: 0 <= i < |templates| ==>
              && r.cards[i].name == templates[i].name
              && (r.cards[i].seriesBadge <==> templates[i].isSeries)
              && r.cards[i].channelLabel == ChannelName(channels, templates[i].channelId)
              && r.cards[i].channelColor == ChannelColor(channels, templates[i].channelId)
              && r.cards[i].description == templates[i].description
              && r.cards[i].formatLabel == FormatLabel(templates[i].format)
              && r.cards[i].languageLabel == LanguageLabel(templates[i].language)
  {
    Page(seq(|templates|, i requires 0 <= i < |templates| =>
           var t := templates[i];
           Card(ChannelName(channels, t.channelId), ChannelColor(channels, t.channelId), t.isSeries,
                t.name, t.description, FormatLabel(t.format), LanguageLabel(t.language))),
         |templates| == 0)
  }

  /** A template whose channel was removed shows the unknown-channel label
      in grey. */
  lemma OrphanTemplateShownAsUnknown(templates: seq<Template>, channels: seq<Channel>, i: nat)
    requires i < |templates|
    requires forall c :: c in channels ==> c.id != templates[i].channelId
    ensures Render(templates, channels).cards[i].channelLabel == UnknownChannel
    ensures Render(templates, channels).cards[i].channelColor == DefaultColor
  {
    assert forall k :: 0 <= k < |channels| ==> channels[k] in channels;
  }
}
