/** The records of the console (types.ts), as values. Binary data the browser
    holds (a `File`, a `Blob`) is an opaque handle; floating-point settings are
    `real` and are never computed with. */
module Types {
  import opened Wrappers
  import opened Seqs

  /** A user-selected file: its name and an opaque handle to its bytes. */
  datatype File = File(name: string, handle: nat)

  /** An in-memory binary blob (the voice-over WAV). */
  datatype Blob = Blob(handle: nat)

  /** An object URL minted by `URL.createObjectURL`. */
  datatype ObjectUrl = ObjectUrl(serial: nat)

  datatype View = Dashboard | Studio | Templates | Assets

  datatype Format = Shorts | LongForm

  datatype Language = En | Fr

  datatype Channel = Channel(
    id: string,
    youtubeHandle: Option<string>,
    name: string,
    theme: string,
    color: string,
    connected: bool,
    rpm: Option<real>,
    avgViews: Option<int>)

  datatype Metadata = Metadata(
    title: string,
    description: string,
    tags: seq<string>,
    thumbnailIdea: string,
    script: Option<string>,
    visualPrompt: Option<string>,
    subtitles: Option<string>,
    thumbnailImage: Option<string>,
    episodeNumber: Option<nat>,
    communityPost: Option<string>)

  datatype Template = Template(
    id: string,
    name: string,
    description: string,
    channelId: string,
    niche: string,
    format: Format,
    language: Language,
    isSeries: bool,
    visualStyle: Option<string>)

  /** One produced item; `timestamp` is the creation time in milliseconds. */
  datatype GeneratedAsset = GeneratedAsset(
    id: string,
    metadata: Metadata,
    videoUrl: string,
    thumbnailImage: Option<string>,
    voiceoverUrl: Option<string>,
    voiceoverBlob: Option<Blob>,
    timestamp: int,
    channelName: Option<string>)

  datatype WatermarkPosition = TopLeft | TopRight | BottomLeft | BottomRight

  datatype WatermarkSettings = WatermarkSettings(
    enabled: bool,
    dataUrl: Option<string>,
    position: WatermarkPosition,
    opacity: real,
    scale: real)

  datatype AssetConfig = AssetConfig(enabled: bool, file: Option<File>, previewUrl: Option<ObjectUrl>)

  datatype MusicTrack = MusicTrack(id: string, name: string, file: File, url: ObjectUrl)

  datatype Slot = Intro | Outro

  datatype IntroOutroSettings = IntroOutroSettings(intro: AssetConfig, outro: AssetConfig)
  {
    function Get(slot: Slot): AssetConfig {
      match slot
      case Intro => intro
      case Outro => outro
    }

    function Set(slot: Slot, c: AssetConfig): (r: IntroOutroSettings)
      ensures r.Get(slot) == c
      ensures forall other: Slot :: other != slot ==> r.Get(other) == Get(other)
    {
      match slot
      case Intro => this.(intro := c)
      case Outro => this.(outro := c)
    }
  }

  /** The persisted settings object. */
  datatype AppSettings = AppSettings(channels: seq<Channel>, templates: seq<Template>, watermarkSettings: WatermarkSettings)

  /** `channels.find(c => c.id === id)`. */
  function FindChannelById(channels: seq<Channel>, id: string): (r: Option<Channel>)
    ensures r.Some? ==> r.value in channels && r.value.id == id
    ensures r.None? <==> forall c :: c in channels ==> c.id != id
    ensures forall k :: 0 <= k < |channels| && channels[k].id == id && (forall i :: 0 <= i < k ==> channels[i].id != id) ==>
              r == Some(channels[k])
  {
    Find(channels, (c: Channel) => c.id == id)
  }
}
