/** The creator studio's state (components/CreatorStudio.tsx): the current
    draft, the export queue with its selection, the series stepper, and the
    exports that package queued or current assets. */
module Studio {
  import opened Wrappers
  import opened Text
  import opened Seqs
  import opened Types
  import opened Archive
  import opened StudioHelpers

  /** The wizard page: configure, review the plan, produce. */
  datatype Step = Configure | Review | Produce

  /** The properties the application hands down on each render. */
  datatype Props = Props(
    channels: seq<Channel>,
    watermarkSettings: Option<WatermarkSettings>,
    introOutroSettings: Option<IntroOutroSettings>,
    musicLibrary: seq<MusicTrack>)

  /** What has been generated for the draft: the plan (step 2) and the
      thumbnail, video and voice-over (step 3). */
  datatype Generation = Generation(
    metadata: Option<Metadata>,
    thumbnailImage: Option<string>,
    videoUrl: Option<string>,
    audioUrl: Option<string>,
    audioBlob: Option<Blob>)

  const NothingGenerated := Generation(None, None, None, None, None)

  /** A downloaded single package: the file name and the archive. */
  datatype Package = Package(fileName: string, entries: map<Path, Entry>)

  // ---------------------------------------------------------------------
  // Queue operations on values

  /** `exportQueue.filter(asset => selectedAssetIds.has(asset.id))`: the
      assets a batch export packages. */
  function SelectedForExport(queue: seq<GeneratedAsset>, selected: set<string>): (r: seq<GeneratedAsset>)
    ensures IsSubsequence(r, queue)
    ensures forall a :: a in r <==> a in queue && a.id in selected
    ensures r == [] <==> forall a :: a in queue ==> a.id !in selected
  {
    Filter(queue, (a: GeneratedAsset) => a.id in selected)
  }

  /** `prev.filter(p => p.id !== id)`: the queue without the asset `id`. */
  function WithoutAsset(queue: seq<GeneratedAsset>, id: string): (r: seq<GeneratedAsset>)
    ensures IsSubsequence(r, queue)
    ensures forall a :: a in r <==> a in queue && a.id != id
  {
    Filter(queue, (a: GeneratedAsset) => a.id != id)
  }

  /** The selection after toggling `id`: its membership flips, nothing else
      changes. */
  function Toggled(selected: set<string>, id: string): (r: set<string>)
    ensures id in r <==> id !in selected
    ensures forall x :: x != id ==> (x in r <==> x in selected)
  {
    if id in selected then selected - {id} else selected + {id}
  }

  /** Toggling twice restores the selection. */
  lemma ToggleTwice(selected: set<string>, id: string)
    ensures Toggled(Toggled(selected, id), id) == selected
  {
  }

  /** Removing an asset right after adding it leaves the queue as if the add
      and every earlier asset with that id had never been there. */
  lemma RemoveAfterAdd(queue: seq<GeneratedAsset>, a: GeneratedAsset)
    ensures WithoutAsset(queue + [a], a.id) == WithoutAsset(queue, a.id)
  {
    FilterAppend(queue, [a], (x: GeneratedAsset) => x.id != a.id);
  }

  /** Removal keeps every other asset, in order and with its multiplicity. */
  lemma RemoveKeepsOthers(queue: seq<GeneratedAsset>, id: string, a: GeneratedAsset)
    requires a.id != id
    ensures multiset(WithoutAsset(queue, id))[a] == multiset(queue)[a]
  {
    FilterCount(queue, (x: GeneratedAsset) => x.id != id, a);
  }

  /** Adding an asset whose id is selected adds it at the end of the batch. */
  lemma AddedAssetIsExportedLast(queue: seq<GeneratedAsset>, selected: set<string>, a: GeneratedAsset)
    ensures SelectedForExport(queue + [a], selected + {a.id})
         == SelectedForExport(queue, selected + {a.id}) + [a]
  {
    FilterAppend(queue, [a], (x: GeneratedAsset) => x.id in selected + {a.id});
  }

  // ---------------------------------------------------------------------
  // The component

  class CreatorStudio {
    var step: Step
    var exportQueue: seq<GeneratedAsset>
    var selectedAssetIds: set<string>

    // The draft being configured.
    var selectedChannelId: string
    var niche: string
    var format: Format
    var language: Language
    var visualStyle: string
    var isSeriesMode: bool
    var episodeNumber: int
    var selectedMusicId: string

    var generated: Generation

    /** The episode counter never drops below 1. */
    ghost predicate Valid()
      reads this
    {
      episodeNumber >= 1
    }

    /** The export context built from the branding props and the music
        selection. */
    function Context(props: Props): (ctx: ExportContext)
      reads this
      ensures ctx.musicLibrary == props.musicLibrary && ctx.selectedMusicId == selectedMusicId
      ensures ctx.watermark == props.watermarkSettings && ctx.introOutro == props.introOutroSettings
    {
      ExportContext(props.watermarkSettings, props.introOutroSettings, props.musicLibrary, selectedMusicId)
    }

    /** A draft can be queued or downloaded: a plan and a video exist. */
    predicate DraftReady()
      reads this
    {
      generated.metadata.Some? && Truthy(generated.videoUrl)
    }

    /** The asset the current draft makes under id `id` at time `now`. */
    function DraftAsset(channels: seq<Channel>, id: string, now: int): (a: GeneratedAsset)
      requires DraftReady()
      reads this
      ensures a.id == id && a.metadata == generated.metadata.value && a.videoUrl == generated.videoUrl.value
      ensures a.thumbnailImage == generated.thumbnailImage && a.voiceoverUrl == generated.audioUrl
      ensures a.voiceoverBlob == generated.audioBlob && a.timestamp == now
      ensures var ch := FindChannelById(channels, selectedChannelId);
              a.channelName == if ch.Some? then Some(ch.value.name) else None
    {
      var ch := FindChannelById(channels, selectedChannelId);
      GeneratedAsset(id, generated.metadata.value, generated.videoUrl.value, generated.thumbnailImage,
                     generated.audioUrl, generated.audioBlob, now, if ch.Some? then Some(ch.value.name) else None)
    }

    /** The initial state: the first channel selected (or none), French
        shorts in the cinematic style, episode 1, nothing generated or
        queued. */
    constructor (channels: seq<Channel>)
      ensures Valid()
      ensures selectedChannelId == if |channels| > 0 then channels[0].id else ""
      ensures step == Configure && exportQueue == [] && selectedAssetIds == {}
      ensures niche == "" && format == Shorts && language == Fr && visualStyle == "cinematic"
      ensures !isSeriesMode && episodeNumber == 1 && selectedMusicId == ""
      ensures generated == NothingGenerated
    {
      step := Configure;
      exportQueue := [];
      selectedAssetIds := {};
      selectedChannelId := if |channels| > 0 then channels[0].id else "";
      niche := "";
      format := Shorts;
      language := Fr;
      visualStyle := "cinematic";
      isSeriesMode := false;
      episodeNumber := 1;
      selectedMusicId := "";
      generated := NothingGenerated;
    }

    /** The effect run when a template is handed in: it copies the template's
        channel, niche, format, language and series flag, its visual style
        when that is set, suggests episode 2 for a series and returns to the
        first page. */
    method ApplyTemplate(t: Template)
      requires Valid()
      modifies this
      ensures Valid()
      ensures selectedChannelId == t.channelId && niche == t.niche && format == t.format
      ensures language == t.language && isSeriesMode == t.isSeries
      ensures visualStyle == if Truthy(t.visualStyle) then t.visualStyle.value else old(visualStyle)
      ensures episodeNumber == if t.isSeries then 2 else old(episodeNumber)
      ensures step == Configure
      ensures exportQueue == old(exportQueue) && selectedAssetIds == old(selectedAssetIds)
      ensures generated == old(generated) && selectedMusicId == old(selectedMusicId)
    {
      selectedChannelId := t.channelId;
      niche := t.niche;
      format := t.format;
      language := t.language;
      isSeriesMode := t.isSeries;
      if Truthy(t.visualStyle) {
        visualStyle := t.visualStyle.value;
      }
      if t.isSeries {
        episodeNumber := 2;
      }
      step := Configure;
    }

    /** `handleAddToQueue`. With a plan and a video it appends the draft as
        a new asset, selects it, hands it back for the project list, moves a
        series to its next episode and clears the draft (keeping the niche
        only in series mode). Otherwise nothing happens. `freshId` is the
        value `crypto.randomUUID` returns and `now` the current time. */
    method AddToQueue(channels: seq<Channel>, freshId: string, now: int) returns (created: Option<GeneratedAsset>)
      requires Valid()
      modifies this
      ensures Valid()
      ensures created.Some? <==> old(DraftReady())
      ensures created.None? ==> unchanged(this)
      ensures created.Some? ==>
                && created.value == old(DraftAsset(channels, freshId, now))
                && exportQueue == old(exportQueue) + [created.value]
                && selectedAssetIds == old(selectedAssetIds) + {freshId}
                && episodeNumber == (if old(isSeriesMode) then old(episodeNumber) + 1 else old(episodeNumber))
                && niche == (if old(isSeriesMode) then old(niche) else "")
                && step == Configure
                && generated == NothingGenerated
                && isSeriesMode == old(isSeriesMode) && selectedChannelId == old(selectedChannelId)
                && format == old(format) && language == old(language) && visualStyle == old(visualStyle)
                && selectedMusicId == old(selectedMusicId)
    {
      if !DraftReady() {
        return None;
      }
      var asset := DraftAsset(channels, freshId, now);
      exportQueue := exportQueue + [asset];
      selectedAssetIds := selectedAssetIds + {asset.id};
      created := Some(asset);
      if isSeriesMode {
        episodeNumber := EpisodeForward(episodeNumber);
      }
      step := Configure;
      generated := NothingGenerated;
      if !isSeriesMode {
        niche := "";
      }
    }

    /** `toggleAssetSelection`: copies the selection, flips `id` in the copy
        and stores it. */
    method ToggleAssetSelection(id: string)
      modifies this
      ensures selectedAssetIds == Toggled(old(selectedAssetIds), id)
      ensures exportQueue == old(exportQueue) && episodeNumber == old(episodeNumber)
      ensures generated == old(generated)
      ensures step == old(step) && selectedChannelId == old(selectedChannelId) && niche == old(niche)
      ensures format == old(format) && language == old(language) && visualStyle == old(visualStyle)
      ensures isSeriesMode == old(isSeriesMode) && selectedMusicId == old(selectedMusicId)
    {
      var newSelection := selectedAssetIds;
      if id in newSelection {
        newSelection := newSelection - {id};
      } else {
        newSelection := newSelection + {id};
      }
      selectedAssetIds := newSelection;
    }

    /** The queue's delete button: drops every asset with that id from the
        queue and deletes the id from the selection. */
    method RemoveAsset(id: string)
      modifies this
      ensures exportQueue == WithoutAsset(old(exportQueue), id)
      ensures selectedAssetIds == old(selectedAssetIds) - {id}
      ensures episodeNumber == old(episodeNumber)
      ensures generated == old(generated)
      ensures step == old(step) && selectedChannelId == old(selectedChannelId) && niche == old(niche)
      ensures format == old(format) && language == old(language) && visualStyle == old(visualStyle)
      ensures isSeriesMode == old(isSeriesMode) && selectedMusicId == old(selectedMusicId)
    {
      exportQueue := WithoutAsset(exportQueue, id);
      selectedAssetIds := selectedAssetIds - {id};
    }

    /** The stepper's `-` button. */
    method EpisodeDown()
      requires Valid()
      modifies this
      ensures Valid()
      ensures episodeNumber == EpisodeBack(old(episodeNumber))
      ensures old(episodeNumber) > 1 ==> episodeNumber == old(episodeNumber) - 1
      ensures old(episodeNumber) == 1 ==> episodeNumber == 1
      ensures exportQueue == old(exportQueue) && selectedAssetIds == old(selectedAssetIds)
      ensures generated == old(generated)
      ensures step == old(step) && selectedChannelId == old(selectedChannelId) && niche == old(niche)
      ensures format == old(format) && language == old(language) && visualStyle == old(visualStyle)
      ensures isSeriesMode == old(isSeriesMode) && selectedMusicId == old(selectedMusicId)
    {
      episodeNumber := EpisodeBack(episodeNumber);
    }

    /** The stepper's `+` button. */
    method EpisodeUp()
      requires Valid()
      modifies this
      ensures Valid()
      ensures episodeNumber == old(episodeNumber) + 1
      ensures exportQueue == old(exportQueue) && selectedAssetIds == old(selectedAssetIds)
      ensures generated == old(generated)
      ensures step == old(step) && selectedChannelId == old(selectedChannelId) && niche == old(niche)
      ensures format == old(format) && language == old(language) && visualStyle == old(visualStyle)
      ensures isSeriesMode == old(isSeriesMode) && selectedMusicId == old(selectedMusicId)
    {
      episodeNumber := EpisodeForward(episodeNumber);
    }

    /** `handleBatchDownload`: nothing when no queued asset is selected;
        otherwise the archive of the selected queued assets, in queue order.
        `fetchOk(i)` is the outcome of fetching the video of the `i`-th of
        them. */
    method BatchDownload(props: Props, fetchOk: nat -> bool) returns (archive: Option<map<Path, Entry>>)
      ensures archive.None? <==> forall a :: a in exportQueue ==> a.id !in selectedAssetIds
      ensures archive.Some? ==>
                archive.value == BuildArchive(SelectedForExport(exportQueue, selectedAssetIds), Context(props), fetchOk)
    {
      var assetsToDownload := SelectedForExport(exportQueue, selectedAssetIds);
      if |assetsToDownload| == 0 {
        return None;
      }
      var zip := CreateZipFromAssets(assetsToDownload, Context(props), fetchOk);
      archive := Some(zip.entries);
    }

    /** `handleDownloadSinglePackage`: nothing without a plan and a video;
        otherwise a one-asset archive of the draft under id `temp`, which is
        therefore flat, named after the whole title. */
    method DownloadSinglePackage(props: Props, now: int, fetchOk: nat -> bool) returns (package: Option<Package>)
      ensures package.Some? <==> DraftReady()
      ensures package.Some? ==>
                && package.value.fileName == PackageFileName(generated.metadata.value.title)
                && package.value.entries == BuildArchive([DraftAsset(props.channels, "temp", now)], Context(props), fetchOk)
                && (forall p :: p in package.value.entries ==> p.folder.None?)
                && Path(None, MetadataTxt) in package.value.entries
    {
      if !DraftReady() {
        return None;
      }
      var currentAsset := DraftAsset(props.channels, "temp", now);
      var zip := CreateZipFromAssets([currentAsset], Context(props), fetchOk);
      forall p | p in zip.entries
        ensures p.folder.None?
      {
        SingleAssetIsFlat(currentAsset, Context(props), fetchOk, p);
      }
      SingleAssetIsFlat(currentAsset, Context(props), fetchOk, Path(None, MetadataTxt));
      package := Some(Package(PackageFileName(generated.metadata.value.title), zip.entries));
    }
  }
}
