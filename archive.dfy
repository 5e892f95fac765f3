/** Export packaging (`createZipFromAssets` in components/CreatorStudio.tsx).
    The archive is modelled as the map of entries JSZip holds before it
    serialises them: a path (a folder or the root, and a file name) to the
    content written there. Compression and serialisation are not modelled. */
module Archive {
  import opened Wrappers
  import opened Text
  import opened Seqs
  import opened Types

  /** What one archive entry holds. */
  datatype Entry =
    | TextFile(content: string)
    /** Base64 text handed to JSZip with `{base64: true}`; `None` is `undefined`. */
    | Base64File(payload: Option<string>)
    | BlobFile(blob: Blob)
    | UserFile(file: File)
    /** The blob that `fetch(url)` produced. */
    | FetchedVideo(url: string)

  /** The file names an export writes. */
  datatype FileName =
    | MetadataTxt | Subtitles | MainVideo | VideoUrl | Voiceover
    | Thumbnail | Watermark | IntroClip | OutroClip | Music

  /** The name each file is written under. */
  function NameText(f: FileName): string {
    match f
    case MetadataTxt => "metadata.txt"
    case Subtitles => "subtitles.srt"
    case MainVideo => "01_main_video.mp4"
    case VideoUrl => "video_url.txt"
    case Voiceover => "02_voiceover.wav"
    case Thumbnail => "thumbnail.png"
    case Watermark => "asset_watermark.png"
    case IntroClip => "00_intro.mp4"
    case OutroClip => "99_outro.mp4"
    case Music => "03_background_music.mp3"
  }

  /** Distinct files get distinct names, so keying entries by `FileName`
      loses nothing. */
  lemma NameTextInjective(f: FileName, g: FileName)
    requires f != g
    ensures NameText(f) != NameText(g)
  {
  }

  /** `folder == None` is the archive root. */
  datatype Path = Path(folder: Option<string>, name: FileName)

  /** The global branding state the export reads (component props and the
      studio's selected music track). */
  datatype ExportContext = ExportContext(
    watermark: Option<WatermarkSettings>,
    introOutro: Option<IntroOutroSettings>,
    musicLibrary: seq<MusicTrack>,
    selectedMusicId: string)

  // ---------------------------------------------------------------------
  // Folder names

  /** One character of `title.replace(/[^a-z0-9]/gi, '_').toLowerCase()`. */
  function SlugChar(c: char): char {
    if IsAsciiAlnum(c) then LowerAscii(c) else '_'
  }

  /** The title part of a folder name: non-alphanumerics become `_`, letters
      are lowered, and the result is cut to 30 characters. */
  function TitleSlug(title: string): (r: string)
    ensures |r| == if |title| < 30 then |title| else 30
    ensures forall i :: 0 <= i < |r| ==> IsSlugChar(r[i])
    ensures forall i :: 0 <= i < |r| ==> (r[i] == '_' <==> !IsAsciiAlnum(title[i]))
    ensures forall i :: 0 <= i < |r| && IsAsciiAlnum(title[i]) ==> r[i] == LowerAscii(title[i])
  {
    Take(seq(|title|, i requires 0 <= i < |title| => SlugChar(title[i])), 30)
  }

  /** The channel part of a folder name: the first 15 characters and `_`
      when the channel name is set, nothing otherwise. */
  function ChannelPrefix(channelName: Option<string>): string {
    if Truthy(channelName) then Take(channelName.value, 15) + "_" else ""
  }

  /** The folder of an asset in a multi-asset archive: at most 46
      characters, and empty exactly when the asset has no channel name and
      an empty title. */
  function FolderName(a: GeneratedAsset): (r: string)
    ensures |r| <= 46
    ensures r == "" <==> !Truthy(a.channelName) && a.metadata.title == ""
    ensures !Truthy(a.channelName) ==> r == TitleSlug(a.metadata.title)
  {
    ChannelPrefix(a.channelName) + TitleSlug(a.metadata.title)
  }

  /** A folder name is a channel prefix of at most 15 characters and `_`,
      then the title slug. */
  lemma FolderNameParts(a: GeneratedAsset)
    ensures var slug := TitleSlug(a.metadata.title);
            FolderName(a)[|FolderName(a)| - |slug|..] == slug
    ensures Truthy(a.channelName) ==>
              FolderName(a)[..|Take(a.channelName.value, 15)|] <= a.channelName.value
              && FolderName(a)[|Take(a.channelName.value, 15)|] == '_'
  {
  }

  // ---------------------------------------------------------------------
  // metadata.txt

  function EpisodeText(episode: Option<nat>): string {
    if episode.Some? && episode.value != 0 then NatToString(episode.value) else "N/A"
  }

  /** A template literal prints an absent script as `undefined`. */
  function ScriptText(script: Option<string>): string {
    if script.Some? then script.value else "undefined"
  }

  /** The labels of the seven field lines, in their order. */
  const MetadataLabels: seq<string> :=
    ["CHANNEL: ", "TITLE: ", "DESCRIPTION: ", "TAGS: ", "VISUAL PROMPT: ", "EPISODE: ", "COMMUNITY POST: "]

  /** The lines of the `metadata.txt` template literal, in their fixed order:
      it opens with a line break and its last line is 14 spaces of
      indentation. An unset channel, visual prompt, episode or community
      post prints `N/A`; tags are joined by `, `. */
  function MetadataLines(a: GeneratedAsset): (r: seq<string>)
    ensures |r| == 12
  {
    [ "",
      "CHANNEL: " + OrElse(a.channelName, "N/A"),
      "TITLE: " + a.metadata.title,
      "DESCRIPTION: " + a.metadata.description,
      "TAGS: " + Join(a.metadata.tags, ", "),
      "VISUAL PROMPT: " + OrElse(a.metadata.visualPrompt, "N/A"),
      "EPISODE: " + EpisodeText(a.metadata.episodeNumber),
      "COMMUNITY POST: " + OrElse(a.metadata.communityPost, "N/A"),
      "",
      "SCRIPT:",
      ScriptText(a.metadata.script),
      "              " ]
  }

  /** The seven field lines carry their labels in the fixed order, and the
      script follows its own heading line after a blank line. */
  lemma MetadataLabelsInOrder(a: GeneratedAsset)
    ensures var ls := MetadataLines(a);
            && (forall k :: 0 <= k < |MetadataLabels| ==> MetadataLabels[k] <= ls[k + 1])
            && ls[0] == ls[8] == "" && ls[9] == "SCRIPT:" && ls[10] == ScriptText(a.metadata.script)
  {
  }

  /** The text of `metadata.txt`: it opens with a line break and the
      channel line. */
  function MetadataText(a: GeneratedAsset): (r: string)
    ensures "\nCHANNEL: " + OrElse(a.channelName, "N/A") + "\n" <= r
  {
    JoinStart(MetadataLines(a), "\n");
    Join(MetadataLines(a), "\n")
  }

  /** When no field holds a line break, the lines of `metadata.txt` come back
      out of it in the fixed order: an empty line, CHANNEL, TITLE,
      DESCRIPTION, TAGS, VISUAL PROMPT, EPISODE, COMMUNITY POST, an empty
      line, SCRIPT:, the script, the trailing indentation. */
  lemma MetadataLineOrder(a: GeneratedAsset)
    requires forall k :: 0 <= k < |MetadataLines(a)| ==> '\n' !in MetadataLines(a)[k]
    ensures Split(MetadataText(a), '\n') == MetadataLines(a)
    ensures |Split(MetadataText(a), '\n')| == 12
  {
    SplitJoin(MetadataLines(a), '\n');
  }

  /** The title, the description, every tag and the script all appear in
      `metadata.txt`, unchanged. */
  lemma MetadataMentionsEverything(a: GeneratedAsset, k: nat)
    requires k < |a.metadata.tags|
    ensures IsInfix(a.metadata.title, MetadataText(a))
    ensures IsInfix(a.metadata.description, MetadataText(a))
    ensures IsInfix(a.metadata.tags[k], MetadataText(a))
    ensures IsInfix(ScriptText(a.metadata.script), MetadataText(a))
  {
    var ls := MetadataLines(a);
    var t := MetadataText(a);
    JoinContainsParts(ls, "\n", 2);
    InfixOfConcat(a.metadata.title, "TITLE: ", ls[2], "");
    InfixTransitive(a.metadata.title, ls[2], t);
    JoinContainsParts(ls, "\n", 3);
    InfixOfConcat(a.metadata.description, "DESCRIPTION: ", ls[3], "");
    InfixTransitive(a.metadata.description, ls[3], t);
    JoinContainsParts(ls, "\n", 4);
    InfixOfConcat(Join(a.metadata.tags, ", "), "TAGS: ", ls[4], "");
    InfixTransitive(Join(a.metadata.tags, ", "), ls[4], t);
    JoinContainsParts(a.metadata.tags, ", ", k);
    InfixTransitive(a.metadata.tags[k], Join(a.metadata.tags, ", "), t);
    JoinContainsParts(ls, "\n", 10);
  }

  // ---------------------------------------------------------------------
  // Data URIs

  /** `s.split(',')[1]`: the text between the first and the second comma (or
      the end); `undefined` when `s` has no comma. */
  function DataUriPayload(s: string): (r: Option<string>)
    ensures r.None? <==> ',' !in s
    ensures r.Some? ==> ',' !in r.value && |r.value| < |s|
  {
    match FindFirst(s, (c: char) => c == ',')
    case None => None
    case Some(k) =>
      var rest := s[k + 1..];
      match FindFirst(rest, (c: char) => c == ',')
      case None => Some(rest)
      case Some(j) => Some(rest[..j])
  }

  /** For a data URI `data:[<mediatype>][;base64],<data>` (section 3 of
      RFC 2397) whose header and data hold no comma, the payload written to
      the archive is exactly the data. */
  lemma DataUriRoundTrip(header: string, data: string)
    requires ',' !in header && ',' !in data
    ensures DataUriPayload(header + "," + data) == Some(data)
  {
    var s := header + "," + data;
    assert s[|header|] == ',';
    assert forall i :: 0 <= i < |header| ==> s[i] == header[i];
    var k := FindFirst(s, (c: char) => c == ',');
    assert k == Some(|header|);
    assert s[|header| + 1..] == data;
  }

  // ---------------------------------------------------------------------
  // The files of one asset

  predicate WatermarkOn(ctx: ExportContext) {
    ctx.watermark.Some? && ctx.watermark.value.enabled && Truthy(ctx.watermark.value.dataUrl)
  }

  predicate IntroOn(ctx: ExportContext) {
    ctx.introOutro.Some? && ctx.introOutro.value.intro.enabled && ctx.introOutro.value.intro.file.Some?
  }

  predicate OutroOn(ctx: ExportContext) {
    ctx.introOutro.Some? && ctx.introOutro.value.outro.enabled && ctx.introOutro.value.outro.file.Some?
  }

  /** The library track the studio has selected, if the selection is set and
      a track has that id (the first such track). */
  function SelectedTrack(ctx: ExportContext): Option<MusicTrack> {
    if ctx.selectedMusicId == "" then None
    else Find(ctx.musicLibrary, (t: MusicTrack) => t.id == ctx.selectedMusicId)
  }

  /** The file table of one asset: what it writes under each name, if
      anything. `fetched` is whether fetching its video succeeded. */
  function Written(a: GeneratedAsset, ctx: ExportContext, fetched: bool, f: FileName): Option<Entry> {
    match f
    case MetadataTxt => Some(TextFile(MetadataText(a)))
    case Subtitles =>
      if Truthy(a.metadata.subtitles) then Some(TextFile(a.metadata.subtitles.value)) else None
    case MainVideo => if fetched then Some(FetchedVideo(a.videoUrl)) else None
    case VideoUrl => if fetched then None else Some(TextFile(a.videoUrl))
    case Voiceover => if a.voiceoverBlob.Some? then Some(BlobFile(a.voiceoverBlob.value)) else None
    case Thumbnail =>
      if Truthy(a.thumbnailImage) then Some(Base64File(DataUriPayload(a.thumbnailImage.value))) else None
    case Watermark =>
      if WatermarkOn(ctx) then Some(Base64File(DataUriPayload(ctx.watermark.value.dataUrl.value))) else None
    case IntroClip =>
      if IntroOn(ctx) then Some(UserFile(ctx.introOutro.value.intro.file.value)) else None
    case OutroClip =>
      if OutroOn(ctx) then Some(UserFile(ctx.introOutro.value.outro.file.value)) else None
    case Music => if SelectedTrack(ctx).Some? then Some(UserFile(SelectedTrack(ctx).value.file)) else None
  }

  /** Writes `e` at `folder/f` when there is something to write. */
  function Put(m: map<Path, Entry>, folder: Option<string>, f: FileName, e: Option<Entry>): map<Path, Entry> {
    if e.Some? then m[Path(folder, f) := e.value] else m
  }

  /** The order in which the loop body writes an asset's files. */
  const WriteOrder: seq<FileName> :=
    [MetadataTxt, Subtitles, MainVideo, VideoUrl, Voiceover, Thumbnail, Watermark, IntroClip, OutroClip, Music]

  /** The position of a file in `WriteOrder`. */
  function WriteIndex(f: FileName): (i: nat)
    ensures i < |WriteOrder| && WriteOrder[i] == f
  {
    match f
    case MetadataTxt => 0
    case Subtitles => 1
    case MainVideo => 2
    case VideoUrl => 3
    case Voiceover => 4
    case Thumbnail => 5
    case Watermark => 6
    case IntroClip => 7
    case OutroClip => 8
    case Music => 9
  }

  /** An asset's file table as a function of the file name. */
  function Table(a: GeneratedAsset, ctx: ExportContext, fetched: bool): FileName -> Option<Entry> {
    f => Written(a, ctx, fetched, f)
  }

  /** Writes number `lo` up to (not including) `hi` of the file table `t`,
      on top of the entries `m`. */
  function PutRange(m: map<Path, Entry>, folder: Option<string>, t: FileName -> Option<Entry>,
                    lo: nat, hi: nat): map<Path, Entry>
    requires lo <= hi <= |WriteOrder|
    decreases hi - lo
  {
    if hi == lo then m
    else Put(PutRange(m, folder, t, lo, hi - 1), folder, WriteOrder[hi - 1], t(WriteOrder[hi - 1]))
  }

  /** The writes of one asset on top of the entries `m` already holds, in the
      order the loop body makes them. */
  function AddAssetFiles(m: map<Path, Entry>, folder: Option<string>, a: GeneratedAsset,
                         ctx: ExportContext, fetched: bool): map<Path, Entry>
  {
    PutRange(m, folder, Table(a, ctx, fetched), 0, |WriteOrder|)
  }

  /** A run of writes can be made in two consecutive parts. */
  lemma {:induction false} PutRangeSplit(m: map<Path, Entry>, folder: Option<string>, t: FileName -> Option<Entry>,
                                         lo: nat, mid: nat, hi: nat)
    requires lo <= mid <= hi <= |WriteOrder|
    ensures PutRange(m, folder, t, lo, hi) == PutRange(PutRange(m, folder, t, lo, mid), folder, t, mid, hi)
    decreases hi - mid
  {
    if hi > mid {
      PutRangeSplit(m, folder, t, lo, mid, hi - 1);
    }
  }

  /** After writes `lo` to `hi`, each file among them that the table has sits
      in the asset's folder, and every other path is as it was. */
  lemma {:induction false} PutRangeTable(m: map<Path, Entry>, folder: Option<string>, t: FileName -> Option<Entry>,
                                         lo: nat, hi: nat, p: Path)
    requires lo <= hi <= |WriteOrder|
    ensures var r := PutRange(m, folder, t, lo, hi);
            if p.folder == folder && lo <= WriteIndex(p.name) < hi && t(p.name).Some?
            then p in r && r[p] == t(p.name).value
            else (p in r <==> p in m) && (p in m ==> r[p] == m[p])
    decreases hi - lo
  {
    if hi > lo {
      PutRangeTable(m, folder, t, lo, hi - 1, p);
      if p == Path(folder, WriteOrder[hi - 1]) {
        assert WriteIndex(p.name) == hi - 1;
      }
    }
  }

  /** Writing one asset's files puts its file table into its folder and
      leaves every other path as it was. */
  lemma AddAssetFilesTable(m: map<Path, Entry>, folder: Option<string>, a: GeneratedAsset,
                           ctx: ExportContext, fetched: bool, p: Path)
    ensures var r := AddAssetFiles(m, folder, a, ctx, fetched);
            if p.folder == folder && Written(a, ctx, fetched, p.name).Some?
            then p in r && r[p] == Written(a, ctx, fetched, p.name).value
            else (p in r <==> p in m) && (p in m ==> r[p] == m[p])
  {
    PutRangeTable(m, folder, Table(a, ctx, fetched), 0, |WriteOrder|, p);
  }

  /** Every asset gets exactly one of `01_main_video.mp4` (the fetch
      succeeded) and `video_url.txt` (it threw; the file holds the URL). */
  lemma VideoOrFallback(a: GeneratedAsset, ctx: ExportContext, fetched: bool)
    ensures Written(a, ctx, fetched, MainVideo).Some? <==> fetched
    ensures Written(a, ctx, fetched, VideoUrl).Some? <==> !fetched
    ensures !fetched ==> Written(a, ctx, fetched, VideoUrl) == Some(TextFile(a.videoUrl))
  {
  }

  /** The watermark, intro, outro and music files are the same for every
      asset of an export. */
  lemma GlobalFilesShared(a: GeneratedAsset, b: GeneratedAsset, ctx: ExportContext,
                          fa: bool, fb: bool, f: FileName)
    requires f in {Watermark, IntroClip, OutroClip, Music}
    ensures Written(a, ctx, fa, f) == Written(b, ctx, fb, f)
  {
  }

  // ---------------------------------------------------------------------
  // The whole archive

  /** Where an asset's files go: `zip.folder(name)` with several assets,
      the root otherwise. JSZip's `folder` hands back the root itself when
      the name is empty, so an empty folder name also means the root. */
  function FolderOf(a: GeneratedAsset, foldered: bool): Option<string> {
    if foldered && FolderName(a) != "" then Some(FolderName(a)) else None
  }

  /** The entries after the loop has handled `assets`; `fetchOk(i)` is whether
      fetching the video of asset `i` succeeded. */
  function Entries(assets: seq<GeneratedAsset>, foldered: bool, ctx: ExportContext,
                   fetchOk: nat -> bool): map<Path, Entry>
    decreases |assets|
  {
    if |assets| == 0 then map[]
    else
      var n := |assets| - 1;
      AddAssetFiles(Entries(assets[..n], foldered, ctx, fetchOk), FolderOf(assets[n], foldered),
                    assets[n], ctx, fetchOk(n))
  }

  /** One more pass of the loop adds the next asset's files. */
  lemma EntriesStep(assets: seq<GeneratedAsset>, foldered: bool, ctx: ExportContext,
                    fetchOk: nat -> bool, i: nat)
    requires i < |assets|
    ensures Entries(assets[..i + 1], foldered, ctx, fetchOk)
         == AddAssetFiles(Entries(assets[..i], foldered, ctx, fetchOk), FolderOf(assets[i], foldered),
                          assets[i], ctx, fetchOk(i))
  {
    assert assets[..i + 1][..i] == assets[..i];
  }

  /** The archive `createZipFromAssets` builds: folders only when there is
      more than one asset. */
  function BuildArchive(assets: seq<GeneratedAsset>, ctx: ExportContext, fetchOk: nat -> bool): (r: map<Path, Entry>)
    ensures |assets| <= 1 ==> forall p :: p in r ==> p.folder.None?
    ensures |assets| == 0 ==> r == map[]
  {
    UnfolderedIsFlat(assets, ctx, fetchOk);
    Entries(assets, |assets| > 1, ctx, fetchOk)
  }

  /** Without folders every file of the archive sits at the root. */
  lemma UnfolderedIsFlat(assets: seq<GeneratedAsset>, ctx: ExportContext, fetchOk: nat -> bool)
    ensures forall p :: p in Entries(assets, false, ctx, fetchOk) ==> p.folder.None?
  {
    forall p | p in Entries(assets, false, ctx, fetchOk) ensures p.folder.None? {
      LastWriteWins(assets, false, ctx, fetchOk, p);
    }
  }

  /** Asset `i` writes something at path `p`. */
  predicate WritesTo(assets: seq<GeneratedAsset>, foldered: bool, ctx: ExportContext,
                     fetchOk: nat -> bool, i: nat, p: Path)
    requires i < |assets|
  {
    FolderOf(assets[i], foldered) == p.folder && Written(assets[i], ctx, fetchOk(i), p.name).Some?
  }

  /** The last asset that writes at `p`. */
  function LastWriter(assets: seq<GeneratedAsset>, foldered: bool, ctx: ExportContext,
                      fetchOk: nat -> bool, p: Path): (r: Option<nat>)
    ensures r.Some? ==> r.value < |assets| && WritesTo(assets, foldered, ctx, fetchOk, r.value, p)
    ensures r.Some? ==> forall j :: r.value < j < |assets| ==> !WritesTo(assets, foldered, ctx, fetchOk, j, p)
    ensures r.None? ==> forall j :: 0 <= j < |assets| ==> !WritesTo(assets, foldered, ctx, fetchOk, j, p)
    decreases |assets|
  {
    if |assets| == 0 then None
    else
      var n := |assets| - 1;
      if WritesTo(assets, foldered, ctx, fetchOk, n, p) then Some(n)
      else
        var r := LastWriter(assets[..n], foldered, ctx, fetchOk, p);
        assert forall j :: 0 <= j < n ==>
          (WritesTo(assets[..n], foldered, ctx, fetchOk, j, p) <==> WritesTo(assets, foldered, ctx, fetchOk, j, p));
        r
  }

  /** Last write wins: a path is in the archive iff some asset writes there,
      and it holds what the last such asset wrote. Assets whose folder names
      coincide share a folder, and later files replace earlier ones. */
  lemma {:induction false} LastWriteWins(assets: seq<GeneratedAsset>, foldered: bool, ctx: ExportContext,
                                         fetchOk: nat -> bool, p: Path)
    ensures var m := Entries(assets, foldered, ctx, fetchOk);
            var w := LastWriter(assets, foldered, ctx, fetchOk, p);
            (p in m <==> w.Some?)
            && (w.Some? ==> m[p] == Written(assets[w.value], ctx, fetchOk(w.value), p.name).value)
    decreases |assets|
  {
    if |assets| > 0 {
      var n := |assets| - 1;
      LastWriteWins(assets[..n], foldered, ctx, fetchOk, p);
      AddAssetFilesTable(Entries(assets[..n], foldered, ctx, fetchOk), FolderOf(assets[n], foldered),
                         assets[n], ctx, fetchOk(n), p);
    }
  }

  /** With exactly one asset every file sits at the archive root, and the
      root holds exactly that asset's file table. */
  lemma SingleAssetIsFlat(a: GeneratedAsset, ctx: ExportContext, fetchOk: nat -> bool, p: Path)
    ensures var m := BuildArchive([a], ctx, fetchOk);
            (p in m <==> p.folder == None && Written(a, ctx, fetchOk(0), p.name).Some?)
            && (p in m ==> m[p] == Written(a, ctx, fetchOk(0), p.name).value)
  {
    LastWriteWins([a], false, ctx, fetchOk, p);
  }

  /** The top-level folders of an archive. */
  function Folders(m: map<Path, Entry>): set<string> {
    set p | p in m && p.folder.Some? :: p.folder.value
  }

  /** A path of the archive lies where some asset puts its files. */
  lemma OnlyWritersFolders(assets: seq<GeneratedAsset>, ctx: ExportContext, fetchOk: nat -> bool, p: Path)
    requires p in Entries(assets, true, ctx, fetchOk)
    ensures exists i :: 0 <= i < |assets| && FolderOf(assets[i], true) == p.folder
  {
    LastWriteWins(assets, true, ctx, fetchOk, p);
    var w := LastWriter(assets, true, ctx, fetchOk, p);
    assert FolderOf(assets[w.value], true) == p.folder;
  }

  /** Every asset's `metadata.txt` is where its files go. */
  lemma MetadataInEveryFolder(assets: seq<GeneratedAsset>, foldered: bool, ctx: ExportContext,
                              fetchOk: nat -> bool, i: nat)
    requires i < |assets|
    ensures Path(FolderOf(assets[i], foldered), MetadataTxt) in Entries(assets, foldered, ctx, fetchOk)
  {
    var p := Path(FolderOf(assets[i], foldered), MetadataTxt);
    assert WritesTo(assets, foldered, ctx, fetchOk, i, p);
    LastWriteWins(assets, foldered, ctx, fetchOk, p);
  }

  /** The folders of a foldered archive are the non-empty folder names. */
  lemma FoldersAreNames(assets: seq<GeneratedAsset>, ctx: ExportContext, fetchOk: nat -> bool)
    ensures Folders(Entries(assets, true, ctx, fetchOk))
         == set i | 0 <= i < |assets| && FolderName(assets[i]) != "" :: FolderName(assets[i])
  {
    var m := Entries(assets, true, ctx, fetchOk);
    var names := set i | 0 <= i < |assets| && FolderName(assets[i]) != "" :: FolderName(assets[i]);
    forall f | f in names ensures f in Folders(m) {
      var i :| 0 <= i < |assets| && FolderName(assets[i]) != "" && FolderName(assets[i]) == f;
      MetadataInEveryFolder(assets, true, ctx, fetchOk, i);
    }
    forall f | f in Folders(m) ensures f in names {
      var p :| p in m && p.folder == Some(f);
      OnlyWritersFolders(assets, ctx, fetchOk, p);
      var i :| 0 <= i < |assets| && FolderOf(assets[i], true) == p.folder;
      assert FolderName(assets[i]) == f;
    }
  }

  /** With several assets, the root holds files only when some asset's
      folder name is empty; every asset's `metadata.txt` is in its folder
      (at the root for an empty name); and the folders are exactly the
      non-empty folder names of the assets. */
  lemma SeveralAssetsAreFoldered(assets: seq<GeneratedAsset>, ctx: ExportContext, fetchOk: nat -> bool)
    requires |assets| > 1
    ensures var m := BuildArchive(assets, ctx, fetchOk);
            (forall p :: p in m && p.folder.None? ==> exists i :: 0 <= i < |assets| && FolderName(assets[i]) == "")
            && (forall i :: 0 <= i < |assets| ==> Path(FolderOf(assets[i], true), MetadataTxt) in m)
            && Folders(m) == set i | 0 <= i < |assets| && FolderName(assets[i]) != "" :: FolderName(assets[i])
  {
    var m := BuildArchive(assets, ctx, fetchOk);
    forall p | p in m && p.folder.None?
      ensures exists i :: 0 <= i < |assets| && FolderName(assets[i]) == ""
    {
      OnlyWritersFolders(assets, ctx, fetchOk, p);
      var i :| 0 <= i < |assets| && FolderOf(assets[i], true) == p.folder;
      assert FolderName(assets[i]) == "";
    }
    forall i | 0 <= i < |assets| ensures Path(FolderOf(assets[i], true), MetadataTxt) in m {
      MetadataInEveryFolder(assets, true, ctx, fetchOk, i);
    }
    FoldersAreNames(assets, ctx, fetchOk);
  }

  /** When no folder name is empty, nothing sits at the archive root. */
  lemma NamedFoldersLeaveRootEmpty(assets: seq<GeneratedAsset>, ctx: ExportContext, fetchOk: nat -> bool)
    requires |assets| > 1
    requires forall i :: 0 <= i < |assets| ==> FolderName(assets[i]) != ""
    ensures forall p :: p in BuildArchive(assets, ctx, fetchOk) ==> p.folder.Some?
  {
    SeveralAssetsAreFoldered(assets, ctx, fetchOk);
  }

  /** An asset whose folder name no other asset shares keeps its whole file
      table, and nothing else, where its files go. */
  lemma UniqueFolderKeepsFiles(assets: seq<GeneratedAsset>, ctx: ExportContext, fetchOk: nat -> bool,
                               i: nat, name: FileName)
    requires |assets| > 1 && i < |assets|
    requires forall j :: 0 <= j < |assets| && j != i ==> FolderName(assets[j]) != FolderName(assets[i])
    ensures var m := BuildArchive(assets, ctx, fetchOk);
            var p := Path(FolderOf(assets[i], true), name);
            (p in m <==> Written(assets[i], ctx, fetchOk(i), name).Some?)
            && (p in m ==> m[p] == Written(assets[i], ctx, fetchOk(i), name).value)
  {
    var p := Path(FolderOf(assets[i], true), name);
    LastWriteWins(assets, true, ctx, fetchOk, p);
    var w := LastWriter(assets, true, ctx, fetchOk, p);
    if w.Some? {
      assert FolderOf(assets[w.value], true) == FolderOf(assets[i], true);
      assert w.value == i;
    } else {
      assert !WritesTo(assets, true, ctx, fetchOk, i, p);
    }
  }

  // ---------------------------------------------------------------------
  // The imperative builder

  /** The JSZip object: its entries are updated in place. */
  class Zip {
    var entries: map<Path, Entry>

    constructor ()
      ensures entries == map[]
    {
      entries := map[];
    }

    /** `folder.file(name, data)`: writes or replaces one entry. */
    method File(p: Path, e: Entry)
      modifies this
      ensures entries == old(entries)[p := e]
    {
      entries := entries[p := e];
    }
  }

  /** The first writes of the loop body of `createZipFromAssets`:
      `metadata.txt`, the subtitles when set, then the fetched video or, when
      the fetch failed, its URL. */
  method AddMetadataAndVideo(zip: Zip, folder: Option<string>, asset: GeneratedAsset,
                             ctx: ExportContext, fetched: bool)
    modifies zip
    ensures zip.entries == PutRange(old(zip.entries), folder, Table(asset, ctx, fetched), 0, 4)
  {
    ghost var m := zip.entries;
    zip.File(Path(folder, MetadataTxt), TextFile(MetadataText(asset)));
    assert zip.entries == PutRange(m, folder, Table(asset, ctx, fetched), 0, 1);
    if Truthy(asset.metadata.subtitles) {
      zip.File(Path(folder, Subtitles), TextFile(asset.metadata.subtitles.value));
    }
    assert zip.entries == PutRange(m, folder, Table(asset, ctx, fetched), 0, 2);
    if fetched {
      zip.File(Path(folder, MainVideo), FetchedVideo(asset.videoUrl));
    } else {
      zip.File(Path(folder, VideoUrl), TextFile(asset.videoUrl));
    }
    assert PutRange(m, folder, Table(asset, ctx, fetched), 0, 4)
        == Put(Put(PutRange(m, folder, Table(asset, ctx, fetched), 0, 2), folder, MainVideo,
                   Written(asset, ctx, fetched, MainVideo)),
               folder, VideoUrl, Written(asset, ctx, fetched, VideoUrl));
  }

  /** The next writes: the voice-over when there is a blob, the thumbnail
      when there is an image. */
  method AddVoiceoverAndThumbnail(zip: Zip, folder: Option<string>, asset: GeneratedAsset,
                                  ctx: ExportContext, fetched: bool)
    modifies zip
    ensures zip.entries == PutRange(old(zip.entries), folder, Table(asset, ctx, fetched), 4, 6)
  {
    ghost var m := zip.entries;
    if asset.voiceoverBlob.Some? {
      zip.File(Path(folder, Voiceover), BlobFile(asset.voiceoverBlob.value));
    }
    assert zip.entries == PutRange(m, folder, Table(asset, ctx, fetched), 4, 5);
    if Truthy(asset.thumbnailImage) {
      zip.File(Path(folder, Thumbnail), Base64File(DataUriPayload(asset.thumbnailImage.value)));
    }
  }

  /** The branding writes every asset gets: the watermark, the intro and
      the outro, each when it is switched on and has its file. */
  method AddWatermarkAndClips(zip: Zip, folder: Option<string>, asset: GeneratedAsset,
                              ctx: ExportContext, fetched: bool)
    modifies zip
    ensures zip.entries == PutRange(old(zip.entries), folder, Table(asset, ctx, fetched), 6, 9)
  {
    ghost var m := zip.entries;
    if WatermarkOn(ctx) {
      zip.File(Path(folder, Watermark), Base64File(DataUriPayload(ctx.watermark.value.dataUrl.value)));
    }
    assert zip.entries == PutRange(m, folder, Table(asset, ctx, fetched), 6, 7);
    if IntroOn(ctx) {
      zip.File(Path(folder, IntroClip), UserFile(ctx.introOutro.value.intro.file.value));
    }
    assert zip.entries == PutRange(m, folder, Table(asset, ctx, fetched), 6, 8);
    if OutroOn(ctx) {
      zip.File(Path(folder, OutroClip), UserFile(ctx.introOutro.value.outro.file.value));
    }
  }

  /** The last write: the selected background track, when it is found. */
  method AddMusic(zip: Zip, folder: Option<string>, asset: GeneratedAsset,
                  ctx: ExportContext, fetched: bool)
    modifies zip
    ensures zip.entries == PutRange(old(zip.entries), folder, Table(asset, ctx, fetched), 9, 10)
  {
    var track := SelectedTrack(ctx);
    if track.Some? {
      zip.File(Path(folder, Music), UserFile(track.value.file));
    }
  }

  /** The loop body of `createZipFromAssets` for one asset: its files, under
      `folder` (or at the root), in the source's order. */
  method AddAssetTo(zip: Zip, folder: Option<string>, asset: GeneratedAsset,
                    ctx: ExportContext, fetched: bool)
    modifies zip
    ensures zip.entries == AddAssetFiles(old(zip.entries), folder, asset, ctx, fetched)
  {
    ghost var m := zip.entries;
    AddMetadataAndVideo(zip, folder, asset, ctx, fetched);
    AddVoiceoverAndThumbnail(zip, folder, asset, ctx, fetched);
    PutRangeSplit(m, folder, Table(asset, ctx, fetched), 0, 4, 6);
    AddWatermarkAndClips(zip, folder, asset, ctx, fetched);
    PutRangeSplit(m, folder, Table(asset, ctx, fetched), 0, 6, 9);
    AddMusic(zip, folder, asset, ctx, fetched);
    PutRangeSplit(m, folder, Table(asset, ctx, fetched), 0, 9, 10);
  }

  /** `createZipFromAssets`: one pass over the assets adding files to the
      archive in place. `fetchOk(i)` is the outcome of fetching asset `i`'s
      video: a failed fetch writes `video_url.txt` and the loop goes on. */
  method CreateZipFromAssets(assets: seq<GeneratedAsset>, ctx: ExportContext, fetchOk: nat -> bool)
    returns (zip: Zip)
    ensures zip.entries == BuildArchive(assets, ctx, fetchOk)
  {
    zip := new Zip();
    var foldered := |assets| > 1;
    for i := 0 to |assets|
      invariant zip.entries == Entries(assets[..i], foldered, ctx, fetchOk)
    {
      var folder := FolderOf(assets[i], foldered);
      AddAssetTo(zip, folder, assets[i], ctx, fetchOk(i));
      EntriesStep(assets, foldered, ctx, fetchOk, i);
    }
    assert assets[..|assets|] == assets;
  }
}
