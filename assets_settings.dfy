/** The handlers of the assets and settings page
    (components/AssetsSettings.tsx). The page owns no state: each handler
    computes the new watermark settings, intro/outro slots, music library or
    channel list and hands it to its parent. The one state it changes in
    place is the browser's table of object URLs, which `UrlRegistry`
    models. */
module AssetsSettings {
  import opened Wrappers
  import opened Seqs
  import opened Text
  import opened Types

  // ---------------------------------------------------------------------
  // Object URLs

  /** The browser's object-URL table: `URL.createObjectURL` hands out a URL
      that was never handed out before and makes it live;
      `URL.revokeObjectURL` makes it dead. */
  class UrlRegistry {
    var nextSerial: nat
    var live: set<ObjectUrl>

    /** Every live URL was handed out already. */
    ghost predicate Valid()
      reads this
    {
      forall u :: u in live ==> u.serial < nextSerial
    }

    constructor ()
      ensures Valid() && live == {} && nextSerial == 0
    {
      nextSerial := 0;
      live := {};
    }

    /** `URL.createObjectURL(file)`. */
    method Create(file: File) returns (u: ObjectUrl)
      requires Valid()
      modifies this
      ensures Valid()
      ensures u == ObjectUrl(old(nextSerial)) && nextSerial == old(nextSerial) + 1
      ensures u !in old(live) && live == old(live) + {u}
    {
      u := ObjectUrl(nextSerial);
      live := live + {u};
      nextSerial := nextSerial + 1;
    }

    /** `URL.revokeObjectURL(u)`. */
    method Revoke(u: ObjectUrl)
      requires Valid()
      modifies this
      ensures Valid()
      ensures live == old(live) - {u} && nextSerial == old(nextSerial)
    {
      live := live - {u};
    }
  }

  /** The URL in an optional slot, as a set. */
  function UrlSet(u: Option<ObjectUrl>): set<ObjectUrl> {
    if u.Some? then {u.value} else {}
  }

  /** The preview URLs the two slots show. */
  function SlotUrls(io: IntroOutroSettings): set<ObjectUrl> {
    UrlSet(io.intro.previewUrl) + UrlSet(io.outro.previewUrl)
  }

  /** The URLs the music library holds. */
  function LibraryUrls(library: seq<MusicTrack>): set<ObjectUrl> {
    set t | t in library :: t.url
  }

  /** Two tracks that share an id or a URL are the same track. */
  predicate DistinctTracks(library: seq<MusicTrack>) {
    forall s, t | s in library && t in library :: (s.id == t.id || s.url == t.url) ==> s == t
  }

  /** No object URL leaks and none is shown twice: the live URLs are exactly
      the ones the slots and the library hold, the two slots hold different
      URLs, no slot URL is a track's, and tracks are distinct. */
  ghost predicate Tracked(live: set<ObjectUrl>, io: IntroOutroSettings, library: seq<MusicTrack>)
    ensures Tracked(live, io, library) ==> SlotUrls(io) <= live
  {
    && live == SlotUrls(io) + LibraryUrls(library)
    && (io.intro.previewUrl.Some? && io.outro.previewUrl.Some? ==> io.intro.previewUrl != io.outro.previewUrl)
    && SlotUrls(io) !! LibraryUrls(library)
    && DistinctTracks(library)
  }

  // ---------------------------------------------------------------------
  // Watermark

  /** `handleWatermarkUpload` once the reader is done: a truthy data URL
      replaces the image and turns the watermark on; no file, or an empty
      result, changes nothing. */
  function WatermarkUploaded(ws: WatermarkSettings, readResult: Option<string>): (r: Option<WatermarkSettings>)
    ensures r.Some? <==> Truthy(readResult)
    ensures r.Some? ==> r.value.enabled && r.value.dataUrl == readResult
    ensures r.Some? ==> r.value.position == ws.position && r.value.opacity == ws.opacity && r.value.scale == ws.scale
  {
    if readResult.Some? && readResult.value != "" then Some(ws.(dataUrl := readResult, enabled := true))
    else None
  }

  /** The remove button on the logo: no image, watermark off. */
  function WatermarkRemoved(ws: WatermarkSettings): (r: WatermarkSettings)
    ensures !r.enabled && r.dataUrl.None?
    ensures r.position == ws.position && r.opacity == ws.opacity && r.scale == ws.scale
  {
    ws.(dataUrl := None, enabled := false)
  }

  /** `handlePositionChange`: only the position changes. */
  function PositionChanged(ws: WatermarkSettings, pos: WatermarkPosition): (r: WatermarkSettings)
    ensures r.position == pos
    ensures r.enabled == ws.enabled && r.dataUrl == ws.dataUrl && r.opacity == ws.opacity && r.scale == ws.scale
  {
    ws.(position := pos)
  }

  /** Removing the logo after an upload leaves what removing it before
      would have left: the upload leaves no trace. */
  lemma RemoveForgetsUpload(ws: WatermarkSettings, readResult: Option<string>)
    requires Truthy(readResult)
    ensures WatermarkRemoved(WatermarkUploaded(ws, readResult).value) == WatermarkRemoved(ws)
  {
  }

  /** Moving the watermark and uploading a logo commute. */
  lemma PositionCommutesWithUpload(ws: WatermarkSettings, readResult: Option<string>, pos: WatermarkPosition)
    requires Truthy(readResult)
    ensures WatermarkUploaded(PositionChanged(ws, pos), readResult).value
         == PositionChanged(WatermarkUploaded(ws, readResult).value, pos)
  {
  }

  // ---------------------------------------------------------------------
  // Intro and outro slots

  /** `toggleVideoEnabled`: only that slot's flag changes. */
  function VideoEnabledSet(io: IntroOutroSettings, slot: Slot, enabled: bool): (r: IntroOutroSettings)
    ensures r.Get(slot).enabled == enabled
    ensures r.Get(slot).file == io.Get(slot).file && r.Get(slot).previewUrl == io.Get(slot).previewUrl
    ensures forall other: Slot :: other != slot ==> r.Get(other) == io.Get(other)
  {
    io.Set(slot, io.Get(slot).(enabled := enabled))
  }

  /** Turning a slot on or off keeps every URL where it was. */
  lemma {:induction false} VideoEnabledKeepsTracked(live: set<ObjectUrl>, io: IntroOutroSettings,
                                                     library: seq<MusicTrack>, slot: Slot, enabled: bool)
    requires Tracked(live, io, library)
    ensures Tracked(live, VideoEnabledSet(io, slot, enabled), library)
  {
    var r := VideoEnabledSet(io, slot, enabled);
    assert r.intro.previewUrl == io.intro.previewUrl by {
      assert r.Get(Intro).previewUrl == io.Get(Intro).previewUrl;
    }
    assert r.outro.previewUrl == io.outro.previewUrl by {
      assert r.Get(Outro).previewUrl == io.Get(Outro).previewUrl;
    }
  }

  /** Putting `c` in a slot in place of what was there: the old preview URL
      leaves the set of shown URLs and `c`'s enters. */
  lemma {:induction false} SlotReplaced(live: set<ObjectUrl>, io: IntroOutroSettings,
                                        library: seq<MusicTrack>, slot: Slot, c: AssetConfig)
    requires Tracked(live, io, library)
    requires c.previewUrl.Some? ==> c.previewUrl.value !in live
    ensures Tracked((live - UrlSet(io.Get(slot).previewUrl)) + UrlSet(c.previewUrl), io.Set(slot, c), library)
  {
    var r := io.Set(slot, c);
    var other := if slot == Intro then Outro else Intro;
    assert r.Get(other) == io.Get(other);
    assert SlotUrls(io) == UrlSet(io.Get(slot).previewUrl) + UrlSet(io.Get(other).previewUrl);
    assert SlotUrls(r) == UrlSet(c.previewUrl) + UrlSet(io.Get(other).previewUrl);
  }

  /** `handleVideoUpload`: a chosen file gets a new object URL and fills the
      slot, which is turned on; the other slot is unchanged. The URL the
      slot showed before is left live. */
  method HandleVideoUpload(reg: UrlRegistry, io: IntroOutroSettings, slot: Slot, file: Option<File>)
    returns (updated: Option<IntroOutroSettings>)
    requires reg.Valid()
    modifies reg
    ensures reg.Valid()
    ensures file.None? ==> updated.None? && reg.live == old(reg.live) && reg.nextSerial == old(reg.nextSerial)
    ensures file.Some? ==>
              var u := ObjectUrl(old(reg.nextSerial));
              && u !in old(reg.live)
              && reg.live == old(reg.live) + {u}
              && updated == Some(io.Set(slot, AssetConfig(true, file, Some(u))))
  {
    if file.Some? {
      var url := reg.Create(file.value);
      updated := Some(io.Set(slot, io.Get(slot).(file := file, previewUrl := Some(url), enabled := true)));
    } else {
      updated := None;
    }
  }

  /** Uploading over a slot that already shows a video leaks that video's
      URL: it stays live while nothing shows it any more. */
  lemma {:induction false} VideoUploadLeaks(live: set<ObjectUrl>, io: IntroOutroSettings, library: seq<MusicTrack>,
                                            slot: Slot, file: File, u: ObjectUrl)
    requires Tracked(live, io, library)
    requires io.Get(slot).previewUrl.Some? && u !in live
    ensures !Tracked(live + {u}, io.Set(slot, AssetConfig(true, Some(file), Some(u))), library)
  {
    var before := io.Get(slot).previewUrl.value;
    var r := io.Set(slot, AssetConfig(true, Some(file), Some(u)));
    var other := if slot == Intro then Outro else Intro;
    assert r.Get(other) == io.Get(other);
    assert before in live + {u};
    assert SlotUrls(r) == {u} + UrlSet(io.Get(other).previewUrl);
    assert before !in SlotUrls(r) + LibraryUrls(library);
  }

  /** The upload as it was evidently meant: the slot's previous URL is
      revoked before the new one is made, so nothing leaks. */
  method ReplaceVideo(reg: UrlRegistry, io: IntroOutroSettings, slot: Slot, file: Option<File>,
                      ghost library: seq<MusicTrack>)
    returns (updated: Option<IntroOutroSettings>)
    requires reg.Valid()
    modifies reg
    ensures reg.Valid()
    ensures file.None? ==> updated.None? && reg.live == old(reg.live) && reg.nextSerial == old(reg.nextSerial)
    ensures file.Some? ==>
              var u := ObjectUrl(old(reg.nextSerial));
              && reg.live == (old(reg.live) - UrlSet(io.Get(slot).previewUrl)) + {u}
              && updated == Some(io.Set(slot, AssetConfig(true, file, Some(u))))
    ensures Tracked(old(reg.live), io, library) && updated.Some? ==> Tracked(reg.live, updated.value, library)
  {
    if file.Some? {
      ghost var live0 := reg.live;
      if io.Get(slot).previewUrl.Some? {
        reg.Revoke(io.Get(slot).previewUrl.value);
      }
      var url := reg.Create(file.value);
      updated := Some(io.Set(slot, AssetConfig(true, file, Some(url))));
      if Tracked(live0, io, library) {
        SlotReplaced(live0, io, library, slot, AssetConfig(true, file, Some(url)));
      }
    } else {
      updated := None;
    }
  }

  /** `removeVideo`: the slot's URL, when there is one, is revoked, and the
      slot is emptied and turned off; the other slot is unchanged. */
  method RemoveVideo(reg: UrlRegistry, io: IntroOutroSettings, slot: Slot, ghost library: seq<MusicTrack>)
    returns (updated: IntroOutroSettings)
    requires reg.Valid()
    modifies reg
    ensures reg.Valid()
    ensures updated == io.Set(slot, AssetConfig(false, None, None))
    ensures reg.live == old(reg.live) - UrlSet(io.Get(slot).previewUrl)
    ensures reg.nextSerial == old(reg.nextSerial)
    ensures Tracked(old(reg.live), io, library) ==> Tracked(reg.live, updated, library)
  {
    ghost var live0 := reg.live;
    if io.Get(slot).previewUrl.Some? {
      reg.Revoke(io.Get(slot).previewUrl.value);
    }
    updated := io.Set(slot, AssetConfig(false, None, None));
    if Tracked(live0, io, library) {
      SlotReplaced(live0, io, library, slot, AssetConfig(false, None, None));
      assert (live0 - UrlSet(io.Get(slot).previewUrl)) + UrlSet(None) == reg.live;
    }
  }

  // ---------------------------------------------------------------------
  // Track names

  /** Where the last `.` of `s` is, if it has one. */
  function LastDot(s: string): (r: Option<nat>)
    ensures r.Some? ==> r.value < |s| && s[r.value] == '.'
    ensures r.Some? ==> forall j :: r.value < j < |s| ==> s[j] != '.'
    ensures r.None? ==> forall j :: 0 <= j < |s| ==> s[j] != '.'
  {
    if |s| == 0 then None
    else if s[|s| - 1] == '.' then Some(|s| - 1)
    else LastDot(s[..|s| - 1])
  }

  /** `name.replace(/\.[^/.]+$/, "")`: a final extension, a `.` followed by
      at least one character and no further `.` or `/`, is dropped. */
  function StripExtension(name: string): (r: string)
    ensures r <= name
  {
    match LastDot(name)
    case None => name
    case Some(i) =>
      if i + 1 < |name| && forall j :: i < j < |name| ==> name[j] != '/' then name[..i] else name
  }

  /** A name with no `.` is kept whole. */
  lemma NoDotKept(name: string)
    requires forall j :: 0 <= j < |name| ==> name[j] != '.'
    ensures StripExtension(name) == name
  {
  }

  /** A name ending in `.` is kept whole: the extension must not be empty. */
  lemma TrailingDotKept(name: string)
    requires |name| > 0 && name[|name| - 1] == '.'
    ensures StripExtension(name) == name
  {
  }

  /** A name whose last `.` comes before a `/` is kept whole. */
  lemma DotBeforeSlashKept(name: string, i: nat, k: nat)
    requires i < k < |name| && name[i] == '.' && name[k] == '/'
    requires forall j :: i < j < |name| ==> name[j] != '.'
    ensures StripExtension(name) == name
  {
    assert LastDot(name) == Some(i);
  }

  /** A base name followed by a `.` and a non-empty extension free of `.`
      and `/` gives the base back, whatever dots the base holds. */
  lemma {:induction false} StripExtensionRoundTrip(base: string, ext: string)
    requires |ext| > 0
    requires forall j :: 0 <= j < |ext| ==> ext[j] != '.' && ext[j] != '/'
    ensures StripExtension(base + "." + ext) == base
  {
    var name := base + "." + ext;
    assert name[|base|] == '.';
    assert forall j :: |base| < j < |name| ==> name[j] == ext[j - |base| - 1];
    assert LastDot(name) == Some(|base|);
    assert name[..|base|] == base;
  }

  // ---------------------------------------------------------------------
  // Music library

  /** The track made for the `k`-th selected file: the id the generator
      gives it, the file name without its extension, a new URL. */
  function NewTrack(files: seq<File>, freshId: nat -> string, base: nat, k: nat): (r: MusicTrack)
    requires k < |files|
    ensures r.id == freshId(k) && r.file == files[k] && r.url == ObjectUrl(base + k)
    ensures r.name <= files[k].name
  {
    MusicTrack(freshId(k), StripExtension(files[k].name), files[k], ObjectUrl(base + k))
  }

  function NewTracks(files: seq<File>, freshId: nat -> string, base: nat): (r: seq<MusicTrack>)
    ensures |r| == |files|
  {
    seq(|files|, k requires 0 <= k < |files| => NewTrack(files, freshId, base, k))
  }

  /** The URLs handed out for `n` files starting at serial `base`. */
  function NewUrls(base: nat, n: nat): set<ObjectUrl> {
    set k | base <= k < base + n :: ObjectUrl(k)
  }

  /** The id generator gives different ids to different files, and none of
      them is a library track's id. */
  predicate FreshIds(freshId: nat -> string, n: nat, library: seq<MusicTrack>) {
    && (forall i, j :: 0 <= i < j < n ==> freshId(i) != freshId(j))
    && (forall i, t :: 0 <= i < n && t in library ==> freshId(i) != t.id)
  }

  /** `handleMusicUpload`: with at least one file selected, one track per
      file, in file order, is appended after the existing tracks, each with
      a new URL; with none, nothing happens. `freshId` stands for
      `crypto.randomUUID`. */
  method HandleMusicUpload(reg: UrlRegistry, library: seq<MusicTrack>, files: seq<File>, freshId: nat -> string,
                           ghost io: IntroOutroSettings)
    returns (updated: Option<seq<MusicTrack>>)
    requires reg.Valid()
    modifies reg
    ensures reg.Valid()
    ensures |files| == 0 ==> updated.None?
    ensures |files| > 0 ==> updated == Some(library + NewTracks(files, freshId, old(reg.nextSerial)))
    ensures reg.nextSerial == old(reg.nextSerial) + |files|
    ensures reg.live == old(reg.live) + NewUrls(old(reg.nextSerial), |files|)
    ensures Tracked(old(reg.live), io, library) && FreshIds(freshId, |files|, library) && updated.Some? ==>
              Tracked(reg.live, io, updated.value)
  {
    if |files| == 0 {
      updated := None;
      assert NewUrls(reg.nextSerial, 0) == {};
      return;
    }
    ghost var base := reg.nextSerial;
    ghost var live0 := reg.live;
    var newTracks: seq<MusicTrack> := [];
    for i := 0 to |files|
      invariant reg.Valid()
      invariant reg.nextSerial == base + i
      invariant reg.live == live0 + NewUrls(base, i)
      invariant |newTracks| == i
      invariant forall k :: 0 <= k < i ==> newTracks[k] == NewTrack(files, freshId, base, k)
    {
      var url := reg.Create(files[i]);
      newTracks := newTracks + [MusicTrack(freshId(i), StripExtension(files[i].name), files[i], url)];
      assert NewUrls(base, i + 1) == NewUrls(base, i) + {url};
    }
    assert newTracks == NewTracks(files, freshId, base);
    updated := Some(library + newTracks);
    if Tracked(live0, io, library) && FreshIds(freshId, |files|, library) {
      UploadKeepsTracked(live0, io, library, files, freshId, base);
    }
  }

  /** A new track is the one made for the file its URL's serial points at. */
  lemma NewTrackBySerial(files: seq<File>, freshId: nat -> string, base: nat, t: MusicTrack)
    requires t in NewTracks(files, freshId, base)
    ensures base <= t.url.serial < base + |files|
    ensures t == NewTrack(files, freshId, base, t.url.serial - base)
  {
    var added := NewTracks(files, freshId, base);
    var k :| 0 <= k < |added| && added[k] == t;
    assert added[k] == NewTrack(files, freshId, base, k);
  }

  /** The new tracks hold exactly the new URLs. */
  lemma NewTracksUrls(files: seq<File>, freshId: nat -> string, base: nat)
    ensures LibraryUrls(NewTracks(files, freshId, base)) == NewUrls(base, |files|)
  {
    var added := NewTracks(files, freshId, base);
    forall u | u in NewUrls(base, |files|) ensures u in LibraryUrls(added) {
      assert added[u.serial - base].url == u;
    }
    forall u | u in LibraryUrls(added) ensures u in NewUrls(base, |files|) {
      var t :| t in added && t.url == u;
      NewTrackBySerial(files, freshId, base, t);
    }
  }

  lemma LibraryUrlsAppend(a: seq<MusicTrack>, b: seq<MusicTrack>)
    ensures LibraryUrls(a + b) == LibraryUrls(a) + LibraryUrls(b)
  {
    assert forall t :: t in a + b <==> t in a || t in b;
  }

  /** Appending the new tracks keeps every URL accounted for, provided the
      URLs handed out before all lie below `base`. */
  lemma {:induction false} UploadKeepsTracked(live: set<ObjectUrl>, io: IntroOutroSettings, library: seq<MusicTrack>,
                                              files: seq<File>, freshId: nat -> string, base: nat)
    requires Tracked(live, io, library) && FreshIds(freshId, |files|, library)
    requires forall u :: u in live ==> u.serial < base
    ensures Tracked(live + NewUrls(base, |files|), io, library + NewTracks(files, freshId, base))
  {
    var added := NewTracks(files, freshId, base);
    var all := library + added;
    NewTracksUrls(files, freshId, base);
    LibraryUrlsAppend(library, added);
    assert SlotUrls(io) !! NewUrls(base, |files|);
    forall s, t | s in all && t in all && (s.id == t.id || s.url == t.url)
      ensures s == t
    {
      if s in added {
        NewTrackBySerial(files, freshId, base, s);
      }
      if t in added {
        NewTrackBySerial(files, freshId, base, t);
      }
    }
  }

  function IdIs(id: string): MusicTrack -> bool {
    (t: MusicTrack) => t.id == id
  }

  function IdIsNot(id: string): MusicTrack -> bool {
    (t: MusicTrack) => t.id != id
  }

  /** `removeMusicTrack`: when a track has the id, its URL is revoked and
      every track with the id leaves the library, the others keeping their
      order; otherwise nothing happens. */
  method RemoveMusicTrack(reg: UrlRegistry, library: seq<MusicTrack>, id: string, ghost io: IntroOutroSettings)
    returns (updated: Option<seq<MusicTrack>>)
    requires reg.Valid()
    modifies reg
    ensures reg.Valid() && reg.nextSerial == old(reg.nextSerial)
    ensures Find(library, IdIs(id)).None? ==> updated.None? && reg.live == old(reg.live)
    ensures Find(library, IdIs(id)).Some? ==>
              && reg.live == old(reg.live) - {Find(library, IdIs(id)).value.url}
              && updated == Some(Filter(library, IdIsNot(id)))
    ensures Tracked(old(reg.live), io, library) && updated.Some? ==> Tracked(reg.live, io, updated.value)
  {
    var track := Find(library, IdIs(id));
    if track.Some? {
      ghost var live0 := reg.live;
      reg.Revoke(track.value.url);
      updated := Some(Filter(library, IdIsNot(id)));
      if Tracked(live0, io, library) {
        RemovalKeepsTracked(live0, io, library, id, track.value);
      }
    } else {
      updated := None;
    }
  }

  /** Dropping the one track with an id takes exactly its URL out of the
      library. */
  lemma {:induction false} RemovalKeepsTracked(live: set<ObjectUrl>, io: IntroOutroSettings, library: seq<MusicTrack>,
                                               id: string, track: MusicTrack)
    requires Tracked(live, io, library)
    requires track in library && track.id == id
    ensures Tracked(live - {track.url}, io, Filter(library, IdIsNot(id)))
  {
    var kept := Filter(library, IdIsNot(id));
    assert forall t :: t in kept <==> t in library && t.id != id;
    assert LibraryUrls(kept) == LibraryUrls(library) - {track.url} by {
      forall u | u in LibraryUrls(library) - {track.url} ensures u in LibraryUrls(kept) {
        var t :| t in library && t.url == u;
        assert t != track;
        assert IdIsNot(id)(t);
      }
    }
  }

  // ---------------------------------------------------------------------
  // Channels

  /** `handleConnectChannel`: the channels with the id have their connection
      flag flipped; every other field and every other channel is kept. */
  function ConnectChannel(channels: seq<Channel>, id: string): (r: seq<Channel>)
    ensures |r| == |channels|
    ensures forall i :: 0 <= i < |r| ==>
              && r[i].connected == (channels[i].connected != (channels[i].id == id))
              && r[i].(connected := channels[i].connected) == channels[i]
  {
    seq(|channels|, i requires 0 <= i < |channels| =>
      if channels[i].id == id then channels[i].(connected := !channels[i].connected) else channels[i])
  }

  /** Connecting twice restores the list. */
  lemma ConnectTwiceRestores(channels: seq<Channel>, id: string)
    ensures ConnectChannel(ConnectChannel(channels, id), id) == channels
  {
    var r := ConnectChannel(ConnectChannel(channels, id), id);
    assert forall i :: 0 <= i < |r| ==> r[i] == channels[i];
  }

  /** `handleSaveHandle`: the channels with the id get the edited handle;
      every other field and every other channel is kept. */
  function SaveHandle(channels: seq<Channel>, id: string, tempHandle: string): (r: seq<Channel>)
    ensures |r| == |channels|
    ensures forall i :: 0 <= i < |r| ==>
              && (channels[i].id == id ==> r[i].youtubeHandle == Some(tempHandle))
              && (channels[i].id != id ==> r[i].youtubeHandle == channels[i].youtubeHandle)
              && r[i].(youtubeHandle := channels[i].youtubeHandle) == channels[i]
  {
    seq(|channels|, i requires 0 <= i < |channels| =>
      if channels[i].id == id then channels[i].(youtubeHandle := Some(tempHandle)) else channels[i])
  }

  /** Saving a handle twice is saving the second one: the last edit wins,
      and saving the same handle again changes nothing. */
  lemma LastHandleWins(channels: seq<Channel>, id: string, first: string, second: string)
    ensures SaveHandle(SaveHandle(channels, id, first), id, second) == SaveHandle(channels, id, second)
    ensures SaveHandle(SaveHandle(channels, id, first), id, first) == SaveHandle(channels, id, first)
  {
    var a := SaveHandle(SaveHandle(channels, id, first), id, second);
    var b := SaveHandle(channels, id, second);
    assert forall i :: 0 <= i < |a| ==> a[i] == b[i];
    var c := SaveHandle(SaveHandle(channels, id, first), id, first);
    var d := SaveHandle(channels, id, first);
    assert forall i :: 0 <= i < |c| ==> c[i] == d[i];
  }
}
