# YouTube creator studio: a verified model of its core

The console is a React application. A creator uses it to plan, generate and
package videos for several YouTube channels. This project models the parts
of it that are deterministic:

- the export archive built for one or several produced assets;
- the export queue and its selection;
- the synced preview player;
- the error, script-cleaning and episode helpers of the studio;
- the 44-byte WAV header that wraps the generated voice-over, and the bytes of the voice-over file;
- the request payload sent to the video model for each generation mode;
- the asset settings handlers (music library, intro/outro slots, watermark, channels), checked against a registry of live object URLs;
- the application state, its defaults and the persisted settings;
- the dashboard's view statistics;
- the labels of the template page.

The project has one module per source component:

| module | file | models |
|---|---|---|
| `Wrappers`, `Text`, `Seqs` | wrappers.dfy, text.dfy, seqs.dfy | `Option`/`Result`, and the string and list built-ins the code uses (`substring`, `split`, `join`, `find`, `filter`) |
| `Types` | types.dfy | the records of types.ts |
| `Archive` | archive.dfy | `createZipFromAssets`, with a `Zip` class whose entry map the loop fills |
| `StudioHelpers` | studio_helpers.dfy | `handleApiError`, the speech-script cleaning, the episode stepper, the package name |
| `Studio` | studio.dfy | the `CreatorStudio` class: draft, queue, selection, episode counter, downloads |
| `Playback` | playback.dfy | `toggleSyncedPlayback` and the `ended` listener over three `Media` objects |
| `Wav` | wav.dfy | `createWavHeader`, `writeString`, `base64ToUint8Array` and the speech WAV assembly, on a byte `array` |
| `VideoRequest` | video_request.dfy | the payload construction of `generateVideo` |
| `AssetsSettings` | assets_settings.dfy | the `UrlRegistry` class (`createObjectURL`/`revokeObjectURL`) and the settings handlers |
| `AppShell` | app.dfy | the `App` class: state, defaults, handlers, load and save of the settings |
| `Dashboard` | dashboard.dfy | the statistics loop |
| `TemplateManager` | template_manager.dfy | channel label and colour, format, language and series labels |

Modelling choices:

- The zip archive is a map from `Path(folder, name)` to an `Entry`.
  - `folder == None` is the archive root.
  - Which asset's video fetch succeeds is the oracle `fetchOk: nat -> bool`, indexed by the asset's position.
- Object URLs are serial numbers handed out by `UrlRegistry`. The registry's `live` set holds the URLs that are not yet revoked.
- `Tracked(live, io, library)` says that the live URLs are exactly those the intro/outro slots and the music library still show, with no URL shared between two places.
- What the stored settings text parses to is an input (`Stored`). `crypto.randomUUID` is an input id, or an id function for the music upload. The current time is an input.
- Strings are sequences of characters. A character code stored into a byte is reduced modulo 256, as `setUint8` does.

## Model

| member | source | states |
|---|---|---|
| Archive.TitleSlug | components/CreatorStudio.tsx:371 | the title part of a folder name has length min(30, \|title\|); every character is in [a-z0-9_]; a character is `_` exactly when the title's character is not an ASCII letter or digit; otherwise it is that character in lower case |
| Archive.FolderName | components/CreatorStudio.tsx:371 | a folder name is at most 46 characters; it is empty exactly when the asset has no channel name and an empty title; without a channel name it is the title slug alone |
| Archive.FolderNameParts | components/CreatorStudio.tsx:371 | a folder name ends with the title slug; with a non-empty channel name it starts with a prefix of the channel name of at most 15 characters, followed by `_` |
| Archive.MetadataLines | components/CreatorStudio.tsx:376-388 | the `metadata.txt` template has twelve lines |
| Archive.MetadataLabelsInOrder | components/CreatorStudio.tsx:376-388 | the seven field lines start with CHANNEL, TITLE, DESCRIPTION, TAGS, VISUAL PROMPT, EPISODE and COMMUNITY POST in that order; lines 0 and 8 are blank, line 9 is `SCRIPT:` and line 10 the script (`undefined` when absent) |
| Archive.MetadataText | components/CreatorStudio.tsx:376-388 | `metadata.txt` opens with a line break and the channel line, `N/A` standing for an unset channel |
| Archive.MetadataLineOrder | components/CreatorStudio.tsx:376-388 | when no field holds a line break, `metadata.txt` splits into exactly 12 lines in the fixed order: blank, CHANNEL, TITLE, DESCRIPTION, TAGS, VISUAL PROMPT, EPISODE, COMMUNITY POST, blank, SCRIPT:, the script, the closing indentation; `N/A` stands for each absent optional field |
| Archive.MetadataMentionsEverything | components/CreatorStudio.tsx:376-388 | the title, the description, every tag and the script appear verbatim in `metadata.txt` |
| Archive.DataUriPayload | components/CreatorStudio.tsx:411 | `split(',')[1]` is `undefined` exactly when the string has no comma; otherwise it is a comma-free piece shorter than the string |
| Archive.DataUriRoundTrip | components/CreatorStudio.tsx:411 | `split(',')[1]` of `header,data` is exactly `data` when neither part holds a comma, as in a data URI of section 3 of RFC 2397 |
| Archive.NameTextInjective | components/CreatorStudio.tsx:388-435 | distinct files of an asset are written under distinct names |
| Archive.WriteIndex | components/CreatorStudio.tsx:388-435 | every file name has its place in the order in which the loop body writes files |
| Archive.PutRangeSplit | components/CreatorStudio.tsx:388-435 | a run of the loop body's writes from a file table can be made in two consecutive parts |
| Archive.PutRangeTable | components/CreatorStudio.tsx:388-435 | after a run of writes from a file table, each file of the run that the table has sits in the folder with its content, and every other path is as before |
| Archive.AddAssetFilesTable | components/CreatorStudio.tsx:375-436 | one pass of the loop body puts the asset's whole file table into its folder and leaves every other path as it was |
| Archive.VideoOrFallback | components/CreatorStudio.tsx:396-402 | an asset gets `01_main_video.mp4` exactly when its fetch succeeds, and otherwise `video_url.txt` holding the video URL |
| Archive.GlobalFilesShared | components/CreatorStudio.tsx:414-437 | the watermark, intro, outro and music files are the same for every asset of an export |
| Archive.LastWriter | components/CreatorStudio.tsx:370-373 | finds the last asset that writes a given path, or says that none does |
| Archive.LastWriteWins | components/CreatorStudio.tsx:370-373 | a path is in the archive iff some asset writes there, and it holds what the last such asset wrote; assets with equal folder names share the folder, and later files replace earlier ones |
| Archive.EntriesStep | components/CreatorStudio.tsx:370-373 | one more pass of the loop adds the next asset's file table where its files go |
| Archive.SingleAssetIsFlat | components/CreatorStudio.tsx:372 | with one asset, the archive is exactly that asset's file table at the root |
| Archive.BuildArchive | components/CreatorStudio.tsx:367-372 | with at most one asset every file is at the root; with none the archive is empty |
| Archive.UnfolderedIsFlat | components/CreatorStudio.tsx:372 | when the loop writes to `zip` itself, every file is at the root |
| Archive.OnlyWritersFolders | components/CreatorStudio.tsx:370-373 | every path of a foldered archive lies where some asset puts its files |
| Archive.MetadataInEveryFolder | components/CreatorStudio.tsx:388 | every asset's `metadata.txt` is where its files go |
| Archive.FoldersAreNames | components/CreatorStudio.tsx:371-372 | the folders of a foldered archive are exactly the non-empty folder names of the assets |
| Archive.SeveralAssetsAreFoldered | components/CreatorStudio.tsx:372 | with several assets, a file sits at the root only if some asset's folder name is empty (`zip.folder("")` is the root itself); every asset's `metadata.txt` is in its folder, or at the root for an empty name; the folders are exactly the non-empty folder names |
| Archive.NamedFoldersLeaveRootEmpty | components/CreatorStudio.tsx:372 | with several assets whose folder names are all non-empty, nothing is at the root |
| Archive.UniqueFolderKeepsFiles | components/CreatorStudio.tsx:370-437 | an asset whose folder name no other asset has keeps its whole file table, and nothing else, where its files go (its folder, or the root for an empty name) |
| Archive.Zip.constructor | components/CreatorStudio.tsx:368 | a new archive has no entries |
| Archive.Zip.File | components/CreatorStudio.tsx:388 | writing a file sets that one path and keeps every other entry |
| Archive.AddMetadataAndVideo | components/CreatorStudio.tsx:388-402 | the first writes of the loop body: `metadata.txt`, the subtitles when set, then the fetched video or its URL |
| Archive.AddVoiceoverAndThumbnail | components/CreatorStudio.tsx:405-413 | the voice-over when there is a blob, the thumbnail payload when there is an image |
| Archive.AddWatermarkAndClips | components/CreatorStudio.tsx:416-429 | the watermark, intro and outro, each when switched on and present |
| Archive.AddMusic | components/CreatorStudio.tsx:431-437 | the selected background track, when the selection is set and a track has its id |
| Archive.AddAssetTo | components/CreatorStudio.tsx:374-438 | the loop body adds the asset's file table to the archive |
| Archive.CreateZipFromAssets | components/CreatorStudio.tsx:367-442 | the loop builds `BuildArchive`: one pass per asset, with the folder `zip.folder(name)` for several assets (the root for an empty name) and the root for one |
| StudioHelpers.ApiErrorMessage | components/CreatorStudio.tsx:186-194 | a message mentioning `429` or `RESOURCE_EXHAUSTED` gives the quota text; any other gives the default message, `: `, the first 100 characters of the message, then `...` |
| StudioHelpers.QuotaWhenStatusMentioned | components/CreatorStudio.tsx:189 | `429` anywhere in a message makes it a quota error |
| StudioHelpers.ShortMessageShownWhole | components/CreatorStudio.tsx:192 | a non-quota message of at most 100 characters is shown whole |
| StudioHelpers.CloseIndex | components/CreatorStudio.tsx:264 | where a lazy `.*?` before a closing bracket stops: the first closing bracket, with no line terminator before it; no match when a line break comes first |
| StudioHelpers.StripPairs | components/CreatorStudio.tsx:264 | one global replace of a bracket pair never lengthens the text |
| StudioHelpers.CloseIndexNoneAfterPrefix | components/CreatorStudio.tsx:264 | dropping a prefix without line terminators keeps "no match" |
| StudioHelpers.StripKeepsNoClose | components/CreatorStudio.tsx:264 | removing one kind of pair never makes a closing bracket reachable |
| StudioHelpers.PairFreeSuffix | components/CreatorStudio.tsx:264 | a suffix of a pair-free text is pair-free |
| StudioHelpers.StripPairsIsPairFree | components/CreatorStudio.tsx:264 | after the global replace, no opening bracket has its closing bracket later on the same line |
| StudioHelpers.StripPreservesPairFree | components/CreatorStudio.tsx:264 | the second replace keeps the text free of the first kind of pair |
| StudioHelpers.StripPairFreeIsIdentity | components/CreatorStudio.tsx:264 | the replace leaves a pair-free text unchanged |
| StudioHelpers.NoOpenUnchanged | components/CreatorStudio.tsx:264 | a text without an opening bracket is left as it is |
| StudioHelpers.CleanScriptIsClean | components/CreatorStudio.tsx:264 | the script sent to speech synthesis has no `[...]` and no `(...)` on a line, and cleaning it again changes nothing |
| StudioHelpers.CleanScript | components/CreatorStudio.tsx:264 | the cleaned script is never longer than the script, and a script without `[` and `(` is sent unchanged |
| StudioHelpers.CueRemoved | components/CreatorStudio.tsx:264 | a one-line `[cue]` at the front is removed and the rest is cleaned as on its own |
| StudioHelpers.EpisodeBack | components/CreatorStudio.tsx:634 | the `-` button never goes below 1, and otherwise steps back by one |
| StudioHelpers.EpisodeForward | components/CreatorStudio.tsx:636 | the `+` button adds exactly one |
| StudioHelpers.BackUndoesForward | components/CreatorStudio.tsx:634-636 | `-` undoes `+` on every valid episode number |
| StudioHelpers.PackageFileName | components/CreatorStudio.tsx:490 | the package name is the whole title slugged (every ASCII letter or digit lowered, every other character `_`, no length cut), followed by `_package.zip` |
| Studio.SelectedForExport | components/CreatorStudio.tsx:445 | the batch holds exactly the queued assets whose ids are selected, in queue order; it is empty iff no queued asset is selected |
| Studio.WithoutAsset | components/CreatorStudio.tsx:1150 | removal keeps exactly the assets with other ids, in their order |
| Studio.Toggled | components/CreatorStudio.tsx:357-365 | toggling flips one id's membership and keeps every other id |
| Studio.ToggleTwice | components/CreatorStudio.tsx:357-365 | toggling twice restores the selection |
| Studio.RemoveAfterAdd | components/CreatorStudio.tsx:315 | removing an asset right after adding it leaves the queue as if it had not been added |
| Studio.RemoveKeepsOthers | components/CreatorStudio.tsx:1150 | removal keeps every other asset with its multiplicity |
| Studio.AddedAssetIsExportedLast | components/CreatorStudio.tsx:315-316 | an added and auto-selected asset comes last in the batch |
| Studio.CreatorStudio.DraftAsset | components/CreatorStudio.tsx:304-314 | the asset made from the draft carries the plan, the video, the thumbnail, the voice-over and the selected channel's name |
| Studio.CreatorStudio.constructor | components/CreatorStudio.tsx:89-145 | the initial state: the first channel selected, Shorts, French, `cinematic`, episode 1, an empty queue and selection |
| Studio.CreatorStudio.ApplyTemplate | components/CreatorStudio.tsx:119-132 | a template sets the channel, niche, format, language and series mode; it sets the visual style only when given, and episode 2 for a series; the queue is kept |
| Studio.CreatorStudio.AddToQueue | components/CreatorStudio.tsx:302-338 | with a plan and a video, the draft is appended, selected and returned; a series moves to its next episode; the draft is cleared, keeping the niche only in series mode; without them nothing changes |
| Studio.CreatorStudio.ToggleAssetSelection | components/CreatorStudio.tsx:357-365 | the selection becomes the toggled set; every other field (queue, counter, generated media, the whole draft and the step) is unchanged |
| Studio.CreatorStudio.RemoveAsset | components/CreatorStudio.tsx:1150-1151 | the queue loses the id's assets and the selection loses the id; every other field is unchanged |
| Studio.CreatorStudio.EpisodeDown | components/CreatorStudio.tsx:634 | the counter steps back, never below 1; every other field is unchanged |
| Studio.CreatorStudio.EpisodeUp | components/CreatorStudio.tsx:636 | the counter steps forward by one; every other field is unchanged |
| Studio.CreatorStudio.BatchDownload | components/CreatorStudio.tsx:444-466 | nothing when no queued asset is selected; otherwise the archive of the selected assets in queue order |
| Studio.CreatorStudio.DownloadSinglePackage | components/CreatorStudio.tsx:468-498 | nothing without a plan and a video; otherwise a flat archive of the draft holding `metadata.txt` at the root, named after the title |
| Playback.Media.constructor | components/CreatorStudio.tsx:148-150 | a media element starts paused at position 0 with full volume |
| Playback.Media.Play | components/CreatorStudio.tsx:166-170 | playing unpauses and keeps the position and volume |
| Playback.Media.Pause | components/CreatorStudio.tsx:157-159 | pausing keeps the position and volume |
| Playback.SyncedPlayback.constructor | components/CreatorStudio.tsx:148-151 | the controller starts stopped over three distinct elements |
| Playback.SyncedPlayback.Toggle | components/CreatorStudio.tsx:153-175 | without a video it does nothing; stopping pauses every present track where it is; starting rewinds every present track to 0, sets the music to the background level and plays video, voice-over and music in that order; the flag flips, and "playing implies the video plays" is kept under the assumption that `play()` succeeds (see Left out) |
| Playback.SyncedPlayback.OnVideoEnded | components/CreatorStudio.tsx:177-183 | the end of the video clears the flag; the voice-over and music are left as they are |
| Wav.CharCodes | services/geminiService.ts:25 | a character becomes its code modulo 256, one byte per character |
| Wav.LE16 | services/geminiService.ts:45-55 | two little-endian bytes whose value is the number modulo 2^16 |
| Wav.LE32 | services/geminiService.ts:37-59 | four little-endian bytes whose value is the number modulo 2^32 |
| Wav.HeaderByte | services/geminiService.ts:34-59 | the bytes of the four chunk tags are the character codes of `RIFF`, `WAVE`, `fmt ` and `data` |
| Wav.WavHeader | services/geminiService.ts:30-62 | the header is 44 bytes |
| Wav.WavHeaderLayout | services/geminiService.ts:34-59 | `RIFF` at 0, the RIFF length 36 + data length at 4, `WAVE` at 8, `fmt ` at 12, chunk length 16, format 1, channels, sample rate, byte rate, block align and bits per sample at 16-34, `data` at 36, the data length at 40 |
| Wav.ChunkTags | services/geminiService.ts:35-57 | the four chunk tags are the ASCII codes of `RIFF`, `WAVE`, `fmt ` and `data` |
| Wav.WriteString | services/geminiService.ts:64-68 | byte offset + i becomes the code of character i, and no other byte changes |
| Wav.SetBytes | services/geminiService.ts:64-68 | writes a run of bytes at an offset and touches no other byte |
| Wav.SetUint16 | services/geminiService.ts:45-55 | the two bytes read back as the value modulo 2^16, and no other byte changes |
| Wav.SetUint32 | services/geminiService.ts:37-59 | the four bytes read back as the value modulo 2^32, and no other byte changes |
| Wav.WriteRiffPart | services/geminiService.ts:34-39 | the RIFF id, length and form type fill bytes 0-11 as the header specifies |
| Wav.WriteFmtChunk | services/geminiService.ts:40-55 | the `fmt ` chunk fills bytes 12-35 as the header specifies |
| Wav.WriteDataPart | services/geminiService.ts:56-59 | the `data` id and length fill bytes 36-43 as the header specifies |
| Wav.CreateWavHeader | services/geminiService.ts:30-62 | the buffer holds exactly the header bytes |
| Wav.BinaryStringToBytes | services/geminiService.ts:20-28 | one byte per decoded character, equal to its code |
| Wav.SpeechHeaderFields | services/geminiService.ts:242-247 | the speech header declares PCM, mono, 24000 Hz, 48000 bytes a second, 2-byte frames, 16 bits, and the exact lengths |
| Wav.SpeechWav | services/geminiService.ts:239-250 | the voice-over file is its samples after 44 header bytes |
| Wav.SpeechWavLayout | services/geminiService.ts:239-250 | the voice-over file is 44 bytes longer than its samples and ends with them; its RIFF length is the file length minus 8, and its data length is the sample count |
| Wav.AssembleSpeechWav | services/geminiService.ts:239-250 | the voice-over blob is the header for the samples' length followed by the samples |
| VideoRequest.GenerateVideoPayload | services/geminiService.ts:266-336 | the payload built field by field, with references pushed in a loop, is the request specification |
| VideoRequest.RequestPayload | services/geminiService.ts:266-336 | only an extension without an input video fails, with its message; every request asks for one video at the requested resolution with the requested model |
| VideoRequest.AspectRatioAndPrompt | services/geminiService.ts:271-283 | the aspect ratio is sent iff the mode is not an extension, and the prompt iff it is non-empty |
| VideoRequest.FramesRequest | services/geminiService.ts:285-301 | from frames: the start frame opens the video when present; the last frame is the start frame when looping, otherwise the end frame, each only when present |
| VideoRequest.ReferencesRequest | services/geminiService.ts:302-329 | from references: the asset images in input order, then the style image; the list is sent only when non-empty |
| VideoRequest.ExtendRequest | services/geminiService.ts:330-336 | an extension passes the input video, and sends no aspect ratio, frames or references |
| VideoRequest.TextRequest | services/geminiService.ts:266-283 | from text: only the prompt and the configuration |
| AssetsSettings.UrlRegistry.constructor | components/AssetsSettings.tsx:69 | no object URL is live at first |
| AssetsSettings.UrlRegistry.Create | components/AssetsSettings.tsx:69 | `createObjectURL` returns a URL never handed out before, and it becomes live |
| AssetsSettings.UrlRegistry.Revoke | components/AssetsSettings.tsx:84 | `revokeObjectURL` makes the URL no longer live |
| AssetsSettings.Tracked | components/AssetsSettings.tsx:63-124 | the bookkeeping invariant (live URLs are exactly those the slots and library show, none shown twice) implies that every URL a slot shows is live |
| AssetsSettings.WatermarkUploaded | components/AssetsSettings.tsx:41-56 | an update happens iff the reader's result is truthy; it enables the watermark with that data URL and keeps position, opacity and scale |
| AssetsSettings.WatermarkRemoved | components/AssetsSettings.tsx:250 | removing clears the data URL, disables the watermark and keeps the rest |
| AssetsSettings.PositionChanged | components/AssetsSettings.tsx:58-60 | only the position changes |
| AssetsSettings.RemoveForgetsUpload | components/AssetsSettings.tsx:250 | removing after an upload gives what removing alone gives |
| AssetsSettings.PositionCommutesWithUpload | components/AssetsSettings.tsx:41-60 | a position change and an upload commute |
| AssetsSettings.VideoEnabledSet | components/AssetsSettings.tsx:92-97 | only the slot's enabled flag changes; the other slot is unchanged |
| AssetsSettings.VideoEnabledKeepsTracked | components/AssetsSettings.tsx:92-97 | toggling a slot keeps the URL bookkeeping consistent |
| AssetsSettings.SlotReplaced | components/AssetsSettings.tsx:63-90 | replacing a slot's configuration keeps the bookkeeping when the old URL is revoked and the new one is live |
| AssetsSettings.HandleVideoUpload | components/AssetsSettings.tsx:63-80 | as written: without a file nothing happens; with a file a new URL is created and the slot is enabled with the file and the URL; the other slot is unchanged and nothing is revoked |
| AssetsSettings.VideoUploadLeaks | components/AssetsSettings.tsx:63-80 | re-uploading into a slot that already has a preview leaves the old URL live and no longer shown |
| AssetsSettings.ReplaceVideo | components/AssetsSettings.tsx:63-90 | the upload with the old preview revoked first keeps the URL bookkeeping consistent |
| AssetsSettings.RemoveVideo | components/AssetsSettings.tsx:82-90 | the slot's preview URL is revoked if any, and the slot is reset to disabled, no file and no URL; the other slot and the bookkeeping are kept |
| AssetsSettings.LastDot | components/AssetsSettings.tsx:107 | finds the last `.` of a name, or none |
| AssetsSettings.StripExtension | components/AssetsSettings.tsx:107 | the track name is a prefix of the file name |
| AssetsSettings.NoDotKept | components/AssetsSettings.tsx:107 | a name without a dot is kept |
| AssetsSettings.TrailingDotKept | components/AssetsSettings.tsx:107 | a name ending in `.` is kept |
| AssetsSettings.DotBeforeSlashKept | components/AssetsSettings.tsx:107 | a name whose last dot comes before a `/` is kept |
| AssetsSettings.StripExtensionRoundTrip | components/AssetsSettings.tsx:107 | `base.ext` with a non-empty extension free of `.` and `/` gives back `base` |
| AssetsSettings.NewTrack | components/AssetsSettings.tsx:104-109 | the track for a file carries the generated id, the file and a new URL, and its name is a prefix of the file name |
| AssetsSettings.NewTracks | components/AssetsSettings.tsx:103-111 | one new track per file, in file order |
| AssetsSettings.HandleMusicUpload | components/AssetsSettings.tsx:100-116 | no update without files; otherwise the new tracks, one per file with a fresh URL, follow the existing ones; the URLs created are live and the bookkeeping is kept |
| AssetsSettings.NewTrackBySerial | components/AssetsSettings.tsx:104-111 | each new track is identified by the serial of its URL |
| AssetsSettings.NewTracksUrls | components/AssetsSettings.tsx:109 | the new tracks show exactly the URLs just created |
| AssetsSettings.LibraryUrlsAppend | components/AssetsSettings.tsx:112 | the URLs of a concatenated library are the union of both parts' URLs |
| AssetsSettings.UploadKeepsTracked | components/AssetsSettings.tsx:100-113 | appending the new tracks with their new URLs keeps the bookkeeping consistent |
| AssetsSettings.RemoveMusicTrack | components/AssetsSettings.tsx:118-124 | an absent id changes nothing; otherwise the first track's URL is revoked and every track with the id goes, the others keep their order |
| AssetsSettings.RemovalKeepsTracked | components/AssetsSettings.tsx:118-124 | revoking the removed track's URL keeps the bookkeeping consistent |
| AssetsSettings.ConnectChannel | components/AssetsSettings.tsx:137-143 | `connected` flips on the channels with the id only, and nothing else changes |
| AssetsSettings.ConnectTwiceRestores | components/AssetsSettings.tsx:137-143 | connecting twice restores the channels |
| AssetsSettings.SaveHandle | components/AssetsSettings.tsx:145-151 | the handle is set on the channels with the id only |
| AssetsSettings.LastHandleWins | components/AssetsSettings.tsx:145-151 | saving two handles keeps the last one, and saving the same handle twice equals saving it once |
| AppShell.DefaultTemplatesHaveChannels | App.tsx:24-85 | each default template's channel id finds a default channel: the i-th template belongs to the i-th channel |
| AppShell.DefaultIdsDistinct | App.tsx:24-85 | the default channel ids are distinct, and so are the default template ids |
| AppShell.Restored | App.tsx:115-127 | each of the three settings is replaced only when the stored object has it; absent or unreadable data keeps the current settings |
| AppShell.Saved | App.tsx:130-136 | the save writes the three settings, and loading that value gives them back whatever the state loaded into |
| AppShell.LoadTwice | App.tsx:115-127 | loading the same stored value twice changes nothing more |
| AppShell.App.constructor | App.tsx:95-112 | the first render: dashboard, closed sidebar, default channels, templates and watermark, no projects, empty slots |
| AppShell.App.LoadSettings | App.tsx:115-127 | the load effect restores the settings from storage and changes nothing else |
| AppShell.App.SaveSettings | App.tsx:130-137 | storage holds exactly channels, templates and watermark; the session state is not saved |
| AppShell.App.HandleProjectCreated | App.tsx:166-168 | the new project goes first and the others keep their order; every other field is unchanged |
| AppShell.App.HandleUpdateChannels | App.tsx:170-172 | the channel list is replaced and every other field is unchanged |
| AppShell.App.HandleUseTemplate | App.tsx:174-177 | the template is selected and the studio shown; every other field is unchanged |
| AppShell.App.HandleSaveTemplate | App.tsx:179-181 | the template is appended; every other field is unchanged |
| AppShell.App.HandleDeleteTemplate | App.tsx:183-185 | every template with the id goes, and the others stay in order; every other field is unchanged |
| AppShell.App.ToggleSidebar | App.tsx:187-189 | the sidebar flips; every other field is unchanged |
| AppShell.App.HandleNavClick | App.tsx:191-197 | the view is shown and the sidebar closed; the studio drops the selected template, and any other view keeps it; every other field is unchanged |
| AppShell.DeleteTemplateTwice | App.tsx:183-185 | deleting keeps a subsequence, and deleting again changes nothing |
| AppShell.DeleteUndoesSave | App.tsx:179-185 | deleting a just-saved template with a new id restores the list |
| Dashboard.ChannelOf | components/Dashboard.tsx:28 | the channel found has the project's channel name; none means no channel has it |
| Dashboard.Counts | components/Dashboard.tsx:29 | a channel counts only with a non-zero average views and an RPM |
| Dashboard.TotalViews | components/Dashboard.tsx:27-31 | the estimate is 0 when no project adds anything, and never negative when no channel has negative average views |
| Dashboard.ComputeStats | components/Dashboard.tsx:21-33 | the video count is the number of projects, and the view total is the sum of what each project adds |
| Dashboard.TotalViewsAppend | components/Dashboard.tsx:27-33 | estimates add up over concatenation |
| Dashboard.NoProjectsNoViews | components/Dashboard.tsx:24-27 | no projects give 0 views |
| Dashboard.UnmatchedAddsNothing | components/Dashboard.tsx:28-29 | a project with no matching channel adds nothing |
| Dashboard.SameChannelCountsTwice | components/Dashboard.tsx:27-32 | two projects on one channel add its average twice |
| TemplateManager.ChannelName | components/TemplateManager.tsx:24 | the name of the first channel with the id; the unknown-channel label when there is none or the name is empty |
| TemplateManager.ChannelColor | components/TemplateManager.tsx:25 | the colour of the first channel with the id; grey when there is none or the colour is empty |
| TemplateManager.FormatLabel | components/TemplateManager.tsx:67 | `Shorts (9:16)` iff Shorts, `Long (16:9)` iff long form |
| TemplateManager.LanguageLabel | components/TemplateManager.tsx:71 | `Français` iff French, `Anglais` iff English |
| TemplateManager.Render | components/TemplateManager.tsx:42-99 | one card per template in order, with its channel label and colour, its name, description, format label and language label; the series badge iff a series; the empty state iff there are no templates |
| TemplateManager.OrphanTemplateShownAsUnknown | components/TemplateManager.tsx:24-25 | a template whose channel is gone shows the unknown label in grey |
| Text.Take | components/CreatorStudio.tsx:371 | `substring(0, n)`: the first min(n, length) characters |
| Text.SplitAfterPiece | components/CreatorStudio.tsx:411 | `split` on one character: a separator-free piece followed by the separator comes off as the first piece, and the rest is split on its own |
| Text.SplitJoin | components/CreatorStudio.tsx:376-388 | splitting separator-free lines joined by the separator gives the lines back |
| Text.JoinStart | components/CreatorStudio.tsx:376-378 | a join of three or more parts opens with the first two, each followed by the separator |
| Text.JoinContainsParts | components/CreatorStudio.tsx:380 | every tag appears in the joined tag line |
| Seqs.Find | components/CreatorStudio.tsx:433 | `find`: the first element that satisfies the test, or none when no element does |
| Types.FindChannelById | components/CreatorStudio.tsx:304 | `channels.find(c => c.id === id)`: the first channel with the id, or none exactly when no channel has it |
| Seqs.Filter | App.tsx:184 | `filter`: the elements that pass, in order |
| Seqs.FilterAppend | App.tsx:179-185 | filtering distributes over concatenation |

## Left out

- Compression and serialisation by JSZip (`generateAsync`), and the directory entries JSZip adds for folders, are not modelled: the archive is its entry map.
- The base64 decoding done by `atob` and by JSZip (`{base64: true}`) is not modelled. The thumbnail and watermark entries hold the base64 text, and the speech bytes start from the decoded binary string.
- `fetch` of the video and of the generated media is an oracle. The network calls to the generation models, the operation polling and the prompt texts are not modelled.
- `handleGeneratePlan`, `handleGenerateThumbnail`, `handleGenerateAudio` (beyond the script cleaning), `handleGenerateVideo`, `handleMagicEnhance`, `handleSaveAsTemplate` and the publish dialog are not modelled. They call the models or only set view state.
- Floating point is not modelled:
  - the estimated revenue of the dashboard;
  - the watermark opacity and scale sliders;
  - media positions, which only take the values 0 and unchanged here;
  - the 0.3 music volume, which is a constant.
- Wav.ByteRate: the JavaScript expression multiplies by the float `bitsPerSample / 8` and `setUint32` truncates. The model uses the integer floor of the exact product, which is the same value unless the float product rounds.
- Characters are single UTF-16 code units. Surrogate pairs, case mapping beyond ASCII and the locale of `toLowerCase` are not modelled.
- Time is not modelled: `new Date()` is an input, and the batch archive's date-based file name and the anchor-click download are left out.
- `localStorage` and `JSON.parse`/`JSON.stringify` are replaced by the `Stored` value that the text parses to. A stored object of the wrong shape is not modelled beyond its three optional fields.
- `crypto.randomUUID` is an input. AssetsSettings.HandleMusicUpload: the preservation of the bookkeeping is stated only when the supplied ids are fresh (`FreshIds`), as the browser promises but the model cannot.
- Rendering is not modelled (JSX, CSS classes, `getPositionClasses`, the icons, the API-key dialog and the loading indicator). TemplateManager.Render models only the texts of a card.
- Interleaving between `await`s and React's batching of state updates are not modelled. Each handler is one atomic step.
- Playback.SyncedPlayback.Toggle: `play()` is assumed to succeed, and nothing but this controller and the end of the video pauses it. The source ignores the promise `play()` returns (components/CreatorStudio.tsx:166-170), and the browser's own media controls can pause the video, so "the flag implies a playing video" is an invariant of the model, not a promise of the source.
- Archive.FolderName: a channel name holding `/` makes JSZip nest folders. The model keeps the folder name as one key.
- Playback.SyncedPlayback.OnVideoEnded: the browser pausing the video at its end is modelled; the media timeline itself is not.
- `inputVideo` of the video parameters is not used by the payload construction, so it is not part of `Params`. An absent `isLooping` is `false`.
- `selectedAssetIds.delete` at components/CreatorStudio.tsx:1151 mutates React state in place without a state update. The model treats it as an update of the selection.
- Archive.NameTextInjective is proved by Dafny without help. It is kept because the map key relies on it.

## Findings

| source | as written | input that shows it | evidently intended | confidence | as-written member | corrected member |
|---|---|---|---|---|---|---|
| components/AssetsSettings.tsx:63-80 | uploading an intro or outro video creates a new object URL and overwrites the slot's `previewUrl` without revoking the old one | an intro slot whose `previewUrl` is a live URL `u0`, then a second upload into that slot: `u0` stays live and nothing refers to it, so its memory is never released | revoke the previous preview URL before replacing it, as `removeVideo` does (components/AssetsSettings.tsx:83-85) | not executed | AssetsSettings.HandleVideoUpload, AssetsSettings.VideoUploadLeaks | AssetsSettings.ReplaceVideo |
