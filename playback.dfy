/** The synced preview player (`toggleSyncedPlayback` and the video's `ended`
    listener in components/CreatorStudio.tsx): one button starts the video,
    the voice-over and the background music together from the start, and
    stops them together. */
module Playback {

  /** The three tracks of the preview. */
  datatype Track = VideoTrack | VoiceTrack | MusicTrack

  /** A call made on a media element, in the order it was made. */
  datatype Call = Play(track: Track) | Pause(track: Track)

  /** The background level the music is set to when playback starts. */
  const MusicVolume: real := 0.3

  /** A media element: its position, whether it is paused, and its volume. */
  class Media {
    var currentTime: real
    var paused: bool
    var volume: real

    constructor ()
      ensures currentTime == 0.0 && paused && volume == 1.0
    {
      currentTime := 0.0;
      paused := true;
      volume := 1.0;
    }

    method Play()
      modifies this
      ensures !paused && currentTime == old(currentTime) && volume == old(volume)
    {
      paused := false;
    }

    method Pause()
      modifies this
      ensures paused && currentTime == old(currentTime) && volume == old(volume)
    {
      paused := true;
    }
  }

  /** The controller: the three element references (each may be absent) and
      the `isPlayingSynced` flag. `calls` records the play and pause calls. */
  class SyncedPlayback {
    var video: Media?
    var voice: Media?
    var music: Media?
    var isPlayingSynced: bool
    ghost var calls: seq<Call>

    /** The three references name different elements, and while the flag is
        set the video plays (its native controls are hidden then, so only
        the controller or the end of the video can pause it). */
    ghost predicate Valid()
      reads this, video
    {
      && (video != null && voice != null ==> video != voice)
      && (video != null && music != null ==> video != music)
      && (voice != null && music != null ==> voice != music)
      && (isPlayingSynced ==> video != null && !video.paused)
    }

    constructor (video: Media?, voice: Media?, music: Media?)
      requires video != null && voice != null ==> video != voice
      requires video != null && music != null ==> video != music
      requires voice != null && music != null ==> voice != music
      ensures Valid()
      ensures this.video == video && this.voice == voice && this.music == music
      ensures !isPlayingSynced && calls == []
    {
      this.video := video;
      this.voice := voice;
      this.music := music;
      isPlayingSynced := false;
      calls := [];
    }

    /** The calls a start makes: video, then voice-over, then music, each
        only if present. */
    ghost function StartCalls(): seq<Call>
      reads this
    {
      [Play(VideoTrack)] + (if voice != null then [Play(VoiceTrack)] else [])
      + (if music != null then [Play(MusicTrack)] else [])
    }

    /** The calls a stop makes, in the same order. */
    ghost function StopCalls(): seq<Call>
      reads this
    {
      [Pause(VideoTrack)] + (if voice != null then [Pause(VoiceTrack)] else [])
      + (if music != null then [Pause(MusicTrack)] else [])
    }

    /** `toggleSyncedPlayback`. Without a video element nothing happens. When
        playing, every present track is paused where it is. Otherwise every
        present track is rewound to 0, the music is set to the background
        level, and the tracks are played video first. */
    method Toggle()
      requires Valid()
      modifies this, video, voice, music
      ensures Valid()
      ensures video == old(video) && voice == old(voice) && music == old(music)
      ensures old(video) == null ==>
                unchanged(this) && (voice != null ==> unchanged(voice)) && (music != null ==> unchanged(music))
      ensures old(video) != null && old(isPlayingSynced) ==>
                && !isPlayingSynced
                && calls == old(calls) + StopCalls()
                && video.paused && video.currentTime == old(video.currentTime) && video.volume == old(video.volume)
                && (voice != null ==> voice.paused && voice.currentTime == old(voice.currentTime)
                                      && voice.volume == old(voice.volume))
                && (music != null ==> music.paused && music.currentTime == old(music.currentTime)
                                      && music.volume == old(music.volume))
      ensures old(video) != null && !old(isPlayingSynced) ==>
                && isPlayingSynced
                && calls == old(calls) + StartCalls()
                && !video.paused && video.currentTime == 0.0 && video.volume == old(video.volume)
                && (voice != null ==> !voice.paused && voice.currentTime == 0.0 && voice.volume == old(voice.volume))
                && (music != null ==> !music.paused && music.currentTime == 0.0 && music.volume == MusicVolume)
    {
      if video == null {
        return;
      }
      if isPlayingSynced {
        video.Pause();
        calls := calls + [Pause(VideoTrack)];
        if voice != null {
          voice.Pause();
          calls := calls + [Pause(VoiceTrack)];
        }
        if music != null {
          music.Pause();
          calls := calls + [Pause(MusicTrack)];
        }
        isPlayingSynced := false;
      } else {
        video.currentTime := 0.0;
        if voice != null {
          voice.currentTime := 0.0;
        }
        if music != null {
          music.currentTime := 0.0;
        }
        video.Play();
        calls := calls + [Play(VideoTrack)];
        if voice != null {
          voice.Play();
          calls := calls + [Play(VoiceTrack)];
        }
        if music != null {
          music.volume := MusicVolume;
          music.Play();
          calls := calls + [Play(MusicTrack)];
        }
        isPlayingSynced := true;
      }
    }

    /** The video reached its end: the browser pauses it and the listener
        clears the flag. The voice-over and the (looping) music are left as
        they are. */
    method OnVideoEnded()
      requires Valid() && video != null
      modifies this, video
      ensures Valid()
      ensures video == old(video) && voice == old(voice) && music == old(music)
      ensures !isPlayingSynced && video.paused && calls == old(calls)
      ensures video.currentTime == old(video.currentTime)
      ensures voice != null ==> unchanged(voice)
      ensures music != null ==> unchanged(music)
    {
      video.paused := true;
      isPlayingSynced := false;
    }
  }
}
