/**
 * QQ Music's player-process hook (`PlayerProcessHook`): a new media id
 * becomes current and its song is pushed at once, from the disk cache or as
 * a placeholder, while a download is requested; a finished download is
 * cached and pushed only if it is for the current id. Playback start and
 * stop drive the position tracker.
 *
 * The disk song cache is a map from id to song; what the QQ metadata cache
 * answers for an id is given to each handler that reads it.
 */
module QQMusic {
  import opened Wrappers
  import opened KotlinText
  import opened AndroidMedia
  import opened Lyricon
  import opened QQDownloader

  const KEY_DISPLAY_TRANS: string := "showtranslyric"
  const KEY_DISPLAY_ROMA: string := "showromalyric"

  /** What QQ's metadata cache holds for an id. */
  datatype TrackMetadata = TrackMetadata(title: Option<string>, artist: Option<string>, duration: int)

  /** The downloaded lyric of qrckit, as far as it is read here. */
  datatype QrcWord = QrcWord(start: int, end: int, duration: int, text: Option<string>)
  datatype QrcLine = QrcLine(start: int, end: int, duration: int, text: Option<string>,
                             translation: Option<string>, words: seq<QrcWord>)
  datatype QrcResponse = QrcResponse(id: string, lines: seq<QrcLine>)

  /** `filterTranslation`: a translation that trims to "//" is dropped; every other value is kept. */
  function FilterTranslation(translation: Option<string>): (r: Option<string>)
    ensures r.None? <==> translation.None? || Trim(translation.value) == "//"
    ensures r.Some? ==> r == translation
  {
    if translation.Some? && Trim(translation.value) == "//" then None else translation
  }

  /** Filtering twice is filtering once. */
  lemma FilterTranslationIdempotent(translation: Option<string>)
    ensures FilterTranslation(FilterTranslation(translation)) == FilterTranslation(translation)
  {
  }

  function ToLyriconWord(w: QrcWord): LyricWord {
    LyricWord(w.start, w.end, w.duration, w.text)
  }

  function ToLyriconLine(line: QrcLine): RichLyricLine {
    RichLyricLine(line.start, line.end, line.duration, line.text,
                  Some(seq(|line.words|, k requires 0 <= k < |line.words| => ToLyriconWord(line.words[k]))),
                  None, None, FilterTranslation(line.translation), false)
  }

  /** `toLyriconSong()`: one line per downloaded line, in order, with the cached title, artist and duration. */
  function ToLyriconSong(response: QrcResponse, cached: Option<TrackMetadata>): (s: Song)
    ensures s.id == Some(response.id) && s.lyrics.Some? && |s.lyrics.value| == |response.lines|
    ensures s.name == (if cached.Some? then cached.value.title else None)
    ensures s.artist == (if cached.Some? then cached.value.artist else None)
    ensures s.duration == (if cached.Some? then cached.value.duration else 0)
    ensures forall i :: 0 <= i < |response.lines| ==>
              && s.lyrics.value[i].begin == response.lines[i].start
              && s.lyrics.value[i].end == response.lines[i].end
              && s.lyrics.value[i].text == response.lines[i].text
              && s.lyrics.value[i].translation == FilterTranslation(response.lines[i].translation)
              && s.lyrics.value[i].duration == response.lines[i].duration
              && s.lyrics.value[i].secondaryText.None? && s.lyrics.value[i].secondaryWords.None?
              && !s.lyrics.value[i].isAlignedRight
              && s.lyrics.value[i].words.Some? && |s.lyrics.value[i].words.value| == |response.lines[i].words|
    ensures forall i, j :: 0 <= i < |response.lines| && 0 <= j < |response.lines[i].words| ==>
              s.lyrics.value[i].words.value[j]
                == LyricWord(response.lines[i].words[j].start, response.lines[i].words[j].end,
                             response.lines[i].words[j].duration, response.lines[i].words[j].text)
  {
    Song(Some(response.id),
         if cached.Some? then cached.value.title else None,
         if cached.Some? then cached.value.artist else None,
         if cached.Some? then cached.value.duration else 0,
         Some(seq(|response.lines|, k requires 0 <= k < |response.lines| => ToLyriconLine(response.lines[k]))),
         map[])
  }

  /** `Song(id, name, artist, metadata = placeholder=true)` */
  function PlaceholderSong(id: string, cached: Option<TrackMetadata>): (s: Song)
    ensures s.id == Some(id) && s.lyrics.None? && s.metadata == map["placeholder" := "true"]
    ensures s.name == (if cached.Some? then cached.value.title else None)
    ensures s.artist == (if cached.Some? then cached.value.artist else None)
  {
    Song(Some(id),
         if cached.Some? then cached.value.title else None,
         if cached.Some? then cached.value.artist else None,
         0, None, map["placeholder" := "true"])
  }

  /** `getBoolean(key, false)` */
  function GetBoolean(prefs: map<string, bool>, key: string): (b: bool)
    ensures key in prefs ==> b == prefs[key]
    ensures key !in prefs ==> !b
  {
    if key in prefs then prefs[key] else false
  }

  class PlayerProcessHook {
    var isMediaPlaying: bool
    var currentMediaId: Option<string>
    var positionUpdateJob: bool
    ghost var liveJobs: nat
    var diskSongs: map<string, Song>
    const player: RemotePlayer
    const downloads: DownloadManager<QrcResponse>

    /** A tracker job exists exactly while playing, and never more than one; each cached song is stored under its id. */
    ghost predicate Valid()
      reads this
    {
      && (positionUpdateJob <==> isMediaPlaying)
      && liveJobs == (if positionUpdateJob then 1 else 0)
      && (forall id :: id in diskSongs ==> diskSongs[id].id == Some(id))
    }

    constructor (player: RemotePlayer, downloads: DownloadManager<QrcResponse>)
      ensures Valid() && this.player == player && this.downloads == downloads
      ensures !isMediaPlaying && currentMediaId.None? && diskSongs == map[]
    {
      this.player := player;
      this.downloads := downloads;
      isMediaPlaying := false;
      currentMediaId := None;
      positionUpdateJob := false;
      liveJobs := 0;
      diskSongs := map[];
    }

    /** The `setPlaybackState` hook: PLAYING starts, PAUSED and STOPPED stop, other states are ignored. */
    method OnPlaybackState(state: int)
      requires Valid()
      modifies this, player
      ensures Valid()
      ensures state == STATE_PLAYING ==> isMediaPlaying && positionUpdateJob
      ensures state == STATE_PLAYING && old(isMediaPlaying) ==> player.commands == old(player.commands)
      ensures state == STATE_PLAYING && !old(isMediaPlaying) ==> player.commands == old(player.commands) + [SetPlaybackState(true)]
      ensures state == STATE_PAUSED || state == STATE_STOPPED ==>
                && !isMediaPlaying && !positionUpdateJob
                && player.commands == old(player.commands) + [SetPlaybackState(false)]
      ensures state != STATE_PLAYING && state != STATE_PAUSED && state != STATE_STOPPED ==>
                player.commands == old(player.commands) && isMediaPlaying == old(isMediaPlaying)
      ensures currentMediaId == old(currentMediaId) && diskSongs == old(diskSongs)
    {
      if state == STATE_PLAYING {
        NotifyPlaybackStarted();
      } else if state == STATE_PAUSED || state == STATE_STOPPED {
        NotifyPlaybackStopped();
      }
    }

    /**
     * The `setMetadata` hook: a missing or blank media id, or the current
     * one, is ignored; a new id becomes current and the song is refreshed.
     */
    method OnSetMetadata(metadata: MediaMetadata, cached: Option<TrackMetadata>)
      requires Valid()
      modifies this, player, downloads
      ensures Valid()
      ensures metadata.mediaId.None? || IsBlank(metadata.mediaId.value) || metadata.mediaId == old(currentMediaId) ==>
                && currentMediaId == old(currentMediaId)
                && player.commands == old(player.commands)
                && downloads.launched == old(downloads.launched)
                && downloads.downloadingIds == old(downloads.downloadingIds)
      ensures !(metadata.mediaId.None? || IsBlank(metadata.mediaId.value) || metadata.mediaId == old(currentMediaId)) ==>
                var id := metadata.mediaId.value;
                && currentMediaId == metadata.mediaId
                && player.commands == old(player.commands)
                     + [SetSong(Some(if id in diskSongs then diskSongs[id] else PlaceholderSong(id, cached)))]
                && (downloads.downloadingIds, id !in old(downloads.downloadingIds)) == Launch(old(downloads.downloadingIds), id)
                && (id !in old(downloads.downloadingIds) ==> downloads.launched == old(downloads.launched) + [id])
                && (id in old(downloads.downloadingIds) ==> downloads.launched == old(downloads.launched))
      ensures isMediaPlaying == old(isMediaPlaying) && diskSongs == old(diskSongs)
    {
      if metadata.mediaId.None? {
        return;
      }
      var mediaId := metadata.mediaId.value;
      if IsBlank(mediaId) || Some(mediaId) == currentMediaId {
        return;
      }
      currentMediaId := Some(mediaId);
      RefreshActiveSong(cached);
    }

    /**
     * `refreshActiveSong`: the disk-cached song of the current id when there
     * is one, a placeholder otherwise, is pushed; a download is always requested.
     */
    method RefreshActiveSong(cached: Option<TrackMetadata>)
      requires Valid()
      modifies player, downloads
      ensures currentMediaId.Some? ==> LastPushedSong(player.commands).Some? && LastPushedSong(player.commands).value.id == currentMediaId
      ensures currentMediaId.None? ==>
                && player.commands == old(player.commands)
                && downloads.launched == old(downloads.launched)
                && downloads.downloadingIds == old(downloads.downloadingIds)
      ensures currentMediaId.Some? && currentMediaId.value in diskSongs ==>
                player.commands == old(player.commands) + [SetSong(Some(diskSongs[currentMediaId.value]))]
      ensures currentMediaId.Some? && currentMediaId.value !in diskSongs ==>
                player.commands == old(player.commands) + [SetSong(Some(PlaceholderSong(currentMediaId.value, cached)))]
      ensures currentMediaId.Some? ==>
                (downloads.downloadingIds, currentMediaId.value !in old(downloads.downloadingIds))
                  == Launch(old(downloads.downloadingIds), currentMediaId.value)
      ensures currentMediaId.Some? && currentMediaId.value !in old(downloads.downloadingIds) ==>
                downloads.launched == old(downloads.launched) + [currentMediaId.value]
      ensures currentMediaId.Some? && currentMediaId.value in old(downloads.downloadingIds) ==>
                downloads.launched == old(downloads.launched)
    {
      if currentMediaId.None? {
        return;
      }
      var mediaId := currentMediaId.value;
      if mediaId in diskSongs {
        player.SetSong(Some(diskSongs[mediaId]));
      } else {
        player.SetSong(Some(PlaceholderSong(mediaId, cached)));
      }
      var started := downloads.Download(mediaId);
    }

    /** `notifyPlaybackStarted`: nothing while playing; otherwise playing is recorded, pushed, and the tracker launched. */
    method NotifyPlaybackStarted()
      requires Valid()
      modifies this, player
      ensures Valid()
      ensures isMediaPlaying && positionUpdateJob
      ensures old(isMediaPlaying) ==> player.commands == old(player.commands) && liveJobs == old(liveJobs)
      ensures !old(isMediaPlaying) ==> player.commands == old(player.commands) + [SetPlaybackState(true)]
      ensures currentMediaId == old(currentMediaId) && diskSongs == old(diskSongs)
    {
      if isMediaPlaying {
        return;
      }
      isMediaPlaying := true;
      player.SetPlaybackState(true);
      LaunchPositionTracker();
    }

    /** `notifyPlaybackStopped`: always records and pushes "not playing" and stops the tracker. */
    method NotifyPlaybackStopped()
      requires Valid()
      modifies this, player
      ensures Valid()
      ensures !isMediaPlaying && !positionUpdateJob && liveJobs == 0
      ensures player.commands == old(player.commands) + [SetPlaybackState(false)]
      ensures currentMediaId == old(currentMediaId) && diskSongs == old(diskSongs)
    {
      isMediaPlaying := false;
      player.SetPlaybackState(false);
      StopPositionTracker();
    }

    /** `launchPositionTracker`: never a second job while one is recorded. */
    method LaunchPositionTracker()
      requires liveJobs == (if positionUpdateJob then 1 else 0)
      modifies this
      ensures positionUpdateJob && liveJobs == 1
      ensures old(positionUpdateJob) ==> liveJobs == old(liveJobs)
      ensures isMediaPlaying == old(isMediaPlaying) && currentMediaId == old(currentMediaId) && diskSongs == old(diskSongs)
    {
      if positionUpdateJob {
        return;
      }
      positionUpdateJob := true;
      liveJobs := liveJobs + 1;
    }

    /** `stopPositionTracker`: the job is cancelled and forgotten. */
    method StopPositionTracker()
      modifies this
      ensures !positionUpdateJob && liveJobs == 0
      ensures isMediaPlaying == old(isMediaPlaying) && currentMediaId == old(currentMediaId) && diskSongs == old(diskSongs)
    {
      positionUpdateJob := false;
      liveJobs := 0;
    }

    /** One turn of the tracker's loop: while playing, the position QQ Music reports is pushed. */
    method PositionTick(position: int)
      requires Valid()
      modifies player
      ensures positionUpdateJob && isMediaPlaying ==> player.commands == old(player.commands) + [SetPosition(position)]
      ensures !(positionUpdateJob && isMediaPlaying) ==> player.commands == old(player.commands)
    {
      if positionUpdateJob && isMediaPlaying {
        player.SetPosition(position);
      }
    }

    /** `onDownloadFinished`: the song is always cached, and pushed only when it is for the current id. */
    method OnDownloadFinished(response: QrcResponse, cached: Option<TrackMetadata>)
      requires Valid()
      modifies this, player
      ensures Valid()
      ensures diskSongs == old(diskSongs)[response.id := ToLyriconSong(response, cached)]
      ensures Some(response.id) == currentMediaId ==>
                player.commands == old(player.commands) + [SetSong(Some(ToLyriconSong(response, cached)))]
      ensures Some(response.id) != currentMediaId ==> player.commands == old(player.commands)
      ensures currentMediaId == old(currentMediaId) && isMediaPlaying == old(isMediaPlaying)
      ensures positionUpdateJob == old(positionUpdateJob) && liveJobs == old(liveJobs)
    {
      var song := ToLyriconSong(response, cached);
      diskSongs := diskSongs[response.id := song];
      if Some(response.id) == currentMediaId {
        player.SetSong(Some(song));
      }
    }

    /** A launched download job ending: the id leaves the in-flight set and the callback runs. */
    method RunDownload(id: string, outcome: JobOutcome<QrcResponse>, cached: Option<TrackMetadata>)
      requires Valid()
      modifies this, player, downloads
      ensures Valid()
      ensures downloads.downloadingIds == old(downloads.downloadingIds) - {id}
      ensures outcome.Threw? ==> player.commands == old(player.commands) && diskSongs == old(diskSongs)
      ensures outcome.Downloaded? ==> diskSongs == old(diskSongs)[outcome.response.id := ToLyriconSong(outcome.response, cached)]
      ensures outcome.Downloaded? && Some(outcome.response.id) == currentMediaId ==>
                player.commands == old(player.commands) + [SetSong(Some(ToLyriconSong(outcome.response, cached)))]
      ensures outcome.Downloaded? && Some(outcome.response.id) != currentMediaId ==> player.commands == old(player.commands)
      ensures currentMediaId == old(currentMediaId)
    {
      var callback := downloads.Complete(id, outcome);
      if callback.DownloadFinished? {
        OnDownloadFinished(callback.response, cached);
      }
    }

    /**
     * The display settings pushed when the provider is set up: the stored
     * translation and romanisation switches, each `false` when absent.
     */
    method SetupLyriconProvider(prefs: map<string, bool>)
      modifies player
      ensures player.commands == old(player.commands)
                + [SetDisplayTranslation(GetBoolean(prefs, KEY_DISPLAY_TRANS)), SetDisplayRoma(GetBoolean(prefs, KEY_DISPLAY_ROMA))]
    {
      player.SetDisplayTranslation(GetBoolean(prefs, KEY_DISPLAY_TRANS));
      player.SetDisplayRoma(GetBoolean(prefs, KEY_DISPLAY_ROMA));
    }

    /** The settings receiver: the translation and romanisation switches are forwarded to the player. */
    method OnSettingsChanged(key: Option<string>, value: bool)
      modifies player
      ensures key == Some(KEY_DISPLAY_TRANS) ==> player.commands == old(player.commands) + [SetDisplayTranslation(value)]
      ensures key == Some(KEY_DISPLAY_ROMA) ==> player.commands == old(player.commands) + [SetDisplayRoma(value)]
      ensures key != Some(KEY_DISPLAY_TRANS) && key != Some(KEY_DISPLAY_ROMA) ==> player.commands == old(player.commands)
    {
      if key.None? {
        return;
      }
      if key.value == KEY_DISPLAY_TRANS {
        player.SetDisplayTranslation(value);
      } else if key.value == KEY_DISPLAY_ROMA {
        player.SetDisplayRoma(value);
      }
    }
  }
}
