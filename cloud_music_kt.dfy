/**
 * The NetEase hook built from the `kotlin` source set (`PlayProgressHooker`):
 * a song change records the new id and loads its song at once, so there is
 * no stale load to guard against. Playback status 3 starts the position
 * sync and 2 stops it.
 */
module CloudMusicKt {
  import opened Wrappers
  import opened KotlinText
  import opened Lyricon
  import opened NeteaseMeta
  import opened NeteaseSong
  import opened CloudMetadataCacheKt

  const STATUS_PLAYING: int := 3
  const STATUS_PAUSED: int := 2

  function PlaceholderOf(m: Metadata): Song {
    Placeholder(m.id, m.title, m.artist, m.duration)
  }

  class PlayProgressHooker {
    var currentMusicId: Option<string>
    var lastSong: Option<Song>
    var isPlaying: bool
    var progressJob: bool
    ghost var liveProgressJobs: nat
    const player: RemotePlayer
    const cache: MediaMetadataCache

    /** `lastSong` is the song last pushed; a progress job exists exactly while playing, and never more than one. */
    ghost predicate Valid()
      reads this, player, cache
    {
      && cache.Valid()
      && lastSong == LastPushedSong(player.commands)
      && (progressJob <==> isPlaying)
      && liveProgressJobs == (if progressJob then 1 else 0)
    }

    constructor (player: RemotePlayer, cache: MediaMetadataCache)
      requires player.commands == [] && cache.Valid()
      ensures Valid() && this.player == player && this.cache == cache
      ensures currentMusicId.None? && lastSong.None? && !isPlaying
    {
      this.player := player;
      this.cache := cache;
      currentMusicId := None;
      lastSong := None;
      isPlaying := false;
      progressJob := false;
      liveProgressJobs := 0;
    }

    /**
     * The `onMetadataChanged` hook: the metadata is cached and, when an id
     * can be read, handled as a song change; `file` is what reading that
     * song's lyric file gives.
     */
    method OnMetadataChanged(meta: BizMusicMeta, file: FileOutcome)
      requires Valid()
      modifies this, cache, player
      ensures Valid()
      ensures cache.idGetter.Some?
      ensures ReadId(cache.idGetter.value, meta).None? ==>
                currentMusicId == old(currentMusicId) && player.commands == old(player.commands) && cache.entries == old(cache.entries)
      ensures ReadId(cache.idGetter.value, meta).Some? ==>
                var id := LongToString(ReadId(cache.idGetter.value, meta).value);
                var m := Metadata(id, meta.musicName, meta.artistsName, meta.duration.GetOr(0));
                var song := LoadedSong(PlaceholderOf(m), file);
                && cache.entries == AccessOrder.Put(old(cache.entries), id, m, CAPACITY)
                && currentMusicId == Some(id)
                && (old(currentMusicId) == Some(id) || SkipsSong(old(lastSong), song) ==> player.commands == old(player.commands))
                && (old(currentMusicId) != Some(id) && !SkipsSong(old(lastSong), song) ==>
                      player.commands == old(player.commands) + [Command.SetSong(Some(song))])
      ensures isPlaying == old(isPlaying) && progressJob == old(progressJob)
    {
      var metadata := cache.Put(meta);
      if metadata.None? {
        return;
      }
      OnSongChanged(metadata.value, file);
    }

    /** `onSongChanged`: the current id is ignored; a new id becomes current and its song is loaded and set. */
    method OnSongChanged(m: Metadata, file: FileOutcome)
      requires Valid()
      modifies this, player
      ensures Valid()
      ensures old(currentMusicId) == Some(m.id) ==>
                currentMusicId == old(currentMusicId) && player.commands == old(player.commands) && lastSong == old(lastSong)
      ensures old(currentMusicId) != Some(m.id) ==>
                var song := LoadedSong(PlaceholderOf(m), file);
                && currentMusicId == Some(m.id)
                && (SkipsSong(old(lastSong), song) ==> player.commands == old(player.commands))
                && (!SkipsSong(old(lastSong), song) ==> player.commands == old(player.commands) + [Command.SetSong(Some(song))])
      ensures isPlaying == old(isPlaying) && progressJob == old(progressJob)
    {
      if currentMusicId == Some(m.id) {
        return;
      }
      currentMusicId := Some(m.id);
      PerformSyncLoad(m, file);
    }

    /**
     * `onFileChanged`: acts only when there is a current id, the file is
     * named after it and its metadata is still cached; then the song is
     * loaded again.
     */
    method OnFileChanged(fileName: string, file: FileOutcome)
      requires Valid()
      modifies this, cache, player
      ensures Valid()
      ensures (currentMusicId.None? || fileName != currentMusicId.value) ==>
                player.commands == old(player.commands) && cache.entries == old(cache.entries)
      ensures currentMusicId == Some(fileName) ==> cache.entries == AccessOrder.Touch(old(cache.entries), fileName)
      ensures AccessOrder.Lookup(old(cache.entries), fileName).None? ==> player.commands == old(player.commands)
      ensures currentMusicId == Some(fileName) && AccessOrder.Lookup(old(cache.entries), fileName).Some? ==>
                var song := LoadedSong(PlaceholderOf(AccessOrder.Lookup(old(cache.entries), fileName).value), file);
                && (SkipsSong(old(lastSong), song) ==> player.commands == old(player.commands))
                && (!SkipsSong(old(lastSong), song) ==> player.commands == old(player.commands) + [Command.SetSong(Some(song))])
      ensures currentMusicId == old(currentMusicId) && isPlaying == old(isPlaying)
    {
      if currentMusicId.None? {
        return;
      }
      var currentId := currentMusicId.value;
      if fileName != currentId {
        return;
      }
      var metadata := cache.GetMetadataById(currentId);
      if metadata.None? {
        return;
      }
      PerformSyncLoad(metadata.value, file);
    }

    /** `performSyncLoad`: the loaded song, or the placeholder, goes through `setSong`. */
    method PerformSyncLoad(m: Metadata, file: FileOutcome)
      requires Valid()
      modifies this, player
      ensures Valid()
      ensures var song := LoadedSong(PlaceholderOf(m), file);
        && (SkipsSong(old(lastSong), song) ==> player.commands == old(player.commands))
        && (!SkipsSong(old(lastSong), song) ==> player.commands == old(player.commands) + [Command.SetSong(Some(song))])
      ensures currentMusicId == old(currentMusicId) && isPlaying == old(isPlaying) && progressJob == old(progressJob)
    {
      var targetSong := PlaceholderOf(m);
      if file.Parsed? {
        if !HasNoLyrics(file.song) && !file.pureMusic {
          targetSong := file.song;
        }
      }
      SetSong(targetSong);
    }

    /** `setSong`: a skipped song changes nothing; otherwise it becomes `lastSong` and is pushed. */
    method SetSong(song: Song)
      requires Valid()
      modifies this, player
      ensures Valid()
      ensures SkipsSong(old(lastSong), song) ==> player.commands == old(player.commands) && lastSong == old(lastSong)
      ensures !SkipsSong(old(lastSong), song) ==>
                player.commands == old(player.commands) + [Command.SetSong(Some(song))] && lastSong == Some(song)
      ensures currentMusicId == old(currentMusicId) && isPlaying == old(isPlaying) && progressJob == old(progressJob)
    {
      if lastSong == Some(song) {
        return;
      }
      if HasNoLyrics(song) && LastId(lastSong) == song.id && LastHasNoLyrics(lastSong) {
        return;
      }
      lastSong := Some(song);
      player.SetSong(Some(song));
    }

    /** `startSyncAction`: nothing while playing; otherwise playing is recorded, pushed, and the progress job started. */
    method StartSyncAction()
      requires Valid()
      modifies this, player
      ensures Valid()
      ensures isPlaying && progressJob
      ensures old(isPlaying) ==> player.commands == old(player.commands) && liveProgressJobs == old(liveProgressJobs)
      ensures !old(isPlaying) ==> player.commands == old(player.commands) + [SetPlaybackState(true)]
      ensures currentMusicId == old(currentMusicId) && lastSong == old(lastSong)
    {
      if isPlaying {
        return;
      }
      isPlaying := true;
      player.SetPlaybackState(true);
      ResumeCoroutineTask();
    }

    /** `stopSyncAction`: always records and pushes "not playing" and drops the progress job. */
    method StopSyncAction()
      requires Valid()
      modifies this, player
      ensures Valid()
      ensures !isPlaying && !progressJob && liveProgressJobs == 0
      ensures player.commands == old(player.commands) + [SetPlaybackState(false)]
      ensures currentMusicId == old(currentMusicId) && lastSong == old(lastSong)
    {
      isPlaying := false;
      player.SetPlaybackState(false);
      PauseCoroutineTask();
    }

    /** `resumeCoroutineTask`: no second job while one is active. */
    method ResumeCoroutineTask()
      requires liveProgressJobs == (if progressJob then 1 else 0)
      modifies this
      ensures progressJob && liveProgressJobs == 1
      ensures old(progressJob) ==> liveProgressJobs == old(liveProgressJobs)
      ensures isPlaying == old(isPlaying) && currentMusicId == old(currentMusicId) && lastSong == old(lastSong)
    {
      if progressJob {
        return;
      }
      progressJob := true;
      liveProgressJobs := liveProgressJobs + 1;
    }

    /** `pauseCoroutineTask`: the job is cancelled and forgotten. */
    method PauseCoroutineTask()
      modifies this
      ensures !progressJob && liveProgressJobs == 0
      ensures isPlaying == old(isPlaying) && currentMusicId == old(currentMusicId) && lastSong == old(lastSong)
    {
      progressJob := false;
      liveProgressJobs := 0;
    }

    /** One turn of the progress job's loop: while playing, the position read from the player service is pushed. */
    method PositionTick(position: int)
      requires Valid()
      modifies player
      ensures Valid()
      ensures progressJob && isPlaying ==> player.commands == old(player.commands) + [SetPosition(position)]
      ensures !(progressJob && isPlaying) ==> player.commands == old(player.commands)
    {
      if progressJob && isPlaying {
        player.SetPosition(position);
      }
    }

    /** `setupProvider`: the new provider's player is told whether the preferences monitor reports translations selected. */
    method SetupProvider(translationSelected: bool)
      requires Valid()
      modifies player
      ensures Valid()
      ensures player.commands == old(player.commands) + [SetDisplayTranslation(translationSelected)]
    {
      player.SetDisplayTranslation(translationSelected);
    }

    /** The preferences monitor's callback: a changed translation option is forwarded to the player. */
    method OnTranslationOptionChanged(selected: bool)
      requires Valid()
      modifies player
      ensures Valid()
      ensures player.commands == old(player.commands) + [SetDisplayTranslation(selected)]
    {
      player.SetDisplayTranslation(selected);
    }

    /** The `onPlaybackStatusChanged` hook: 3 starts the sync, 2 stops it, other statuses do nothing. */
    method OnPlaybackStatusChanged(status: int)
      requires Valid()
      modifies this, player
      ensures Valid()
      ensures status == STATUS_PLAYING ==> isPlaying && progressJob
      ensures status == STATUS_PLAYING && old(isPlaying) ==> player.commands == old(player.commands)
      ensures status == STATUS_PLAYING && !old(isPlaying) ==> player.commands == old(player.commands) + [SetPlaybackState(true)]
      ensures status == STATUS_PAUSED ==> !isPlaying && !progressJob && player.commands == old(player.commands) + [SetPlaybackState(false)]
      ensures status != STATUS_PLAYING && status != STATUS_PAUSED ==>
                player.commands == old(player.commands) && isPlaying == old(isPlaying) && progressJob == old(progressJob)
    {
      if status == STATUS_PLAYING {
        StartSyncAction();
      } else if status == STATUS_PAUSED {
        StopSyncAction();
      }
    }
  }
}
