/**
 * The NetEase hook built from the `java` source set. A song change records
 * the new id and starts an asynchronous load, cancelling the previous one; a
 * load that finishes pushes its song only if its id is still the current
 * one. Loads are identified by tickets: `pending` holds the loads launched
 * and neither finished nor cancelled, `loadingJob` the one a song change
 * cancels. Playback status 3 starts the position sync and 2 stops it.
 */
module CloudMusicJava {
  import opened Wrappers
  import opened KotlinText
  import opened Lyricon
  import opened NeteaseMeta
  import opened NeteaseSong
  import opened CloudMetadataCacheJava

  const STATUS_PLAYING: int := 3
  const STATUS_PAUSED: int := 2

  function PlaceholderOf(m: Metadata): Song {
    Placeholder(m.id, m.title, m.artist, m.duration)
  }

  class CloudMusic {
    var currentMusicId: Option<string>
    var lastSong: Option<Song>
    var isPlaying: bool
    var progressJob: bool
    ghost var liveProgressJobs: nat
    var loadingJob: Option<nat>
    var pending: map<nat, Metadata>
    var nextTicket: nat
    const player: RemotePlayer
    const cache: MediaMetadataCache

    /**
     * `lastSong` is the song last pushed; a progress job exists exactly
     * while playing, and never more than one; tickets are fresh.
     */
    ghost predicate Valid()
      reads this, player, cache
    {
      && cache.Valid()
      && lastSong == LastPushedSong(player.commands)
      && (progressJob <==> isPlaying)
      && liveProgressJobs == (if progressJob then 1 else 0)
      && (forall t :: t in pending ==> t < nextTicket)
      && (loadingJob.Some? ==> loadingJob.value < nextTicket)
    }

    constructor (player: RemotePlayer, cache: MediaMetadataCache)
      requires player.commands == [] && cache.Valid()
      ensures Valid() && this.player == player && this.cache == cache
      ensures currentMusicId.None? && lastSong.None? && !isPlaying && pending == map[]
    {
      this.player := player;
      this.cache := cache;
      currentMusicId := None;
      lastSong := None;
      isPlaying := false;
      progressJob := false;
      liveProgressJobs := 0;
      loadingJob := None;
      pending := map[];
      nextTicket := 0;
    }

    /** The `onMetadataChanged` hook: the metadata is cached and, when it has an id, handled as a song change. */
    method OnMetadataChanged(meta: BizMusicMeta)
      requires Valid()
      modifies this, cache
      ensures Valid()
      ensures meta.id.None? ==>
                && currentMusicId == old(currentMusicId) && pending == old(pending) && loadingJob == old(loadingJob)
                && cache.entries == old(cache.entries)
      ensures meta.id.Some? ==>
                var m := Metadata(LongToString(meta.id.value), meta.musicName, meta.artistsName, meta.duration.GetOr(0));
                && cache.entries == AccessOrder.Put(old(cache.entries), m.id, m, CAPACITY)
                && currentMusicId == Some(m.id)
                && (old(currentMusicId) == Some(m.id) ==> pending == old(pending) && loadingJob == old(loadingJob))
                && (old(currentMusicId) != Some(m.id) ==>
                      && loadingJob == Some(old(nextTicket))
                      && pending == (if old(loadingJob).Some? then old(pending) - {old(loadingJob).value} else old(pending))[old(nextTicket) := m])
      ensures player.commands == old(player.commands)
      ensures isPlaying == old(isPlaying) && progressJob == old(progressJob)
    {
      var metadata := cache.PutAndGet(meta);
      if metadata.None? {
        return;
      }
      OnSongChanged(metadata.value);
    }

    /**
     * `onSongChanged`: the current id is ignored; a new id becomes current,
     * the previous loading job is cancelled and a load of `m` is launched.
     */
    method OnSongChanged(m: Metadata)
      requires Valid()
      modifies this
      ensures Valid()
      ensures old(currentMusicId) == Some(m.id) ==>
                currentMusicId == old(currentMusicId) && pending == old(pending) && loadingJob == old(loadingJob)
      ensures old(currentMusicId) != Some(m.id) ==>
                && currentMusicId == Some(m.id)
                && loadingJob == Some(old(nextTicket))
                && pending == (if old(loadingJob).Some? then old(pending) - {old(loadingJob).value} else old(pending))[old(nextTicket) := m]
      ensures lastSong == old(lastSong) && isPlaying == old(isPlaying) && progressJob == old(progressJob)
    {
      if currentMusicId == Some(m.id) {
        return;
      }
      currentMusicId := Some(m.id);
      if loadingJob.Some? {
        pending := pending - {loadingJob.value};
      }
      pending := pending[nextTicket := m];
      loadingJob := Some(nextTicket);
      nextTicket := nextTicket + 1;
    }

    /**
     * `onFileChanged`: only a file named after the current id, whose
     * metadata is still cached, launches a reload; that load is not the
     * tracked loading job, so a song change does not cancel it.
     */
    method OnFileChanged(fileName: string)
      requires Valid()
      modifies this, cache
      ensures Valid()
      ensures (currentMusicId.None? || fileName != currentMusicId.value) ==>
                pending == old(pending) && nextTicket == old(nextTicket) && cache.entries == old(cache.entries)
      ensures currentMusicId == Some(fileName) ==> cache.entries == AccessOrder.Touch(old(cache.entries), fileName)
      ensures currentMusicId == Some(fileName) && AccessOrder.Lookup(old(cache.entries), fileName).Some? ==>
                && AccessOrder.Lookup(old(cache.entries), fileName).value.id == fileName
                && pending == old(pending)[old(nextTicket) := AccessOrder.Lookup(old(cache.entries), fileName).value]
      ensures AccessOrder.Lookup(old(cache.entries), fileName).None? ==> pending == old(pending) && nextTicket == old(nextTicket)
      ensures pending != old(pending) ==>
                && currentMusicId == Some(fileName)
                && old(nextTicket) in pending
                && pending[old(nextTicket)].id == fileName
                && pending == old(pending)[old(nextTicket) := pending[old(nextTicket)]]
      ensures currentMusicId == old(currentMusicId) && loadingJob == old(loadingJob) && lastSong == old(lastSong)
      ensures isPlaying == old(isPlaying) && progressJob == old(progressJob)
    {
      if currentMusicId.None? {
        return;
      }
      var currentId := currentMusicId.value;
      if fileName != currentId {
        return;
      }
      var metadata := cache.GetMetadataById(currentId);
      if metadata.None? {
        return;
      }
      pending := pending[nextTicket := metadata.value];
      nextTicket := nextTicket + 1;
    }

    /**
     * The end of `loadAndSetSong` for the load `ticket`, given what reading
     * its file gave: a cancelled load does nothing; otherwise the loaded
     * song is pushed only if the load's id is still the current one.
     */
    method FinishLoad(ticket: nat, file: FileOutcome)
      requires Valid()
      modifies this, player
      ensures Valid()
      ensures ticket !in old(pending) ==> player.commands == old(player.commands) && pending == old(pending)
      ensures ticket in old(pending) ==> pending == old(pending) - {ticket}
      ensures ticket in old(pending) && currentMusicId != Some(old(pending)[ticket].id) ==>
                player.commands == old(player.commands)
      ensures ticket in old(pending) && currentMusicId == Some(old(pending)[ticket].id) ==>
                var song := LoadedSong(PlaceholderOf(old(pending)[ticket]), file);
                && (SkipsSong(old(lastSong), song) ==> player.commands == old(player.commands))
                && (!SkipsSong(old(lastSong), song) ==> player.commands == old(player.commands) + [Command.SetSong(Some(song))])
      ensures LastPushedSong(player.commands) != old(LastPushedSong(player.commands)) ==>
                ticket in old(pending) && currentMusicId == Some(old(pending)[ticket].id)
      ensures currentMusicId == old(currentMusicId) && isPlaying == old(isPlaying)
    {
      if ticket !in pending {
        return;
      }
      var m := pending[ticket];
      pending := pending - {ticket};
      var song := LoadedSong(PlaceholderOf(m), file);
      if currentMusicId == Some(m.id) {
        SetSong(song);
      }
    }

    /** `setSong`: a skipped song changes nothing; otherwise it becomes `lastSong` and is pushed. */
    method SetSong(song: Song)
      requires Valid()
      modifies this, player
      ensures Valid()
      ensures SkipsSong(old(lastSong), song) ==> player.commands == old(player.commands) && lastSong == old(lastSong)
      ensures !SkipsSong(old(lastSong), song) ==>
                player.commands == old(player.commands) + [Command.SetSong(Some(song))] && lastSong == Some(song)
      ensures currentMusicId == old(currentMusicId) && pending == old(pending) && loadingJob == old(loadingJob)
      ensures isPlaying == old(isPlaying) && progressJob == old(progressJob) && nextTicket == old(nextTicket)
    {
      if HasNoLyrics(song) && LastHasNoLyrics(lastSong) {
        if LastId(lastSong) == song.id {
          return;
        }
      }
      if lastSong == Some(song) {
        return;
      }
      lastSong := Some(song);
      player.SetSong(Some(song));
    }

    /** `startSyncAction`: nothing while playing; otherwise playing is recorded, pushed, and the progress job started. */
    method StartSyncAction()
      requires Valid()
      modifies this, player
      ensures Valid()
      ensures isPlaying && progressJob
      ensures old(isPlaying) ==> player.commands == old(player.commands) && liveProgressJobs == old(liveProgressJobs)
      ensures !old(isPlaying) ==> player.commands == old(player.commands) + [SetPlaybackState(true)]
      ensures currentMusicId == old(currentMusicId) && lastSong == old(lastSong) && pending == old(pending)
    {
      if isPlaying {
        return;
      }
      isPlaying := true;
      player.SetPlaybackState(true);
      ResumeCoroutineTask();
    }

    /** `stopSyncAction`: always records and pushes "not playing" and drops the progress job. */
    method StopSyncAction()
      requires Valid()
      modifies this, player
      ensures Valid()
      ensures !isPlaying && !progressJob && liveProgressJobs == 0
      ensures player.commands == old(player.commands) + [SetPlaybackState(false)]
      ensures currentMusicId == old(currentMusicId) && lastSong == old(lastSong) && pending == old(pending)
    {
      isPlaying := false;
      player.SetPlaybackState(false);
      PauseCoroutineTask();
    }

    /** `resumeCoroutineTask`: no second job while one is active. */
    method ResumeCoroutineTask()
      requires liveProgressJobs == (if progressJob then 1 else 0)
      modifies this
      ensures progressJob && liveProgressJobs == 1
      ensures old(progressJob) ==> liveProgressJobs == old(liveProgressJobs)
      ensures isPlaying == old(isPlaying) && currentMusicId == old(currentMusicId) && lastSong == old(lastSong)
      ensures pending == old(pending) && loadingJob == old(loadingJob) && nextTicket == old(nextTicket)
    {
      if progressJob {
        return;
      }
      progressJob := true;
      liveProgressJobs := liveProgressJobs + 1;
    }

    /** `pauseCoroutineTask`: the job is cancelled and forgotten. */
    method PauseCoroutineTask()
      modifies this
      ensures !progressJob && liveProgressJobs == 0
      ensures isPlaying == old(isPlaying) && currentMusicId == old(currentMusicId) && lastSong == old(lastSong)
      ensures pending == old(pending) && loadingJob == old(loadingJob) && nextTicket == old(nextTicket)
    {
      progressJob := false;
      liveProgressJobs := 0;
    }

    /** One turn of the progress job's loop: while playing, the position read from the player service is pushed. */
    method PositionTick(position: int)
      requires Valid()
      modifies player
      ensures Valid()
      ensures progressJob && isPlaying ==> player.commands == old(player.commands) + [SetPosition(position)]
      ensures !(progressJob && isPlaying) ==> player.commands == old(player.commands)
    {
      if progressJob && isPlaying {
        player.SetPosition(position);
      }
    }

    /**
     * `setupProvider`: the new provider's player is sent the update interval
     * (the library's default, a parameter here) and whether the preferences
     * monitor reports translations selected.
     */
    method SetupProvider(interval: int, translationSelected: bool)
      requires Valid()
      modifies player
      ensures Valid()
      ensures player.commands == old(player.commands)
                + [SetPositionUpdateInterval(interval), SetDisplayTranslation(translationSelected)]
    {
      player.SetPositionUpdateInterval(interval);
      player.SetDisplayTranslation(translationSelected);
    }

    /** The preferences monitor's callback: a changed translation option is forwarded to the player. */
    method OnTranslationOptionChanged(selected: bool)
      requires Valid()
      modifies player
      ensures Valid()
      ensures player.commands == old(player.commands) + [SetDisplayTranslation(selected)]
    {
      player.SetDisplayTranslation(selected);
    }

    /** The `onPlaybackStatusChanged` hook: 3 starts the sync, 2 stops it, other statuses do nothing. */
    method OnPlaybackStatusChanged(status: int)
      requires Valid()
      modifies this, player
      ensures Valid()
      ensures status == STATUS_PLAYING ==> isPlaying && progressJob
      ensures status == STATUS_PLAYING && old(isPlaying) ==> player.commands == old(player.commands)
      ensures status == STATUS_PLAYING && !old(isPlaying) ==> player.commands == old(player.commands) + [SetPlaybackState(true)]
      ensures status == STATUS_PAUSED ==> !isPlaying && !progressJob && player.commands == old(player.commands) + [SetPlaybackState(false)]
      ensures status != STATUS_PLAYING && status != STATUS_PAUSED ==>
                player.commands == old(player.commands) && isPlaying == old(isPlaying) && progressJob == old(progressJob)
    {
      if status == STATUS_PLAYING {
        StartSyncAction();
      } else if status == STATUS_PAUSED {
        StopSyncAction();
      }
    }
  }
}
