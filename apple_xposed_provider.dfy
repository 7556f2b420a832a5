/**
 * The newer Apple Music hook (`xposed.Apple`): the same position-sync state
 * machine as `Apple`, without the (re)connection sync. At start-up it pushes
 * the update interval and whether translations are shown, and it forwards
 * later changes of that preference.
 */
module AppleXposedProvider {
  import opened Wrappers
  import opened Lyricon
  import opened AndroidMedia
  import opened ApplePlaybackState
  import opened AppleMediaMetadata
  import opened AppleSongMapper
  import opened AppleSongRepository
  import opened ApplePlaybackManager

  class AppleHook {
    var isPlaying: bool
    var progressJob: bool
    ghost var liveJobs: nat
    const player: RemotePlayer
    const manager: PlaybackManager

    /** The manager pushes to the same player; a job runs only while playing, and at most one. */
    ghost predicate Valid()
      reads this, player, manager, manager.player, manager.repository, manager.repository.metadata
    {
      && manager.Valid()
      && manager.player == player
      && (progressJob ==> isPlaying)
      && liveJobs == (if progressJob then 1 else 0)
    }

    /**
     * `initProvider`: the manager is bound to the player, then the update
     * interval (the library's default, a parameter here) and the current
     * translation preference are pushed.
     */
    constructor (manager: PlaybackManager, interval: int, translationSelected: bool)
      requires manager.Valid()
      modifies manager.player
      ensures Valid() && this.manager == manager && player == manager.player
      ensures !isPlaying && !progressJob
      ensures player.commands ==
                old(manager.player.commands) + [SetPositionUpdateInterval(interval), SetDisplayTranslation(translationSelected)]
    {
      this.manager := manager;
      this.player := manager.player;
      isPlaying := false;
      progressJob := false;
      liveJobs := 0;
      new;
      player.SetPositionUpdateInterval(interval);
      player.SetDisplayTranslation(translationSelected);
    }

    /** The preference listener: a change of the translation setting is forwarded. */
    method OnTranslationSelectedChanged(selected: bool)
      requires Valid()
      modifies player
      ensures Valid()
      ensures player.commands == old(player.commands) + [SetDisplayTranslation(selected)]
    {
      player.SetDisplayTranslation(selected);
    }

    /**
     * The metadata hook: `putAndGet` caches the metadata; without a media id
     * nothing else happens, otherwise the id is handed to `onSongChanged`.
     */
    method OnMediaMetadataChanged(metadata: MediaMetadata)
      requires Valid()
      requires metadata.mediaId.Some? ==> metadata.title.Some? && metadata.artist.Some?
      modifies player, manager, manager.repository.metadata
      ensures Valid()
      ensures metadata.mediaId.None? ==>
                && player.commands == old(player.commands)
                && manager.currentSongId == old(manager.currentSongId)
                && manager.repository.metadata.entries == old(manager.repository.metadata.entries)
      ensures metadata.mediaId.Some? ==>
                && manager.currentSongId == metadata.mediaId
                && manager.repository.metadata.entries
                     == AccessOrder.Put(old(manager.repository.metadata.entries), metadata.mediaId.value,
                                        Metadata(metadata.mediaId.value, metadata.title, metadata.artist, metadata.duration), CAPACITY)
      ensures metadata.mediaId.Some? && metadata.mediaId == old(manager.currentSongId) ==>
                player.commands == old(player.commands) && manager.downloadRequests == old(manager.downloadRequests)
      ensures metadata.mediaId.Some? && metadata.mediaId != old(manager.currentSongId) ==>
                var id := metadata.mediaId.value;
                var entries := AccessOrder.Put(old(manager.repository.metadata.entries), id,
                                               Metadata(id, metadata.title, metadata.artist, metadata.duration), CAPACITY);
                var song := StoredOrPlaceholder(old(manager.repository.disk), entries, id);
                && player.commands == old(player.commands) + [Command.SetSong(Some(song))]
                && manager.downloadRequests == old(manager.downloadRequests) + (if HasNoLyrics(song) then [id] else [])
      ensures isPlaying == old(isPlaying) && progressJob == old(progressJob)
    {
      var cached := manager.repository.metadata.PutAndGet(metadata);
      if cached.None? {
        return;
      }
      AccessOrder.TouchNewest(manager.repository.metadata.entries, cached.value.id, cached.value);
      manager.OnSongChanged(Some(cached.value.id));
    }

    /** The lyric-build hook: without an argument nothing happens; otherwise the parsed song goes to `onLyricsBuilt`. */
    method OnLyricsBuilt(arg: Option<AppleSong>)
      requires Valid()
      modifies player, manager, manager.repository
      ensures Valid()
      ensures arg.None? ==> player.commands == old(player.commands) && manager.repository.disk == old(manager.repository.disk)
      ensures arg.Some? && !Unsavable(arg.value) ==>
                manager.repository.disk == old(manager.repository.disk)[arg.value.adamId.value := arg.value]
      ensures arg.Some? && ShowsBuiltLyrics(arg.value, old(manager.currentSongId), old(manager.lastSong)) ==>
                player.commands == old(player.commands) + [Command.SetSong(Some(ToSong(arg.value)))]
      ensures arg.Some? && !ShowsBuiltLyrics(arg.value, old(manager.currentSongId), old(manager.lastSong)) ==>
                player.commands == old(player.commands)
      ensures manager.currentSongId == old(manager.currentSongId)
      ensures isPlaying == old(isPlaying) && progressJob == old(progressJob)
    {
      if arg.None? {
        return;
      }
      manager.OnLyricsBuilt(arg.value);
    }

    /** The `seekToPosition` hook: forwarded only while playing; a missing position reads as 0. */
    method OnSeekToPosition(position: Option<int>)
      requires Valid()
      modifies player
      ensures Valid()
      ensures isPlaying ==> player.commands == old(player.commands) + [SeekTo(position.GetOr(0))]
      ensures !isPlaying ==> player.commands == old(player.commands)
    {
      var p := position.GetOr(0);
      if isPlaying {
        player.SeekTo(p);
      }
    }

    /** The `onPlaybackStateChanged` hook: `PLAYING` starts the sync and every other state, `UNKNOWN` included, stops it. */
    method OnPlaybackStateChanged(state: int)
      requires Valid()
      modifies this, player
      ensures Valid()
      ensures state == Playing.Value() ==> isPlaying
      ensures state == Playing.Value() && old(isPlaying) ==>
                player.commands == old(player.commands) && progressJob == old(progressJob)
      ensures state == Playing.Value() && !old(isPlaying) ==>
                progressJob && player.commands == old(player.commands) + [SetPlaybackState(true)]
      ensures state != Playing.Value() ==>
                !isPlaying && !progressJob && player.commands == old(player.commands) + [SetPlaybackState(false)]
    {
      OfPlaying(state);
      if Of(state) == Playing {
        StartSyncAction();
      } else {
        StopSyncAction();
      }
    }

    /** `startSyncAction`: nothing while playing; otherwise playing is recorded, pushed, and a job started. */
    method StartSyncAction()
      requires Valid()
      modifies this, player
      ensures Valid()
      ensures isPlaying
      ensures old(isPlaying) ==> player.commands == old(player.commands) && progressJob == old(progressJob)
      ensures !old(isPlaying) ==> progressJob && player.commands == old(player.commands) + [SetPlaybackState(true)]
    {
      if isPlaying {
        return;
      }
      isPlaying := true;
      player.SetPlaybackState(true);
      ResumeCoroutineTask();
    }

    /** `stopSyncAction`: always records and pushes "not playing", and drops the job. */
    method StopSyncAction()
      requires Valid()
      modifies this, player
      ensures Valid()
      ensures !isPlaying && !progressJob && liveJobs == 0
      ensures player.commands == old(player.commands) + [SetPlaybackState(false)]
    {
      isPlaying := false;
      player.SetPlaybackState(false);
      PauseCoroutineTask();
    }

    /** `resumeCoroutineTask`: no second job while one is active. */
    method ResumeCoroutineTask()
      requires liveJobs == (if progressJob then 1 else 0)
      modifies this
      ensures progressJob && liveJobs == 1
      ensures old(progressJob) ==> liveJobs == old(liveJobs)
      ensures isPlaying == old(isPlaying)
    {
      if progressJob {
        return;
      }
      progressJob := true;
      liveJobs := liveJobs + 1;
    }

    /** `pauseCoroutineTask`: the job is cancelled and forgotten. */
    method PauseCoroutineTask()
      modifies this
      ensures !progressJob && liveJobs == 0
      ensures isPlaying == old(isPlaying)
    {
      progressJob := false;
      liveJobs := 0;
    }

    /**
     * One turn of the job's loop: while the job runs, the position read from
     * the player (0 when it is not a `Long`) is pushed; a read that throws
     * pushes nothing.
     */
    method PositionTick(read: PositionRead)
      requires Valid()
      modifies player
      ensures Valid()
      ensures progressJob && read.Invoked? ==> player.commands == old(player.commands) + [SetPosition(read.position.GetOr(0))]
      ensures !progressJob || read.InvokeThrew? ==> player.commands == old(player.commands)
    {
      if progressJob && isPlaying {
        match read
        case Invoked(position) => player.SetPosition(position.GetOr(0));
        case InvokeThrew =>
      }
    }

    /** Screen on: the job resumes only while playing. */
    method OnScreenOn()
      requires Valid()
      modifies this
      ensures Valid()
      ensures isPlaying == old(isPlaying)
      ensures progressJob == isPlaying
      ensures old(progressJob) ==> liveJobs == old(liveJobs)
    {
      if isPlaying {
        ResumeCoroutineTask();
      }
    }

    /** Screen off: the job stops; the playing state is kept. */
    method OnScreenOff()
      requires Valid()
      modifies this
      ensures Valid()
      ensures isPlaying == old(isPlaying) && !progressJob
    {
      PauseCoroutineTask();
    }

    /** Unlock: the job resumes only while playing and when none is held. */
    method OnScreenUnlocked()
      requires Valid()
      modifies this
      ensures Valid()
      ensures isPlaying == old(isPlaying)
      ensures progressJob == isPlaying
      ensures old(progressJob) ==> liveJobs == old(liveJobs)
    {
      if isPlaying && !progressJob {
        ResumeCoroutineTask();
      }
    }
  }
}
