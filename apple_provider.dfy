/**
 * The Apple Music hook (`Apple`): metadata changes and built lyrics are
 * handed to the playback manager; player state changes start and stop the
 * position sync; screen events pause and resume the position job; a
 * (re)connection to the Lyricon service re-sends the state. The position
 * job is a flag with a ghost count of live jobs: a job only runs while
 * playing and there is never more than one.
 */
module AppleProvider {
  import opened Wrappers
  import opened Lyricon
  import opened AndroidMedia
  import opened ApplePlaybackState
  import opened AppleMediaMetadata
  import opened AppleSongMapper
  import opened AppleSongRepository
  import opened ApplePlaybackManager

  /** `1000L / 24`, in milliseconds. */
  const POSITION_UPDATE_INTERVAL: int := 1000 / 24

  class AppleHook {
    var isPlaying: bool
    var progressJob: bool
    ghost var liveJobs: nat
    const player: RemotePlayer
    const manager: PlaybackManager

    /** The manager pushes to the same player; a job runs only while playing, and at most one. */
    ghost predicate Valid()
      reads this, player, manager, manager.player, manager.repository, manager.repository.metadata
    {
      && manager.Valid()
      && manager.player == player
      && (progressJob ==> isPlaying)
      && liveJobs == (if progressJob then 1 else 0)
    }

    constructor (manager: PlaybackManager)
      requires manager.Valid()
      ensures Valid() && this.manager == manager && player == manager.player
      ensures !isPlaying && !progressJob
    {
      this.manager := manager;
      this.player := manager.player;
      isPlaying := false;
      progressJob := false;
      liveJobs := 0;
    }

    /**
     * The metadata hook: `putAndGet` caches the metadata; without a media id
     * nothing else happens, otherwise the id is handed to `onSongChanged`.
     */
    method OnMediaMetadataChanged(metadata: MediaMetadata)
      requires Valid()
      requires metadata.mediaId.Some? ==> metadata.title.Some? && metadata.artist.Some?
      modifies player, manager, manager.repository.metadata
      ensures Valid()
      ensures metadata.mediaId.None? ==>
                && player.commands == old(player.commands)
                && manager.currentSongId == old(manager.currentSongId)
                && manager.repository.metadata.entries == old(manager.repository.metadata.entries)
      ensures metadata.mediaId.Some? ==>
                && manager.currentSongId == metadata.mediaId
                && manager.repository.metadata.entries
                     == AccessOrder.Put(old(manager.repository.metadata.entries), metadata.mediaId.value,
                                        Metadata(metadata.mediaId.value, metadata.title, metadata.artist, metadata.duration), CAPACITY)
      ensures metadata.mediaId.Some? && metadata.mediaId == old(manager.currentSongId) ==>
                player.commands == old(player.commands) && manager.downloadRequests == old(manager.downloadRequests)
      ensures metadata.mediaId.Some? && metadata.mediaId != old(manager.currentSongId) ==>
                var id := metadata.mediaId.value;
                var entries := AccessOrder.Put(old(manager.repository.metadata.entries), id,
                                               Metadata(id, metadata.title, metadata.artist, metadata.duration), CAPACITY);
                var song := StoredOrPlaceholder(old(manager.repository.disk), entries, id);
                && player.commands == old(player.commands) + [Command.SetSong(Some(song))]
                && manager.downloadRequests == old(manager.downloadRequests) + (if HasNoLyrics(song) then [id] else [])
      ensures isPlaying == old(isPlaying) && progressJob == old(progressJob)
    {
      var cached := manager.repository.metadata.PutAndGet(metadata);
      if cached.None? {
        return;
      }
      AccessOrder.TouchNewest(manager.repository.metadata.entries, cached.value.id, cached.value);
      manager.OnSongChanged(Some(cached.value.id));
    }

    /** The lyric-build hook: without an argument nothing happens; otherwise the parsed song goes to `onLyricsBuilt`. */
    method OnLyricsBuilt(arg: Option<AppleSong>)
      requires Valid()
      modifies player, manager, manager.repository
      ensures Valid()
      ensures arg.None? ==> player.commands == old(player.commands) && manager.repository.disk == old(manager.repository.disk)
      ensures arg.Some? && !Unsavable(arg.value) ==>
                manager.repository.disk == old(manager.repository.disk)[arg.value.adamId.value := arg.value]
      ensures arg.Some? && ShowsBuiltLyrics(arg.value, old(manager.currentSongId), old(manager.lastSong)) ==>
                player.commands == old(player.commands) + [Command.SetSong(Some(ToSong(arg.value)))]
      ensures arg.Some? && !ShowsBuiltLyrics(arg.value, old(manager.currentSongId), old(manager.lastSong)) ==>
                player.commands == old(player.commands)
      ensures manager.currentSongId == old(manager.currentSongId)
      ensures isPlaying == old(isPlaying) && progressJob == old(progressJob)
    {
      if arg.None? {
        return;
      }
      manager.OnLyricsBuilt(arg.value);
    }

    /** The `seekToPosition` hook: forwarded only while playing; a missing position reads as 0. */
    method OnSeekToPosition(position: Option<int>)
      requires Valid()
      modifies player
      ensures Valid()
      ensures isPlaying ==> player.commands == old(player.commands) + [SeekTo(position.GetOr(0))]
      ensures !isPlaying ==> player.commands == old(player.commands)
    {
      var p := position.GetOr(0);
      if isPlaying {
        player.SeekTo(p);
      }
    }

    /** The `onPlaybackStateChanged` hook: `PLAYING` starts the sync and every other state, `UNKNOWN` included, stops it. */
    method OnPlaybackStateChanged(state: int)
      requires Valid()
      modifies this, player
      ensures Valid()
      ensures state == Playing.Value() ==> isPlaying
      ensures state == Playing.Value() && old(isPlaying) ==>
                player.commands == old(player.commands) && progressJob == old(progressJob)
      ensures state == Playing.Value() && !old(isPlaying) ==>
                progressJob && player.commands == old(player.commands) + [SetPlaybackState(true)]
      ensures state != Playing.Value() ==>
                !isPlaying && !progressJob && player.commands == old(player.commands) + [SetPlaybackState(false)]
    {
      OfPlaying(state);
      if Of(state) == Playing {
        StartSyncAction();
      } else {
        StopSyncAction();
      }
    }

    /** `startSyncAction`: nothing while playing; otherwise playing is recorded, pushed, and a job started. */
    method StartSyncAction()
      requires Valid()
      modifies this, player
      ensures Valid()
      ensures isPlaying
      ensures old(isPlaying) ==> player.commands == old(player.commands) && progressJob == old(progressJob)
      ensures !old(isPlaying) ==> progressJob && player.commands == old(player.commands) + [SetPlaybackState(true)]
    {
      if isPlaying {
        return;
      }
      isPlaying := true;
      player.SetPlaybackState(true);
      ResumeCoroutineTask();
    }

    /** `stopSyncAction`: always records and pushes "not playing", and drops the job. */
    method StopSyncAction()
      requires Valid()
      modifies this, player
      ensures Valid()
      ensures !isPlaying && !progressJob && liveJobs == 0
      ensures player.commands == old(player.commands) + [SetPlaybackState(false)]
    {
      isPlaying := false;
      player.SetPlaybackState(false);
      PauseCoroutineTask();
    }

    /** `resumeCoroutineTask`: no second job while one is active. */
    method ResumeCoroutineTask()
      requires liveJobs == (if progressJob then 1 else 0)
      modifies this
      ensures progressJob && liveJobs == 1
      ensures old(progressJob) ==> liveJobs == old(liveJobs)
      ensures isPlaying == old(isPlaying)
    {
      if progressJob {
        return;
      }
      progressJob := true;
      liveJobs := liveJobs + 1;
    }

    /** `pauseCoroutineTask`: the job is cancelled and forgotten. */
    method PauseCoroutineTask()
      modifies this
      ensures !progressJob && liveJobs == 0
      ensures isPlaying == old(isPlaying)
    {
      progressJob := false;
      liveJobs := 0;
    }

    /**
     * One turn of the job's loop: while the job runs, the position read from
     * the player (0 when it is not a `Long`) is pushed; a read that throws
     * pushes nothing.
     */
    method PositionTick(read: PositionRead)
      requires Valid()
      modifies player
      ensures Valid()
      ensures progressJob && read.Invoked? ==> player.commands == old(player.commands) + [SetPosition(read.position.GetOr(0))]
      ensures !progressJob || read.InvokeThrew? ==> player.commands == old(player.commands)
    {
      if progressJob && isPlaying {
        match read
        case Invoked(position) => player.SetPosition(position.GetOr(0));
        case InvokeThrew =>
      }
    }

    /**
     * `sync(resume)`: on a reconnection the playing state is pushed and,
     * while playing, the current song again; the update interval is always
     * pushed last.
     */
    method Sync(resume: bool)
      requires Valid()
      modifies player, manager, manager.repository.metadata
      ensures Valid()
      ensures isPlaying == old(isPlaying) && progressJob == old(progressJob)
      ensures manager.currentSongId == old(manager.currentSongId)
      ensures manager.downloadRequests == old(manager.downloadRequests)
      ensures manager.repository.disk == old(manager.repository.disk)
      ensures |player.commands| > 0 && player.commands[|player.commands| - 1] == SetPositionUpdateInterval(41)
      ensures !(resume && isPlaying && old(manager.currentSongId).Some?) ==>
                && manager.lastSong == old(manager.lastSong)
                && manager.repository.metadata.entries == old(manager.repository.metadata.entries)
      ensures !resume ==> player.commands == old(player.commands) + [SetPositionUpdateInterval(41)]
      ensures resume && !isPlaying ==>
                player.commands == old(player.commands) + [SetPlaybackState(false), SetPositionUpdateInterval(41)]
      ensures resume && isPlaying && old(manager.currentSongId).None? ==>
                player.commands == old(player.commands) + [SetPlaybackState(true), SetPositionUpdateInterval(41)]
      ensures resume && isPlaying && old(manager.currentSongId).Some? ==>
                var id := old(manager.currentSongId).value;
                var song := StoredOrPlaceholder(old(manager.repository.disk), old(manager.repository.metadata.entries), id);
                && player.commands == old(player.commands)
                                      + [SetPlaybackState(true), Command.SetSong(Some(song)), SetPositionUpdateInterval(41)]
                && manager.lastSong == Some(song)
                && manager.repository.metadata.entries
                     == if id in old(manager.repository.disk) then old(manager.repository.metadata.entries)
                        else AccessOrder.Touch(old(manager.repository.metadata.entries), id)
    {
      if resume {
        player.SetPlaybackState(isPlaying);
        if isPlaying {
          manager.SyncCurrentSong();
        }
      }
      player.SetPositionUpdateInterval(POSITION_UPDATE_INTERVAL);
    }

    /** `onConnected`: only the update interval is sent; the manager and its cache are left as they are. */
    method OnConnected()
      requires Valid()
      modifies player, manager, manager.repository.metadata
      ensures Valid()
      ensures player.commands == old(player.commands) + [SetPositionUpdateInterval(41)]
      ensures isPlaying == old(isPlaying) && progressJob == old(progressJob)
      ensures manager.currentSongId == old(manager.currentSongId) && manager.lastSong == old(manager.lastSong)
      ensures manager.downloadRequests == old(manager.downloadRequests)
      ensures manager.repository.disk == old(manager.repository.disk)
      ensures manager.repository.metadata.entries == old(manager.repository.metadata.entries)
    {
      Sync(false);
    }

    /** `onReconnected`: the full state is sent again. */
    method OnReconnected()
      requires Valid()
      modifies player, manager, manager.repository.metadata
      ensures Valid()
      ensures isPlaying == old(isPlaying) && progressJob == old(progressJob)
      ensures manager.currentSongId == old(manager.currentSongId)
      ensures manager.downloadRequests == old(manager.downloadRequests)
      ensures manager.repository.disk == old(manager.repository.disk)
      ensures !(isPlaying && old(manager.currentSongId).Some?) ==>
                && manager.lastSong == old(manager.lastSong)
                && manager.repository.metadata.entries == old(manager.repository.metadata.entries)
      ensures !isPlaying ==>
                player.commands == old(player.commands) + [SetPlaybackState(false), SetPositionUpdateInterval(41)]
      ensures isPlaying && old(manager.currentSongId).None? ==>
                player.commands == old(player.commands) + [SetPlaybackState(true), SetPositionUpdateInterval(41)]
      ensures isPlaying && old(manager.currentSongId).Some? ==>
                var id := old(manager.currentSongId).value;
                var song := StoredOrPlaceholder(old(manager.repository.disk), old(manager.repository.metadata.entries), id);
                && player.commands == old(player.commands)
                                      + [SetPlaybackState(true), Command.SetSong(Some(song)), SetPositionUpdateInterval(41)]
                && manager.lastSong == Some(song)
                && manager.repository.metadata.entries
                     == if id in old(manager.repository.disk) then old(manager.repository.metadata.entries)
                        else AccessOrder.Touch(old(manager.repository.metadata.entries), id)
    {
      Sync(true);
    }

    /** Screen on: the job resumes only while playing. */
    method OnScreenOn()
      requires Valid()
      modifies this
      ensures Valid()
      ensures isPlaying == old(isPlaying)
      ensures progressJob == isPlaying
      ensures old(progressJob) ==> liveJobs == old(liveJobs)
    {
      if isPlaying {
        ResumeCoroutineTask();
      }
    }

    /** Screen off: the job stops; the playing state is kept. */
    method OnScreenOff()
      requires Valid()
      modifies this
      ensures Valid()
      ensures isPlaying == old(isPlaying) && !progressJob
    {
      PauseCoroutineTask();
    }

    /** Unlock: the job resumes only while playing and when none is held. */
    method OnScreenUnlocked()
      requires Valid()
      modifies this
      ensures Valid()
      ensures isPlaying == old(isPlaying)
      ensures progressJob == isPlaying
      ensures old(progressJob) ==> liveJobs == old(liveJobs)
    {
      if isPlaying && !progressJob {
        ResumeCoroutineTask();
      }
    }
  }
}
