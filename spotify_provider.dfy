/**
 * The Spotify hook's state: the captured request headers, the current track
 * id, the playback flag, the position job and the pending pause. Each hook
 * callback is a method; the remote player records what is pushed.
 *
 * The position job is a flag with a ghost count of live jobs; the pause
 * runnable posted to the main handler is a flag that `RunPendingPause` fires.
 */
module SpotifyProvider {
  import opened Wrappers
  import opened KotlinText
  import opened AndroidMedia
  import opened Lyricon
  import opened ArrayExtensions
  import opened SpotifyMetadataCache
  import opened SpotifyConverter
  import opened SpotifyDownloader

  const OPTIONAL_KEY: string := "Optional.of("

  /**
   * `readPosition` on the text of the value `position(long)` returned: the
   * characters between `Optional.of(` and the last one, parsed as a `Long`;
   * 0 when the text is too short or does not parse.
   */
  function ReadPosition(text: string): (p: int)
    ensures IsLong(p)
    ensures |text| <= |OPTIONAL_KEY| ==> p == 0
  {
    if |text| < |OPTIONAL_KEY| + 1 then 0
    else ParseLong(text[|OPTIONAL_KEY|..|text| - 1]).GetOr(0)
  }

  /** The position the player state prints is read back exactly. */
  lemma ReadPositionOfOptional(n: int)
    requires IsLong(n)
    ensures ReadPosition(OPTIONAL_KEY + LongToString(n) + ")") == n
  {
    var text := OPTIONAL_KEY + LongToString(n) + ")";
    assert text[|OPTIONAL_KEY|..|text| - 1] == LongToString(n);
    ParseLongToString(n);
  }

  /** An empty `Optional` or a missing player state (the text "null") reads as 0. */
  lemma ReadPositionEmpty()
    ensures ReadPosition("Optional.empty") == 0
    ensures ReadPosition("null") == 0
  {
    assert "Optional.empty"[|OPTIONAL_KEY|..13] == "t";
  }

  /** The header value that replaces a stored credential: only a non-blank one. */
  function CapturedHeader(headers: map<string, string>, name: string, current: string): (r: string)
    ensures r == current || (name in headers && r == headers[name] && !IsBlank(r))
  {
    if name in headers && !IsBlank(headers[name]) then headers[name] else current
  }

  class Spotify {
    var authorization: string
    var clientToken: string
    var isPlaying: bool
    var trackId: Option<string>
    var positionJob: bool
    ghost var liveJobs: nat
    var pausePending: bool
    const player: RemotePlayer
    const cache: MediaMetadataCache
    const downloader: Downloader

    /** At most one position job, and one exists exactly while playing. */
    ghost predicate Valid()
      reads this, cache
    {
      && liveJobs <= 1
      && (positionJob <==> liveJobs == 1)
      && (positionJob <==> isPlaying)
      && cache.Valid()
    }

    constructor (player: RemotePlayer, cache: MediaMetadataCache, downloader: Downloader)
      requires cache.Valid()
      ensures Valid()
      ensures this.player == player && this.cache == cache && this.downloader == downloader
      ensures authorization == "" && clientToken == "" && trackId.None? && !isPlaying && !pausePending
    {
      this.player := player;
      this.cache := cache;
      this.downloader := downloader;
      authorization := "";
      clientToken := "";
      isPlaying := false;
      trackId := None;
      positionJob := false;
      liveJobs := 0;
      pausePending := false;
    }

    /** The `okhttp3.Headers` constructor hook: the credentials change only to non-blank header values. */
    method OnHeaders(header: seq<Option<string>>)
      modifies this
      ensures authorization == CapturedHeader(PairsBefore(header, |header|), "Authorization", old(authorization))
      ensures clientToken == CapturedHeader(PairsBefore(header, |header|), "client-token", old(clientToken))
      ensures isPlaying == old(isPlaying) && trackId == old(trackId) && positionJob == old(positionJob)
      ensures liveJobs == old(liveJobs) && pausePending == old(pausePending)
    {
      var headers := ToPairMap(header);
      if "Authorization" in headers && !IsBlank(headers["Authorization"]) {
        authorization := headers["Authorization"];
      }
      if "client-token" in headers && !IsBlank(headers["client-token"]) {
        clientToken := headers["client-token"];
      }
    }

    /**
     * The `setMetadata` hook: ignored when the cache yields nothing or the id
     * is the current track; otherwise the id becomes current, the bare song
     * is pushed and a download is requested.
     */
    method OnSetMetadata(metadata: MediaMetadata)
      requires Valid()
      modifies this, cache, player, downloader
      ensures Valid()
      ensures var id := TrackId(metadata.mediaId);
        if id.None? || IsBlank(id.value) || old(trackId) == id then
          && trackId == old(trackId)
          && player.commands == old(player.commands)
          && downloader.downloadingIds == old(downloader.downloadingIds)
        else
          && trackId == id
          && id.value in cache.entries
          && player.commands == old(player.commands)
               + [SetSong(Some(BareSong(id.value, cache.entries[id.value].title, cache.entries[id.value].artist)))]
          && downloader.downloadingIds == old(downloader.downloadingIds) + {id.value}
      ensures var id := TrackId(metadata.mediaId);
        if id.None? || IsBlank(id.value) || id.value in old(cache.entries) then cache.entries == old(cache.entries)
        else cache.entries == old(cache.entries)[id.value := Metadata(id.value, metadata.title, metadata.artist, StoredDuration(metadata.duration))]
      ensures downloader.events == old(downloader.events)
      ensures isPlaying == old(isPlaying) && positionJob == old(positionJob) && pausePending == old(pausePending)
    {
      var data := cache.Save(metadata);
      if data.None? {
        return;
      }
      var id := data.value.id;
      if trackId == Some(id) {
        return;
      }
      trackId := Some(id);
      player.SetSong(Some(BareSong(id, data.value.title, data.value.artist)));
      var launched := downloader.Download(id);
    }

    /**
     * `dispatchPlaybackState`: any pending pause is cancelled; PLAYING is
     * applied at once, PAUSED and STOPPED post a pause; other states do nothing more.
     */
    method DispatchPlaybackState(state: int)
      requires Valid()
      modifies this, player
      ensures Valid()
      ensures pausePending <==> (state == STATE_PAUSED || state == STATE_STOPPED)
      ensures state == STATE_PLAYING ==> isPlaying && positionJob
      ensures state == STATE_PLAYING && old(isPlaying) ==> player.commands == old(player.commands)
      ensures state == STATE_PLAYING && !old(isPlaying) ==> player.commands == old(player.commands) + [SetPlaybackState(true)]
      ensures state != STATE_PLAYING ==> isPlaying == old(isPlaying) && player.commands == old(player.commands)
      ensures trackId == old(trackId)
    {
      pausePending := false;
      if state == STATE_PLAYING {
        ApplyPlaybackUpdate(true);
      } else if state == STATE_PAUSED || state == STATE_STOPPED {
        pausePending := true;
      }
    }

    /** The main handler running the posted pause runnable. */
    method RunPendingPause()
      requires Valid()
      modifies this, player
      ensures Valid()
      ensures !pausePending
      ensures old(pausePending) ==> !isPlaying && !positionJob
      ensures old(pausePending) && old(isPlaying) ==> player.commands == old(player.commands) + [SetPlaybackState(false)]
      ensures old(pausePending) && !old(isPlaying) ==> player.commands == old(player.commands)
      ensures trackId == old(trackId)
      ensures !old(pausePending) ==> isPlaying == old(isPlaying) && player.commands == old(player.commands)
    {
      if pausePending {
        pausePending := false;
        ApplyPlaybackUpdate(false);
      }
    }

    /**
     * `applyPlaybackUpdate`: nothing when the state is unchanged; otherwise
     * the state is recorded and pushed, and the position sync started or stopped.
     */
    method ApplyPlaybackUpdate(playing: bool)
      requires Valid()
      modifies this, player
      ensures Valid()
      ensures isPlaying == playing
      ensures playing == old(isPlaying) ==> player.commands == old(player.commands) && positionJob == old(positionJob)
      ensures playing != old(isPlaying) ==> player.commands == old(player.commands) + [SetPlaybackState(playing)]
      ensures positionJob == playing
      ensures trackId == old(trackId) && pausePending == old(pausePending)
      ensures authorization == old(authorization) && clientToken == old(clientToken)
    {
      if isPlaying == playing {
        return;
      }
      isPlaying := playing;
      player.SetPlaybackState(playing);
      if playing {
        StartPositionSync();
      } else {
        StopPositionSync();
      }
    }

    /** `startPositionSync`: no second job while one exists. */
    method StartPositionSync()
      requires liveJobs <= 1 && (positionJob <==> liveJobs == 1)
      modifies this
      ensures positionJob && liveJobs == 1
      ensures old(positionJob) ==> liveJobs == old(liveJobs)
      ensures isPlaying == old(isPlaying) && trackId == old(trackId) && pausePending == old(pausePending)
      ensures authorization == old(authorization) && clientToken == old(clientToken)
    {
      if positionJob {
        return;
      }
      positionJob := true;
      liveJobs := liveJobs + 1;
    }

    /** `stopPositionSync`: the job is cancelled and forgotten. */
    method StopPositionSync()
      modifies this
      ensures !positionJob && liveJobs == 0
      ensures isPlaying == old(isPlaying) && trackId == old(trackId) && pausePending == old(pausePending)
      ensures authorization == old(authorization) && clientToken == old(clientToken)
    {
      positionJob := false;
      liveJobs := 0;
    }

    /** One turn of the position job's loop: while playing, the position read from the player state is pushed. */
    method PositionTick(positionText: string)
      requires Valid()
      modifies player
      ensures positionJob && isPlaying ==> player.commands == old(player.commands) + [SetPosition(ReadPosition(positionText))]
      ensures !(positionJob && isPlaying) ==> player.commands == old(player.commands)
    {
      if positionJob && isPlaying {
        player.SetPosition(ReadPosition(positionText));
      }
    }

    /** `onDownloadFinished`: the converted song is pushed whatever the current track is. */
    method OnDownloadFinished(id: string, response: LyricResponse)
      modifies player
      ensures player.commands == old(player.commands) + [SetSong(Some(ToSong(response, id, cache)))]
      ensures LastPushedSong(player.commands) == Some(ToSong(response, id, cache))
    {
      player.SetSong(Some(ToSong(response, id, cache)));
    }

    /** A launched download job running to its end and delivering its one callback. */
    method RunDownload(id: string, fetch: nat -> FetchOutcome, isActive: nat -> bool)
      modifies downloader, player
      ensures downloader.downloadingIds == old(downloader.downloadingIds) - {id}
      ensures var o := fetch(LastAttempt(fetch, isActive, 0));
        if o.Fetched? then player.commands == old(player.commands) + [SetSong(Some(ToSong(o.response, id, cache)))]
        else player.commands == old(player.commands)
    {
      var delays := downloader.RunJob(id, fetch, isActive);
      var event := downloader.events[|downloader.events| - 1];
      if event.DownloadFinished? {
        OnDownloadFinished(event.id, event.response);
      }
    }
  }
}
