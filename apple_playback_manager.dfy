/**
 * Apple Music's `PlaybackManager`: it tracks the current song id and the
 * song last pushed to the remote player. A song change pushes the
 * repository's song at once and asks for a lyric download when that song has
 * no lyrics; built lyrics are saved and pushed only for the current song and
 * only while what is shown has no lyrics.
 */
module ApplePlaybackManager {
  import opened Wrappers
  import opened Lyricon
  import opened AppleSongMapper
  import opened AppleSongRepository

  /**
   * Whether `onLyricsBuilt` pushes the parsed song: it could be saved, it is
   * the current song, and what was last pushed has no lyrics.
   */
  predicate ShowsBuiltLyrics(parsed: AppleSong, currentSongId: Option<string>, lastSong: Option<Song>) {
    !Unsavable(parsed) && parsed.adamId == currentSongId && (lastSong.None? || HasNoLyrics(lastSong.value))
  }

  class PlaybackManager {
    var currentSongId: Option<string>
    var lastSong: Option<Song>
    /** The ids handed to `LyricRequester.requestDownload`, in order. */
    var downloadRequests: seq<string>
    const player: RemotePlayer
    const repository: SongRepository

    /** `lastSong` is always the song last pushed to the player. */
    ghost predicate Valid()
      reads this, player, repository, repository.metadata
    {
      && repository.Valid()
      && lastSong == LastPushedSong(player.commands)
    }

    /** `init(remotePlayer, requester)` on a player nothing has been pushed to yet. */
    constructor (player: RemotePlayer, repository: SongRepository)
      requires repository.Valid() && LastPushedSong(player.commands).None?
      ensures Valid() && this.player == player && this.repository == repository
      ensures currentSongId.None? && lastSong.None? && downloadRequests == []
    {
      this.player := player;
      this.repository := repository;
      currentSongId := None;
      lastSong := None;
      downloadRequests := [];
    }

    /** `setSong(song)`: the song is pushed and remembered. */
    method SetSong(song: Option<Song>)
      requires Valid()
      modifies this, player
      ensures Valid()
      ensures player.commands == old(player.commands) + [Command.SetSong(song)]
      ensures lastSong == song
      ensures currentSongId == old(currentSongId) && downloadRequests == old(downloadRequests)
    {
      player.SetSong(song);
      lastSong := song;
    }

    /**
     * `onSongChanged(newId)`: `null` clears the current id and pushes no
     * song; the current id again does nothing; a new id becomes current, the
     * repository's song for it is pushed, and a download is requested
     * exactly when that song has no lyrics.
     */
    method OnSongChanged(newId: Option<string>)
      requires Valid()
      modifies this, player, repository.metadata
      ensures Valid()
      ensures repository.disk == old(repository.disk)
      ensures newId.None? ==>
                && currentSongId.None?
                && player.commands == old(player.commands) + [Command.SetSong(None)]
                && downloadRequests == old(downloadRequests)
                && repository.metadata.entries == old(repository.metadata.entries)
      ensures newId.Some? && newId == old(currentSongId) ==>
                && currentSongId == old(currentSongId) && lastSong == old(lastSong)
                && player.commands == old(player.commands)
                && downloadRequests == old(downloadRequests)
                && repository.metadata.entries == old(repository.metadata.entries)
      ensures newId.Some? && newId != old(currentSongId) ==>
                var song := StoredOrPlaceholder(old(repository.disk), old(repository.metadata.entries), newId.value);
                && currentSongId == newId
                && player.commands == old(player.commands) + [Command.SetSong(Some(song))]
                && lastSong == Some(song)
                && song.id == newId
                && downloadRequests == old(downloadRequests) + (if HasNoLyrics(song) then [newId.value] else [])
                && repository.metadata.entries
                     == if newId.value in old(repository.disk) then old(repository.metadata.entries)
                        else AccessOrder.Touch(old(repository.metadata.entries), newId.value)
    {
      if newId.None? {
        currentSongId := None;
        SetSong(None);
        return;
      }
      if newId == currentSongId {
        return;
      }
      currentSongId := newId;
      var song := repository.GetSong(newId.value);
      SetSong(Some(song));
      if HasNoLyrics(song) {
        downloadRequests := downloadRequests + [newId.value];
      }
    }

    /**
     * `onLyricsBuilt(nativeSongObj)`, given the parsed song: it is always
     * saved first; an unsavable song changes nothing else; a saved one is
     * pushed only when it is the current song and the last pushed song has
     * no lyrics.
     */
    method OnLyricsBuilt(parsed: AppleSong)
      requires Valid()
      modifies this, player, repository
      ensures Valid()
      ensures currentSongId == old(currentSongId) && downloadRequests == old(downloadRequests)
      ensures Unsavable(parsed) ==>
                repository.disk == old(repository.disk) && player.commands == old(player.commands) && lastSong == old(lastSong)
      ensures !Unsavable(parsed) ==> repository.disk == old(repository.disk)[parsed.adamId.value := parsed]
      ensures ShowsBuiltLyrics(parsed, old(currentSongId), old(lastSong)) ==>
                player.commands == old(player.commands) + [Command.SetSong(Some(ToSong(parsed)))] && lastSong == Some(ToSong(parsed))
      ensures !ShowsBuiltLyrics(parsed, old(currentSongId), old(lastSong)) ==>
                player.commands == old(player.commands) && lastSong == old(lastSong)
    {
      var song := repository.SaveSong(parsed);
      if song.None? {
        return;
      }
      var id := song.value.id;
      if id == currentSongId && (lastSong.None? || HasNoLyrics(lastSong.value)) {
        SetSong(song);
      }
    }

    /** `syncCurrentSong()`: the repository's song for the current id is pushed again; without a current id nothing happens. */
    method SyncCurrentSong()
      requires Valid()
      modifies this, player, repository.metadata
      ensures Valid()
      ensures currentSongId == old(currentSongId) && downloadRequests == old(downloadRequests)
      ensures repository.disk == old(repository.disk)
      ensures currentSongId.None? ==> player.commands == old(player.commands) && lastSong == old(lastSong)
      ensures currentSongId.Some? ==>
                var song := StoredOrPlaceholder(old(repository.disk), old(repository.metadata.entries), currentSongId.value);
                player.commands == old(player.commands) + [Command.SetSong(Some(song))] && lastSong == Some(song)
      ensures repository.metadata.entries
                == if currentSongId.None? || currentSongId.value in old(repository.disk) then old(repository.metadata.entries)
                   else AccessOrder.Touch(old(repository.metadata.entries), currentSongId.value)
    {
      if currentSongId.Some? {
        var song := repository.GetSong(currentSongId.value);
        SetSong(Some(song));
      }
    }
  }
}
