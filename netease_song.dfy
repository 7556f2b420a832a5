/**
 * The song the NetEase provider pushes for a metadata entry: the lyric file
 * parsed into a song when it has lyrics and is not pure music, and otherwise
 * a placeholder carrying only the metadata. Also the rule `setSong` uses to
 * skip a song that would change nothing on screen.
 */
module NeteaseSong {
  import opened Wrappers
  import opened Lyricon

  /**
   * What reading the lyric file for an id gave: no file, a file that could
   * not be read or decoded, or the song its response converts to together
   * with the response's `pureMusic` flag.
   */
  datatype FileOutcome = NoFile | Unparsable | Parsed(song: Song, pureMusic: bool)

  /** `Song(id, name = title, artist, duration)` */
  function Placeholder(id: string, title: Option<string>, artist: Option<string>, duration: int): (s: Song)
    ensures s.id == Some(id) && s.name == title && s.artist == artist && s.duration == duration
    ensures HasNoLyrics(s)
  {
    Song(Some(id), title, artist, duration, None, map[])
  }

  /** The parsed song when it has lyrics and is not pure music, the placeholder otherwise. */
  function LoadedSong(placeholder: Song, file: FileOutcome): (s: Song)
    ensures s == placeholder || (file.Parsed? && s == file.song && !file.pureMusic && !HasNoLyrics(s))
    ensures file.Parsed? && !file.pureMusic && !HasNoLyrics(file.song) ==> s == file.song
  {
    if file.Parsed? && !HasNoLyrics(file.song) && !file.pureMusic then file.song else placeholder
  }

  /** A song whose lyrics are empty or missing never displaces the placeholder. */
  lemma NoLyricsKeepsPlaceholder(placeholder: Song, file: FileOutcome)
    requires file.Parsed? ==> HasNoLyrics(file.song) || file.pureMusic
    ensures LoadedSong(placeholder, file) == placeholder
  {
  }

  /** `lastSong?.lyrics.isNullOrEmpty()`: true when there is no last song. */
  predicate LastHasNoLyrics(last: Option<Song>) {
    last.None? || HasNoLyrics(last.value)
  }

  /** `lastSong?.id` */
  function LastId(last: Option<Song>): Option<string> {
    if last.Some? then last.value.id else None
  }

  /**
   * `setSong` skips a song equal to the last one pushed, and a lyric-less
   * song whose id is the last one's when that one had no lyrics either.
   */
  predicate SkipsSong(last: Option<Song>, song: Song) {
    last == Some(song) || (HasNoLyrics(song) && LastHasNoLyrics(last) && LastId(last) == song.id)
  }

  /** A song with lyrics is pushed whenever it differs from the last one. */
  lemma LyricsDifferentPushed(last: Option<Song>, song: Song)
    requires !HasNoLyrics(song) && last != Some(song)
    ensures !SkipsSong(last, song)
  {
  }

  /** Before anything was pushed, only a lyric-less song without an id is skipped. */
  lemma FirstSongSkipped(song: Song)
    ensures SkipsSong(None, song) <==> HasNoLyrics(song) && song.id.None?
  {
  }

  /** Pushing the same placeholder twice is skipped the second time. */
  lemma PlaceholderRepeatSkipped(last: Song, song: Song)
    requires HasNoLyrics(last) && HasNoLyrics(song) && last.id == song.id
    ensures SkipsSong(Some(last), song)
  {
  }
}
