/**
 * The Lyricon library types every provider talks to: the normalised `Song`
 * with its `RichLyricLine`s and `LyricWord`s, and the remote player the
 * provider pushes commands to. The library itself is not part of this model;
 * the player is recorded as the append-only log of the commands it received.
 */
module Lyricon {
  import opened Wrappers

  datatype LyricWord = LyricWord(begin: int, end: int, duration: int, text: Option<string>)

  datatype RichLyricLine = RichLyricLine(
    begin: int,
    end: int,
    duration: int,
    text: Option<string>,
    words: Option<seq<LyricWord>>,
    secondaryText: Option<string>,
    secondaryWords: Option<seq<LyricWord>>,
    translation: Option<string>,
    isAlignedRight: bool)

  /** A line with only timing, text and translation set; every other field keeps its default. */
  function PlainLine(begin: int, end: int, duration: int, text: Option<string>, translation: Option<string>): RichLyricLine {
    RichLyricLine(begin, end, duration, text, None, None, None, translation, false)
  }

  datatype Song = Song(
    id: Option<string>,
    name: Option<string>,
    artist: Option<string>,
    duration: int,
    lyrics: Option<seq<RichLyricLine>>,
    metadata: map<string, string>)

  /** `Song(id, name, artist)`: no duration, no lyrics, no metadata. */
  function BareSong(id: string, name: Option<string>, artist: Option<string>): Song {
    Song(Some(id), name, artist, 0, None, map[])
  }

  /** `lyrics.isNullOrEmpty()` */
  predicate HasNoLyrics(s: Song) {
    s.lyrics.None? || s.lyrics.value == []
  }

  datatype Command =
    | SetSong(song: Option<Song>)
    | SetPlaybackState(playing: bool)
    | SeekTo(position: int)
    | SetPosition(position: int)
    | SetPositionUpdateInterval(interval: int)
    | SetDisplayTranslation(display: bool)
    | SetDisplayRoma(display: bool)

  /** The song of the most recent `SetSong` in the log, `None` when there was none or it was `null`. */
  function LastPushedSong(log: seq<Command>): Option<Song> {
    if log == [] then None
    else if log[|log| - 1].SetSong? then log[|log| - 1].song
    else LastPushedSong(log[..|log| - 1])
  }

  /** The number of `SetSong` commands in the log. */
  function SongPushes(log: seq<Command>): nat {
    if log == [] then 0
    else SongPushes(log[..|log| - 1]) + (if log[|log| - 1].SetSong? then 1 else 0)
  }

  /** The playback state most recently pushed, `None` when none was. */
  function LastPushedPlaying(log: seq<Command>): Option<bool> {
    if log == [] then None
    else if log[|log| - 1].SetPlaybackState? then Some(log[|log| - 1].playing)
    else LastPushedPlaying(log[..|log| - 1])
  }

  /** Appending a command other than `SetSong` leaves the last pushed song and the push count as they were. */
  lemma AppendOther(log: seq<Command>, c: Command)
    requires !c.SetSong?
    ensures LastPushedSong(log + [c]) == LastPushedSong(log)
    ensures SongPushes(log + [c]) == SongPushes(log)
  {
    assert (log + [c])[..|log|] == log;
  }

  /** Appending `SetSong(s)` makes `s` the last pushed song and adds one push. */
  lemma AppendSetSong(log: seq<Command>, s: Option<Song>)
    ensures LastPushedSong(log + [SetSong(s)]) == s
    ensures SongPushes(log + [SetSong(s)]) == SongPushes(log) + 1
  {
    assert (log + [SetSong(s)])[..|log|] == log;
  }

  /** The remote player: every call is recorded, in order. */
  class RemotePlayer {
    var commands: seq<Command>

    constructor ()
      ensures commands == []
    {
      commands := [];
    }

    method SetSong(song: Option<Song>)
      modifies this
      ensures commands == old(commands) + [Command.SetSong(song)]
      ensures LastPushedSong(commands) == song
    {
      commands := commands + [Command.SetSong(song)];
      AppendSetSong(old(commands), song);
    }

    method SetPlaybackState(playing: bool)
      modifies this
      ensures commands == old(commands) + [Command.SetPlaybackState(playing)]
      ensures LastPushedSong(commands) == LastPushedSong(old(commands))
    {
      commands := commands + [Command.SetPlaybackState(playing)];
      AppendOther(old(commands), Command.SetPlaybackState(playing));
    }

    method SeekTo(position: int)
      modifies this
      ensures commands == old(commands) + [Command.SeekTo(position)]
      ensures LastPushedSong(commands) == LastPushedSong(old(commands))
    {
      commands := commands + [Command.SeekTo(position)];
      AppendOther(old(commands), Command.SeekTo(position));
    }

    method SetPositionUpdateInterval(interval: int)
      modifies this
      ensures commands == old(commands) + [Command.SetPositionUpdateInterval(interval)]
      ensures LastPushedSong(commands) == LastPushedSong(old(commands))
    {
      commands := commands + [Command.SetPositionUpdateInterval(interval)];
      AppendOther(old(commands), Command.SetPositionUpdateInterval(interval));
    }

    method SetDisplayTranslation(display: bool)
      modifies this
      ensures commands == old(commands) + [Command.SetDisplayTranslation(display)]
      ensures LastPushedSong(commands) == LastPushedSong(old(commands))
    {
      commands := commands + [Command.SetDisplayTranslation(display)];
      AppendOther(old(commands), Command.SetDisplayTranslation(display));
    }

    method SetPosition(position: int)
      modifies this
      ensures commands == old(commands) + [Command.SetPosition(position)]
      ensures LastPushedSong(commands) == LastPushedSong(old(commands))
    {
      commands := commands + [Command.SetPosition(position)];
      AppendOther(old(commands), Command.SetPosition(position));
    }

    method SetDisplayRoma(display: bool)
      modifies this
      ensures commands == old(commands) + [Command.SetDisplayRoma(display)]
      ensures LastPushedSong(commands) == LastPushedSong(old(commands))
    {
      commands := commands + [Command.SetDisplayRoma(display)];
      AppendOther(old(commands), Command.SetDisplayRoma(display));
    }
  }
}
