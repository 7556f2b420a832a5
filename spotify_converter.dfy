/**
 * Spotify's converter from the lyric API response to the Lyricon song: lines
 * without an end time end where the next line starts, or 5 seconds after
 * their own start when they are last.
 */
module SpotifyConverter {
  import opened Wrappers
  import opened KotlinText
  import opened Lyricon
  import opened SpotifyMetadataCache

  /** One line of the API response; a missing time is 0. */
  datatype SpotifyLine = SpotifyLine(
    startTimeMs: int,
    words: Option<string>,
    endTimeMs: int,
    transliteratedWords: Option<string>)

  datatype LyricsData = LyricsData(lines: seq<SpotifyLine>)

  datatype LyricResponse = LyricResponse(lyrics: LyricsData)

  /** The end time of line `i` after the `mapIndexed` step. */
  function FilledEnd(lines: seq<SpotifyLine>, i: nat): int
    requires i < |lines|
  {
    if lines[i].endTimeMs != 0 then lines[i].endTimeMs
    else if i + 1 < |lines| then lines[i + 1].startTimeMs
    else AddLong(lines[i].startTimeMs, 5000)
  }

  /** The Lyricon line built from line `i`. */
  function ConvertedLine(lines: seq<SpotifyLine>, i: nat): RichLyricLine
    requires i < |lines|
  {
    var end := FilledEnd(lines, i);
    PlainLine(lines[i].startTimeMs, end, SubLong(end, lines[i].startTimeMs), lines[i].words, lines[i].transliteratedWords)
  }

  function ToLyricsSpec(lines: seq<SpotifyLine>): seq<RichLyricLine> {
    seq(|lines|, i requires 0 <= i < |lines| => ConvertedLine(lines, i))
  }

  /** `LyricsData.toLyrics()`: the `mapIndexed` pass that fills the ends, then the `forEach` that builds the lines. */
  method ToLyrics(data: LyricsData) returns (lyrics: seq<RichLyricLine>)
    ensures lyrics == ToLyricsSpec(data.lines)
  {
    var lines := data.lines;
    var filled: seq<SpotifyLine> := [];
    for index := 0 to |lines|
      invariant |filled| == index
      invariant forall k :: 0 <= k < index ==> filled[k] == lines[k].(endTimeMs := FilledEnd(lines, k))
    {
      var line := lines[index];
      if line.endTimeMs == 0 {
        var end := if index + 1 < |lines| then lines[index + 1].startTimeMs else AddLong(line.startTimeMs, 5000);
        filled := filled + [line.(endTimeMs := end)];
      } else {
        filled := filled + [line];
      }
    }
    lyrics := [];
    for k := 0 to |filled|
      invariant |lyrics| == k
      invariant forall j :: 0 <= j < k ==> lyrics[j] == ConvertedLine(lines, j)
    {
      var line := filled[k];
      lyrics := lyrics + [PlainLine(line.startTimeMs, line.endTimeMs, SubLong(line.endTimeMs, line.startTimeMs),
                                    line.words, line.transliteratedWords)];
    }
  }

  /**
   * One output line per input line, in order: the begin, text and
   * translation are copied, a non-zero end is kept, a zero end becomes the
   * next line's start (or start + 5000 for the last line), and the duration
   * is end − begin whenever no `Long` arithmetic overflows.
   */
  lemma ToLyricsLines(lines: seq<SpotifyLine>, i: int)
    requires 0 <= i < |lines|
    ensures |ToLyricsSpec(lines)| == |lines|
    ensures var r := ToLyricsSpec(lines)[i];
      && r.begin == lines[i].startTimeMs
      && r.text == lines[i].words
      && r.translation == lines[i].transliteratedWords
      && (lines[i].endTimeMs != 0 ==> r.end == lines[i].endTimeMs)
      && (lines[i].endTimeMs == 0 && i + 1 < |lines| ==> r.end == lines[i + 1].startTimeMs)
      && (lines[i].endTimeMs == 0 && i + 1 == |lines| && IsLong(lines[i].startTimeMs + 5000) ==> r.end == lines[i].startTimeMs + 5000)
      && (IsLong(r.end - r.begin) ==> r.duration == r.end - r.begin)
      && r.words.None? && r.secondaryText.None? && !r.isAlignedRight
  {
  }

  /**
   * `LyricResponse.toSong(id)`: the id as given, name, artist and duration
   * from the cached metadata (none and 0 without it), and the converted lines.
   */
  function ToSong(response: LyricResponse, id: string, cache: MediaMetadataCache): (s: Song)
    reads cache
    ensures s.id == Some(id)
    ensures s.lyrics == Some(ToLyricsSpec(response.lyrics.lines))
    ensures id in cache.entries ==> s.name == cache.entries[id].title && s.artist == cache.entries[id].artist
                                    && s.duration == cache.entries[id].duration
    ensures id !in cache.entries ==> s.name.None? && s.artist.None? && s.duration == 0
  {
    var metadata := cache.Get(id);
    Song(Some(id),
         if metadata.Some? then metadata.value.title else None,
         if metadata.Some? then metadata.value.artist else None,
         if metadata.Some? then metadata.value.duration else 0,
         Some(ToLyricsSpec(response.lyrics.lines)),
         map[])
  }
}
