/**
 * The NetEase Cloud Music lyric parser: `parseLrc` and `parseYrc` turn the
 * LRC and YRC texts of a lyric response into entries sorted by start time,
 * and `toLyricInfo` picks the YRC lines when there are any (else the LRC
 * lines) and attaches the translations.
 *
 * Each operation is a method that follows the source's loops, proved equal
 * to a specification function; the lemmas state what the specification
 * promises.
 */
module CloudLyricParser {
  import opened Wrappers
  import opened KotlinText
  import opened StableSort
  import opened CloudLyricScan

  // =====================================================================
  // LRC

  /** `LrcEntry(start, text)`; `end` and `duration` are 0 until `parseLrc` fills them in. */
  datatype LrcEntry = LrcEntry(start: int, text: string, end: int, duration: int)

  function LrcStart(e: LrcEntry): int { e.start }

  /** Lines `parseLrc` skips before scanning: blank, or starting with "{" once trimmed. */
  predicate SkippedLrcLine(line: string) {
    IsBlank(line) || StartsWith(Trim(line), "{")
  }

  /** The times of the tags found by repeated `find()` calls from `from`, in order. */
  function TagTimesFrom(line: string, from: nat): (r: seq<int>)
    requires from <= |line|
    ensures forall k :: 0 <= k < |r| ==> 0 <= r[k] <= LRC_MAX_TIME
    decreases |line| - from
  {
    match FindLrcTag(line, from)
    case None => []
    case Some(t) => [t.Time()] + TagTimesFrom(line, t.end)
  }

  /** `matcher.end()` after the last successful `find()` from `from`; `last` when there is none. */
  function LastTagEnd(line: string, from: nat, last: nat): (e: nat)
    requires from <= |line| && last <= |line|
    ensures e <= |line|
    decreases |line| - from
  {
    match FindLrcTag(line, from)
    case None => last
    case Some(t) => LastTagEnd(line, t.end, t.end)
  }

  /** One fresh entry per time, all with the same text. */
  function EntriesAt(times: seq<int>, text: string): (r: seq<LrcEntry>)
    ensures |r| == |times|
    ensures forall k :: 0 <= k < |r| ==> r[k] == LrcEntry(times[k], text, 0, 0)
  {
    if times == [] then []
    else EntriesAt(times[..|times| - 1], text) + [LrcEntry(times[|times| - 1], text, 0, 0)]
  }

  /** The entries one line contributes: one per tag, sharing the trimmed text after the last tag. */
  function LrcLineEntries(line: string): seq<LrcEntry> {
    if SkippedLrcLine(line) then []
    else
      var times := TagTimesFrom(line, 0);
      if times == [] then []
      else
        var content := Trim(line[LastTagEnd(line, 0, 0)..]);
        if content == [] then [] else EntriesAt(times, content)
  }

  /** The entries of all lines, in line order, before sorting. */
  function RawLrcEntries(lines: seq<string>): seq<LrcEntry> {
    if lines == [] then []
    else RawLrcEntries(lines[..|lines| - 1]) + LrcLineEntries(lines[|lines| - 1])
  }

  /** Entry `i` of a sorted list with its end and duration filled in. */
  function EndAt(s: seq<LrcEntry>, i: nat): LrcEntry
    requires i < |s|
  {
    var end := if i < |s| - 1 then s[i + 1].start else AddLong(s[i].start, 10000);
    s[i].(end := end, duration := SubLong(end, s[i].start))
  }

  function WithEnds(s: seq<LrcEntry>): seq<LrcEntry> {
    seq(|s|, i requires 0 <= i < |s| => EndAt(s, i))
  }

  /** What `parseLrc(raw)` returns. */
  function ParseLrcSpec(raw: Option<string>): seq<LrcEntry> {
    if raw.None? || IsBlank(raw.value) then []
    else WithEnds(SortBy(RawLrcEntries(Lines(raw.value)), LrcStart))
  }

  /** `for (time in times) entries.add(LrcEntry(time, content))` */
  method EntriesFor(times: seq<int>, content: string) returns (entries: seq<LrcEntry>)
    ensures entries == EntriesAt(times, content)
  {
    entries := [];
    for k := 0 to |times|
      invariant entries == EntriesAt(times[..k], content)
    {
      assert times[..k + 1][..k] == times[..k];
      entries := entries + [LrcEntry(times[k], content, 0, 0)];
    }
    assert times[..|times|] == times;
  }

  /** The `while (matcher.find())` loop of `parseLrc`: every tag's time, and where the last one ends. */
  method TagScan(line: string) returns (times: seq<int>, lastEndIndex: nat)
    ensures times == TagTimesFrom(line, 0)
    ensures lastEndIndex == LastTagEnd(line, 0, 0)
  {
    lastEndIndex := 0;
    times := [];
    var m := FindLrcTag(line, 0);
    while m.Some?
      invariant lastEndIndex <= |line|
      invariant m == FindLrcTag(line, lastEndIndex)
      invariant times + TagTimesFrom(line, lastEndIndex) == TagTimesFrom(line, 0)
      invariant LastTagEnd(line, lastEndIndex, lastEndIndex) == LastTagEnd(line, 0, 0)
      decreases |line| - lastEndIndex
    {
      var tag := m.value;
      assert TagTimesFrom(line, lastEndIndex) == [tag.Time()] + TagTimesFrom(line, tag.end);
      times := times + [tag.Time()];
      lastEndIndex := tag.end;
      m := FindLrcTag(line, lastEndIndex);
    }
    assert times + [] == times;
  }

  /** The body of `parseLrc`'s `forEach` over the lines. */
  method ScanLrcLine(line: string) returns (entries: seq<LrcEntry>)
    ensures entries == LrcLineEntries(line)
  {
    entries := [];
    if IsBlank(line) || StartsWith(Trim(line), "{") {
      return;
    }
    var times, lastEndIndex := TagScan(line);
    if times != [] {
      var content := Trim(line[lastEndIndex..]);
      if content != [] {
        entries := EntriesFor(times, content);
      }
    }
  }

  /** `raw.lineSequence().forEach { … }` in `parseLrc`. */
  method ScanLrcLines(lines: seq<string>) returns (entries: seq<LrcEntry>)
    ensures entries == RawLrcEntries(lines)
  {
    entries := [];
    for li := 0 to |lines|
      invariant entries == RawLrcEntries(lines[..li])
    {
      assert lines[..li + 1][..li] == lines[..li];
      var lineEntries := ScanLrcLine(lines[li]);
      entries := entries + lineEntries;
    }
    assert lines[..|lines|] == lines;
  }

  /**
   * The last loop of `parseLrc`: each entry of the sorted list is updated in
   * place to end where the next one starts, the last one 10 seconds after its
   * own start.
   */
  method FillEnds(sorted: seq<LrcEntry>) returns (result: seq<LrcEntry>)
    ensures result == WithEnds(sorted)
  {
    var a := new LrcEntry[|sorted|](i requires 0 <= i < |sorted| => sorted[i]);
    for i := 0 to a.Length
      invariant forall k :: 0 <= k < i ==> a[k] == EndAt(sorted, k)
      invariant forall k :: i <= k < a.Length ==> a[k] == sorted[k]
    {
      var current := a[i];
      var end := if i < a.Length - 1 then a[i + 1].start else AddLong(current.start, 10000);
      a[i] := current.(end := end, duration := SubLong(end, current.start));
    }
    result := a[..];
  }

  /** `parseLrc`: scans every line for tags, sorts the entries and fills in their ends in place. */
  method ParseLrc(raw: Option<string>) returns (entries: seq<LrcEntry>)
    ensures entries == ParseLrcSpec(raw)
    ensures raw.None? || IsBlank(raw.value) ==> entries == []
  {
    entries := [];
    if raw.None? || IsBlank(raw.value) {
      return;
    }
    entries := ScanLrcLines(Lines(raw.value));
    var sorted := SortBy(entries, LrcStart);
    entries := FillEnds(sorted);
  }

  /** An entry as the scan creates it, before the end loop touches it. */
  predicate FreshEntry(e: LrcEntry) {
    0 <= e.start <= LRC_MAX_TIME && e.text != [] && e.end == 0 && e.duration == 0
  }

  /** Every entry a line contributes has a tag's time, the line's non-empty text, and no end yet. */
  lemma LrcLineEntriesFresh(line: string)
    ensures forall e :: e in LrcLineEntries(line) ==> FreshEntry(e)
  {
  }

  lemma {:induction false} RawLrcEntriesFresh(lines: seq<string>)
    ensures forall e :: e in RawLrcEntries(lines) ==> FreshEntry(e)
  {
    if lines != [] {
      RawLrcEntriesFresh(lines[..|lines| - 1]);
      LrcLineEntriesFresh(lines[|lines| - 1]);
    }
  }

  /** Sorting keeps every entry fresh: the sorted list holds the same entries. */
  lemma SortedFresh(raws: seq<LrcEntry>)
    requires forall e :: e in raws ==> FreshEntry(e)
    ensures forall i :: 0 <= i < |raws| ==> FreshEntry(SortBy(raws, LrcStart)[i])
  {
    var sorted := SortBy(raws, LrcStart);
    forall i | 0 <= i < |sorted| ensures FreshEntry(sorted[i]) {
      assert sorted[i] in multiset(raws);
    }
  }

  /**
   * The timing `parseLrc` promises: entries sorted by start, every start
   * within the range a tag can denote, each entry ending where the next one
   * starts, the last one 10 seconds after its own start, and every duration
   * the non-negative difference of end and start.
   */
  predicate TimedLrc(r: seq<LrcEntry>) {
    && SortedBy(r, LrcStart)
    && (forall i :: 0 <= i < |r| ==> 0 <= r[i].start <= LRC_MAX_TIME && r[i].text != [])
    && (forall i :: 0 <= i < |r| - 1 ==> r[i].end == r[i + 1].start)
    && (r != [] ==> r[|r| - 1].end == r[|r| - 1].start + 10000)
    && (forall i :: 0 <= i < |r| ==> r[i].duration == r[i].end - r[i].start >= 0)
  }

  /** The end loop keeps every start and text, and so the order. */
  lemma WithEndsKeepsStarts(sorted: seq<LrcEntry>)
    requires SortedBy(sorted, LrcStart)
    requires forall i :: 0 <= i < |sorted| ==> FreshEntry(sorted[i])
    ensures var r := WithEnds(sorted);
      && SortedBy(r, LrcStart)
      && (forall i :: 0 <= i < |r| ==> 0 <= r[i].start <= LRC_MAX_TIME && r[i].text != [])
  {
    var r := WithEnds(sorted);
    assert forall i :: 0 <= i < |r| ==> LrcStart(r[i]) == LrcStart(sorted[i]);
  }

  /** The end loop on a sorted list of fresh entries chains each end to the next start. */
  lemma WithEndsChains(sorted: seq<LrcEntry>)
    requires SortedBy(sorted, LrcStart)
    requires forall i :: 0 <= i < |sorted| ==> FreshEntry(sorted[i])
    ensures var r := WithEnds(sorted);
      && (forall i :: 0 <= i < |r| - 1 ==> r[i].end == r[i + 1].start)
      && (r != [] ==> r[|r| - 1].end == r[|r| - 1].start + 10000)
      && (forall i :: 0 <= i < |r| ==> r[i].duration == r[i].end - r[i].start >= 0)
  {
    var r := WithEnds(sorted);
    forall i | 0 <= i < |r|
      ensures r[i].duration == r[i].end - r[i].start >= 0
      ensures i == |r| - 1 ==> r[i].end == r[i].start + 10000
    {
      if i < |r| - 1 {
        assert LrcStart(sorted[i]) <= LrcStart(sorted[i + 1]);
      } else {
        AddLongNoOverflow(sorted[i].start, 10000);
      }
    }
  }

  lemma WithEndsTimed(sorted: seq<LrcEntry>)
    requires SortedBy(sorted, LrcStart)
    requires forall i :: 0 <= i < |sorted| ==> FreshEntry(sorted[i])
    ensures TimedLrc(WithEnds(sorted))
  {
    WithEndsKeepsStarts(sorted);
    WithEndsChains(sorted);
  }

  lemma ParseLrcTiming(raw: Option<string>)
    ensures TimedLrc(ParseLrcSpec(raw))
  {
    if raw.Some? && !IsBlank(raw.value) {
      var raws := RawLrcEntries(Lines(raw.value));
      RawLrcEntriesFresh(Lines(raw.value));
      SortedFresh(raws);
      WithEndsTimed(SortBy(raws, LrcStart));
    }
  }

  /** The entries with their end and duration cleared again. */
  function Unfilled(s: seq<LrcEntry>): seq<LrcEntry> {
    seq(|s|, i requires 0 <= i < |s| => s[i].(end := 0, duration := 0))
  }

  lemma UnfilledWithEnds(sorted: seq<LrcEntry>)
    requires forall i :: 0 <= i < |sorted| ==> FreshEntry(sorted[i])
    ensures Unfilled(WithEnds(sorted)) == sorted
  {
  }

  /**
   * `parseLrc` returns the scanned entries, each once, ordered by start; the
   * entries that share a start keep the order of their lines and tags.
   */
  lemma ParseLrcPermutation(raw: Option<string>, k: int)
    requires raw.Some? && !IsBlank(raw.value)
    ensures multiset(Unfilled(ParseLrcSpec(raw))) == multiset(RawLrcEntries(Lines(raw.value)))
    ensures WithKey(Unfilled(ParseLrcSpec(raw)), LrcStart, k) == WithKey(RawLrcEntries(Lines(raw.value)), LrcStart, k)
  {
    var raws := RawLrcEntries(Lines(raw.value));
    RawLrcEntriesFresh(Lines(raw.value));
    SortedFresh(raws);
    UnfilledWithEnds(SortBy(raws, LrcStart));
    SortByStable(raws, LrcStart, k);
  }

  // =====================================================================
  // YRC

  datatype YrcSyllable = YrcSyllable(start: int, end: int, duration: int, text: string)

  datatype YrcEntry = YrcEntry(start: int, end: int, duration: int, syllables: seq<YrcSyllable>)

  function SyllableStart(x: YrcSyllable): int { x.start }

  function YrcStart(e: YrcEntry): int { e.start }

  /** The syllables `parseYrc` keeps from the matches found from `from` on: those with text, ending at start + duration. */
  function KeptSyllables(content: string, from: nat): seq<YrcSyllable>
    requires from <= |content|
    decreases |content| - from
  {
    match FindSyllable(content, from)
    case None => []
    case Some(m) =>
      (if m.text == [] then [] else [YrcSyllable(m.groups.Start(), AddLong(m.groups.Start(), m.groups.Duration()), m.groups.Duration(), m.text)])
        + KeptSyllables(content, m.end)
  }

  /** Lines `parseYrc` skips: blank or starting with "{" once trimmed. */
  predicate SkippedYrcLine(trimLine: string) {
    IsBlank(trimLine) || StartsWith(trimLine, "{")
  }

  /** The entry one line contributes: none without a `[start,duration]` header. */
  function YrcLineEntry(line: string): Option<YrcEntry> {
    var trimLine := Trim(line);
    if SkippedYrcLine(trimLine) then None
    else
      match FindYrcHeader(trimLine, 0)
      case None => None
      case Some(h) =>
        var syllables := KeptSyllables(trimLine[h.end..], 0);
        Some(YrcEntry(h.groups.Start(), AddLong(h.groups.Start(), h.groups.Duration()), h.groups.Duration(), SortBy(syllables, SyllableStart)))
  }

  function RawYrcEntries(lines: seq<string>): seq<YrcEntry> {
    if lines == [] then []
    else
      var e := YrcLineEntry(lines[|lines| - 1]);
      RawYrcEntries(lines[..|lines| - 1]) + (if e.Some? then [e.value] else [])
  }

  /** One more line adds its entry, if it has one, at the end. */
  lemma RawYrcEntriesPrefix(lines: seq<string>, i: nat)
    requires i < |lines|
    ensures RawYrcEntries(lines[..i + 1])
         == RawYrcEntries(lines[..i]) + (if YrcLineEntry(lines[i]).Some? then [YrcLineEntry(lines[i]).value] else [])
  {
    assert lines[..i + 1][..i] == lines[..i];
  }

  /** What `parseYrc(raw)` returns. */
  function ParseYrcSpec(raw: Option<string>): seq<YrcEntry> {
    if raw.None? || IsBlank(raw.value) then []
    else SortBy(RawYrcEntries(Lines(raw.value)), YrcStart)
  }

  /** The syllable loop of `parseYrc`: `continue` on empty text, otherwise a syllable ending at start + duration. */
  method ScanSyllables(content: string) returns (syllables: seq<YrcSyllable>)
    ensures syllables == KeptSyllables(content, 0)
  {
    syllables := [];
    var from := 0;
    var m := FindSyllable(content, 0);
    while m.Some?
      invariant from <= |content|
      invariant m == FindSyllable(content, from)
      invariant syllables + KeptSyllables(content, from) == KeptSyllables(content, 0)
      decreases |content| - from
    {
      var sm := m.value;
      ghost var rest := KeptSyllables(content, sm.end);
      from := sm.end;
      m := FindSyllable(content, from);
      if sm.text == [] {
        assert [] + rest == rest;
        continue;
      }
      syllables := syllables + [YrcSyllable(sm.groups.Start(), AddLong(sm.groups.Start(), sm.groups.Duration()), sm.groups.Duration(), sm.text)];
    }
    assert syllables + [] == syllables;
  }

  /** The body of `parseYrc`'s `forEach` over the lines. */
  method ScanYrcLine(line: string) returns (entry: Option<YrcEntry>)
    ensures entry == YrcLineEntry(line)
  {
    var trimLine := Trim(line);
    if IsBlank(trimLine) || StartsWith(trimLine, "{") {
      return None;
    }
    var header := FindYrcHeader(trimLine, 0);
    if header.None? {
      return None;
    }
    var lineStart := header.value.groups.Start();
    var lineDuration := header.value.groups.Duration();
    var lineEnd := AddLong(lineStart, lineDuration);
    var syllables := ScanSyllables(trimLine[header.value.end..]);
    var sortedSyllables := SortBy(syllables, SyllableStart);
    entry := Some(YrcEntry(lineStart, lineEnd, lineDuration, sortedSyllables));
  }

  /** `parseYrc`: one entry per line with a header, sorted by start. */
  method ParseYrc(raw: Option<string>) returns (entries: seq<YrcEntry>)
    ensures entries == ParseYrcSpec(raw)
    ensures raw.None? || IsBlank(raw.value) ==> entries == []
  {
    entries := [];
    if raw.None? || IsBlank(raw.value) {
      return;
    }
    var lines := Lines(raw.value);
    for li := 0 to |lines|
      invariant entries == RawYrcEntries(lines[..li])
    {
      var entry := ScanYrcLine(lines[li]);
      RawYrcEntriesPrefix(lines, li);
      if entry.Some? {
        entries := entries + [entry.value];
      }
    }
    assert lines[..|lines|] == lines;
    entries := SortBy(entries, YrcStart);
  }

  /** What `parseYrc` promises of one entry: its end is start + duration, its syllables are sorted, non-empty and timed the same way. */
  predicate WellFormedYrc(e: YrcEntry) {
    && e.end == AddLong(e.start, e.duration)
    && SortedBy(e.syllables, SyllableStart)
    && forall x :: x in e.syllables ==> x.text != [] && x.end == AddLong(x.start, x.duration)
  }

  lemma {:induction false} KeptSyllablesTimed(content: string, from: nat)
    requires from <= |content|
    ensures forall x :: x in KeptSyllables(content, from) ==> x.text != [] && x.end == AddLong(x.start, x.duration)
    decreases |content| - from
  {
    if FindSyllable(content, from).Some? {
      KeptSyllablesTimed(content, FindSyllable(content, from).value.end);
    }
  }

  lemma YrcLineEntryWellFormed(line: string)
    ensures YrcLineEntry(line).Some? ==> WellFormedYrc(YrcLineEntry(line).value)
  {
    var trimLine := Trim(line);
    if !SkippedYrcLine(trimLine) && FindYrcHeader(trimLine, 0).Some? {
      var h := FindYrcHeader(trimLine, 0).value;
      var kept := KeptSyllables(trimLine[h.end..], 0);
      KeptSyllablesTimed(trimLine[h.end..], 0);
      forall x | x in SortBy(kept, SyllableStart) ensures x in kept {
        assert x in multiset(SortBy(kept, SyllableStart));
      }
    }
  }

  lemma {:induction false} RawYrcEntriesWellFormed(lines: seq<string>)
    ensures forall e :: e in RawYrcEntries(lines) ==> WellFormedYrc(e)
  {
    if lines != [] {
      RawYrcEntriesWellFormed(lines[..|lines| - 1]);
      YrcLineEntryWellFormed(lines[|lines| - 1]);
    }
  }

  /** The number of lines `parseYrc` keeps: those that are not skipped and carry a header. */
  function HeaderLines(lines: seq<string>): nat {
    if lines == [] then 0
    else HeaderLines(lines[..|lines| - 1]) + (if YrcLineEntry(lines[|lines| - 1]).Some? then 1 else 0)
  }

  lemma {:induction false} RawYrcEntriesCount(lines: seq<string>)
    ensures |RawYrcEntries(lines)| == HeaderLines(lines)
  {
    if lines != [] {
      RawYrcEntriesCount(lines[..|lines| - 1]);
    }
  }

  /**
   * `parseYrc` returns one well-formed entry per kept line, sorted by start,
   * the entries with equal starts in line order.
   */
  lemma ParseYrcProperties(raw: Option<string>, k: int)
    requires raw.Some? && !IsBlank(raw.value)
    ensures var r := ParseYrcSpec(raw);
      && SortedBy(r, YrcStart)
      && |r| == HeaderLines(Lines(raw.value))
      && (forall e :: e in r ==> WellFormedYrc(e))
      && multiset(r) == multiset(RawYrcEntries(Lines(raw.value)))
      && WithKey(r, YrcStart, k) == WithKey(RawYrcEntries(Lines(raw.value)), YrcStart, k)
  {
    var raws := RawYrcEntries(Lines(raw.value));
    RawYrcEntriesWellFormed(Lines(raw.value));
    RawYrcEntriesCount(Lines(raw.value));
    forall e | e in SortBy(raws, YrcStart) ensures WellFormedYrc(e) {
      assert e in multiset(SortBy(raws, YrcStart));
    }
    SortByStable(raws, YrcStart, k);
  }

  // =====================================================================
  // Lines and translations

  datatype LyricWord = LyricWord(start: int, end: int, duration: int, text: Option<string>)

  datatype LyricLine = LyricLine(
    start: int,
    end: int,
    duration: int,
    text: Option<string>,
    words: Option<seq<LyricWord>>,
    translation: Option<string>)

  /** The fields of the response `toLyricInfo` reads; each lyric text may be `null`. */
  datatype LyricResponse = LyricResponse(
    musicId: int,
    pureMusic: bool,
    lrc: Option<string>,
    yrc: Option<string>,
    lrcTranslateLyric: Option<string>,
    yrcTranslateLyric: Option<string>)

  datatype LyricInfo = LyricInfo(musicId: int, pureMusic: bool, lyrics: seq<LyricLine>)

  function WordOf(x: YrcSyllable): LyricWord {
    LyricWord(x.start, x.end, x.duration, Some(x.text))
  }

  function WordsOf(syllables: seq<YrcSyllable>): seq<LyricWord> {
    seq(|syllables|, i requires 0 <= i < |syllables| => WordOf(syllables[i]))
  }

  /** `words.joinToString("") { it.text.orEmpty() }` */
  function JoinWordTexts(words: seq<LyricWord>): string {
    if words == [] then "" else JoinWordTexts(words[..|words| - 1]) + words[|words| - 1].text.GetOr("")
  }

  /** The texts of the syllables, concatenated. */
  function SyllableTexts(syllables: seq<YrcSyllable>): string {
    if syllables == [] then "" else syllables[0].text + SyllableTexts(syllables[1..])
  }

  /** `YrcEntry.toLyricLine()` */
  function YrcLine(e: YrcEntry): LyricLine {
    var words := WordsOf(e.syllables);
    LyricLine(e.start, e.end, e.duration, Some(JoinWordTexts(words)), Some(words), None)
  }

  /** `LrcEntry.toLyricLine()` */
  function LrcLine(e: LrcEntry): LyricLine {
    LyricLine(e.start, e.end, e.duration, Some(e.text), None, None)
  }

  /** `YrcEntry.toLyricLine()`, building the word list one syllable at a time. */
  method ToLyricLine(e: YrcEntry) returns (line: LyricLine)
    ensures line == YrcLine(e)
  {
    var words: seq<LyricWord> := [];
    for i := 0 to |e.syllables|
      invariant |words| == i
      invariant forall k :: 0 <= k < i ==> words[k] == WordOf(e.syllables[k])
    {
      words := words + [WordOf(e.syllables[i])];
    }
    assert words == WordsOf(e.syllables);
    line := LyricLine(e.start, e.end, e.duration, Some(JoinWordTexts(words)), Some(words), None);
  }

  lemma {:induction false} JoinSyllableWords(syllables: seq<YrcSyllable>)
    ensures JoinWordTexts(WordsOf(syllables)) == SyllableTexts(syllables)
    decreases |syllables|
  {
    if syllables != [] {
      var n := |syllables|;
      var init := syllables[..n - 1];
      assert WordsOf(syllables)[..n - 1] == WordsOf(init);
      JoinSyllableWords(init);
      SyllableTextsSnoc(init, syllables[n - 1]);
      assert init + [syllables[n - 1]] == syllables;
    }
  }

  lemma {:induction false} SyllableTextsSnoc(syllables: seq<YrcSyllable>, x: YrcSyllable)
    ensures SyllableTexts(syllables + [x]) == SyllableTexts(syllables) + x.text
    decreases |syllables|
  {
    if syllables != [] {
      assert (syllables + [x])[1..] == syllables[1..] + [x];
      SyllableTextsSnoc(syllables[1..], x);
    }
  }

  /** A YRC line keeps the entry's timing, has one word per syllable, and its text is the syllables' texts joined. */
  lemma YrcLineShape(e: YrcEntry)
    ensures var line := YrcLine(e);
      && line.start == e.start && line.end == e.end && line.duration == e.duration
      && line.text == Some(SyllableTexts(e.syllables))
      && line.words.Some? && |line.words.value| == |e.syllables|
      && (forall i :: 0 <= i < |e.syllables| ==>
            line.words.value[i] == LyricWord(e.syllables[i].start, e.syllables[i].end, e.syllables[i].duration, Some(e.syllables[i].text)))
      && line.translation.None?
  {
    JoinSyllableWords(e.syllables);
  }

  /** `source.firstOrNull { line.start == it.start }` */
  function FirstWithStart(source: seq<LrcEntry>, start: int): (r: Option<LrcEntry>)
    ensures r.Some? ==> exists k :: 0 <= k < |source| && source[k] == r.value && r.value.start == start
                                    && forall j :: 0 <= j < k ==> source[j].start != start
    ensures r.None? ==> forall j :: 0 <= j < |source| ==> source[j].start != start
  {
    if source == [] then None
    else if source[0].start == start then Some(source[0])
    else
      var r := FirstWithStart(source[1..], start);
      if r.Some? then
        var k :| 0 <= k < |source[1..]| && source[1..][k] == r.value && r.value.start == start
                 && forall j :: 0 <= j < k ==> source[1..][j].start != start;
        assert source[k + 1] == r.value;
        r
      else r
  }

  /** A source that gives a line starting at `start` a translation: its first entry with that start has text. */
  predicate Translates(source: seq<LrcEntry>, start: int) {
    FirstWithStart(source, start).Some? && FirstWithStart(source, start).value.text != []
  }

  /**
   * The translation a line ends with after the sources are tried in order,
   * starting from `t`: each source that translates the line overwrites the
   * previous one (`return@forEach` only moves on to the next source).
   */
  function TranslationAfter(t: Option<string>, start: int, sources: seq<seq<LrcEntry>>): Option<string> {
    if sources == [] then t
    else
      var before := TranslationAfter(t, start, sources[..|sources| - 1]);
      var last := sources[|sources| - 1];
      if Translates(last, start) then Some(FirstWithStart(last, start).value.text) else before
  }

  function Attached(lines: seq<LyricLine>, sources: seq<seq<LrcEntry>>): seq<LyricLine> {
    seq(|lines|, i requires 0 <= i < |lines| =>
      lines[i].(translation := TranslationAfter(lines[i].translation, lines[i].start, sources)))
  }

  /** `attachTranslations`: for every line, every source in order, setting `line.translation` in place. */
  method AttachTranslations(lines: array<LyricLine>, sources: seq<seq<LrcEntry>>)
    modifies lines
    ensures lines[..] == Attached(old(lines[..]), sources)
  {
    ghost var original := lines[..];
    for i := 0 to lines.Length
      invariant forall k :: 0 <= k < i ==> lines[k] == Attached(original, sources)[k]
      invariant forall k :: i <= k < lines.Length ==> lines[k] == original[k]
    {
      for j := 0 to |sources|
        invariant lines[i] == original[i].(translation := TranslationAfter(original[i].translation, original[i].start, sources[..j]))
        invariant forall k :: 0 <= k < i ==> lines[k] == Attached(original, sources)[k]
        invariant forall k :: i < k < lines.Length ==> lines[k] == original[k]
      {
        assert sources[..j + 1][..j] == sources[..j];
        var translation := FirstWithStart(sources[j], lines[i].start);
        if translation.Some? && translation.value.text != [] {
          lines[i] := lines[i].(translation := Some(translation.value.text));
        }
      }
      assert sources[..|sources|] == sources;
    }
  }

  /** The last source that translates a line decides its translation. */
  lemma {:induction false} LastTranslationWins(t: Option<string>, start: int, sources: seq<seq<LrcEntry>>, j: nat)
    requires j < |sources| && Translates(sources[j], start)
    requires forall m :: j < m < |sources| ==> !Translates(sources[m], start)
    ensures TranslationAfter(t, start, sources) == Some(FirstWithStart(sources[j], start).value.text)
    decreases |sources|
  {
    if j < |sources| - 1 {
      LastTranslationWins(t, start, sources[..|sources| - 1], j);
    }
  }

  /** A line no source translates keeps the translation it had. */
  lemma {:induction false} NoTranslationKeeps(t: Option<string>, start: int, sources: seq<seq<LrcEntry>>)
    requires forall m :: 0 <= m < |sources| ==> !Translates(sources[m], start)
    ensures TranslationAfter(t, start, sources) == t
    decreases |sources|
  {
    if sources != [] {
      NoTranslationKeeps(t, start, sources[..|sources| - 1]);
    }
  }

  // =====================================================================
  // toLyricInfo

  /** The YRC lines when there are any, else the LRC lines. */
  function BaseLines(yrc: seq<YrcEntry>, lrc: seq<LrcEntry>): seq<LyricLine> {
    if yrc != [] then seq(|yrc|, i requires 0 <= i < |yrc| => YrcLine(yrc[i]))
    else seq(|lrc|, i requires 0 <= i < |lrc| => LrcLine(lrc[i]))
  }

  /** What `toLyricInfo(response)` returns: the translations are tried YRC translation first, LRC translation second. */
  function LyricInfoSpec(r: LyricResponse): LyricInfo {
    var lines := BaseLines(ParseYrcSpec(r.yrc), ParseLrcSpec(r.lrc));
    LyricInfo(r.musicId, r.pureMusic, Attached(lines, TranslationSources(r)))
  }

  /** `attachTranslations(lyrics, yrcTranslateLyric, lrcTranslateLyric)`: both translations parsed as LRC. */
  function TranslationSources(r: LyricResponse): seq<seq<LrcEntry>> {
    [ParseLrcSpec(r.yrcTranslateLyric), ParseLrcSpec(r.lrcTranslateLyric)]
  }

  /** The `forEach { lyrics.add(it.toLyricLine()) }` branches of `toLyricInfo`. */
  method CollectLines(yrc: seq<YrcEntry>, lrc: seq<LrcEntry>) returns (lyrics: seq<LyricLine>)
    ensures lyrics == BaseLines(yrc, lrc)
  {
    lyrics := [];
    if yrc != [] {
      for i := 0 to |yrc|
        invariant |lyrics| == i
        invariant forall k :: 0 <= k < i ==> lyrics[k] == YrcLine(yrc[k])
      {
        var line := ToLyricLine(yrc[i]);
        lyrics := lyrics + [line];
      }
    } else {
      for i := 0 to |lrc|
        invariant |lyrics| == i
        invariant forall k :: 0 <= k < i ==> lyrics[k] == LrcLine(lrc[k])
      {
        lyrics := lyrics + [LrcLine(lrc[i])];
      }
    }
  }

  /** The list `toLyricInfo` hands to `attachTranslations`, whose lines are updated in place. */
  method WithTranslations(lyrics: seq<LyricLine>, sources: seq<seq<LrcEntry>>) returns (result: seq<LyricLine>)
    ensures result == Attached(lyrics, sources)
  {
    var lines := new LyricLine[|lyrics|](i requires 0 <= i < |lyrics| => lyrics[i]);
    assert lines[..] == lyrics;
    AttachTranslations(lines, sources);
    result := lines[..];
  }

  /** `toLyricInfo` */
  method ToLyricInfo(response: LyricResponse) returns (info: LyricInfo)
    ensures info == LyricInfoSpec(response)
  {
    var lrc := ParseLrc(response.lrc);
    var yrc := ParseYrc(response.yrc);
    var lrcTranslateLyric := ParseLrc(response.lrcTranslateLyric);
    var yrcTranslateLyric := ParseLrc(response.yrcTranslateLyric);
    var lyrics := CollectLines(yrc, lrc);
    lyrics := WithTranslations(lyrics, [yrcTranslateLyric, lrcTranslateLyric]);
    info := LyricInfo(response.musicId, response.pureMusic, lyrics);
  }

  /** The translation `toLyricInfo` gives a line: the LRC translation's, else the YRC translation's, else none. */
  function ChosenTranslation(r: LyricResponse, start: int): Option<string> {
    var lrcTr := ParseLrcSpec(r.lrcTranslateLyric);
    var yrcTr := ParseLrcSpec(r.yrcTranslateLyric);
    if Translates(lrcTr, start) then Some(FirstWithStart(lrcTr, start).value.text)
    else if Translates(yrcTr, start) then Some(FirstWithStart(yrcTr, start).value.text)
    else None
  }

  /** With the two sources of `toLyricInfo`, the LRC translation wins over the YRC translation. */
  lemma TranslationChoice(r: LyricResponse, start: int)
    ensures TranslationAfter(None, start, TranslationSources(r)) == ChosenTranslation(r, start)
  {
    var sources := TranslationSources(r);
    assert sources[..1] == [sources[0]] && sources[..1][..0] == [];
    var afterYrc := TranslationAfter(None, start, sources[..1]);
    assert TranslationAfter(None, start, sources[..1][..0]) == None;
    assert afterYrc == if Translates(sources[0], start) then Some(FirstWithStart(sources[0], start).value.text) else None;
  }

  /**
   * With YRC entries, `toLyricInfo` yields one line per entry with the
   * entry's timing, its syllables as words, their texts joined as the text,
   * and the chosen translation.
   */
  lemma YrcLyricInfo(r: LyricResponse, i: int)
    requires 0 <= i < |ParseYrcSpec(r.yrc)|
    ensures LyricInfoSpec(r).musicId == r.musicId && LyricInfoSpec(r).pureMusic == r.pureMusic
    ensures |LyricInfoSpec(r).lyrics| == |ParseYrcSpec(r.yrc)|
    ensures var e := ParseYrcSpec(r.yrc)[i];
      LyricInfoSpec(r).lyrics[i]
        == LyricLine(e.start, e.end, e.duration, Some(SyllableTexts(e.syllables)), Some(WordsOf(e.syllables)),
                     ChosenTranslation(r, e.start))
  {
    var e := ParseYrcSpec(r.yrc)[i];
    JoinSyllableWords(e.syllables);
    TranslationChoice(r, e.start);
  }

  /** Without YRC entries, `toLyricInfo` yields one line per LRC entry, with the chosen translation. */
  lemma LrcLyricInfo(r: LyricResponse, i: int)
    requires ParseYrcSpec(r.yrc) == [] && 0 <= i < |ParseLrcSpec(r.lrc)|
    ensures LyricInfoSpec(r).musicId == r.musicId && LyricInfoSpec(r).pureMusic == r.pureMusic
    ensures |LyricInfoSpec(r).lyrics| == |ParseLrcSpec(r.lrc)|
    ensures var e := ParseLrcSpec(r.lrc)[i];
      LyricInfoSpec(r).lyrics[i] == LyricLine(e.start, e.end, e.duration, Some(e.text), None, ChosenTranslation(r, e.start))
  {
    TranslationChoice(r, ParseLrcSpec(r.lrc)[i].start);
  }
}
