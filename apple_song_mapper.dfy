/**
 * Apple Music's own song model and `AppleSongMapper`, which turns it into a
 * Lyricon `Song`: one rich line per Apple line, with the second singer's
 * lines aligned right. `mergeLyrics` flattens the parsed sections into the
 * song's line list.
 */
module AppleSongMapper {
  import opened Wrappers
  import opened Lyricon
  import opened AppleLyricAgent

  /** Apple's `LyricWord`: timing and the word's text. */
  datatype AppleWord = AppleWord(begin: int, end: int, duration: int, text: Option<string>)

  /** Apple's `LyricLine`: the singing agent's id, timing, text, words and the background vocals. */
  datatype AppleLine = AppleLine(
    agent: Option<string>,
    begin: int,
    duration: int,
    end: int,
    text: Option<string>,
    words: seq<AppleWord>,
    backgroundWords: seq<AppleWord>,
    backgroundText: Option<string>)

  /** A parsed lyric section; only its lines matter here. */
  datatype LyricSection = LyricSection(lines: seq<AppleLine>)

  /** The parsed `AppleSong`, as far as the mapper and the repository read it. */
  datatype AppleSong = AppleSong(
    adamId: Option<string>,
    name: Option<string>,
    artist: Option<string>,
    duration: int,
    lyrics: seq<AppleLine>,
    agents: seq<LyricAgent>)

  // ---------------------------------------------------------------------
  // mergeLyrics

  /** `sections.flatMap { it.lines }` */
  function MergeLyrics(sections: seq<LyricSection>): (r: seq<AppleLine>)
    ensures forall l :: l in r <==> exists i :: 0 <= i < |sections| && l in sections[i].lines
  {
    if sections == [] then []
    else
      var rest := MergeLyrics(sections[1..]);
      assert forall i :: 1 <= i < |sections| ==> sections[i] == sections[1..][i - 1];
      sections[0].lines + rest
  }

  /** The number of lines over all sections. */
  function TotalLines(sections: seq<LyricSection>): nat {
    if sections == [] then 0 else |sections[0].lines| + TotalLines(sections[1..])
  }

  /** Merging two runs of sections is merging each and concatenating, in order. */
  lemma {:induction false} MergeLyricsAppend(a: seq<LyricSection>, b: seq<LyricSection>)
    ensures MergeLyrics(a + b) == MergeLyrics(a) + MergeLyrics(b)
    decreases |a|
  {
    if a != [] {
      assert (a + b)[1..] == a[1..] + b;
      MergeLyricsAppend(a[1..], b);
    } else {
      assert a + b == b;
    }
  }

  /** The merged list is as long as all sections together. */
  lemma {:induction false} MergeLyricsLength(sections: seq<LyricSection>)
    ensures |MergeLyrics(sections)| == TotalLines(sections)
    decreases |sections|
  {
    if sections != [] {
      MergeLyricsLength(sections[1..]);
    }
  }

  /** A section without lines contributes nothing, wherever it stands. */
  lemma EmptySectionIgnored(a: seq<LyricSection>, b: seq<LyricSection>)
    ensures MergeLyrics(a + [LyricSection([])] + b) == MergeLyrics(a + b)
  {
    MergeLyricsAppend(a + [LyricSection([])], b);
    MergeLyricsAppend(a, [LyricSection([])]);
    MergeLyricsAppend(a, b);
    assert MergeLyrics([LyricSection([])]) == [] by {
      assert [LyricSection([])][1..] == [];
    }
  }

  /** The lines of a single section come out unchanged. */
  lemma SingleSection(s: LyricSection)
    ensures MergeLyrics([s]) == s.lines
  {
    assert [s][1..] == [];
  }

  // ---------------------------------------------------------------------
  // Agent directions

  datatype Direction = Default | Right

  predicate IsPerson(a: LyricAgent) {
    GetType(a.typeCode) == Some(Person)
  }

  /** `agents.filter { getType(it.type) == PERSON }` */
  function Persons(agents: seq<LyricAgent>): (r: seq<LyricAgent>)
    ensures |r| <= |agents|
    ensures forall a :: a in r <==> a in agents && IsPerson(a)
  {
    if agents == [] then []
    else if IsPerson(agents[0]) then [agents[0]] + Persons(agents[1..])
    else Persons(agents[1..])
  }

  /**
   * The direction map: empty unless there are two persons; otherwise the
   * first person's id, when present, goes left and the second's, when
   * present, goes right, the second winning when the ids coincide.
   */
  function AgentDirections(agents: seq<LyricAgent>): (m: map<string, Direction>)
    ensures |Persons(agents)| < 2 ==> m == map[]
    ensures forall k :: k in m ==> |Persons(agents)| >= 2 && (Some(k) == Persons(agents)[0].id || Some(k) == Persons(agents)[1].id)
    ensures forall k :: k in m && m[k] == Right <==> |Persons(agents)| >= 2 && Persons(agents)[1].id == Some(k)
    ensures forall k :: k in m && m[k] == Default <==>
              |Persons(agents)| >= 2 && Persons(agents)[0].id == Some(k) && Persons(agents)[1].id != Some(k)
  {
    var persons := Persons(agents);
    if |persons| < 2 then map[]
    else
      var left := if persons[0].id.Some? then map[persons[0].id.value := Default] else map[];
      if persons[1].id.Some? then left[persons[1].id.value := Right] else left
  }

  /**
   * `computeAgentDirections(agents)`: the map filled by the two conditional
   * puts, left first.
   */
  method ComputeAgentDirections(agents: seq<LyricAgent>) returns (directions: map<string, Direction>)
    ensures directions == AgentDirections(agents)
  {
    if agents == [] {
      return map[];
    }
    var persons := Persons(agents);
    if |persons| < 2 {
      return map[];
    }
    var leftAgentId := persons[0].id;
    var rightAgentId := persons[1].id;
    directions := map[];
    if leftAgentId.Some? {
      directions := directions[leftAgentId.value := Default];
    }
    if rightAgentId.Some? {
      directions := directions[rightAgentId.value := Right];
    }
  }

  // ---------------------------------------------------------------------
  // The mapping

  /** `toLyricWord()`: the same text and timing. */
  function ToLyricWord(w: AppleWord): (r: LyricWord)
    ensures r.text == w.text && r.begin == w.begin && r.end == w.end && r.duration == w.duration
  {
    LyricWord(w.begin, w.end, w.duration, w.text)
  }

  function ToLyricWords(ws: seq<AppleWord>): (r: seq<LyricWord>)
    ensures |r| == |ws|
    ensures forall i :: 0 <= i < |ws| ==> r[i] == ToLyricWord(ws[i])
  {
    seq(|ws|, i requires 0 <= i < |ws| => ToLyricWord(ws[i]))
  }

  /** Whether the line's agent is mapped to the right. A line without an agent never is. */
  predicate AlignedRight(agent: Option<string>, directions: map<string, Direction>) {
    agent.Some? && agent.value in directions && directions[agent.value] == Right
  }

  function ToRichLine(line: AppleLine, directions: map<string, Direction>): RichLyricLine {
    RichLyricLine(
      line.begin, line.end, line.duration,
      line.text, Some(ToLyricWords(line.words)),
      line.backgroundText, Some(ToLyricWords(line.backgroundWords)),
      None,
      AlignedRight(line.agent, directions))
  }

  /**
   * `convertLyrics(lines, agents)`: one rich line per Apple line, in order,
   * carrying its text, words, background text and words as the secondary
   * part, and its timing; right-aligned exactly when its agent is the
   * second person.
   */
  function ConvertLyrics(lines: seq<AppleLine>, agents: seq<LyricAgent>): (r: seq<RichLyricLine>)
    ensures |r| == |lines|
    ensures forall i :: 0 <= i < |lines| ==>
              && r[i].text == lines[i].text
              && r[i].words == Some(ToLyricWords(lines[i].words))
              && r[i].secondaryText == lines[i].backgroundText
              && r[i].secondaryWords == Some(ToLyricWords(lines[i].backgroundWords))
              && r[i].begin == lines[i].begin && r[i].end == lines[i].end && r[i].duration == lines[i].duration
              && r[i].translation.None?
    ensures forall i :: 0 <= i < |lines| ==>
              (r[i].isAlignedRight <==>
                 lines[i].agent.Some? && |Persons(agents)| >= 2 && Persons(agents)[1].id == lines[i].agent)
  {
    var directions := AgentDirections(agents);
    seq(|lines|, i requires 0 <= i < |lines| => ToRichLine(lines[i], directions))
  }

  /** With fewer than two persons among the agents, no line is aligned right. */
  lemma NoSecondPersonNoRight(lines: seq<AppleLine>, agents: seq<LyricAgent>)
    requires |Persons(agents)| < 2
    ensures forall l :: l in ConvertLyrics(lines, agents) ==> !l.isAlignedRight
  {
    var r := ConvertLyrics(lines, agents);
    forall l | l in r
      ensures !l.isAlignedRight
    {
      var i :| 0 <= i < |r| && r[i] == l;
    }
  }

  /** When the first two persons share an id, that id is aligned right. */
  lemma SharedIdGoesRight(agents: seq<LyricAgent>)
    requires |Persons(agents)| >= 2
    requires Persons(agents)[0].id == Persons(agents)[1].id && Persons(agents)[0].id.Some?
    ensures AgentDirections(agents) == map[Persons(agents)[0].id.value := Right]
  {
  }

  /** `map(song)` / `toSong()`: id, name, artist and duration copied, and the converted lines as lyrics. */
  function ToSong(song: AppleSong): (r: Song)
    ensures r.id == song.adamId && r.name == song.name && r.artist == song.artist && r.duration == song.duration
    ensures r.lyrics == Some(ConvertLyrics(song.lyrics, song.agents))
    ensures |r.lyrics.value| == |song.lyrics|
    ensures HasNoLyrics(r) <==> song.lyrics == []
  {
    Song(song.adamId, song.name, song.artist, song.duration, Some(ConvertLyrics(song.lyrics, song.agents)), map[])
  }
}
