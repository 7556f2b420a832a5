# LyricProvider, modelled in Dafny

LyricProvider is a set of Xposed modules. Each one runs inside a music player (NetEase Cloud Music, Spotify, QQ Music, Apple Music) and feeds the Lyricon lyric display. It watches the player's media session and internal objects. From them it builds a Lyricon `Song` with timed lyric lines and pushes it, together with the playback state and the position, to a remote player. This project models the logic behind those hooks:

- the NetEase lyric parser, which turns LRC and YRC text into sorted, timed lines and attaches translations;
- the Spotify converter, which fills in missing line ends;
- the Apple mapper, which sends the second singer's lines to the right;
- the small code tables and the header-array helper;
- the four metadata caches: three access-ordered `LinkedHashMap`s with capacities 50, 50 and 100, and Spotify's first-write-wins map;
- the per-provider state machines that decide what to push and when.

The remote player is a class holding an append-only log of the commands pushed to it. A coroutine job is a boolean field paired with a ghost count of live jobs, so "never two jobs" is an invariant. Disk stores are maps. Fetches, file reads and reflective getters are given to the model as inputs.

Modules follow the source files:

- `CloudLyricScan` and `CloudLyricParser` model `LyricParser.kt`.
- `SpotifyMetadataCache`, `SpotifyConverter`, `SpotifyDownloader` and `SpotifyProvider` model the Spotify files.
- `QQDownloader` and `QQMusic` model the QQ Music files.
- `CloudMetadataCacheKt`, `CloudMetadataCacheJava`, `CloudMusicKt`, `CloudMusicJava`, `NeteaseSong` and `PreferencesMonitor` model the two NetEase source sets.
- The `Apple…` modules model Apple Music.

Shared modules:

- `Wrappers` holds Option.
- `KotlinText` holds the Kotlin library semantics the code relies on: trimming, blank strings, `lineSequence`, `substringAfter`, `Long` printing and parsing, and two's-complement wrap-around.
- `AccessOrder` is the access-ordered map as an oldest-first sequence of pairs.
- `StableSort` is `sortedBy`, which is stable.
- `Lyricon` holds the Lyricon song model and the remote player.
- `AndroidMedia` and `NeteaseMeta` hold the values read from Android's `MediaMetadata` and NetEase's `BizMusicMeta`.

## Model

| member | source | states |
|---|---|---|
| KotlinText.WrapLong | clound-music/src/main/java/io/github/proify/lyricon/cmprovider/xposed/parser/LyricParser.kt:161 | The result is a `Long`, congruent to the input modulo 2^64, and equal to it when it already fits (two's-complement `Long` arithmetic). |
| KotlinText.WrapInt | apple-music/src/main/kotlin/io/github/proify/lyricon/amprovider/model/LyricAgent.kt:81-89 | The result is an `Int`, congruent modulo 2^32, and unchanged when it fits (`Int` arithmetic in `hashCode`). |
| KotlinText.AddLongNoOverflow | clound-music/src/main/java/io/github/proify/lyricon/cmprovider/xposed/parser/LyricParser.kt:161 | Without overflow, `Long` addition is exact and subtraction undoes it. |
| KotlinText.TrimStart | clound-music/src/main/java/io/github/proify/lyricon/cmprovider/xposed/parser/LyricParser.kt:124 | The result is a suffix of the input: everything dropped is whitespace and the result does not start with whitespace. |
| KotlinText.TrimEnd | clound-music/src/main/java/io/github/proify/lyricon/cmprovider/xposed/parser/LyricParser.kt:124 | The result is a prefix of the input: everything dropped is whitespace and the result does not end with whitespace. |
| KotlinText.Trim | clound-music/src/main/java/io/github/proify/lyricon/cmprovider/xposed/parser/LyricParser.kt:124 | `trim()` is the input with only whitespace removed from its two ends: an infix with whitespace before and after it, which itself neither starts nor ends with whitespace. |
| KotlinText.BlankIffTrimEmpty | clound-music/src/main/java/io/github/proify/lyricon/cmprovider/xposed/parser/LyricParser.kt:108 | `isBlank()` holds exactly when `trim()` leaves the empty string. |
| KotlinText.BlankTrimStart | clound-music/src/main/java/io/github/proify/lyricon/cmprovider/xposed/parser/LyricParser.kt:155 | Trimming a blank text from the start leaves nothing. |
| KotlinText.BreakIndex | clound-music/src/main/java/io/github/proify/lyricon/cmprovider/xposed/parser/LyricParser.kt:107 | It finds the first line break at or after the index, with no break before it. |
| KotlinText.Lines | clound-music/src/main/java/io/github/proify/lyricon/cmprovider/xposed/parser/LyricParser.kt:107 | `lineSequence()` gives at least one line, and no line contains a break character. |
| KotlinText.LinesJoin | clound-music/src/main/java/io/github/proify/lyricon/cmprovider/xposed/parser/LyricParser.kt:107 | For text without carriage returns, joining the lines with "\n" gives the text back, so no character is lost or added. |
| KotlinText.IndexOf | spotify-music/src/main/kotlin/io/github/proify/lyricon/spotifyprovider/xposed/MetadataCache.kt:17 | It returns the first occurrence at or after `from`, with none before it, or none at all. |
| KotlinText.SubstringAfter | spotify-music/src/main/kotlin/io/github/proify/lyricon/spotifyprovider/xposed/MetadataCache.kt:16-18 | `substringAfter(d, missing)` is the suffix after the first occurrence of `d` when there is one, and `missing` exactly when `d` does not occur. |
| KotlinText.DecimalValueBound | clound-music/src/main/kotlin/io/github/proify/lyricon/cmprovider/xposed/MediaMetadataCache.kt:57 | A run of n digits is worth less than 10^n. |
| KotlinText.DecimalOfNat | clound-music/src/main/kotlin/io/github/proify/lyricon/cmprovider/xposed/MediaMetadataCache.kt:57 | The decimal digits of a natural number read back as that number. |
| KotlinText.ParseLong | spotify-music/src/main/kotlin/io/github/proify/lyricon/spotifyprovider/xposed/Spotify.kt:91 | `toLong()` succeeds exactly on an optional sign followed by a non-empty run of digits whose value lies in the `Long` range, and then gives that signed value; other text fails. |
| KotlinText.ParseSignedDigits | spotify-music/src/main/kotlin/io/github/proify/lyricon/spotifyprovider/xposed/Spotify.kt:91 | An optional minus sign followed by digits parses to the signed value when it fits in a `Long`, and fails otherwise. |
| KotlinText.ParseLongToString | clound-music/src/main/kotlin/io/github/proify/lyricon/cmprovider/xposed/MediaMetadataCache.kt:57 | Printing a `Long` and parsing it back gives the same number. |
| KotlinText.LongToStringInjective | clound-music/src/main/kotlin/io/github/proify/lyricon/cmprovider/xposed/MediaMetadataCache.kt:57 | Distinct `Long` ids get distinct decimal keys. |
| KotlinText.DigitsToLongOrZero | clound-music/src/main/java/io/github/proify/lyricon/cmprovider/xposed/parser/LyricParser.kt:115-116 | `toLongOrNull() ?: 0` of a digit run is the run's value when it fits in a `Long`, and 0 otherwise. It is never negative. |
| Lyricon.AppendOther | apple-music/src/main/kotlin/io/github/proify/lyricon/amprovider/PlaybackManager.kt:93-96 | A command that is not a song push leaves the last pushed song and the number of pushes unchanged. |
| Lyricon.AppendSetSong | apple-music/src/main/kotlin/io/github/proify/lyricon/amprovider/PlaybackManager.kt:93-96 | After a song push, the last pushed song is that song, and the count of pushes grows by one. |
| Lyricon.RemotePlayer.constructor | apple-music/src/main/kotlin/io/github/proify/lyricon/amprovider/Apple.kt:98-109 | A new player has an empty command log. |
| Lyricon.RemotePlayer.SetSong | apple-music/src/main/kotlin/io/github/proify/lyricon/amprovider/PlaybackManager.kt:93-96 | `setSong` appends exactly its command, and the song becomes the last pushed one. |
| Lyricon.RemotePlayer.SetPlaybackState | apple-music/src/main/kotlin/io/github/proify/lyricon/amprovider/Apple.kt:214-225 | `setPlaybackState` appends exactly its command and leaves the last pushed song as it was. |
| Lyricon.RemotePlayer.SeekTo | apple-music/src/main/kotlin/io/github/proify/lyricon/amprovider/Apple.kt:191-194 | `seekTo` appends exactly its command and leaves the last pushed song as it was. |
| Lyricon.RemotePlayer.SetPositionUpdateInterval | apple-music/src/main/kotlin/io/github/proify/lyricon/amprovider/Apple.kt:247-253 | `setPositionUpdateInterval` appends exactly its command and leaves the last pushed song as it was. |
| Lyricon.RemotePlayer.SetDisplayTranslation | qq-music/src/main/kotlin/io/github/proify/lyricon/qmprovider/xposed/QQMusic.kt:157 | `setDisplayTranslation` appends exactly its command and leaves the last pushed song as it was. |
| Lyricon.RemotePlayer.SetPosition | apple-music/src/main/kotlin/io/github/proify/lyricon/amprovider/Apple.kt:230-238 | `setPosition` appends exactly its command and leaves the last pushed song as it was. |
| Lyricon.RemotePlayer.SetDisplayRoma | qq-music/src/main/kotlin/io/github/proify/lyricon/qmprovider/xposed/QQMusic.kt:158 | `setDisplayRoma` appends exactly its command and leaves the last pushed song as it was. |
| StableSort.InsertBy | clound-music/src/main/java/io/github/proify/lyricon/cmprovider/xposed/parser/LyricParser.kt:131 | Insertion adds exactly the one element: the length grows by one and the multiset gains that element. |
| StableSort.InsertBySorted | clound-music/src/main/java/io/github/proify/lyricon/cmprovider/xposed/parser/LyricParser.kt:131 | Inserting into a list sorted by key keeps it sorted. |
| StableSort.SortBy | clound-music/src/main/java/io/github/proify/lyricon/cmprovider/xposed/parser/LyricParser.kt:131 | `sortedBy` returns a permutation of its input (same multiset) that is sorted by the key. |
| StableSort.InsertByWithKey | clound-music/src/main/java/io/github/proify/lyricon/cmprovider/xposed/parser/LyricParser.kt:131 | Insertion keeps the relative order of the elements that share any one key. |
| StableSort.SortByStable | clound-music/src/main/java/io/github/proify/lyricon/cmprovider/xposed/parser/LyricParser.kt:131 | `sortedBy` is stable: the elements with any one key keep their input order. |
| ArrayExtensions.PairsBeforeKeys | common/src/main/kotlin/io/github/proify/lyricon/provider/common/extensions/ArrayExtensions.kt:15-18 | A string is a key of the map built from the first n elements exactly when some even index below n holds it as a non-null key. |
| ArrayExtensions.PairsBeforeLastWins | common/src/main/kotlin/io/github/proify/lyricon/provider/common/extensions/ArrayExtensions.kt:18 | A key's value is the value after its last occurrence: a later duplicate overwrites an earlier one. |
| ArrayExtensions.ToPairMap | common/src/main/kotlin/io/github/proify/lyricon/provider/common/extensions/ArrayExtensions.kt:12-21 | An empty array gives the empty map. The keys are exactly the non-null elements at even indices. Each key maps to the element after its last occurrence, with "" for a null or missing value. |
| AccessOrder.LookupAppend | clound-music/src/main/kotlin/io/github/proify/lyricon/cmprovider/xposed/MediaMetadataCache.kt:14-17 | A lookup in a concatenation finds the first part's entry before the second's. |
| AccessOrder.LookupRemove | clound-music/src/main/kotlin/io/github/proify/lyricon/cmprovider/xposed/MediaMetadataCache.kt:14-17 | Removing a key hides only that key. |
| AccessOrder.RemoveAbsent | clound-music/src/main/kotlin/io/github/proify/lyricon/cmprovider/xposed/MediaMetadataCache.kt:14-17 | Removing an absent key changes nothing. |
| AccessOrder.RemoveSubset | clound-music/src/main/kotlin/io/github/proify/lyricon/cmprovider/xposed/MediaMetadataCache.kt:14-17 | Removal adds no entry. |
| AccessOrder.LookupFound | clound-music/src/main/kotlin/io/github/proify/lyricon/cmprovider/xposed/MediaMetadataCache.kt:14-17 | A found value is stored in the sequence under its key. |
| AccessOrder.RemoveLength | clound-music/src/main/kotlin/io/github/proify/lyricon/cmprovider/xposed/MediaMetadataCache.kt:14-17 | Removing a present key from a map with distinct keys drops exactly one entry. |
| AccessOrder.RemoveDistinct | clound-music/src/main/kotlin/io/github/proify/lyricon/cmprovider/xposed/MediaMetadataCache.kt:14-17 | Removal keeps the keys distinct. |
| AccessOrder.SnocDistinct | clound-music/src/main/kotlin/io/github/proify/lyricon/cmprovider/xposed/MediaMetadataCache.kt:14-17 | Appending a new key keeps the keys distinct. |
| AccessOrder.LookupSnoc | clound-music/src/main/kotlin/io/github/proify/lyricon/cmprovider/xposed/MediaMetadataCache.kt:14-17 | An appended new key is found with its value, and other keys are unaffected. |
| AccessOrder.PutShape | clound-music/src/main/kotlin/io/github/proify/lyricon/cmprovider/xposed/MediaMetadataCache.kt:14-17 | `put` on an access-ordered map capped by `removeEldestEntry` keeps at most `cap` distinct keys. It binds the key and makes it the most recent entry, adding nothing else. A known key keeps the size. A new key grows the size, or, in a full map, evicts so the size stays at `cap`. |
| AccessOrder.PutOthers | clound-music/src/main/kotlin/io/github/proify/lyricon/cmprovider/xposed/MediaMetadataCache.kt:14-17 | Every other key keeps its value under `put`, except the eldest entry, which is dropped exactly when a new key arrives in a full map. |
| AccessOrder.TouchShape | clound-music/src/main/kotlin/io/github/proify/lyricon/cmprovider/xposed/MediaMetadataCache.kt:72 | `get` on an access-ordered map only reorders. Every lookup is unchanged, the size and key distinctness are kept, and a present key becomes the most recent entry. |
| AccessOrder.TouchNewest | apple-music/src/main/kotlin/io/github/proify/lyricon/amprovider/AppleMediaMetadata.kt:39 | A `get` of the key just put finds the value put and leaves the order unchanged. |
| CloudLyricScan.DigitRunEnd | clound-music/src/main/java/io/github/proify/lyricon/cmprovider/xposed/parser/LyricParser.kt:25-27 | It returns the end of the maximal run of ASCII digits (`\d`) starting at the index. |
| CloudLyricScan.PadEnd | clound-music/src/main/java/io/github/proify/lyricon/cmprovider/xposed/parser/LyricParser.kt:118 | `padEnd(n, c)` keeps the text and fills it with `c` up to length n. |
| CloudLyricScan.Take | clound-music/src/main/java/io/github/proify/lyricon/cmprovider/xposed/parser/LyricParser.kt:118 | `take(n)` is the prefix of the input of length min(n, length). |
| CloudLyricScan.FractionMillis | clound-music/src/main/java/io/github/proify/lyricon/cmprovider/xposed/parser/LyricParser.kt:117-118 | The fraction read as milliseconds is below 1000. |
| CloudLyricScan.FractionMillisValue | clound-music/src/main/java/io/github/proify/lyricon/cmprovider/xposed/parser/LyricParser.kt:117-118 | A fraction of one to three digits is right-padded to three digits ("5" is 500 ms, "05" is 50 ms). |
| CloudLyricScan.LrcTag.Time | clound-music/src/main/java/io/github/proify/lyricon/cmprovider/xposed/parser/LyricParser.kt:115-119 | A tag's time is min·60000 + sec·1000 + ms. It lies between 0 and [99:99.999]. |
| CloudLyricScan.LrcTagHead | clound-music/src/main/java/io/github/proify/lyricon/cmprovider/xposed/parser/LyricParser.kt:25 | `\[(\d{1,2}):(\d{1,2})` matches only with a bracket followed by 1-2 digits, a colon, and 1-2 digits. |
| CloudLyricScan.LrcTagTail | clound-music/src/main/java/io/github/proify/lyricon/cmprovider/xposed/parser/LyricParser.kt:25 | The optional `([.:](\d{1,3}))?` and the closing bracket give `group(4) ?: "0"` as digits, plus the match end. |
| CloudLyricScan.LrcTagAt | clound-music/src/main/java/io/github/proify/lyricon/cmprovider/xposed/parser/LyricParser.kt:25 | A match at a position starts there and ends within the line, and its groups are well formed. |
| CloudLyricScan.FindLrcTag | clound-music/src/main/java/io/github/proify/lyricon/cmprovider/xposed/parser/LyricParser.kt:114 | `find()` returns the match at the lowest position at or after its start, and reports none only when no position matches. |
| CloudLyricScan.LrcTagValue | clound-music/src/main/java/io/github/proify/lyricon/cmprovider/xposed/parser/LyricParser.kt:115-120 | `[mm:ss.fff]` and `[mm:ss:fff]` are matched, denote mm·60000 + ss·1000 + the padded fraction, and the scan resumes after the bracket. |
| CloudLyricScan.LrcTagValueNoFraction | clound-music/src/main/java/io/github/proify/lyricon/cmprovider/xposed/parser/LyricParser.kt:115-120 | `[mm:ss]` is matched and denotes mm·60000 + ss·1000. |
| CloudLyricScan.LrcTagHeadAt | clound-music/src/main/java/io/github/proify/lyricon/cmprovider/xposed/parser/LyricParser.kt:25 | The head of a tag is recognised at the given separators. |
| CloudLyricScan.DigitRunOver | clound-music/src/main/java/io/github/proify/lyricon/cmprovider/xposed/parser/LyricParser.kt:25-27 | A digit run that stops at a non-digit ends exactly there. |
| CloudLyricScan.YrcHeaderAt | clound-music/src/main/java/io/github/proify/lyricon/cmprovider/xposed/parser/LyricParser.kt:26 | A `[start,duration]` header match starts at the position and ends within the line. Its two groups are digit runs. Nothing matches at or past the end of the line. |
| CloudLyricScan.TimingGroups.Start | clound-music/src/main/java/io/github/proify/lyricon/cmprovider/xposed/parser/LyricParser.kt:159-168 | `group(1)?.toLongOrNull() ?: 0L` of a line header or a syllable is a non-negative `Long`. |
| CloudLyricScan.TimingGroups.Duration | clound-music/src/main/java/io/github/proify/lyricon/cmprovider/xposed/parser/LyricParser.kt:160-169 | `group(2)?.toLongOrNull() ?: 0L` of a line header or a syllable is a non-negative `Long`. |
| CloudLyricScan.FindYrcHeader | clound-music/src/main/java/io/github/proify/lyricon/cmprovider/xposed/parser/LyricParser.kt:158 | `find()` of the header returns the first match at or after its start, or none when no position matches. |
| CloudLyricScan.OpenParenFrom | clound-music/src/main/java/io/github/proify/lyricon/cmprovider/xposed/parser/LyricParser.kt:27 | It returns the first '(' at or after the index, which ends the `([^(]*)` text group. |
| CloudLyricScan.SyllableHead | clound-music/src/main/java/io/github/proify/lyricon/cmprovider/xposed/parser/LyricParser.kt:27 | `\((\d+),(\d+),\d+\)` matches three digit runs in order. |
| CloudLyricScan.SyllableAt | clound-music/src/main/java/io/github/proify/lyricon/cmprovider/xposed/parser/LyricParser.kt:27 | A syllable match starts at the position and ends within the line. Its start and duration groups are digit runs, and its text contains no '('. |
| CloudLyricScan.FindSyllable | clound-music/src/main/java/io/github/proify/lyricon/cmprovider/xposed/parser/LyricParser.kt:167 | Repeated `find()` returns the first syllable match at or after its start, or none. |
| CloudLyricParser.TagTimesFrom | clound-music/src/main/java/io/github/proify/lyricon/cmprovider/xposed/parser/LyricParser.kt:114-121 | Every time found by the tag loop lies in the range a tag can denote. |
| CloudLyricParser.LastTagEnd | clound-music/src/main/java/io/github/proify/lyricon/cmprovider/xposed/parser/LyricParser.kt:120 | The end of the last match lies within the line. |
| CloudLyricParser.EntriesAt | clound-music/src/main/java/io/github/proify/lyricon/cmprovider/xposed/parser/LyricParser.kt:126 | It gives one fresh entry per time, in order, all sharing the text. |
| CloudLyricParser.EntriesFor | clound-music/src/main/java/io/github/proify/lyricon/cmprovider/xposed/parser/LyricParser.kt:126 | The `times.forEach` loop builds exactly those entries. |
| CloudLyricParser.TagScan | clound-music/src/main/java/io/github/proify/lyricon/cmprovider/xposed/parser/LyricParser.kt:110-121 | The `while (matcher.find())` loop collects the time of every successive match and the end of the last one. |
| CloudLyricParser.ScanLrcLine | clound-music/src/main/java/io/github/proify/lyricon/cmprovider/xposed/parser/LyricParser.kt:108-127 | One line gives nothing when it is blank or starts with "{" once trimmed, or when it has no tag or no text after its last tag. Otherwise it gives one entry per tag, all with the trimmed text after the last tag. |
| CloudLyricParser.ScanLrcLines | clound-music/src/main/java/io/github/proify/lyricon/cmprovider/xposed/parser/LyricParser.kt:107-128 | The loop over `lineSequence()` concatenates the lines' entries in line order. |
| CloudLyricParser.FillEnds | clound-music/src/main/java/io/github/proify/lyricon/cmprovider/xposed/parser/LyricParser.kt:133-142 | The in-place index loop sets each entry's end to the next entry's start (the last: start + 10000), and sets duration = end − start. |
| CloudLyricParser.ParseLrc | clound-music/src/main/java/io/github/proify/lyricon/cmprovider/xposed/parser/LyricParser.kt:103-144 | `parseLrc` equals its specification. A null or blank input gives the empty list. |
| CloudLyricParser.LrcLineEntriesFresh | clound-music/src/main/java/io/github/proify/lyricon/cmprovider/xposed/parser/LyricParser.kt:123-127 | Every entry of a line has a tag's time, non-empty text and no end yet. |
| CloudLyricParser.RawLrcEntriesFresh | clound-music/src/main/java/io/github/proify/lyricon/cmprovider/xposed/parser/LyricParser.kt:107-128 | Every entry of every line is fresh in that sense. |
| CloudLyricParser.SortedFresh | clound-music/src/main/java/io/github/proify/lyricon/cmprovider/xposed/parser/LyricParser.kt:131 | Sorting keeps every entry fresh. |
| CloudLyricParser.WithEndsKeepsStarts | clound-music/src/main/java/io/github/proify/lyricon/cmprovider/xposed/parser/LyricParser.kt:133-142 | The end loop keeps every start and text, and so the order. |
| CloudLyricParser.WithEndsChains | clound-music/src/main/java/io/github/proify/lyricon/cmprovider/xposed/parser/LyricParser.kt:133-142 | Each end is the next start, the last one is start + 10000, and every duration is end − start ≥ 0. |
| CloudLyricParser.WithEndsTimed | clound-music/src/main/java/io/github/proify/lyricon/cmprovider/xposed/parser/LyricParser.kt:131-142 | A sorted list of fresh entries comes out of the end loop with the timing `parseLrc` promises. |
| CloudLyricParser.ParseLrcTiming | clound-music/src/main/java/io/github/proify/lyricon/cmprovider/xposed/parser/LyricParser.kt:103-144 | `parseLrc` output is sorted by start and every start is a tag time. Each entry ends where the next starts, the last 10 s after its start, and no duration is negative. |
| CloudLyricParser.UnfilledWithEnds | clound-music/src/main/java/io/github/proify/lyricon/cmprovider/xposed/parser/LyricParser.kt:133-142 | The end loop changes nothing but ends and durations. |
| CloudLyricParser.ParseLrcPermutation | clound-music/src/main/java/io/github/proify/lyricon/cmprovider/xposed/parser/LyricParser.kt:107-143 | `parseLrc` returns exactly the scanned entries, each once (same multiset). Entries with equal starts keep their line and tag order. |
| CloudLyricParser.ScanSyllables | clound-music/src/main/java/io/github/proify/lyricon/cmprovider/xposed/parser/LyricParser.kt:165-182 | The syllable loop keeps, in match order, every syllable with non-empty text, each ending at start + duration. |
| CloudLyricParser.ScanYrcLine | clound-music/src/main/java/io/github/proify/lyricon/cmprovider/xposed/parser/LyricParser.kt:154-186 | A trimmed line that is blank, starts with "{" or has no header gives nothing. Otherwise it gives an entry with the header's start, start + duration and duration, and the kept syllables sorted by start. |
| CloudLyricParser.ParseYrc | clound-music/src/main/java/io/github/proify/lyricon/cmprovider/xposed/parser/LyricParser.kt:149-191 | `parseYrc` equals its specification. A null or blank input gives the empty list. |
| CloudLyricParser.KeptSyllablesTimed | clound-music/src/main/java/io/github/proify/lyricon/cmprovider/xposed/parser/LyricParser.kt:172-180 | Every kept syllable has non-empty text and ends at start + duration. |
| CloudLyricParser.YrcLineEntryWellFormed | clound-music/src/main/java/io/github/proify/lyricon/cmprovider/xposed/parser/LyricParser.kt:159-185 | A line's entry ends at start + duration, and its syllables are sorted, non-empty and timed. |
| CloudLyricParser.RawYrcEntriesWellFormed | clound-music/src/main/java/io/github/proify/lyricon/cmprovider/xposed/parser/LyricParser.kt:153-187 | Every collected entry is well formed. |
| CloudLyricParser.RawYrcEntriesCount | clound-music/src/main/java/io/github/proify/lyricon/cmprovider/xposed/parser/LyricParser.kt:153-187 | There is exactly one entry per line that is not skipped and has a header. |
| CloudLyricParser.ParseYrcProperties | clound-music/src/main/java/io/github/proify/lyricon/cmprovider/xposed/parser/LyricParser.kt:149-191 | `parseYrc` returns one well-formed entry per kept line, sorted by start, as a permutation of the collected entries. Entries with equal starts stay in line order. |
| CloudLyricParser.ToLyricLine | clound-music/src/main/java/io/github/proify/lyricon/cmprovider/xposed/parser/LyricParser.kt:71-91 | The word-building loop yields exactly the specified YRC line. |
| CloudLyricParser.JoinSyllableWords | clound-music/src/main/java/io/github/proify/lyricon/cmprovider/xposed/parser/LyricParser.kt:89 | `joinToString("") { it.text.orEmpty() }` over the words is the concatenation of the syllable texts. |
| CloudLyricParser.SyllableTextsSnoc | clound-music/src/main/java/io/github/proify/lyricon/cmprovider/xposed/parser/LyricParser.kt:89 | Concatenating one more syllable appends its text. |
| CloudLyricParser.YrcLineShape | clound-music/src/main/java/io/github/proify/lyricon/cmprovider/xposed/parser/LyricParser.kt:71-91 | A YRC line keeps the entry's timing and has one word per syllable with the same timing and text. Its text is the syllables' texts joined. |
| CloudLyricParser.FirstWithStart | clound-music/src/main/java/io/github/proify/lyricon/cmprovider/xposed/parser/LyricParser.kt:62 | `firstOrNull { line.start == it.start }` returns the first entry with that start, or none when no entry has it. |
| CloudLyricParser.AttachTranslations | clound-music/src/main/java/io/github/proify/lyricon/cmprovider/xposed/parser/LyricParser.kt:58-69 | Every line's translation is set in place, trying each source in order. |
| CloudLyricParser.LastTranslationWins | clound-music/src/main/java/io/github/proify/lyricon/cmprovider/xposed/parser/LyricParser.kt:58-68 | The last source whose first same-start entry has non-empty text decides the translation, because `return@forEach` only moves on to the next source. |
| CloudLyricParser.NoTranslationKeeps | clound-music/src/main/java/io/github/proify/lyricon/cmprovider/xposed/parser/LyricParser.kt:58-68 | A line no source translates keeps its translation. |
| CloudLyricParser.CollectLines | clound-music/src/main/java/io/github/proify/lyricon/cmprovider/xposed/parser/LyricParser.kt:47-51 | The YRC entries become lines when there are any, and the LRC entries otherwise. |
| CloudLyricParser.WithTranslations | clound-music/src/main/java/io/github/proify/lyricon/cmprovider/xposed/parser/LyricParser.kt:53 | The list handed to `attachTranslations` comes back with the translations attached. |
| CloudLyricParser.ToLyricInfo | clound-music/src/main/java/io/github/proify/lyricon/cmprovider/xposed/parser/LyricParser.kt:34-56 | `toLyricInfo` equals its specification. |
| CloudLyricParser.TranslationChoice | clound-music/src/main/java/io/github/proify/lyricon/cmprovider/xposed/parser/LyricParser.kt:53-68 | With the sources (YRC translation, LRC translation), an LRC translation match overrides a YRC translation match. |
| CloudLyricParser.YrcLyricInfo | clound-music/src/main/java/io/github/proify/lyricon/cmprovider/xposed/parser/LyricParser.kt:34-91 | With YRC entries there is one line per entry, carrying the entry's timing, its syllables as words, their joined texts and the chosen translation. The id and pure-music flag are copied. |
| CloudLyricParser.LrcLyricInfo | clound-music/src/main/java/io/github/proify/lyricon/cmprovider/xposed/parser/LyricParser.kt:34-98 | Without YRC entries there is one line per LRC entry, carrying its timing, its text and the chosen translation. |
| SpotifyMetadataCache.TrackId | spotify-music/src/main/kotlin/io/github/proify/lyricon/spotifyprovider/xposed/MetadataCache.kt:16-18 | A track id is present exactly when a media id is. |
| SpotifyMetadataCache.TrackIdOfUri | spotify-music/src/main/kotlin/io/github/proify/lyricon/spotifyprovider/xposed/MetadataCache.kt:16-18 | "spotify:track:" followed by the rest yields the rest. |
| SpotifyMetadataCache.TrackIdWithoutPrefix | spotify-music/src/main/kotlin/io/github/proify/lyricon/spotifyprovider/xposed/MetadataCache.kt:16-19 | A media id without the prefix yields "", which counts as blank. |
| SpotifyMetadataCache.StoredDuration | spotify-music/src/main/kotlin/io/github/proify/lyricon/spotifyprovider/xposed/MetadataCache.kt:30 | A duration of 0 is stored as `Long.MAX_VALUE`, and any other duration unchanged. |
| SpotifyMetadataCache.MediaMetadataCache.constructor | spotify-music/src/main/kotlin/io/github/proify/lyricon/spotifyprovider/xposed/MetadataCache.kt:13 | The map starts empty. |
| SpotifyMetadataCache.MediaMetadataCache.Get | spotify-music/src/main/kotlin/io/github/proify/lyricon/spotifyprovider/xposed/MetadataCache.kt:35 | `get(id)` is the stored entry, or null when the id was never saved. |
| SpotifyMetadataCache.MediaMetadataCache.Save | spotify-music/src/main/kotlin/io/github/proify/lyricon/spotifyprovider/xposed/MetadataCache.kt:15-33 | A null or blank track id gives null and no change. A known id returns the cached entry unchanged (first write wins). Otherwise a new entry (stored duration) is stored under the id and returned. No entry is ever changed or evicted. |
| SpotifyConverter.ToLyrics | spotify-music/src/main/kotlin/io/github/proify/lyricon/spotifyprovider/xposed/Converter.kt:25-43 | The `mapIndexed` pass and the appending `forEach` build exactly the specified lines. |
| SpotifyConverter.ToLyricsLines | spotify-music/src/main/kotlin/io/github/proify/lyricon/spotifyprovider/xposed/Converter.kt:27-39 | There is one line per input line, in order. Begin, text and translation are copied. A non-zero end is kept, and a zero end becomes the next line's start, or start + 5000 for the last line. The duration is end − begin in `Long` arithmetic. |
| SpotifyConverter.ToSong | spotify-music/src/main/kotlin/io/github/proify/lyricon/spotifyprovider/xposed/Converter.kt:14-23 | The id is the argument, and the lyrics are the converted lines. Name, artist and duration come from the cached entry, or are null, null and 0 without one. |
| SpotifyDownloader.Pow2 | spotify-music/src/main/kotlin/io/github/proify/lyricon/spotifyprovider/xposed/Downloader.kt:49 | 2^k is positive. |
| SpotifyDownloader.LastAttempt | spotify-music/src/main/kotlin/io/github/proify/lyricon/spotifyprovider/xposed/Downloader.kt:39-48 | The job ends at the first attempt that succeeds, is a not-found, finds the coroutine inactive, or is attempt 3. Every earlier attempt is a retryable failure. |
| SpotifyDownloader.Downloader.constructor | spotify-music/src/main/kotlin/io/github/proify/lyricon/spotifyprovider/xposed/Downloader.kt:25 | No id is in flight and no callback has been made. |
| SpotifyDownloader.Downloader.Download | spotify-music/src/main/kotlin/io/github/proify/lyricon/spotifyprovider/xposed/Downloader.kt:35 | A job is launched exactly when `downloadingIds.add(id)` succeeds, that is, when the id was not in flight. No callback is made. |
| SpotifyDownloader.Downloader.RunJob | spotify-music/src/main/kotlin/io/github/proify/lyricon/spotifyprovider/xposed/Downloader.kt:37-56 | The retry loop makes exactly one callback, for the attempt that ends the job. It waits 100·2^k ms after each failed attempt k before it, and the id leaves the in-flight set. |
| SpotifyDownloader.AttemptsBounded | spotify-music/src/main/kotlin/io/github/proify/lyricon/spotifyprovider/xposed/Downloader.kt:22-49 | There are at most `MAX_RETRY_ATTEMPTS` + 1 = 4 attempts, and every earlier one is a retryable failure of an active job. |
| SpotifyDownloader.BackoffValues | spotify-music/src/main/kotlin/io/github/proify/lyricon/spotifyprovider/xposed/Downloader.kt:23-49 | The first wait is 100 ms and each wait doubles the previous one, so the three waits are 100, 200 and 400 ms. |
| SpotifyDownloader.OutcomeKinds | spotify-music/src/main/kotlin/io/github/proify/lyricon/spotifyprovider/xposed/Downloader.kt:41-47 | A success is reported as finished, and anything else that ends the job as failed. |
| SpotifyProvider.ReadPosition | spotify-music/src/main/kotlin/io/github/proify/lyricon/spotifyprovider/xposed/Spotify.kt:82-96 | The position is a `Long`, and 0 when the text is too short to hold `Optional.of(`…`)`. |
| SpotifyProvider.ReadPositionOfOptional | spotify-music/src/main/kotlin/io/github/proify/lyricon/spotifyprovider/xposed/Spotify.kt:89-91 | `Optional.of(n)` reads back as exactly n. |
| SpotifyProvider.ReadPositionEmpty | spotify-music/src/main/kotlin/io/github/proify/lyricon/spotifyprovider/xposed/Spotify.kt:84-95 | `Optional.empty` and "null" read as 0. |
| SpotifyProvider.CapturedHeader | spotify-music/src/main/kotlin/io/github/proify/lyricon/spotifyprovider/xposed/Spotify.kt:123-124 | A credential changes only to a non-blank value of its header. |
| SpotifyProvider.Spotify.constructor | spotify-music/src/main/kotlin/io/github/proify/lyricon/spotifyprovider/xposed/Spotify.kt:34-50 | Empty credentials, no track, not playing, no job and no pending pause. |
| SpotifyProvider.Spotify.OnHeaders | spotify-music/src/main/kotlin/io/github/proify/lyricon/spotifyprovider/xposed/Spotify.kt:117-125 | The header array's pair map replaces `AUTHORIZATION` and `CLIENT_TOKEN` only with non-blank values, and nothing else changes. |
| SpotifyProvider.Spotify.OnSetMetadata | spotify-music/src/main/kotlin/io/github/proify/lyricon/spotifyprovider/xposed/Spotify.kt:155-179 | The metadata is saved first-write-wins: a missing, blank or already cached id leaves the cache as it was, and a new id is stored as `Metadata(id, title, artist, duration)`. Nothing more happens without an id or when it is the current track. Otherwise the id becomes `trackId`, `Song(id, title, artist)` from the cached entry is pushed and a download is requested. |
| SpotifyProvider.Spotify.DispatchPlaybackState | spotify-music/src/main/kotlin/io/github/proify/lyricon/spotifyprovider/xposed/Spotify.kt:181-191 | Any pending pause is cancelled. PLAYING is applied at once: it pushes "playing" and starts the position job unless already playing, when nothing is pushed. PAUSED and STOPPED post a pause, and other states push nothing. |
| SpotifyProvider.Spotify.RunPendingPause | spotify-music/src/main/kotlin/io/github/proify/lyricon/spotifyprovider/xposed/Spotify.kt:42 | A pending pause clears the flag and stops playback: "not playing" is pushed and the job stopped when it was playing, and nothing is pushed otherwise. Without a pending pause nothing changes. |
| SpotifyProvider.Spotify.ApplyPlaybackUpdate | spotify-music/src/main/kotlin/io/github/proify/lyricon/spotifyprovider/xposed/Spotify.kt:193-205 | An unchanged state does nothing. A change is recorded and pushed, and the position job runs exactly while playing. |
| SpotifyProvider.Spotify.StartPositionSync | spotify-music/src/main/kotlin/io/github/proify/lyricon/spotifyprovider/xposed/Spotify.kt:65-75 | No second job is started while one exists. |
| SpotifyProvider.Spotify.StopPositionSync | spotify-music/src/main/kotlin/io/github/proify/lyricon/spotifyprovider/xposed/Spotify.kt:77-80 | The job is cancelled and the field cleared. |
| SpotifyProvider.Spotify.PositionTick | spotify-music/src/main/kotlin/io/github/proify/lyricon/spotifyprovider/xposed/Spotify.kt:68-72 | While playing, one turn of the job pushes the position read from the player state. |
| SpotifyProvider.Spotify.OnDownloadFinished | spotify-music/src/main/kotlin/io/github/proify/lyricon/spotifyprovider/xposed/Spotify.kt:207-214 | The converted song is pushed whatever the current track is. |
| SpotifyProvider.Spotify.RunDownload | spotify-music/src/main/kotlin/io/github/proify/lyricon/spotifyprovider/xposed/Downloader.kt:37-56 | A job run to its end frees its id and delivers its one callback. A finished download pushes its song, and a failure pushes nothing. |
| QQDownloader.LaunchAsWritten | qq-music/src/main/kotlin/io/github/proify/lyricon/qmprovider/xposed/Downloader.kt:17-35 | As written, the in-flight set is only read: it stays as it was, and a job is launched exactly when the id is absent. |
| QQDownloader.Launch | qq-music/src/main/kotlin/io/github/proify/lyricon/qmprovider/xposed/Downloader.kt:21-35 | Corrected: a job is launched exactly when the id is not in flight, and the id is then recorded. |
| QQDownloader.DuplicateLaunchAsWritten | qq-music/src/main/kotlin/io/github/proify/lyricon/qmprovider/xposed/Downloader.kt:17-33 | As written, two requests for one id both launch a job. |
| QQDownloader.DuplicateLaunchSuppressed | qq-music/src/main/kotlin/io/github/proify/lyricon/qmprovider/xposed/Downloader.kt:21-24 | Corrected, a second request for an id in flight launches nothing. |
| QQDownloader.DownloadManager.constructor | qq-music/src/main/kotlin/io/github/proify/lyricon/qmprovider/xposed/Downloader.kt:17 | Nothing is in flight. |
| QQDownloader.DownloadManager.Download | qq-music/src/main/kotlin/io/github/proify/lyricon/qmprovider/xposed/Downloader.kt:23-36 | It launches exactly when the id is not in flight and records the launch. This is the corrected guard of the Findings row; see "## Left out". |
| QQDownloader.DownloadManager.Complete | qq-music/src/main/kotlin/io/github/proify/lyricon/qmprovider/xposed/Downloader.kt:26-34 | A success calls `onDownloadFinished(response)` and an exception calls `onDownloadFailed(id)`. The id is removed whatever the outcome. |
| QQMusic.FilterTranslation | qq-music/src/main/kotlin/io/github/proify/lyricon/qmprovider/xposed/QQMusic.kt:299-300 | A translation that trims to "//" becomes null, and every other value is kept. |
| QQMusic.FilterTranslationIdempotent | qq-music/src/main/kotlin/io/github/proify/lyricon/qmprovider/xposed/QQMusic.kt:299-300 | Filtering twice is filtering once. |
| QQMusic.ToLyriconSong | qq-music/src/main/kotlin/io/github/proify/lyricon/qmprovider/xposed/QQMusic.kt:279-297 | One line per downloaded line, in order: start, end, duration and text copied, the filtered translation, and each word's start, end, duration and text copied. The song id is the response id; the cached title, artist and duration are used, or null, null and 0 without an entry. |
| QQMusic.PlaceholderSong | qq-music/src/main/kotlin/io/github/proify/lyricon/qmprovider/xposed/QQMusic.kt:249-259 | The id, the cached title and artist, no lyrics, and the metadata placeholder=true. |
| QQMusic.PlayerProcessHook.constructor | qq-music/src/main/kotlin/io/github/proify/lyricon/qmprovider/xposed/QQMusic.kt:95-101 | Not playing, no current id, no job and an empty disk cache. |
| QQMusic.PlayerProcessHook.OnPlaybackState | qq-music/src/main/kotlin/io/github/proify/lyricon/qmprovider/xposed/QQMusic.kt:121-125 | PLAYING starts playback: "playing" is pushed and the tracker launched unless already playing, when nothing is pushed. PAUSED and STOPPED always push "not playing" and stop the tracker. Other states change nothing. |
| QQMusic.PlayerProcessHook.OnSetMetadata | qq-music/src/main/kotlin/io/github/proify/lyricon/qmprovider/xposed/QQMusic.kt:134-144 | A missing, blank or current media id changes nothing and launches nothing. Otherwise the id becomes current and its disk-cached song (or the placeholder) is pushed. A download job for the id is launched, and recorded as in flight, unless one is already in flight (corrected guard); then nothing is launched. |
| QQMusic.PlayerProcessHook.RefreshActiveSong | qq-music/src/main/kotlin/io/github/proify/lyricon/qmprovider/xposed/QQMusic.kt:237-263 | The disk-cached song is pushed when there is one, and a placeholder otherwise. Either way its id is the current id. A download is requested each time: a job for the id is launched unless one is already in flight (corrected guard). Without a current id nothing is pushed or launched. |
| QQMusic.PlayerProcessHook.NotifyPlaybackStarted | qq-music/src/main/kotlin/io/github/proify/lyricon/qmprovider/xposed/QQMusic.kt:183-188 | While playing this is a no-op. Otherwise playing is recorded and pushed, and the tracker launched. |
| QQMusic.PlayerProcessHook.NotifyPlaybackStopped | qq-music/src/main/kotlin/io/github/proify/lyricon/qmprovider/xposed/QQMusic.kt:190-194 | It always records and pushes "not playing", and leaves no job. |
| QQMusic.PlayerProcessHook.LaunchPositionTracker | qq-music/src/main/kotlin/io/github/proify/lyricon/qmprovider/xposed/QQMusic.kt:196-204 | A job is never launched while one is recorded. |
| QQMusic.PlayerProcessHook.StopPositionTracker | qq-music/src/main/kotlin/io/github/proify/lyricon/qmprovider/xposed/QQMusic.kt:206-209 | The job is cancelled and the field cleared. |
| QQMusic.PlayerProcessHook.PositionTick | qq-music/src/main/kotlin/io/github/proify/lyricon/qmprovider/xposed/QQMusic.kt:199-201 | While playing, one turn of the tracker pushes the reported position. |
| QQMusic.PlayerProcessHook.OnDownloadFinished | qq-music/src/main/kotlin/io/github/proify/lyricon/qmprovider/xposed/QQMusic.kt:265-273 | The song is always cached, and pushed only when the response id is the current id. |
| QQMusic.PlayerProcessHook.RunDownload | qq-music/src/main/kotlin/io/github/proify/lyricon/qmprovider/xposed/Downloader.kt:26-34 | The job frees its id. A downloaded song is always cached under its id and pushed only when its id is current. A failure pushes and caches nothing. |
| QQMusic.PlayerProcessHook.OnSettingsChanged | qq-music/src/main/kotlin/io/github/proify/lyricon/qmprovider/xposed/QQMusic.kt:152-159 | The translation and romanisation switches are forwarded, and other keys are ignored. |
| QQMusic.PlayerProcessHook.SetupLyriconProvider | qq-music/src/main/kotlin/io/github/proify/lyricon/qmprovider/xposed/QQMusic.kt:163-181 | The new player is told the stored translation switch and then the romanisation switch, each `false` when absent, and nothing else. |
| CloudMetadataCacheKt.ResolveIdGetter | clound-music/src/main/kotlin/io/github/proify/lyricon/cmprovider/xposed/MediaMetadataCache.kt:35-42 | `getMatchedMusicId` is chosen exactly when the class declares it, and `getId` otherwise. |
| CloudMetadataCacheKt.ReadId | clound-music/src/main/kotlin/io/github/proify/lyricon/cmprovider/xposed/MediaMetadataCache.kt:52 | The id is read through the chosen getter. |
| CloudMetadataCacheKt.MediaMetadataCache.constructor | clound-music/src/main/kotlin/io/github/proify/lyricon/cmprovider/xposed/MediaMetadataCache.kt:14-22 | The cache is empty and no getter is resolved. |
| CloudMetadataCacheKt.MediaMetadataCache.Put | clound-music/src/main/kotlin/io/github/proify/lyricon/cmprovider/xposed/MediaMetadataCache.kt:32-69 | The getter is resolved on the first call only. Without a `Long` id the call returns null and leaves the cache unchanged. Otherwise the metadata (decimal id, duration 0 when absent) is put as the most recent entry within 50, and returned. |
| CloudMetadataCacheKt.MediaMetadataCache.GetMetadataById | clound-music/src/main/kotlin/io/github/proify/lyricon/cmprovider/xposed/MediaMetadataCache.kt:71-72 | It returns the stored value and makes it the most recent entry. |
| CloudMetadataCacheJava.MediaMetadataCache.constructor | clound-music/src/main/java/io/github/proify/lyricon/cmprovider/xposed/MediaMetadataCache.kt:19-22 | The cache is empty. |
| CloudMetadataCacheJava.MediaMetadataCache.PutAndGet | clound-music/src/main/java/io/github/proify/lyricon/cmprovider/xposed/MediaMetadataCache.kt:44-72 | The id is always read with `getId`. Without a `Long` the call returns null and makes no change. Otherwise the metadata is put under the decimal id as the most recent entry within 50, and returned. |
| CloudMetadataCacheJava.MediaMetadataCache.GetMetadataById | clound-music/src/main/java/io/github/proify/lyricon/cmprovider/xposed/MediaMetadataCache.kt:74-75 | It returns the stored value and makes it the most recent entry. An absent key gives null and changes nothing. |
| NeteaseSong.Placeholder | clound-music/src/main/java/io/github/proify/lyricon/cmprovider/xposed/CloudMusic.kt:183-188 | The placeholder carries the metadata's id, title, artist and duration, and no lyrics. |
| NeteaseSong.LoadedSong | clound-music/src/main/java/io/github/proify/lyricon/cmprovider/xposed/CloudMusic.kt:191-212 | The parsed song is used exactly when it has lyrics and is not pure music, and the placeholder otherwise. |
| NeteaseSong.NoLyricsKeepsPlaceholder | clound-music/src/main/java/io/github/proify/lyricon/cmprovider/xposed/CloudMusic.kt:203 | A missing file, a parse failure, empty lyrics or pure music keep the placeholder. |
| NeteaseSong.LyricsDifferentPushed | clound-music/src/main/java/io/github/proify/lyricon/cmprovider/xposed/CloudMusic.kt:222-233 | A song with lyrics is never skipped when it differs from the last one. |
| NeteaseSong.FirstSongSkipped | clound-music/src/main/java/io/github/proify/lyricon/cmprovider/xposed/CloudMusic.kt:224-229 | Before any push, only a lyric-less song without an id is skipped. |
| NeteaseSong.PlaceholderRepeatSkipped | clound-music/src/main/java/io/github/proify/lyricon/cmprovider/xposed/CloudMusic.kt:224-225 | A lyric-less song with the id of a lyric-less last song is skipped. |
| CloudMusicJava.CloudMusic.constructor | clound-music/src/main/java/io/github/proify/lyricon/cmprovider/xposed/CloudMusic.kt:43-62 | No current id, no last song, not playing and no load pending. |
| CloudMusicJava.CloudMusic.OnMetadataChanged | clound-music/src/main/java/io/github/proify/lyricon/cmprovider/xposed/CloudMusic.kt:298-301 | Without an id the cache and the loads are untouched. Otherwise the metadata is `put` into the access-ordered cache under the decimal id and the id becomes current. A new id cancels the tracked load and launches a load of that metadata as the new tracked job; the current id launches nothing. Nothing is pushed. |
| CloudMusicJava.CloudMusic.OnSongChanged | clound-music/src/main/java/io/github/proify/lyricon/cmprovider/xposed/CloudMusic.kt:157-170 | The current id is ignored. A new id becomes current, the previous loading job is cancelled, and one new load is launched as the loading job. |
| CloudMusicJava.CloudMusic.OnFileChanged | clound-music/src/main/java/io/github/proify/lyricon/cmprovider/xposed/CloudMusic.kt:139-152 | A file named after the current id `get`s the cache. When the metadata is cached, a reload of exactly that metadata is launched, and it is not the tracked loading job. Any other file, or an absent entry, launches nothing and leaves the tickets as they were. |
| CloudMusicJava.CloudMusic.FinishLoad | clound-music/src/main/java/io/github/proify/lyricon/cmprovider/xposed/CloudMusic.kt:191-219 | A cancelled load does nothing. A load whose id is no longer current pushes nothing, so stale results are dropped. Otherwise the loaded song goes through `setSong`. |
| CloudMusicJava.CloudMusic.SetSong | clound-music/src/main/java/io/github/proify/lyricon/cmprovider/xposed/CloudMusic.kt:222-234 | A song equal to the last one, or lyric-less with a lyric-less last song of the same id, is skipped. Otherwise it becomes `lastSong` and is pushed. |
| CloudMusicJava.CloudMusic.StartSyncAction | clound-music/src/main/java/io/github/proify/lyricon/cmprovider/xposed/CloudMusic.kt:236-241 | While playing this is a no-op. Otherwise playing is recorded and pushed, and one progress job started. |
| CloudMusicJava.CloudMusic.StopSyncAction | clound-music/src/main/java/io/github/proify/lyricon/cmprovider/xposed/CloudMusic.kt:243-247 | It records and pushes "not playing", and leaves no job. |
| CloudMusicJava.CloudMusic.ResumeCoroutineTask | clound-music/src/main/java/io/github/proify/lyricon/cmprovider/xposed/CloudMusic.kt:249-258 | No second job is launched while one is active. |
| CloudMusicJava.CloudMusic.PauseCoroutineTask | clound-music/src/main/java/io/github/proify/lyricon/cmprovider/xposed/CloudMusic.kt:260-263 | The job is cancelled and forgotten. |
| CloudMusicJava.CloudMusic.PositionTick | clound-music/src/main/java/io/github/proify/lyricon/cmprovider/xposed/CloudMusic.kt:252-256 | While playing, one turn of the job pushes the position. |
| CloudMusicJava.CloudMusic.OnPlaybackStatusChanged | clound-music/src/main/java/io/github/proify/lyricon/cmprovider/xposed/CloudMusic.kt:313-318 | Status 3 starts syncing: "playing" is pushed and the job started unless already playing, when nothing is pushed. Status 2 stops it and always pushes "not playing". Other statuses change nothing. |
| CloudMusicJava.CloudMusic.SetupProvider | clound-music/src/main/java/io/github/proify/lyricon/cmprovider/xposed/CloudMusic.kt:116-133 | The new provider's player is sent the update interval and then whether translations are selected. |
| CloudMusicJava.CloudMusic.OnTranslationOptionChanged | clound-music/src/main/java/io/github/proify/lyricon/cmprovider/xposed/CloudMusic.kt:74-78 | A change of the translation option is forwarded to the player. |
| CloudMusicKt.PlayProgressHooker.constructor | clound-music/src/main/kotlin/io/github/proify/lyricon/cmprovider/xposed/CloudMusic.kt:48-58 | No current id, no last song and not playing. |
| CloudMusicKt.PlayProgressHooker.OnMetadataChanged | clound-music/src/main/kotlin/io/github/proify/lyricon/cmprovider/xposed/CloudMusic.kt:252-254 | The metadata is `put` into the access-ordered cache under the id read by the resolved getter; without a readable id the cache is unchanged and nothing else happens. Otherwise the decimal id becomes current and, unless it already was or `setSong` skips it, the loaded song (the parsed one, or the placeholder built from the metadata) is pushed. |
| CloudMusicKt.PlayProgressHooker.OnSongChanged | clound-music/src/main/kotlin/io/github/proify/lyricon/cmprovider/xposed/CloudMusic.kt:138-143 | The current id is ignored. A new id becomes current and its song is loaded and set at once. |
| CloudMusicKt.PlayProgressHooker.OnFileChanged | clound-music/src/main/kotlin/io/github/proify/lyricon/cmprovider/xposed/CloudMusic.kt:127-133 | Nothing happens without a current id and a matching file name. A matching name `get`s the cache (reordering it only); with cached metadata, the song loaded from the file (or the cached metadata's placeholder) is pushed unless `setSong` skips it. |
| CloudMusicKt.PlayProgressHooker.PerformSyncLoad | clound-music/src/main/kotlin/io/github/proify/lyricon/cmprovider/xposed/CloudMusic.kt:148-177 | The parsed song, if it has lyrics and is not pure music, goes through `setSong`, and the metadata placeholder otherwise. |
| CloudMusicKt.PlayProgressHooker.SetSong | clound-music/src/main/kotlin/io/github/proify/lyricon/cmprovider/xposed/CloudMusic.kt:179-190 | A song equal to `lastSong`, or lyric-less with a lyric-less last song of the same id, is skipped. Otherwise it is recorded and pushed. |
| CloudMusicKt.PlayProgressHooker.StartSyncAction | clound-music/src/main/kotlin/io/github/proify/lyricon/cmprovider/xposed/CloudMusic.kt:194-199 | While playing this is a no-op. Otherwise playing is recorded and pushed, and one job started. |
| CloudMusicKt.PlayProgressHooker.StopSyncAction | clound-music/src/main/kotlin/io/github/proify/lyricon/cmprovider/xposed/CloudMusic.kt:201-205 | It records and pushes "not playing", and leaves no job. |
| CloudMusicKt.PlayProgressHooker.ResumeCoroutineTask | clound-music/src/main/kotlin/io/github/proify/lyricon/cmprovider/xposed/CloudMusic.kt:207-216 | No second job is launched while one is active. |
| CloudMusicKt.PlayProgressHooker.PauseCoroutineTask | clound-music/src/main/kotlin/io/github/proify/lyricon/cmprovider/xposed/CloudMusic.kt:218-221 | The job is cancelled and forgotten. |
| CloudMusicKt.PlayProgressHooker.PositionTick | clound-music/src/main/kotlin/io/github/proify/lyricon/cmprovider/xposed/CloudMusic.kt:210-214 | While playing, one turn of the job pushes the position. |
| CloudMusicKt.PlayProgressHooker.OnPlaybackStatusChanged | clound-music/src/main/kotlin/io/github/proify/lyricon/cmprovider/xposed/CloudMusic.kt:264-270 | Status 3 starts syncing: "playing" is pushed and the job started unless already playing, when nothing is pushed. Status 2 stops it and always pushes "not playing". Other statuses change nothing. |
| CloudMusicKt.PlayProgressHooker.SetupProvider | clound-music/src/main/kotlin/io/github/proify/lyricon/cmprovider/xposed/CloudMusic.kt:105-122 | The new provider's player is sent whether translations are selected. |
| CloudMusicKt.PlayProgressHooker.OnTranslationOptionChanged | clound-music/src/main/kotlin/io/github/proify/lyricon/cmprovider/xposed/CloudMusic.kt:67-71 | A change of the translation option is forwarded to the player. |
| PreferencesMonitor.SharedPreferences.constructor | clound-music/src/main/java/io/github/proify/lyricon/cmprovider/xposed/PreferencesMonitor.kt:21 | New preferences carry the given values and no listener. |
| PreferencesMonitor.ShowLyricSetting | clound-music/src/main/java/io/github/proify/lyricon/cmprovider/xposed/PreferencesMonitor.kt:65 | `getInt("showLyricSetting", -1)` is −1 for a missing key. |
| PreferencesMonitor.NotSelectedByDefault | clound-music/src/main/java/io/github/proify/lyricon/cmprovider/xposed/PreferencesMonitor.kt:64-65 | Null preferences or a missing key select no translation. |
| PreferencesMonitor.SelectedValues | clound-music/src/main/java/io/github/proify/lyricon/cmprovider/xposed/PreferencesMonitor.kt:64-65 | Translations are selected exactly when the stored value is 0 or 1. |
| PreferencesMonitor.Monitor.constructor | clound-music/src/main/java/io/github/proify/lyricon/cmprovider/xposed/PreferencesMonitor.kt:17-42 | There are no preferences, no resolved getter and no callbacks yet. |
| PreferencesMonitor.Monitor.Update | clound-music/src/main/java/io/github/proify/lyricon/cmprovider/xposed/PreferencesMonitor.kt:51-55 | The getter is resolved, the listener is unregistered from the old preferences, and the cache is cleared. |
| PreferencesMonitor.Monitor.LazyGetSharedPreferences | clound-music/src/main/java/io/github/proify/lyricon/cmprovider/xposed/PreferencesMonitor.kt:57-62 | Cached preferences are returned unchanged. Otherwise the fetched ones are cached and get the listener. |
| PreferencesMonitor.Monitor.TranslationSelected | clound-music/src/main/java/io/github/proify/lyricon/cmprovider/xposed/PreferencesMonitor.kt:64-65 | The answer is the range check on the lazily fetched preferences. |
| PreferencesMonitor.Monitor.OnSharedPreferenceChanged | clound-music/src/main/java/io/github/proify/lyricon/cmprovider/xposed/PreferencesMonitor.kt:44-49 | Only a change of "showLyricSetting" calls back, with the recomputed value. |
| AppleLyricAgent.NameType.Code | apple-music/src/main/kotlin/io/github/proify/lyricon/amprovider/model/LyricAgent.kt:50-57 | Name-type codes are 0..5. |
| AppleLyricAgent.AgentType.Code | apple-music/src/main/kotlin/io/github/proify/lyricon/amprovider/model/LyricAgent.kt:59-66 | Agent-type codes are 0..5. |
| AppleLyricAgent.FirstWithCode | apple-music/src/main/kotlin/io/github/proify/lyricon/amprovider/model/LyricAgent.kt:41-47 | `entries.firstOrNull { it.type == code }` returns a table entry with the code, or none when no entry has it. |
| AppleLyricAgent.GetNameTypeName | apple-music/src/main/kotlin/io/github/proify/lyricon/amprovider/model/LyricAgent.kt:41-57 | It returns the name type with that code, and null exactly for codes outside 0..5. |
| AppleLyricAgent.GetType | apple-music/src/main/kotlin/io/github/proify/lyricon/amprovider/model/LyricAgent.kt:45-66 | It returns the agent type with that code, and null exactly for codes outside 0..5. |
| AppleLyricAgent.NameTypeRoundTrip | apple-music/src/main/kotlin/io/github/proify/lyricon/amprovider/model/LyricAgent.kt:41-57 | Every name type is found again from its code. |
| AppleLyricAgent.AgentTypeRoundTrip | apple-music/src/main/kotlin/io/github/proify/lyricon/amprovider/model/LyricAgent.kt:45-66 | Every agent type is found again from its code. |
| AppleLyricAgent.NameTypeLabelEmpty | apple-music/src/main/kotlin/io/github/proify/lyricon/amprovider/model/LyricAgent.kt:33-39 | The label is "" exactly for an unknown code. |
| AppleLyricAgent.GetNameTypesNames | apple-music/src/main/kotlin/io/github/proify/lyricon/amprovider/model/LyricAgent.kt:33-39 | The result has the same length as the input. Position i holds the label of code i, and is "" exactly when the code is unknown. |
| AppleLyricAgent.Equals | apple-music/src/main/kotlin/io/github/proify/lyricon/amprovider/model/LyricAgent.kt:68-79 | `equals` holds exactly for structurally equal agents, with arrays compared by content. |
| AppleLyricAgent.XorZero | apple-music/src/main/kotlin/io/github/proify/lyricon/amprovider/model/LyricAgent.kt:83 | x xor 0 = x. |
| AppleLyricAgent.XorSelf | apple-music/src/main/kotlin/io/github/proify/lyricon/amprovider/model/LyricAgent.kt:83 | x xor x = 0. |
| AppleLyricAgent.LongHash | apple-music/src/main/kotlin/io/github/proify/lyricon/amprovider/model/LyricAgent.kt:83 | `Long.hashCode()` is an `Int`. |
| AppleLyricAgent.LongHashSmall | apple-music/src/main/kotlin/io/github/proify/lyricon/amprovider/model/LyricAgent.kt:83 | A type code in 0..Int.MAX hashes to itself. |
| AppleLyricAgent.StringHash | apple-music/src/main/kotlin/io/github/proify/lyricon/amprovider/model/LyricAgent.kt:86-88 | `String.hashCode()` is an `Int`. |
| AppleLyricAgent.IntArrayHash | apple-music/src/main/kotlin/io/github/proify/lyricon/amprovider/model/LyricAgent.kt:84 | `contentHashCode()` of an int array is an `Int`. |
| AppleLyricAgent.StringArrayHash | apple-music/src/main/kotlin/io/github/proify/lyricon/amprovider/model/LyricAgent.kt:85 | `contentHashCode()` of a string array is an `Int`. |
| AppleLyricAgent.OptionalStringHash | apple-music/src/main/kotlin/io/github/proify/lyricon/amprovider/model/LyricAgent.kt:86-87 | `?.hashCode() ?: 0` is an `Int`, and 0 for null. |
| AppleLyricAgent.WrapIntCongruent | apple-music/src/main/kotlin/io/github/proify/lyricon/amprovider/model/LyricAgent.kt:81-89 | Values congruent modulo 2^32 wrap to the same `Int`. |
| AppleLyricAgent.ModShift | apple-music/src/main/kotlin/io/github/proify/lyricon/amprovider/model/LyricAgent.kt:81-89 | Adding a multiple of 2^32 does not change the wrapped value. |
| AppleLyricAgent.WrapIntStep | apple-music/src/main/kotlin/io/github/proify/lyricon/amprovider/model/LyricAgent.kt:81-89 | Wrapping after every step of `31 * result + h` equals wrapping once at the end. |
| AppleLyricAgent.HornerWrap | apple-music/src/main/kotlin/io/github/proify/lyricon/amprovider/model/LyricAgent.kt:81-89 | Reducing into `Int` after each of the four `31 * result + h` steps gives the same value as reducing the closed form once. |
| AppleLyricAgent.HashCode | apple-music/src/main/kotlin/io/github/proify/lyricon/amprovider/model/LyricAgent.kt:81-89 | The accumulating loop yields an `Int` equal to the closed form 31^4·h0 + 31^3·h1 + 31^2·h2 + 31·h3 + h4, wrapped to 32 bits. |
| AppleLyricAgent.EqualsConsistentWithHash | apple-music/src/main/kotlin/io/github/proify/lyricon/amprovider/model/LyricAgent.kt:68-89 | Agents that are `equals` have equal hash codes. |
| ApplePlaybackState.AssociateByValue | apple-music/src/main/kotlin/io/github/proify/lyricon/amprovider/PlaybackState.kt:26 | `associateBy { it.value }` has exactly the entries' values as keys, each mapped to its entry. |
| ApplePlaybackState.Of | apple-music/src/main/kotlin/io/github/proify/lyricon/amprovider/PlaybackState.kt:28-30 | `of(n)` is total: the state with value n for −1..2, and UNKNOWN for every other integer. |
| ApplePlaybackState.OfValue | apple-music/src/main/kotlin/io/github/proify/lyricon/amprovider/PlaybackState.kt:19-30 | Round trip: `of(s.value) == s` for every state. |
| ApplePlaybackState.OfPlaying | apple-music/src/main/kotlin/io/github/proify/lyricon/amprovider/PlaybackState.kt:19-30 | `of(n)` is PLAYING exactly when n is 1. |
| AppleSongMapper.MergeLyrics | apple-music/src/main/kotlin/io/github/proify/lyricon/amprovider/parser/LyricsSectionParser.kt:44-45 | `flatMap { it.lines }`: a line is in the merged list exactly when it is a line of some section. |
| AppleSongMapper.MergeLyricsAppend | apple-music/src/main/kotlin/io/github/proify/lyricon/amprovider/parser/LyricsSectionParser.kt:44-45 | Merging concatenated section lists concatenates the merges, in order. |
| AppleSongMapper.MergeLyricsLength | apple-music/src/main/kotlin/io/github/proify/lyricon/amprovider/parser/LyricsSectionParser.kt:44-45 | The merged list is as long as all sections' line counts together. |
| AppleSongMapper.EmptySectionIgnored | apple-music/src/main/kotlin/io/github/proify/lyricon/amprovider/parser/LyricsSectionParser.kt:44-45 | A section without lines contributes nothing, wherever it stands. |
| AppleSongMapper.SingleSection | apple-music/src/main/kotlin/io/github/proify/lyricon/amprovider/parser/LyricsSectionParser.kt:44-45 | One section's lines come out unchanged. |
| AppleSongMapper.Persons | apple-music/src/main/kotlin/io/github/proify/lyricon/amprovider/util/AppleSongMapper.kt:80-84 | The filter keeps exactly the PERSON agents. |
| AppleSongMapper.AgentDirections | apple-music/src/main/kotlin/io/github/proify/lyricon/amprovider/util/AppleSongMapper.kt:77-100 | The map is empty with fewer than two persons, and keys come only from the first two persons' ids. An id is RIGHT exactly when it is the second person's, and DEFAULT exactly when it is the first's and not the second's, so a shared id goes RIGHT. |
| AppleSongMapper.ComputeAgentDirections | apple-music/src/main/kotlin/io/github/proify/lyricon/amprovider/util/AppleSongMapper.kt:77-100 | The conditional puts build exactly that map. |
| AppleSongMapper.ToLyricWord | apple-music/src/main/kotlin/io/github/proify/lyricon/amprovider/util/AppleSongMapper.kt:65-71 | Text, begin, end and duration are copied unchanged. |
| AppleSongMapper.ToLyricWords | apple-music/src/main/kotlin/io/github/proify/lyricon/amprovider/util/AppleSongMapper.kt:48-57 | There is one word per Apple word, in order. |
| AppleSongMapper.ConvertLyrics | apple-music/src/main/kotlin/io/github/proify/lyricon/amprovider/util/AppleSongMapper.kt:40-63 | There is one line per Apple line, in order, with the text, words, background text and words (as the secondary part) and the timing copied. A line is right-aligned exactly when its agent is the second person's id. |
| AppleSongMapper.NoSecondPersonNoRight | apple-music/src/main/kotlin/io/github/proify/lyricon/amprovider/util/AppleSongMapper.kt:58-85 | With fewer than two persons no line is right-aligned. |
| AppleSongMapper.SharedIdGoesRight | apple-music/src/main/kotlin/io/github/proify/lyricon/amprovider/util/AppleSongMapper.kt:92-97 | When the first two persons share an id, that id maps to RIGHT. |
| AppleSongMapper.ToSong | apple-music/src/main/kotlin/io/github/proify/lyricon/amprovider/util/AppleSongMapper.kt:30-38 | `adamId`, name, artist and duration are copied, and the lyrics are the converted lines. The song has no lyrics exactly when the Apple song has no lines. |
| AppleMediaMetadata.MetadataCache.constructor | apple-music/src/main/kotlin/io/github/proify/lyricon/amprovider/AppleMediaMetadata.kt:23-26 | The cache is empty. |
| AppleMediaMetadata.MetadataCache.PutAndGet | apple-music/src/main/kotlin/io/github/proify/lyricon/amprovider/AppleMediaMetadata.kt:28-37 | Without a media id it returns null and makes no change. Otherwise the values are stored under the media id as the most recent entry within 100, and returned with that id. |
| AppleMediaMetadata.MetadataCache.GetMetadataById | apple-music/src/main/kotlin/io/github/proify/lyricon/amprovider/AppleMediaMetadata.kt:39 | It returns the last value stored under the id unless it was evicted, and makes it the most recent entry. |
| AppleSongRepository.SongRepository.constructor | apple-music/src/main/kotlin/io/github/proify/lyricon/amprovider/SongRepository.kt:29-51 | The disk store is empty. |
| AppleSongRepository.SongRepository.GetSong | apple-music/src/main/kotlin/io/github/proify/lyricon/amprovider/SongRepository.kt:29-39 | A disk hit gives the mapped saved song. A miss gives a placeholder with the requested id, the cached title and artist (null when absent) and no lyrics. |
| AppleSongRepository.SongRepository.SaveSong | apple-music/src/main/kotlin/io/github/proify/lyricon/amprovider/SongRepository.kt:44-51 | A null or blank `adamId` gives null and writes nothing. Otherwise the song is stored under its `adamId`, and the mapped song, with that id, is returned. |
| AppleSongRepository.SavedThenRead | apple-music/src/main/kotlin/io/github/proify/lyricon/amprovider/SongRepository.kt:29-51 | Reading a saved id gives back the saved song in its Lyricon form. |
| ApplePlaybackManager.PlaybackManager.constructor | apple-music/src/main/kotlin/io/github/proify/lyricon/amprovider/PlaybackManager.kt:39-96 | No current id, nothing pushed, no download requested. |
| ApplePlaybackManager.PlaybackManager.SetSong | apple-music/src/main/kotlin/io/github/proify/lyricon/amprovider/PlaybackManager.kt:93-96 | The song is pushed and `lastSong` stays the last pushed song. |
| ApplePlaybackManager.PlaybackManager.OnSongChanged | apple-music/src/main/kotlin/io/github/proify/lyricon/amprovider/PlaybackManager.kt:39-62 | Null clears the current id and pushes null, and the current id again does nothing. A new id becomes current and the repository's song is pushed at once; reading the song `get`s the metadata cache when the song is not on disk. A download is requested exactly when that song has no lyrics. |
| ApplePlaybackManager.PlaybackManager.OnLyricsBuilt | apple-music/src/main/kotlin/io/github/proify/lyricon/amprovider/PlaybackManager.kt:67-81 | The song is always saved first, and an unsavable one changes nothing. A saved song is pushed exactly when it is the current song and the last pushed song has no lyrics. |
| ApplePlaybackManager.PlaybackManager.SyncCurrentSong | apple-music/src/main/kotlin/io/github/proify/lyricon/amprovider/PlaybackManager.kt:86-91 | The repository's song for the current id is pushed again and becomes `lastSong`; reading it `get`s the metadata cache when the song is not on disk. Without a current id nothing happens. The current id and the download requests are kept. |
| AppleProvider.AppleHook.constructor | apple-music/src/main/kotlin/io/github/proify/lyricon/amprovider/Apple.kt:98-109 | Not playing and no job, sharing the manager's player. |
| AppleProvider.AppleHook.OnMediaMetadataChanged | apple-music/src/main/kotlin/io/github/proify/lyricon/amprovider/Apple.kt:138-145 | Without a media id nothing changes. Otherwise the metadata is `put` into the access-ordered cache, which ends up exactly as after that `put` (the later `get` of the newest key reorders nothing), and the id is handed to `onSongChanged`: the current id pushes nothing; a new id becomes current, the repository song for it (disk song, or placeholder from the just-cached metadata) is pushed, and a download is requested exactly when that song has no lyrics. |
| AppleProvider.AppleHook.OnLyricsBuilt | apple-music/src/main/kotlin/io/github/proify/lyricon/amprovider/Apple.kt:150-171 | Without an argument nothing changes. Otherwise a savable song is saved under its `adamId`, and it is pushed exactly when it is the current song and the last pushed song has no lyrics; nothing else is pushed. |
| AppleProvider.AppleHook.OnSeekToPosition | apple-music/src/main/kotlin/io/github/proify/lyricon/amprovider/Apple.kt:191-194 | A seek is forwarded only while playing. |
| AppleProvider.AppleHook.OnPlaybackStateChanged | apple-music/src/main/kotlin/io/github/proify/lyricon/amprovider/Apple.kt:203-208 | PLAYING starts syncing: "playing" is pushed and a job started unless already playing, when nothing changes. Every other state, UNKNOWN included, stops it, pushes "not playing" and drops the job. |
| AppleProvider.AppleHook.StartSyncAction | apple-music/src/main/kotlin/io/github/proify/lyricon/amprovider/Apple.kt:214-219 | While playing this is a no-op. Otherwise playing is recorded and pushed, and the job started. |
| AppleProvider.AppleHook.StopSyncAction | apple-music/src/main/kotlin/io/github/proify/lyricon/amprovider/Apple.kt:221-225 | It records and pushes "not playing", and leaves no job. |
| AppleProvider.AppleHook.ResumeCoroutineTask | apple-music/src/main/kotlin/io/github/proify/lyricon/amprovider/Apple.kt:227-240 | No second job is launched while one is active. |
| AppleProvider.AppleHook.PauseCoroutineTask | apple-music/src/main/kotlin/io/github/proify/lyricon/amprovider/Apple.kt:242-245 | The job is cancelled and forgotten. |
| AppleProvider.AppleHook.PositionTick | apple-music/src/main/kotlin/io/github/proify/lyricon/amprovider/Apple.kt:230-238 | While the job runs, one turn pushes the position read, or 0 when the read value is not a `Long`; a read that throws pushes nothing. |
| AppleProvider.AppleHook.Sync | apple-music/src/main/kotlin/io/github/proify/lyricon/amprovider/Apple.kt:247-253 | On resume the playing state is pushed, and the current song only while playing. The 41 ms interval is always pushed last. The current id, the download requests and the disk store are kept; only a pushed song changes `lastSong` and `get`s the metadata cache. |
| AppleProvider.AppleHook.OnConnected | apple-music/src/main/kotlin/io/github/proify/lyricon/amprovider/Apple.kt:98-101 | Only the update interval is pushed. The manager's current id, last song and download requests, and the metadata cache, are left as they were. |
| AppleProvider.AppleHook.OnReconnected | apple-music/src/main/kotlin/io/github/proify/lyricon/amprovider/Apple.kt:103-105 | `sync(true)`: the playing state is pushed, then the current song again while playing with a current id, then the 41 ms update interval. The current id and download requests are kept; the cache is reordered only by that song's `get`. |
| AppleProvider.AppleHook.OnScreenOn | apple-music/src/main/kotlin/io/github/proify/lyricon/amprovider/Apple.kt:255-269 | The job resumes only while playing, without a second job. |
| AppleProvider.AppleHook.OnScreenOff | apple-music/src/main/kotlin/io/github/proify/lyricon/amprovider/Apple.kt:255-269 | The job stops, and `isPlaying` is kept. |
| AppleProvider.AppleHook.OnScreenUnlocked | apple-music/src/main/kotlin/io/github/proify/lyricon/amprovider/Apple.kt:255-269 | The job resumes only while playing and when none is held. |
| AppleXposedProvider.AppleHook.constructor | apple-music/src/main/kotlin/io/github/proify/lyricon/amprovider/xposed/Apple.kt:76-94 | The update interval and the translation preference are pushed, in that order. |
| AppleXposedProvider.AppleHook.OnTranslationSelectedChanged | apple-music/src/main/kotlin/io/github/proify/lyricon/amprovider/xposed/Apple.kt:63-67 | The new preference is forwarded to the player. |
| AppleXposedProvider.AppleHook.OnMediaMetadataChanged | apple-music/src/main/kotlin/io/github/proify/lyricon/amprovider/xposed/Apple.kt:116-129 | Without a media id nothing changes. Otherwise the metadata is `put` into the access-ordered cache, which ends up exactly as after that `put` (the later `get` of the newest key reorders nothing), and the id is handed to `onSongChanged`: the current id pushes nothing; a new id becomes current, the repository song for it (disk song, or placeholder from the just-cached metadata) is pushed, and a download is requested exactly when that song has no lyrics. |
| AppleXposedProvider.AppleHook.OnLyricsBuilt | apple-music/src/main/kotlin/io/github/proify/lyricon/amprovider/xposed/Apple.kt:132-153 | Without an argument nothing changes. Otherwise a savable song is saved under its `adamId`, and it is pushed exactly when it is the current song and the last pushed song has no lyrics; nothing else is pushed. |
| AppleXposedProvider.AppleHook.OnSeekToPosition | apple-music/src/main/kotlin/io/github/proify/lyricon/amprovider/xposed/Apple.kt:173-176 | A seek is forwarded only while playing. |
| AppleXposedProvider.AppleHook.OnPlaybackStateChanged | apple-music/src/main/kotlin/io/github/proify/lyricon/amprovider/xposed/Apple.kt:185-190 | PLAYING starts syncing: "playing" is pushed and a job started unless already playing, when nothing changes. Every other state, UNKNOWN included, stops it, pushes "not playing" and drops the job. |
| AppleXposedProvider.AppleHook.StartSyncAction | apple-music/src/main/kotlin/io/github/proify/lyricon/amprovider/xposed/Apple.kt:196-201 | While playing this is a no-op. Otherwise playing is recorded and pushed, and the job started. |
| AppleXposedProvider.AppleHook.StopSyncAction | apple-music/src/main/kotlin/io/github/proify/lyricon/amprovider/xposed/Apple.kt:203-207 | It records and pushes "not playing", and leaves no job. |
| AppleXposedProvider.AppleHook.ResumeCoroutineTask | apple-music/src/main/kotlin/io/github/proify/lyricon/amprovider/xposed/Apple.kt:209-222 | No second job is launched while one is active. |
| AppleXposedProvider.AppleHook.PauseCoroutineTask | apple-music/src/main/kotlin/io/github/proify/lyricon/amprovider/xposed/Apple.kt:224-227 | The job is cancelled and forgotten. |
| AppleXposedProvider.AppleHook.PositionTick | apple-music/src/main/kotlin/io/github/proify/lyricon/amprovider/xposed/Apple.kt:212-220 | While the job runs, one turn pushes the position read, or 0 when the read value is not a `Long`; a read that throws pushes nothing. |
| AppleXposedProvider.AppleHook.OnScreenOn | apple-music/src/main/kotlin/io/github/proify/lyricon/amprovider/xposed/Apple.kt:229-243 | The job resumes only while playing. |
| AppleXposedProvider.AppleHook.OnScreenOff | apple-music/src/main/kotlin/io/github/proify/lyricon/amprovider/xposed/Apple.kt:229-243 | The job stops, and `isPlaying` is kept. |
| AppleXposedProvider.AppleHook.OnScreenUnlocked | apple-music/src/main/kotlin/io/github/proify/lyricon/amprovider/xposed/Apple.kt:229-243 | The job resumes only while playing and when none is held. |

## Left out

- Hook registration with Xposed, YukiHookAPI and KavaRef, the `HookEntry` classes, `onAppLifecycle`, the Tinker reload hooks, DexKit method discovery and provider registration (`LyriconFactory`, `register`, `destroy`). They are runtime glue around the modelled callbacks.
  - What a provider's setup pushes to its new player is modelled: `SetupProvider` for both NetEase hooks, `SetupLyriconProvider` for QQ Music and the xposed Apple hook's constructor.
  - Each hook has one player log. A provider destroyed and created again at setup is not told apart from the old one.
- Reflection: `Method.invoke` on the player objects, the metadata getters and the position readers. Their results are inputs to the model (`BizMusicMeta`'s optional fields, the position given to each `PositionTick`, the `Optional` text for Spotify). The Apple loops catch an exception from the read; there the input is a `PositionRead`, which may be `InvokeThrew`.
- Coroutines, `delay`, `Dispatchers`, `Handler.postDelayed`, `synchronized` and `ConcurrentHashMap`.
  - A job is a flag with a ghost count of live jobs.
  - One turn of a position loop is `PositionTick`, with no timing.
  - The Spotify pause runnable is a flag that `RunPendingPause` fires.
  - An asynchronous NetEase load is a pending ticket finished by `FinishLoad`.
  - Interleavings between threads are not modelled.
- Network: `SpotifyApi.fetchLyricResponse` and `QrcDownloader.downloadLyrics` become the outcome of each attempt or job.
- File I/O: `LyricFileObserver`, `File.readText`, `DiskSongManager` (modelled as a map from `adamId` to song), the QQ `DiskSongCache` (a map from id to song), and the zlib helpers. A read or decode failure is the `Unparsable` outcome.
- JSON decoding (`parseResponse`): the model starts from decoded records.
- `LyricResponse.toSong()` of the NetEase lyric model is not part of this model. A parsed file is given as the resulting song with its `pureMusic` flag.
- QQ Music's `MediaMetadataCache` is not part of this model. What it answers for an id is given to each handler that reads it.
- `AppleSongParser` and its line, word, agent and timing parsers: the parsed `AppleSong` is an input. Its fields follow how `AppleSongMapper` and `SongRepository` read it, because its class is not part of this model.
- `LyricRequester`: a download request is recorded as the id appended to `downloadRequests`.
- The xposed Apple hook (package `amprovider.xposed`) imports none of the `amprovider` classes. It calls same-package `PlaybackManager`, `AppleMediaMetadata`, `PlaybackState`, `DiskSongManager`, `LyricRequester` and `PreferencesMonitor`, which are not part of this model (it calls `DiskSongManager.initialize`, for instance, where the `amprovider` one has `init`).
  - `AppleXposedProvider` reuses the `amprovider` models of the first four in their place.
  - Its `DEFAULT_POSITION_UPDATE_INTERVAL` is a Lyricon library constant, taken as a constructor parameter. The initial translation preference is a parameter too.
- `MainProcessHook` of QQ Music (the broadcast of settings changes), logging, `ObjectUtils`, icons and constants.
- Floating point: `2.0.pow(attempt).toLong()` is modelled as 2^k, which is exact for the attempts that wait (k ≤ 2).
- Strings are sequences of Unicode scalar values. UTF-16 surrogate pairs are not modelled, so `String.hashCode` is taken over those values.
- `KotlinText.IsWhitespace` lists its characters explicitly: the space separators (Unicode category Zs), U+2028, U+2029, U+0009–U+000D and U+001C–U+001F. That is the set `Character.isWhitespace` or `isSpaceChar` accepts today; characters a later Unicode version adds are not tracked.
- ParseLong: it accepts only the ASCII digits, while `Long.parseLong` also accepts other Unicode decimal digits through `Character.digit`. The position text Spotify prints is ASCII.
- QQDownloader.DownloadManager.Download: it runs on the corrected guard (`Launch`, the corrected half of the Findings row), which records the id when a job is launched. As written, Downloader.kt:23-36 never records it, so a repeat request for an id whose job is still running launches a second job; the model launches nothing. `LaunchAsWritten` models the source's behaviour.
- QQMusic.PlayerProcessHook.OnSetMetadata: it requests its download through `Download`, so it inherits the corrected guard: switching back to an id whose job is still running launches nothing, where the source launches again.
- QQMusic.PlayerProcessHook.RefreshActiveSong: the same as `OnSetMetadata`; its download request goes through the corrected guard.
- SpotifyProvider.Spotify.OnSetMetadata: the `id.isBlank()` check at Spotify.kt:160 cannot fire, because the cache never returns a blank id (MetadataCache.kt:19). The model has no separate branch for it.
- SpotifyProvider.Spotify.RunDownload: `onDownloadFailed` only logs, so a failure is modelled as pushing nothing.
- PreferencesMonitor.Monitor.LazyGetSharedPreferences: it requires `update` to have run first. Before that the getter is null and the cast `as SharedPreferences` throws, a path the model does not follow.
- AppleMediaMetadata.MetadataCache.PutAndGet: it requires title and artist when a media id is present, because the source reads them into non-null locals and would throw otherwise.
- AppleLyricAgent.LongHash and the other hash functions state only that the result is an `Int`. What they compute is pinned down by `HashCode`'s closed form and the lemmas beside it.

## Findings

| source | as written | input that shows it | evidently intended | confidence | as-written member | corrected member |
|---|---|---|---|---|---|---|
| qq-music/src/main/kotlin/io/github/proify/lyricon/qmprovider/xposed/Downloader.kt:17-35 | `download` checks `downloadingIds` but nothing ever adds to it (only the `finally` removes), so the duplicate guard never fires | two `download("42", cb)` calls before the first job ends: both launch a job | the id is added when its job is launched, so a second request for an id in flight launches nothing | not executed | QQDownloader.DuplicateLaunchAsWritten | QQDownloader.DuplicateLaunchSuppressed |
