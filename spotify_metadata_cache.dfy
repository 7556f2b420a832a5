/**
 * Spotify's `MediaMetadataCache`: an unbounded map from track id to the
 * metadata first seen for it. The track id is the text after the first
 * "spotify:track:" of the media id.
 */
module SpotifyMetadataCache {
  import opened Wrappers
  import opened KotlinText
  import opened AndroidMedia

  const TRACK_PREFIX: string := "spotify:track:"

  datatype Metadata = Metadata(id: string, title: Option<string>, artist: Option<string>, duration: int)

  /** `getString(METADATA_KEY_MEDIA_ID)?.run { substringAfter("spotify:track:", "") }` */
  function TrackId(mediaId: Option<string>): (r: Option<string>)
    ensures mediaId.None? <==> r.None?
  {
    match mediaId
    case None => None
    case Some(m) => Some(SubstringAfter(m, TRACK_PREFIX, ""))
  }

  /** A media id that starts with the prefix yields the rest of it as the track id. */
  lemma TrackIdOfUri(rest: string)
    ensures TrackId(Some(TRACK_PREFIX + rest)) == Some(rest)
  {
    var s := TRACK_PREFIX + rest;
    assert OccursAt(s, TRACK_PREFIX, 0);
    assert IndexOf(s, TRACK_PREFIX, 0) == Some(0);
  }

  /** A media id without the prefix yields "", which `save` rejects as blank. */
  lemma TrackIdWithoutPrefix(m: string)
    requires forall k: nat :: !OccursAt(m, TRACK_PREFIX, k)
    ensures TrackId(Some(m)) == Some("") && IsBlank("")
  {
  }

  /** A duration of 0 is stored as `Long.MAX_VALUE`. */
  function StoredDuration(duration: int): (d: int)
    ensures duration == 0 ==> d == LONG_MAX
    ensures duration != 0 ==> d == duration
  {
    if duration == 0 then LONG_MAX else duration
  }

  class MediaMetadataCache {
    var entries: map<string, Metadata>

    /** Every entry is stored under its own, non-blank id. */
    predicate Valid()
      reads this
    {
      forall k :: k in entries ==> entries[k].id == k && !IsBlank(k)
    }

    constructor ()
      ensures entries == map[] && Valid()
    {
      entries := map[];
    }

    /** `get(id)` */
    function Get(id: string): (r: Option<Metadata>)
      reads this
      ensures r.Some? <==> id in entries
      ensures r.Some? ==> r.value == entries[id]
    {
      if id in entries then Some(entries[id]) else None
    }

    /**
     * `save(metadata)`: nothing for a missing or blank track id; the cached
     * entry when the id is known (the first write wins); otherwise a new
     * entry, stored and returned. Nothing is ever evicted.
     */
    method Save(metadata: MediaMetadata) returns (r: Option<Metadata>)
      requires Valid()
      modifies this
      ensures Valid()
      ensures var id := TrackId(metadata.mediaId);
        if id.None? || IsBlank(id.value) then r.None? && entries == old(entries)
        else if id.value in old(entries) then r == Some(old(entries)[id.value]) && entries == old(entries)
        else
          && r == Some(Metadata(id.value, metadata.title, metadata.artist, StoredDuration(metadata.duration)))
          && entries == old(entries)[id.value := r.value]
      ensures forall k :: k in old(entries) ==> k in entries && entries[k] == old(entries)[k]
      ensures r.Some? ==> !IsBlank(r.value.id) && r.value.id in entries && entries[r.value.id] == r.value
    {
      var id := TrackId(metadata.mediaId);
      if id.None? || IsBlank(id.value) {
        return None;
      }
      if id.value in entries {
        return Some(entries[id.value]);
      }
      var data := Metadata(id.value, metadata.title, metadata.artist, StoredDuration(metadata.duration));
      entries := entries[id.value := data];
      r := Some(data);
    }
  }
}
