/**
 * `AppleMediaMetadata`: an access-ordered map of at most 100 entries from
 * media id to the title, artist and duration last seen for it.
 */
module AppleMediaMetadata {
  import opened Wrappers
  import opened AccessOrder
  import opened AndroidMedia

  const CAPACITY: nat := 100

  datatype Metadata = Metadata(id: string, title: Option<string>, artist: Option<string>, duration: int)

  class MetadataCache {
    var entries: seq<(string, Metadata)>

    /** Distinct keys, at most 100 of them, each entry stored under its own id. */
    ghost predicate Valid()
      reads this
    {
      && DistinctKeys(entries)
      && |entries| <= CAPACITY
      && forall e :: e in entries ==> e.1.id == e.0
    }

    constructor ()
      ensures Valid() && entries == []
    {
      entries := [];
    }

    /**
     * `putAndGet(metadata)`: nothing without a media id; otherwise the
     * values are stored under it, as the most recently used entry, and
     * returned. Title and artist are read into non-null locals, so a
     * metadata object with a media id must carry both.
     */
    method PutAndGet(metadata: MediaMetadata) returns (r: Option<Metadata>)
      requires Valid()
      requires metadata.mediaId.Some? ==> metadata.title.Some? && metadata.artist.Some?
      modifies this
      ensures Valid()
      ensures metadata.mediaId.None? ==> r.None? && entries == old(entries)
      ensures metadata.mediaId.Some? ==>
                && r == Some(Metadata(metadata.mediaId.value, metadata.title, metadata.artist, metadata.duration))
                && entries == AccessOrder.Put(old(entries), r.value.id, r.value, CAPACITY)
      ensures r.Some? ==> Lookup(entries, r.value.id) == r && entries[|entries| - 1] == (r.value.id, r.value)
    {
      if metadata.mediaId.None? {
        return None;
      }
      var mediaId := metadata.mediaId.value;
      var newMetadata := Metadata(mediaId, metadata.title, metadata.artist, metadata.duration);
      PutShape(entries, mediaId, newMetadata, CAPACITY);
      entries := AccessOrder.Put(entries, mediaId, newMetadata, CAPACITY);
      r := Some(newMetadata);
    }

    /** `getMetadataById(mediaId)`: the last value stored under the id, unless it was evicted. */
    method GetMetadataById(mediaId: string) returns (r: Option<Metadata>)
      requires Valid()
      modifies this
      ensures Valid()
      ensures r == Lookup(old(entries), mediaId)
      ensures r.Some? ==> r.value.id == mediaId
      ensures entries == Touch(old(entries), mediaId)
    {
      TouchShape(entries, mediaId, mediaId);
      r := Lookup(entries, mediaId);
      if r.Some? {
        LookupFound(entries, mediaId);
      }
      entries := Touch(entries, mediaId);
    }
  }
}
