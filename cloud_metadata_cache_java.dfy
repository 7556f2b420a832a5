/**
 * The metadata cache of the NetEase provider built from the `java` source
 * set: the same access-ordered map of at most 50 entries, but the getters
 * are looked up again on every call and the id is always read with `getId`.
 */
module CloudMetadataCacheJava {
  import opened Wrappers
  import opened KotlinText
  import opened AccessOrder
  import opened NeteaseMeta

  const CAPACITY: nat := 50

  datatype Metadata = Metadata(id: string, title: Option<string>, artist: Option<string>, duration: int)

  class MediaMetadataCache {
    var entries: seq<(string, Metadata)>

    /** Distinct keys, at most 50 of them, each entry stored under its own id. */
    ghost predicate Valid()
      reads this
    {
      && DistinctKeys(entries)
      && |entries| <= CAPACITY
      && forall e :: e in entries ==> e.1.id == e.0
    }

    constructor ()
      ensures Valid() && entries == []
    {
      entries := [];
    }

    /**
     * `putAndGet(bizMusicMeta)`: nothing is stored when `getId` yields no
     * `Long`; otherwise the metadata is stored under the decimal id, as the
     * most recently used entry, and returned.
     */
    method PutAndGet(meta: BizMusicMeta) returns (r: Option<Metadata>)
      requires Valid()
      modifies this
      ensures Valid()
      ensures meta.id.None? ==> r.None? && entries == old(entries)
      ensures meta.id.Some? ==>
                && r == Some(Metadata(LongToString(meta.id.value), meta.musicName, meta.artistsName, meta.duration.GetOr(0)))
                && entries == AccessOrder.Put(old(entries), r.value.id, r.value, CAPACITY)
      ensures r.Some? ==> Lookup(entries, r.value.id) == r && entries[|entries| - 1] == (r.value.id, r.value)
    {
      if meta.id.None? {
        return None;
      }
      var strId := LongToString(meta.id.value);
      var metadata := Metadata(strId, meta.musicName, meta.artistsName, meta.duration.GetOr(0));
      PutShape(entries, strId, metadata, CAPACITY);
      entries := AccessOrder.Put(entries, strId, metadata, CAPACITY);
      r := Some(metadata);
    }

    /** `getMetadataById(mediaId)`: the stored value, which becomes the most recently used; an absent key changes nothing. */
    method GetMetadataById(mediaId: string) returns (r: Option<Metadata>)
      requires Valid()
      modifies this
      ensures Valid()
      ensures r == Lookup(old(entries), mediaId)
      ensures r.Some? ==> r.value.id == mediaId
      ensures entries == Touch(old(entries), mediaId)
      ensures r.None? ==> entries == old(entries)
    {
      TouchShape(entries, mediaId, mediaId);
      r := Lookup(entries, mediaId);
      if r.Some? {
        LookupFound(entries, mediaId);
      }
      entries := Touch(entries, mediaId);
    }
  }
}
