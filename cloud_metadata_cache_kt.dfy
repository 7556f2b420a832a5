/**
 * The metadata cache of the NetEase provider built from the `kotlin` source
 * set: an access-ordered map of at most 50 entries, keyed by the decimal
 * text of the song's id. The id getter is chosen on the first `put` and
 * kept: `getMatchedMusicId` when the class has it, `getId` otherwise.
 */
module CloudMetadataCacheKt {
  import opened Wrappers
  import opened KotlinText
  import opened AccessOrder
  import opened NeteaseMeta

  const CAPACITY: nat := 50

  datatype Metadata = Metadata(id: string, title: Option<string>, artist: Option<string>, duration: int)

  datatype IdGetter = MatchedMusicId | PlainId

  /** The getter resolved on the first call: the matched id when the class declares it. */
  function ResolveIdGetter(meta: BizMusicMeta): (g: IdGetter)
    ensures g == MatchedMusicId <==> meta.hasMatchedMusicId
  {
    if meta.hasMatchedMusicId then MatchedMusicId else PlainId
  }

  /** The id read through the resolved getter. */
  function ReadId(getter: IdGetter, meta: BizMusicMeta): (id: Option<int>)
    ensures getter == PlainId ==> id == meta.id
    ensures getter == MatchedMusicId ==> id == meta.matchedMusicId
  {
    match getter
    case MatchedMusicId => meta.matchedMusicId
    case PlainId => meta.id
  }

  class MediaMetadataCache {
    var entries: seq<(string, Metadata)>
    var idGetter: Option<IdGetter>

    /** Distinct keys, at most 50 of them, each entry stored under its own id. */
    ghost predicate Valid()
      reads this
    {
      && DistinctKeys(entries)
      && |entries| <= CAPACITY
      && forall e :: e in entries ==> e.1.id == e.0
    }

    constructor ()
      ensures Valid() && entries == [] && idGetter.None?
    {
      entries := [];
      idGetter := None;
    }

    /**
     * `put(bizMusicMeta)`: resolves the id getter once; nothing is stored
     * when no `Long` id can be read; otherwise the metadata is stored under
     * the decimal id, as the most recently used entry, and returned.
     */
    method Put(meta: BizMusicMeta) returns (r: Option<Metadata>)
      requires Valid()
      modifies this
      ensures Valid()
      ensures idGetter == Some(if old(idGetter).Some? then old(idGetter).value else ResolveIdGetter(meta))
      ensures ReadId(idGetter.value, meta).None? ==> r.None? && entries == old(entries)
      ensures ReadId(idGetter.value, meta).Some? ==>
                && r == Some(Metadata(LongToString(ReadId(idGetter.value, meta).value),
                                      meta.musicName, meta.artistsName, meta.duration.GetOr(0)))
                && entries == AccessOrder.Put(old(entries), r.value.id, r.value, CAPACITY)
      ensures r.Some? ==> Lookup(entries, r.value.id) == r && entries[|entries| - 1] == (r.value.id, r.value)
    {
      if idGetter.None? {
        idGetter := Some(ResolveIdGetter(meta));
      }
      var id := ReadId(idGetter.value, meta);
      if id.None? {
        return None;
      }
      var strId := LongToString(id.value);
      var metadata := Metadata(strId, meta.musicName, meta.artistsName, meta.duration.GetOr(0));
      PutShape(entries, strId, metadata, CAPACITY);
      entries := AccessOrder.Put(entries, strId, metadata, CAPACITY);
      r := Some(metadata);
    }

    /** `getMetadataById(mediaId)`: the stored value, which becomes the most recently used. */
    method GetMetadataById(mediaId: string) returns (r: Option<Metadata>)
      requires Valid()
      modifies this
      ensures Valid()
      ensures r == Lookup(old(entries), mediaId)
      ensures r.Some? ==> r.value.id == mediaId
      ensures entries == Touch(old(entries), mediaId) && idGetter == old(idGetter)
    {
      TouchShape(entries, mediaId, mediaId);
      r := Lookup(entries, mediaId);
      if r.Some? {
        LookupFound(entries, mediaId);
      }
      entries := Touch(entries, mediaId);
    }
  }
}
