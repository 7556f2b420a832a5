/**
 * Apple Music's `SongRepository`: a song is read from the disk store when it
 * was saved there, and otherwise stands in as a placeholder carrying the
 * cached title and artist. Saving needs a non-blank `adamId`. The disk store
 * (`DiskSongManager`) is modelled as a map from `adamId` to the saved song.
 */
module AppleSongRepository {
  import opened Wrappers
  import opened KotlinText
  import opened Lyricon
  import opened AccessOrder
  import opened AppleMediaMetadata
  import opened AppleSongMapper

  /** What `getSong(id)` returns for a disk store and a metadata cache. */
  function StoredOrPlaceholder(disk: map<string, AppleSong>, metadata: seq<(string, Metadata)>, id: string): Song {
    if id in disk then ToSong(disk[id])
    else
      match Lookup(metadata, id)
      case Some(m) => BareSong(id, m.title, m.artist)
      case None => BareSong(id, None, None)
  }

  /** A song without a usable `adamId` cannot be saved. */
  predicate Unsavable(song: AppleSong) {
    song.adamId.None? || IsBlank(song.adamId.value)
  }

  class SongRepository {
    var disk: map<string, AppleSong>
    const metadata: MetadataCache

    /** Every saved song sits under its own `adamId`. */
    ghost predicate Valid()
      reads this, metadata
    {
      && metadata.Valid()
      && forall k :: k in disk ==> disk[k].adamId == Some(k)
    }

    constructor (metadata: MetadataCache)
      requires metadata.Valid()
      ensures Valid() && this.metadata == metadata && disk == map[]
    {
      this.metadata := metadata;
      disk := map[];
    }

    /**
     * `getSong(id)`: the saved song mapped to a Lyricon song on a disk hit,
     * else a placeholder with the id, the cached title and artist (absent
     * when not cached) and no lyrics. Only a miss reads, and so refreshes,
     * the metadata cache.
     */
    method GetSong(id: string) returns (song: Song)
      requires Valid()
      modifies metadata
      ensures Valid()
      ensures song == StoredOrPlaceholder(disk, old(metadata.entries), id)
      ensures song.id == Some(id)
      ensures id in disk ==> song == ToSong(disk[id]) && metadata.entries == old(metadata.entries)
      ensures id !in disk ==> HasNoLyrics(song) && metadata.entries == Touch(old(metadata.entries), id)
      ensures id !in disk ==>
                song.name == (if Lookup(old(metadata.entries), id).Some? then Lookup(old(metadata.entries), id).value.title else None)
    {
      if id in disk {
        return ToSong(disk[id]);
      }
      var m := metadata.GetMetadataById(id);
      song := BareSong(id, if m.Some? then m.value.title else None, if m.Some? then m.value.artist else None);
    }

    /**
     * `saveSong(parsed)`: nothing is written and nothing returned for a
     * missing or blank `adamId`; otherwise the song is stored under it and
     * its Lyricon form, whose id is that `adamId`, returned.
     */
    method SaveSong(parsed: AppleSong) returns (song: Option<Song>)
      requires Valid()
      modifies this
      ensures Valid()
      ensures Unsavable(parsed) ==> song.None? && disk == old(disk)
      ensures !Unsavable(parsed) ==>
                && disk == old(disk)[parsed.adamId.value := parsed]
                && song == Some(ToSong(parsed))
                && song.value.id == parsed.adamId
    {
      if parsed.adamId.None? || IsBlank(parsed.adamId.value) {
        return None;
      }
      disk := disk[parsed.adamId.value := parsed];
      song := Some(ToSong(parsed));
    }
  }

  /** After a save, reading the same id gives back the saved song in its Lyricon form. */
  lemma SavedThenRead(disk: map<string, AppleSong>, metadata: seq<(string, Metadata)>, parsed: AppleSong)
    requires !Unsavable(parsed)
    ensures StoredOrPlaceholder(disk[parsed.adamId.value := parsed], metadata, parsed.adamId.value) == ToSong(parsed)
  {
  }
}
