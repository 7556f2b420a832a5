/**
 * NetEase Cloud Music's `BizMusicMeta`, given by what its getters return
 * through reflection: `None` when the value is missing, is not of the
 * expected type, or the call throws.
 */
module NeteaseMeta {
  import opened Wrappers

  datatype BizMusicMeta = BizMusicMeta(
    hasMatchedMusicId: bool,       // whether the class declares getMatchedMusicId
    matchedMusicId: Option<int>,   // getMatchedMusicId() as? Long
    id: Option<int>,               // getId() as? Long
    musicName: Option<string>,     // getMusicName() as? String
    artistsName: Option<string>,   // getArtistsName() as? String
    duration: Option<int>)         // getDuration() as? Long
}
