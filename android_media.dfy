/**
 * The parts of Android's `MediaMetadata` and `PlaybackState` the providers
 * read. A metadata object is given by the values of the four keys they
 * query; `getLong` of a missing key is 0.
 */
module AndroidMedia {
  import opened Wrappers

  datatype MediaMetadata = MediaMetadata(
    mediaId: Option<string>,   // METADATA_KEY_MEDIA_ID
    title: Option<string>,     // METADATA_KEY_TITLE
    artist: Option<string>,    // METADATA_KEY_ARTIST
    duration: int)             // METADATA_KEY_DURATION, 0 when absent

  /**
   * What reading the position through `Method.invoke` gives: a value, which
   * is `None` when the result is not a `Long`, or an exception.
   */
  datatype PositionRead = Invoked(position: Option<int>) | InvokeThrew

  // android.media.session.PlaybackState
  const STATE_STOPPED: int := 1
  const STATE_PAUSED: int := 2
  const STATE_PLAYING: int := 3
}
