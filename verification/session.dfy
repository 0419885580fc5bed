/** The live streaming session, seen only through the calls the settings
    dialog makes on it: each call is recorded, in order, in a log. */
module SpotifySession {
  import opened Wrappers

  /** The stream bitrates the session library offers; their numeric values
      belong to that library. */
  datatype Bitrate = Rate96k | Rate160k | Rate320k

  /** One call on the session. */
  datatype Call =
    | CacheSizeSet(size: int)                   // set_cache_size(size)
    | NormalizationSet(enabled: bool)           // set_volume_normalization(enabled)
    | BitratePreferred(rate: Option<Bitrate>)   // preferred_bitrate(rate); None stands for Python's None

  class Session {
    /** Every call made on the session so far, oldest first. */
    var log: seq<Call>

    constructor ()
      ensures log == []
    {
      log := [];
    }

    method SetCacheSize(size: int)
      modifies this
      ensures log == old(log) + [CacheSizeSet(size)]
    {
      log := log + [CacheSizeSet(size)];
    }

    method SetVolumeNormalization(enabled: bool)
      modifies this
      ensures log == old(log) + [NormalizationSet(enabled)]
    {
      log := log + [NormalizationSet(enabled)];
    }

    method PreferredBitrate(rate: Option<Bitrate>)
      modifies this
      ensures log == old(log) + [BitratePreferred(rate)]
    {
      log := log + [BitratePreferred(rate)];
    }
  }
}
