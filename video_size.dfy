/** The size estimator of the camera screen: a resolution tier, a bitrate in
    bits per second and a duration in seconds give an estimated file size in
    megabytes, by a linear model scaled by a per-tier multiplier.
    Arithmetic is over `real`, so every value below is exact. */
module VideoSize {

  /** The per-tier multiplier table; its keys are the only tier labels the
      estimator prices. */
  const ResolutionMultiplier: map<string, real> :=
    map["480p" := 1.0, "720p" := 2.0, "1080p" := 3.0]

  /** The bitrate the screen passes for every finished recording. */
  const RecordingBitrate: real := 4000000.0

  /** Bits per second in one megabit per second. */
  const BitsPerMegabit: real := 1000000.0

  /** Bits in one byte. */
  const BitsPerByte: real := 8.0

  /** Estimated size in megabytes of `duration` seconds of video at
      `bitrate` bits per second, scaled by the tier's multiplier. */
  function CalculateVideoSize(resolution: string, bitrate: real, duration: real): (sizeMB: real)
    requires resolution in ResolutionMultiplier
    ensures bitrate >= 0.0 && duration >= 0.0 ==> sizeMB >= 0.0
    ensures bitrate == 0.0 || duration == 0.0 ==> sizeMB == 0.0
    ensures sizeMB * BitsPerByte * BitsPerMegabit == bitrate * ResolutionMultiplier[resolution] * duration
  {
    var bitrateMbps := bitrate / BitsPerMegabit;
    bitrateMbps * ResolutionMultiplier[resolution] * duration / BitsPerByte
  }

  /** The estimator prices exactly three labels. */
  lemma PricedLabels(resolution: string)
    requires resolution in ResolutionMultiplier
    ensures resolution == "480p" || resolution == "720p" || resolution == "1080p"
  {
  }

  /** At the fixed recording bitrate of 4 Mbit/s the estimate is half the
      multiplier per second of video. */
  lemma FixedBitrateSize(resolution: string, duration: real)
    requires resolution in ResolutionMultiplier
    ensures CalculateVideoSize(resolution, RecordingBitrate, duration)
         == ResolutionMultiplier[resolution] * duration / 2.0
  {
  }

  /** Sample values at the fixed bitrate: 720p for 60 s is 60 MB, 1080p for
      10 s is 15 MB, 480p for 0 s is 0 MB, and 720p for 30 s is the 30 MB of
      the log line's comment. */
  lemma SampleSizes()
    ensures CalculateVideoSize("720p", RecordingBitrate, 60.0) == 60.0
    ensures CalculateVideoSize("1080p", RecordingBitrate, 10.0) == 15.0
    ensures CalculateVideoSize("480p", RecordingBitrate, 0.0) == 0.0
    ensures CalculateVideoSize("720p", RecordingBitrate, 30.0) == 30.0
  {
  }

  /** The estimate is linear in the duration: additive, and homogeneous
      under scaling. */
  lemma SizeLinearInDuration(resolution: string, bitrate: real, d1: real, d2: real, k: real)
    requires resolution in ResolutionMultiplier
    ensures CalculateVideoSize(resolution, bitrate, d1 + d2)
         == CalculateVideoSize(resolution, bitrate, d1) + CalculateVideoSize(resolution, bitrate, d2)
    ensures CalculateVideoSize(resolution, bitrate, k * d1) == k * CalculateVideoSize(resolution, bitrate, d1)
  {
  }

  /** For a non-negative bitrate a longer recording is never estimated
      smaller than a shorter one. */
  lemma SizeMonotoneInDuration(resolution: string, bitrate: real, d1: real, d2: real)
    requires resolution in ResolutionMultiplier
    requires bitrate >= 0.0 && d1 <= d2
    ensures CalculateVideoSize(resolution, bitrate, d1) <= CalculateVideoSize(resolution, bitrate, d2)
  {
  }

  /** For the same bitrate and duration the tiers are ordered
      480p <= 720p <= 1080p when both are non-negative, and 1080p is always
      exactly three times 480p and 720p twice 480p. */
  lemma TierOrdering(bitrate: real, duration: real)
    ensures CalculateVideoSize("1080p", bitrate, duration) == 3.0 * CalculateVideoSize("480p", bitrate, duration)
    ensures CalculateVideoSize("720p", bitrate, duration) == 2.0 * CalculateVideoSize("480p", bitrate, duration)
    ensures bitrate >= 0.0 && duration >= 0.0 ==>
              CalculateVideoSize("480p", bitrate, duration) <= CalculateVideoSize("720p", bitrate, duration)
              <= CalculateVideoSize("1080p", bitrate, duration)
  {
  }
}
