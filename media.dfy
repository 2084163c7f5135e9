/**
 * The page's single <video> element, as far as the content script touches
 * it. Every controller looks it up and may find none (a null reference).
 */
module Media {
  class Video {
    /** Playhead position, in seconds. */
    var currentTime: real
    /** Length of the media, in seconds; assumed known (never NaN). */
    var duration: real
    var paused: bool
    /** Playback rate in hundredths (1.5x is 150). */
    var playbackRate: nat

    constructor (duration: real)
      ensures this.duration == duration && currentTime == 0.0 && paused && playbackRate == 100
    {
      this.duration := duration;
      currentTime := 0.0;
      paused := true;
      playbackRate := 100;
    }
  }
}
