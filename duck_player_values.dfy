/**
 * The user's Duck Player preferences as the native side stores them, shared
 * by the overlay code of both generations and by the feature's entry point.
 */
module DuckPlayerValues {
  /**
   * `privatePlayerMode`: an object with one of the keys `enabled`,
   * `alwaysAsk`, `disabled`; `NoKnownMode` is an object with none of them.
   */
  datatype PlayerMode = Enabled | AlwaysAsk | Disabled | NoKnownMode

  datatype UserValues = UserValues(mode: PlayerMode, overlayInteracted: bool)

  /** What `VideoParams.forWatchPage` yields for a valid `/watch` page: the video id. */
  datatype VideoParams = VideoParams(id: string)

  /**
   * The overlay settings both overlay generations read: the thumbnail link
   * selector, the regions to leave alone, and the on/off state of the three
   * parts (`'enabled'` or anything else).
   */
  datatype OverlaysSettings = OverlaysSettings(
    thumbLink: string,
    excludedRegions: seq<string>,
    thumbnailOverlays: string,
    clickInterception: string,
    videoOverlays: string)

  const EnabledState: string := "enabled"
}
