/**
 * The second-generation Duck Player overlays (`initOverlaysV2`): which
 * thumbnail feature and whether a video overlay manager to build from the
 * user's mode and the built-in settings, and the rebuild when the user's
 * values change.
 *
 * Each feature's `init` and `destroy` are recorded in a lifecycle log; what
 * they do to the page is not modelled.
 */
module OverlaysV2 {
  import opened Wrappers
  import opened DuckPlayerValues

  /** The settings `initOverlaysV2` builds for itself; no remote settings reach it. */
  const BuiltInSettings: OverlaysSettings :=
    OverlaysSettings("a[href^='/watch']:has(img)", ["#playlist"], EnabledState, EnabledState, EnabledState)

  /** The mode a `Thumbnails` instance is created with. */
  datatype ThumbnailsMode = ShowOverlays | InterceptClicks

  /** `thumbnailsFeatureFromSettings(userPreferences, settings)`: the mode of the instance, if one is created. */
  function ThumbnailsFeatureFromSettings(values: UserValues, settings: OverlaysSettings): (r: Option<ThumbnailsMode>)
    ensures r == Some(ShowOverlays) <==> values.mode == AlwaysAsk && settings.thumbnailOverlays == EnabledState
    ensures r == Some(InterceptClicks) <==>
      !(values.mode == AlwaysAsk && settings.thumbnailOverlays == EnabledState) &&
      values.mode == Enabled && settings.clickInterception == EnabledState
    ensures values.mode == Disabled || values.mode == NoKnownMode ==> r.None?
  {
    var showThumbs := values.mode == AlwaysAsk && settings.thumbnailOverlays == EnabledState;
    var interceptClicks := values.mode == Enabled && settings.clickInterception == EnabledState;
    if showThumbs then Some(ShowOverlays)
    else if interceptClicks then Some(InterceptClicks)
    else None
  }

  /** `videoOverlaysFeatureFromSettings(userValues, settings)`: the values a new manager is built with, if one is. */
  function VideoOverlaysFeatureFromSettings(values: UserValues, settings: OverlaysSettings): (r: Option<UserValues>)
    ensures r.Some? <==> values.mode != Disabled && settings.videoOverlays == EnabledState
    ensures r.Some? ==> r.value == values
  {
    if values.mode == Disabled then None
    else if settings.videoOverlays != EnabledState then None
    else Some(values)
  }

  datatype Feature = ThumbnailsFeature(mode: ThumbnailsMode) | VideoOverlaysFeature(values: UserValues)

  datatype Lifecycle = Init(feature: Feature) | Destroy(feature: Feature)

  /** The `let` variables `thumbnails` and `videoOverlays`. */
  datatype Features = Features(thumbnails: Option<ThumbnailsMode>, videoOverlays: Option<UserValues>)

  /** Both features as `initOverlaysV2` builds them from the user's values. */
  function Build(values: UserValues): Features {
    Features(ThumbnailsFeatureFromSettings(values, BuiltInSettings), VideoOverlaysFeatureFromSettings(values, BuiltInSettings))
  }

  /** `thumbnails?.destroy(); videoOverlays?.destroy()`. */
  function Destroys(f: Features): seq<Lifecycle> {
    (if f.thumbnails.Some? then [Destroy(ThumbnailsFeature(f.thumbnails.value))] else []) +
    (if f.videoOverlays.Some? then [Destroy(VideoOverlaysFeature(f.videoOverlays.value))] else [])
  }

  /** `thumbnails?.init(); videoOverlays?.init(…)`. */
  function Inits(f: Features): seq<Lifecycle> {
    (if f.thumbnails.Some? then [Init(ThumbnailsFeature(f.thumbnails.value))] else []) +
    (if f.videoOverlays.Some? then [Init(VideoOverlaysFeature(f.videoOverlays.value))] else [])
  }

  /**
   * With the built-in settings: icons in `alwaysAsk`, click interception in
   * `enabled`, no thumbnails otherwise; a video overlay manager in every mode
   * but `disabled`.
   */
  lemma BuiltInSelection(values: UserValues)
    ensures Build(values).thumbnails ==
      (if values.mode == AlwaysAsk then Some(ShowOverlays)
       else if values.mode == Enabled then Some(InterceptClicks) else None)
    ensures Build(values).videoOverlays.Some? <==> values.mode != Disabled
  {
  }

  /**
   * The preference-change handler as intended: every existing feature is
   * destroyed before any new one is initialised, and the new features are
   * the ones the new values call for.
   */
  lemma ChangeDestroysBeforeCreating(current: Features, values: UserValues)
    ensures var log := Destroys(current) + Inits(Build(values));
      (forall i :: 0 <= i < |Destroys(current)| ==> log[i].Destroy?) &&
      (forall i :: |Destroys(current)| <= i < |log| ==> log[i].Init?) &&
      (forall f :: Destroy(f) in log <==>
         (current.thumbnails.Some? && f == ThumbnailsFeature(current.thumbnails.value)) ||
         (current.videoOverlays.Some? && f == VideoOverlaysFeature(current.videoOverlays.value))) &&
      (forall f :: Init(f) in log <==>
         (Build(values).thumbnails.Some? && f == ThumbnailsFeature(Build(values).thumbnails.value)) ||
         (Build(values).videoOverlays.Some? && f == VideoOverlaysFeature(Build(values).videoOverlays.value)))
  {
  }

  // ---------------------------------------------------------------------------
  // The handlers as written: `VideoOverlayManager` defines neither `init` nor
  // `destroy`, so calling either on a manager throws a `TypeError`.

  /** A handler run as written: the variables after it, what it logged, and whether it threw. */
  datatype Outcome = Outcome(features: Features, log: seq<Lifecycle>, threw: bool)

  /** The `onUserValuesChanged` callback of `initOverlaysV2` as written. */
  function ChangeAsWritten(current: Features, values: UserValues): Outcome {
    var destroyed := if current.thumbnails.Some? then [Destroy(ThumbnailsFeature(current.thumbnails.value))] else [];
    if current.videoOverlays.Some? then Outcome(current, destroyed, true)
    else
      var thumbnails := Build(values).thumbnails;
      var log := destroyed + (if thumbnails.Some? then [Init(ThumbnailsFeature(thumbnails.value))] else []);
      var videoOverlays := Build(values).videoOverlays;
      Outcome(Features(thumbnails, videoOverlays), log, videoOverlays.Some?)
  }

  /** The `domState.onLoaded` callback of `initOverlaysV2` as written. */
  function OnLoadedAsWritten(current: Features): Outcome {
    var log := if current.thumbnails.Some? then [Init(ThumbnailsFeature(current.thumbnails.value))] else [];
    Outcome(current, log, current.videoOverlays.Some?)
  }

  /**
   * As written, every handler throws whenever a video overlay manager exists,
   * which the built-in settings create in every mode but `disabled`. Starting
   * in `alwaysAsk` and switching to `enabled` destroys the icon thumbnails
   * and then throws, so click interception never starts and the destroyed
   * instance stays in place.
   */
  lemma HandlersAsWrittenThrowOnVideoOverlays(current: Features, values: UserValues)
    ensures OnLoadedAsWritten(current).threw <==> current.videoOverlays.Some?
    ensures ChangeAsWritten(current, values).threw <==>
      current.videoOverlays.Some? || values.mode != Disabled
    ensures var before := Build(UserValues(AlwaysAsk, false));
      var after := ChangeAsWritten(before, UserValues(Enabled, false));
      after.threw && after.log == [Destroy(ThumbnailsFeature(ShowOverlays))] && after.features == before &&
      Destroys(before) + Inits(Build(UserValues(Enabled, false))) ==
        [Destroy(ThumbnailsFeature(ShowOverlays)), Destroy(VideoOverlaysFeature(UserValues(AlwaysAsk, false))),
         Init(ThumbnailsFeature(InterceptClicks)), Init(VideoOverlaysFeature(UserValues(Enabled, false)))]
  {
  }

  /** What `getUserValues` delivers: it threw, it resolved to a falsy value, or to the values. */
  datatype Reply = Threw | Falsy | Values(values: UserValues)

  /** The state of one `initOverlaysV2` call, with its handlers as intended. */
  class OverlaysV2Session {
    var features: Features
    var log: seq<Lifecycle>
    /** Whether the `onLoaded` callback was registered. */
    var awaitingLoad: bool
    /** Whether the preference subscription was made. */
    var subscribed: bool

    constructor ()
      ensures features == Features(None, None) && log == [] && !awaitingLoad && !subscribed
    {
      features := Features(None, None);
      log := [];
      awaitingLoad := false;
      subscribed := false;
    }

    /** The body of `initOverlaysV2` after the settings: nothing without values. */
    method Start(reply: Reply)
      modifies this
      ensures !reply.Values? ==> features == old(features) && log == old(log) && subscribed == old(subscribed) && awaitingLoad == old(awaitingLoad)
      ensures reply.Values? ==>
        features == Build(reply.values) && log == old(log) && subscribed &&
        awaitingLoad == (features.thumbnails.Some? || features.videoOverlays.Some?)
    {
      if !reply.Values? {
        return;
      }
      var values := reply.values;
      features := Features(ThumbnailsFeatureFromSettings(values, BuiltInSettings),
                           VideoOverlaysFeatureFromSettings(values, BuiltInSettings));
      awaitingLoad := features.thumbnails.Some? || features.videoOverlays.Some?;
      subscribed := true;
    }

    /** The `onLoaded` callback: each existing feature initialised, thumbnails first. */
    method OnLoaded()
      modifies this
      ensures log == old(log) + (if old(awaitingLoad) then Inits(features) else [])
      ensures features == old(features) && !awaitingLoad && subscribed == old(subscribed)
    {
      if awaitingLoad {
        if features.thumbnails.Some? {
          log := log + [Init(ThumbnailsFeature(features.thumbnails.value))];
        }
        if features.videoOverlays.Some? {
          log := log + [Init(VideoOverlaysFeature(features.videoOverlays.value))];
        }
      }
      awaitingLoad := false;
    }

    /** The `onUserValuesChanged` callback: destroy both, then rebuild and initialise each. */
    method OnUserValuesChanged(values: UserValues)
      modifies this
      ensures !old(subscribed) ==> features == old(features) && log == old(log)
      ensures old(subscribed) ==>
        features == Build(values) && log == old(log) + Destroys(old(features)) + Inits(Build(values))
      ensures subscribed == old(subscribed) && awaitingLoad == old(awaitingLoad)
    {
      if !subscribed {
        return;
      }
      if features.thumbnails.Some? {
        log := log + [Destroy(ThumbnailsFeature(features.thumbnails.value))];
      }
      if features.videoOverlays.Some? {
        log := log + [Destroy(VideoOverlaysFeature(features.videoOverlays.value))];
      }
      var thumbnails := ThumbnailsFeatureFromSettings(values, BuiltInSettings);
      if thumbnails.Some? {
        log := log + [Init(ThumbnailsFeature(thumbnails.value))];
      }
      var videoOverlays := VideoOverlaysFeatureFromSettings(values, BuiltInSettings);
      if videoOverlays.Some? {
        log := log + [Init(VideoOverlaysFeature(videoOverlays.value))];
      }
      features := Features(thumbnails, videoOverlays);
    }
  }
}
