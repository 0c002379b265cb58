/**
 * `VideoOverlayManager`: on a YouTube watch page, decides between the full
 * Duck Player overlay, the small Dax icon and nothing, and tears down what it
 * added before adding anything new.
 *
 * The DOM is abstracted: a registered side effect is a value in `cleanups`
 * (its teardown is recorded in `released` when `removeAllOverlays` runs it),
 * the small icon is the id of the video it was initialised for, and messages
 * to the native side and navigations of the page are appended to `outbox`.
 */
module VideoOverlayManagement {
  import opened Wrappers
  import opened DuckPlayerValues

  /** A side effect registered through `sideEffect`. */
  datatype Effect =
    | HideNativePlayer          // 'add css to head'
    | PollForVideo              // 'wait for first video element'
    | PauseVideo                // pausing the <video> element
    | FullOverlay(videoId: string)  // appending the overlay element to the page

  datatype Pixel = Pixel(name: string, remember: Option<string>)

  /**
   * A message to the native side, or `environment.setHref` to the private
   * player URL of a video (`toPrivatePlayerUrl` is abstracted to the params
   * it is built from).
   */
  datatype Outgoing = SendPixel(pixel: Pixel) | StoreUserValues(values: UserValues) | OpenPrivatePlayer(params: VideoParams)

  /** The overlay the user's values call for on a watch page. */
  datatype Choice = SmallIcon | FullOverlayChoice | NoOverlay

  /** The manager's fields. */
  datatype Manager = Manager(
    userValues: UserValues,
    lastVideoId: Option<string>,
    icon: Option<string>,        // `videoPlayerIcon`, with the video it was initialised for
    cleanups: seq<Effect>,       // `_cleanups`
    released: seq<Effect>,       // the cleanups run so far, in order
    outbox: seq<Outgoing>)

  /**
   * What the page looks like when the manager reads it: the watch-page
   * params, whether `#player video` and the player container exist, and
   * `environment.hasOneTimeOverride()`.
   */
  datatype Page = Page(params: Option<VideoParams>, videoElement: bool, container: bool, oneTimeOverride: bool)

  /** `handleFirstPageLoad()`. */
  function FirstPageLoad(m: Manager, params: Option<VideoParams>): Manager {
    if m.userValues.mode == Disabled then m
    else if m.userValues.overlayInteracted then m
    else if params.None? then m
    else m.(cleanups := m.cleanups + [HideNativePlayer, PollForVideo])
  }

  /** `removeAllOverlays()`. */
  function RemoveAll(m: Manager): Manager {
    m.(released := m.released + m.cleanups, cleanups := [], icon := None)
  }

  /** `addSmallDaxOverlay(params)`, given whether the player container exists. */
  function AddSmallIcon(m: Manager, params: VideoParams, container: bool): Manager {
    if !container then m else m.(icon := Some(params.id))
  }

  /** The branch on the mode at the end of `watchForVideoBeingAdded`. */
  function OverlayChoice(values: UserValues, oneTimeOverride: bool): Choice {
    if values.mode == Enabled then SmallIcon
    else if values.mode == AlwaysAsk then
      if !values.overlayInteracted then (if !oneTimeOverride then FullOverlayChoice else NoOverlay)
      else SmallIcon
    else NoOverlay
  }

  /** The `conditions` of `watchForVideoBeingAdded`. */
  predicate Rerenders(m: Manager, ignoreCache: bool, id: string) {
    ignoreCache || m.lastVideoId.None? || m.lastVideoId.value != id
  }

  /** `watchForVideoBeingAdded({ ignoreCache })`. */
  function Watch(m: Manager, ignoreCache: bool, page: Page): Manager {
    match page.params
    case None => if m.lastVideoId.Some? then RemoveAll(m).(lastVideoId := None) else m
    case Some(p) =>
      if !Rerenders(m, ignoreCache, p.id) then m
      else if !page.videoElement || !page.container then m
      else
        var cleared := RemoveAll(m.(lastVideoId := Some(p.id)));
        match OverlayChoice(m.userValues, page.oneTimeOverride)
        case SmallIcon => AddSmallIcon(cleared, p, true)
        case FullOverlayChoice =>
          cleared.(cleanups := [PauseVideo, FullOverlay(p.id)],
                   outbox := cleared.outbox + [SendPixel(Pixel("overlay", None))])
        case NoOverlay => cleared
  }

  /** `remember` as the pixels spell it. */
  function RememberFlag(remember: bool): string {
    if remember then "1" else "0"
  }

  /** `userOptIn(remember, params)`, up to the request to store the choice. */
  function OptIn(m: Manager, remember: bool): Manager {
    m.(outbox := m.outbox + [SendPixel(Pixel("play.use", Some(RememberFlag(remember)))),
                             StoreUserValues(UserValues(if remember then Enabled else AlwaysAsk, false))])
  }

  /** The continuation of an opt-in once the native side stored the choice: open the video in Duck Player. */
  function OptInStored(m: Manager, params: VideoParams): Manager {
    m.(outbox := m.outbox + [OpenPrivatePlayer(params)])
  }

  /** `userOptOut(remember, params)`: with `remember`, up to the request to store the choice. */
  function OptOut(m: Manager, remember: bool, params: VideoParams, container: bool): Manager {
    var pixel := SendPixel(Pixel("play.do_not_use", Some(RememberFlag(remember))));
    if remember then m.(outbox := m.outbox + [pixel, StoreUserValues(UserValues(AlwaysAsk, true))])
    else AddSmallIcon(RemoveAll(m.(outbox := m.outbox + [pixel])), params, container)
  }

  /** The continuation of a remembered opt-out once the native side replied with the stored values. */
  function OptOutStored(m: Manager, stored: UserValues, page: Page): Manager {
    Watch(m.(userValues := stored), true, page)
  }

  /** The number of full overlays among the registered effects. */
  function FullOverlays(effects: seq<Effect>): nat {
    if effects == [] then 0
    else (if effects[0].FullOverlay? then 1 else 0) + FullOverlays(effects[1..])
  }

  /** At most one full overlay is up, and never together with the small icon. */
  predicate OverlaysExclusive(m: Manager) {
    FullOverlays(m.cleanups) <= 1 && (FullOverlays(m.cleanups) == 1 ==> m.icon.None?)
  }

  lemma {:induction false} FullOverlaysAppend(a: seq<Effect>, b: seq<Effect>)
    ensures FullOverlays(a + b) == FullOverlays(a) + FullOverlays(b)
    decreases |a|
  {
    if a == [] {
      assert a + b == b;
    } else {
      assert (a + b)[0] == a[0];
      assert (a + b)[1..] == a[1..] + b;
      FullOverlaysAppend(a[1..], b);
    }
  }

  /** The effects a full overlay registers hold exactly one full overlay. */
  lemma FullOverlayPairCount(id: string)
    ensures FullOverlays([PauseVideo, FullOverlay(id)]) == 1
  {
    var pair := [PauseVideo, FullOverlay(id)];
    assert pair[1..] == [FullOverlay(id)];
    assert [FullOverlay(id)][1..] == [];
    assert FullOverlays([FullOverlay(id)]) == 1 + FullOverlays([]);
    assert FullOverlays(pair) == 0 + FullOverlays([FullOverlay(id)]);
  }

  // ---------------------------------------------------------------------------
  // Properties.

  /**
   * `removeAllOverlays` runs every registered cleanup once, in order, and
   * leaves no cleanup and no icon; a second call runs nothing more.
   */
  lemma RemoveAllReleasesEverything(m: Manager)
    ensures RemoveAll(m).cleanups == [] && RemoveAll(m).icon.None?
    ensures RemoveAll(m).released == m.released + m.cleanups
    ensures RemoveAll(RemoveAll(m)) == RemoveAll(m)
  {
  }

  /**
   * The first page load adds its two effects exactly when the mode is not
   * `disabled`, no interaction was recorded and the page has valid params;
   * otherwise it changes nothing.
   */
  lemma FirstPageLoadGuards(m: Manager, params: Option<VideoParams>)
    ensures m.userValues.mode != Disabled && !m.userValues.overlayInteracted && params.Some? ==>
      FirstPageLoad(m, params) == m.(cleanups := m.cleanups + [HideNativePlayer, PollForVideo])
    ensures FirstPageLoad(m, params) == m <==>
      m.userValues.mode == Disabled || m.userValues.overlayInteracted || params.None?
  {
    if m.userValues.mode != Disabled && !m.userValues.overlayInteracted && params.Some? {
      assert |FirstPageLoad(m, params).cleanups| == |m.cleanups| + 2;
    }
  }

  /**
   * Which overlay the values call for: the small icon in `enabled` mode or
   * after an interaction in `alwaysAsk`, the full overlay in `alwaysAsk`
   * without an interaction or a one-time override, nothing otherwise.
   */
  lemma OverlayChoiceTable(values: UserValues, oneTimeOverride: bool)
    ensures OverlayChoice(values, oneTimeOverride) == SmallIcon <==>
      values.mode == Enabled || (values.mode == AlwaysAsk && values.overlayInteracted)
    ensures OverlayChoice(values, oneTimeOverride) == FullOverlayChoice <==>
      values.mode == AlwaysAsk && !values.overlayInteracted && !oneTimeOverride
    ensures values.mode == Disabled || values.mode == NoKnownMode ==> OverlayChoice(values, oneTimeOverride) == NoOverlay
  {
  }

  /**
   * Leaving the watch page: with a video shown before, everything is torn
   * down and the last id forgotten; with none, nothing changes.
   */
  lemma LeavingWatchPageClears(m: Manager, ignoreCache: bool, page: Page)
    requires page.params.None?
    ensures Watch(m, ignoreCache, page).lastVideoId.None?
    ensures m.lastVideoId.Some? ==> Watch(m, ignoreCache, page) == RemoveAll(m).(lastVideoId := None)
    ensures m.lastVideoId.None? ==> Watch(m, ignoreCache, page) == m
  {
  }

  /**
   * On a watch page: nothing changes unless the cache is ignored, no video
   * was seen, or the id changed, and nothing changes while the video element
   * or the container is missing. Otherwise the id is recorded, every earlier
   * effect is released before anything new is registered, and what is added
   * is the overlay `OverlayChoice` picks.
   */
  lemma WatchRendersOnlyOnChange(m: Manager, ignoreCache: bool, page: Page)
    requires page.params.Some?
    ensures !Rerenders(m, ignoreCache, page.params.value.id) ==> Watch(m, ignoreCache, page) == m
    ensures !page.videoElement || !page.container ==> Watch(m, ignoreCache, page) == m
    ensures Rerenders(m, ignoreCache, page.params.value.id) && page.videoElement && page.container ==>
      var r := Watch(m, ignoreCache, page);
      var id := page.params.value.id;
      r.lastVideoId == Some(id) && r.userValues == m.userValues &&
      r.released == m.released + m.cleanups &&
      (r.icon.Some? <==> OverlayChoice(m.userValues, page.oneTimeOverride) == SmallIcon) &&
      (r.icon.Some? ==> r.icon.value == id) &&
      (r.cleanups != [] <==> OverlayChoice(m.userValues, page.oneTimeOverride) == FullOverlayChoice) &&
      (r.cleanups != [] ==> r.cleanups == [PauseVideo, FullOverlay(id)])
  {
  }

  /** A repeated watch with the cache respected changes nothing more. */
  lemma WatchIsIdempotent(m: Manager, page: Page)
    ensures Watch(Watch(m, false, page), false, page) == Watch(m, false, page)
  {
  }

  /** Every operation keeps at most one full overlay up, and never beside the icon. */
  lemma {:induction false} OperationsKeepOverlaysExclusive(m: Manager, ignoreCache: bool, page: Page, params: VideoParams,
                                                           remember: bool, stored: UserValues)
    requires OverlaysExclusive(m)
    ensures OverlaysExclusive(Watch(m, ignoreCache, page))
    ensures OverlaysExclusive(FirstPageLoad(m, page.params))
    ensures OverlaysExclusive(OptIn(m, remember))
    ensures OverlaysExclusive(OptInStored(m, params))
    ensures OverlaysExclusive(OptOut(m, remember, params, page.container))
    ensures OverlaysExclusive(OptOutStored(m, stored, page))
  {
    FullOverlaysAppend(m.cleanups, [HideNativePlayer, PollForVideo]);
    if page.params.Some? {
      FullOverlayPairCount(page.params.value.id);
    }
  }

  /**
   * Opting in asks the native side to store `enabled` when remembered and
   * `alwaysAsk` otherwise, always with `overlayInteracted` false, and leaves
   * the overlays as they are.
   */
  lemma OptInStoresChoice(m: Manager, remember: bool)
    ensures OptIn(m, remember).outbox[|OptIn(m, remember).outbox| - 1] ==
      StoreUserValues(UserValues(if remember then Enabled else AlwaysAsk, false))
    ensures OptIn(m, remember).outbox[..|m.outbox|] == m.outbox
    ensures OptIn(m, remember).(outbox := m.outbox) == m
  {
  }

  /**
   * An opt-in whose choice was stored ends with the pixel, the store request
   * and then the navigation to the video's private player URL, in that
   * order; the overlays, the values and the cache are as they were.
   */
  lemma OptInOpensPrivatePlayer(m: Manager, remember: bool, params: VideoParams)
    ensures var r := OptInStored(OptIn(m, remember), params);
      |r.outbox| == |m.outbox| + 3 && r.outbox[..|m.outbox|] == m.outbox &&
      r.outbox[|m.outbox|] == SendPixel(Pixel("play.use", Some(if remember then "1" else "0"))) &&
      r.outbox[|m.outbox| + 1] == StoreUserValues(UserValues(if remember then Enabled else AlwaysAsk, false)) &&
      r.outbox[|m.outbox| + 2] == OpenPrivatePlayer(params) &&
      r.(outbox := m.outbox) == m
  {
  }

  /**
   * Opting out without remembering swaps whatever was shown for the small
   * icon and stores nothing; remembering stores `alwaysAsk` with an
   * interaction, and once stored the watch shows the small icon.
   */
  lemma OptOutSwapsForIcon(m: Manager, params: VideoParams, page: Page)
    requires page.params == Some(params) && page.videoElement && page.container
    ensures OptOut(m, false, params, true).cleanups == [] && OptOut(m, false, params, true).icon == Some(params.id)
    ensures OptOut(m, false, params, true).released == m.released + m.cleanups
    ensures forall k :: |m.outbox| <= k < |OptOut(m, false, params, true).outbox| ==>
      !OptOut(m, false, params, true).outbox[k].StoreUserValues?
    ensures OptOut(m, true, params, true).outbox[|OptOut(m, true, params, true).outbox| - 1] ==
      StoreUserValues(UserValues(AlwaysAsk, true))
    ensures OptOutStored(m, UserValues(AlwaysAsk, true), page).icon == Some(params.id)
    ensures OptOutStored(m, UserValues(AlwaysAsk, true), page).cleanups == []
  {
  }

  /** The manager as an object: its fields are reassigned by the methods below. */
  class VideoOverlayManager {
    var userValues: UserValues
    var lastVideoId: Option<string>
    var icon: Option<string>
    var cleanups: seq<Effect>
    var released: seq<Effect>
    var outbox: seq<Outgoing>

    function State(): Manager
      reads this
    {
      Manager(userValues, lastVideoId, icon, cleanups, released, outbox)
    }

    constructor (values: UserValues)
      ensures State() == Manager(values, None, None, [], [], [])
    {
      userValues := values;
      lastVideoId := None;
      icon := None;
      cleanups := [];
      released := [];
      outbox := [];
    }

    method HandleFirstPageLoad(params: Option<VideoParams>)
      modifies this
      ensures State() == FirstPageLoad(old(State()), params)
    {
      if userValues.mode == Disabled { return; }
      if userValues.overlayInteracted { return; }
      if params.None? { return; }
      cleanups := cleanups + [HideNativePlayer];
      cleanups := cleanups + [PollForVideo];
    }

    method AddSmallDaxOverlay(params: VideoParams, container: bool)
      modifies this
      ensures State() == AddSmallIcon(old(State()), params, container)
    {
      if !container { return; }
      icon := Some(params.id);
    }

    method RemoveAllOverlays()
      modifies this
      ensures State() == RemoveAll(old(State()))
    {
      released := released + cleanups;
      cleanups := [];
      icon := None;
    }

    method WatchForVideoBeingAdded(ignoreCache: bool, page: Page)
      modifies this
      ensures State() == Watch(old(State()), ignoreCache, page)
    {
      if page.params.None? {
        if lastVideoId.Some? {
          RemoveAllOverlays();
          lastVideoId := None;
        }
        return;
      }
      var params := page.params.value;
      if !(ignoreCache || lastVideoId.None? || lastVideoId.value != params.id) { return; }
      if !page.videoElement || !page.container { return; }
      var values := userValues;
      lastVideoId := Some(params.id);
      RemoveAllOverlays();
      if values.mode == Enabled {
        AddSmallDaxOverlay(params, page.container);
      }
      if values.mode == AlwaysAsk {
        if !values.overlayInteracted {
          if !page.oneTimeOverride {
            cleanups := cleanups + [PauseVideo];
            outbox := outbox + [SendPixel(Pixel("overlay", None))];
            cleanups := cleanups + [FullOverlay(params.id)];
          }
        } else {
          AddSmallDaxOverlay(params, page.container);
        }
      }
    }

    /** `userOptIn(remember, params)`; `params` is used once the choice is stored (`OnOptInStored`). */
    method UserOptIn(remember: bool, params: VideoParams)
      modifies this
      ensures State() == OptIn(old(State()), remember)
    {
      var mode := AlwaysAsk;
      if remember {
        outbox := outbox + [SendPixel(Pixel("play.use", Some("1")))];
        mode := Enabled;
      } else {
        outbox := outbox + [SendPixel(Pixel("play.use", Some("0")))];
      }
      outbox := outbox + [StoreUserValues(UserValues(mode, false))];
    }

    method UserOptOut(remember: bool, params: VideoParams, container: bool)
      modifies this
      ensures State() == OptOut(old(State()), remember, params, container)
    {
      if remember {
        outbox := outbox + [SendPixel(Pixel("play.do_not_use", Some("1")))];
        outbox := outbox + [StoreUserValues(UserValues(AlwaysAsk, true))];
      } else {
        outbox := outbox + [SendPixel(Pixel("play.do_not_use", Some("0")))];
        RemoveAllOverlays();
        AddSmallDaxOverlay(params, container);
      }
    }

    /** The `.then` of `userOptIn`: `environment.setHref(params.toPrivatePlayerUrl())`. */
    method OnOptInStored(params: VideoParams)
      modifies this
      ensures State() == OptInStored(old(State()), params)
    {
      outbox := outbox + [OpenPrivatePlayer(params)];
    }

    method OnOptOutStored(stored: UserValues, page: Page)
      modifies this
      ensures State() == OptOutStored(old(State()), stored, page)
    {
      userValues := stored;
      WatchForVideoBeingAdded(true, page);
    }
  }
}
