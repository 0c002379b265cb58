/**
 * The first-generation Duck Player overlays on YouTube (`initOverlays`): the
 * single-video URL test, the icon overlays and click interception with their
 * latches, the reaction to changed user values, and the one-time override.
 *
 * The DOM is abstracted: an element is a value carrying its `href` and `id`,
 * a page is the list `querySelectorAll` returns, and what `VideoParams` and
 * `URL` compute from a string is passed in.
 */
module Overlays {
  import opened Wrappers
  import opened DuckPlayerValues
  import opened VideoOverlayManagement

  // ---------------------------------------------------------------------------
  // Strings.

  /** `s.startsWith(prefix)`. */
  predicate StartsWith(s: string, prefix: string) {
    |prefix| <= |s| && s[..|prefix|] == prefix
  }

  /** `s.includes(sub)`, scanning from the left. */
  predicate Includes(s: string, sub: string)
    decreases |s|
  {
    StartsWith(s, sub) || (s != [] && Includes(s[1..], sub))
  }

  /** `sub` occurs in `s` at position `i`. */
  predicate OccursAt(s: string, sub: string, i: int) {
    0 <= i && i + |sub| <= |s| && s[i..i + |sub|] == sub
  }

  /** The scan finds `sub` exactly when it occurs somewhere in `s`. */
  lemma {:induction false} IncludesIffOccurs(s: string, sub: string)
    ensures Includes(s, sub) <==> exists i :: OccursAt(s, sub, i)
    decreases |s|
  {
    if StartsWith(s, sub) {
      assert OccursAt(s, sub, 0);
    } else if s != [] {
      IncludesIffOccurs(s[1..], sub);
      if exists i :: OccursAt(s, sub, i) {
        var i :| OccursAt(s, sub, i);
        if i > 0 {
          assert s[1..][i - 1..i - 1 + |sub|] == s[i..i + |sub|];
          assert OccursAt(s[1..], sub, i - 1);
        }
      }
      if exists i :: OccursAt(s[1..], sub, i) {
        var i :| OccursAt(s[1..], sub, i);
        assert s[i + 1..i + 1 + |sub|] == s[1..][i..i + |sub|];
        assert OccursAt(s, sub, i + 1);
      }
    }
  }

  /** A JavaScript truthiness test of an optional string: present and not empty. */
  predicate Truthy(o: Option<string>) {
    o.Some? && o.value != ""
  }

  // ---------------------------------------------------------------------------
  // `VideoThumbnail.isSingleVideoURL`.

  const WatchPath: string := "/watch?v="
  const ListParam: string := "&list="
  const IndexParam: string := "&index="
  const RentalParam: string := "&pp="

  /** `isSingleVideoURL(href)`, as a truth value. */
  predicate IsSingleVideoURL(href: Option<string>) {
    Truthy(href) &&
    ((Includes(href.value, WatchPath) && !Includes(href.value, ListParam)) ||
     (Includes(href.value, WatchPath) && Includes(href.value, ListParam) && Includes(href.value, IndexParam))) &&
    !Includes(href.value, RentalParam)
  }

  /**
   * A link is to a single video iff its href contains `/watch?v=`, carries
   * no `&list=` or else an `&index=`, and is not a rental (`&pp=`).
   */
  lemma IsSingleVideoURLIff(href: Option<string>)
    ensures IsSingleVideoURL(href) <==>
      href.Some? &&
      (exists i :: OccursAt(href.value, WatchPath, i)) &&
      (!(exists i :: OccursAt(href.value, ListParam, i)) || (exists i :: OccursAt(href.value, IndexParam, i))) &&
      !(exists i :: OccursAt(href.value, RentalParam, i))
  {
    if href.Some? {
      IncludesIffOccurs(href.value, WatchPath);
      IncludesIffOccurs(href.value, ListParam);
      IncludesIffOccurs(href.value, IndexParam);
      IncludesIffOccurs(href.value, RentalParam);
      if exists i :: OccursAt(href.value, WatchPath, i) {
        assert href.value != "";
      }
    }
  }

  // ---------------------------------------------------------------------------
  // `Environment.hasOneTimeOverride`.

  /** `allowedProxyOrigins`. */
  const AllowedProxyOrigins: seq<string> := ["duckduckgo.com"]
  const PlayHash: string := "#ddg-play"

  /**
   * `hasOneTimeOverride()`, given `location.hash`, `document.referrer` (absent
   * when not a string) and the hostname `new URL(referrer)` yields (absent
   * when it throws, which the method catches).
   */
  function HasOneTimeOverride(hash: string, referrer: Option<string>, hostname: Option<string>): (r: bool)
    ensures r <==> hash == PlayHash && Truthy(referrer) && hostname == Some("duckduckgo.com")
  {
    if hash != PlayHash then false
    else if referrer.None? then false
    else if |referrer.value| == 0 then false
    else match hostname
      case None => false
      case Some(h) => h in AllowedProxyOrigins
  }

  // ---------------------------------------------------------------------------
  // `AllIconOverlays`.

  /** The icon overlays' latches, with counts of the DOM work they do. */
  class AllIconOverlays {
    var enabled: bool
    var hasBeenEnabled: bool
    /** One-time setup: the CSS, the DOM observer and the window listeners. */
    var setups: nat
    /** Passes of `appendHoverOverlay` + `VideoThumbnail.bindEventsToAll`. */
    var bindPasses: nat
    /** Calls of `IconOverlay.removeAll`. */
    var removals: nat

    /** The one-time setup has happened exactly when the overlays were ever enabled. */
    predicate Valid()
      reads this
    {
      setups == (if hasBeenEnabled then 1 else 0) && (enabled ==> hasBeenEnabled)
    }

    constructor ()
      ensures Valid() && !enabled && !hasBeenEnabled && bindPasses == 0 && removals == 0
    {
      enabled := false;
      hasBeenEnabled := false;
      setups := 0;
      bindPasses := 0;
      removals := 0;
    }

    /** `enable()`: the setup only the first time, the binding every time. */
    method Enable()
      requires Valid()
      modifies this
      ensures Valid() && enabled && hasBeenEnabled
      ensures setups == old(setups) + (if old(hasBeenEnabled) then 0 else 1)
      ensures bindPasses == old(bindPasses) + 1 && removals == old(removals)
    {
      if !hasBeenEnabled {
        setups := setups + 1;
      }
      bindPasses := bindPasses + 1;
      enabled := true;
      hasBeenEnabled := true;
    }

    /** `disable()`: clears `enabled` but not `hasBeenEnabled`. */
    method Disable()
      requires Valid()
      modifies this
      ensures Valid() && !enabled && hasBeenEnabled == old(hasBeenEnabled)
      ensures setups == old(setups) && bindPasses == old(bindPasses) && removals == old(removals) + 1
    {
      enabled := false;
      removals := removals + 1;
    }
  }

  // ---------------------------------------------------------------------------
  // `OpenInDuckPlayer`.

  /** An element `querySelectorAll` returned: a number for the DOM object, and its `href` and `id` attributes. */
  datatype Element = Element(node: nat, href: Option<string>, id: Option<string>)

  /** `isValidVideoLinkOrPreview(element)`. */
  predicate IsValidTarget(e: Element) {
    IsSingleVideoURL(e.href) || e.id == Some("media-container-link")
  }

  /** One element of the `forEach`: bound unless already bound or not a valid target. */
  function BindOne(bound: seq<Element>, e: Element): seq<Element> {
    if e in bound then bound
    else if !IsValidTarget(e) then bound
    else bound + [e]
  }

  /** The registry after the `forEach` over `page`, in page order. */
  function BindAll(bound: seq<Element>, page: seq<Element>): seq<Element>
    decreases |page|
  {
    if page == [] then bound
    else BindOne(BindAll(bound, page[..|page| - 1]), page[|page| - 1])
  }

  predicate Distinct(s: seq<Element>) {
    forall i, j :: 0 <= i < j < |s| ==> s[i] != s[j]
  }

  /**
   * Binding keeps what was bound, adds only valid elements of the page, binds
   * every valid element of the page, and binds no element twice.
   */
  lemma {:induction false} BindAllBindsEachValidOnce(bound: seq<Element>, page: seq<Element>)
    ensures |bound| <= |BindAll(bound, page)| && BindAll(bound, page)[..|bound|] == bound
    ensures forall e :: e in BindAll(bound, page) && e !in bound ==> e in page && IsValidTarget(e)
    ensures forall e :: e in page && IsValidTarget(e) ==> e in BindAll(bound, page)
    ensures Distinct(bound) ==> Distinct(BindAll(bound, page))
    decreases |page|
  {
    if page != [] {
      var init := page[..|page| - 1];
      var last := page[|page| - 1];
      BindAllBindsEachValidOnce(bound, init);
      var before := BindAll(bound, init);
      assert BindAll(bound, page) == BindOne(before, last);
      assert forall e :: e in page ==> e in init || e == last by {
        forall e | e in page ensures e in init || e == last {
          var k :| 0 <= k < |page| && page[k] == e;
          if k < |page| - 1 { assert init[k] == e; }
        }
      }
      assert forall e :: e in init ==> e in page by {
        forall e | e in init ensures e in page {
          var k :| 0 <= k < |init| && init[k] == e;
          assert page[k] == e;
        }
      }
      if last !in before && IsValidTarget(last) {
        assert (before + [last])[..|bound|] == before[..|bound|];
      }
    }
  }

  /** A page already fully bound binds nothing more. */
  lemma {:induction false} BindAllOfBound(bound: seq<Element>, page: seq<Element>)
    requires forall e :: e in page && IsValidTarget(e) ==> e in bound
    ensures BindAll(bound, page) == bound
    decreases |page|
  {
    if page != [] {
      var init := page[..|page| - 1];
      assert forall e :: e in init ==> e in page by {
        forall e | e in init ensures e in page {
          var k :| 0 <= k < |init| && init[k] == e;
          assert page[k] == e;
        }
      }
      BindAllOfBound(bound, init);
    }
  }

  /** Binding the same page again changes nothing: repeated DOM observers are harmless. */
  lemma BindAllIsIdempotent(bound: seq<Element>, page: seq<Element>)
    ensures BindAll(BindAll(bound, page), page) == BindAll(bound, page)
  {
    BindAllBindsEachValidOnce(bound, page);
    BindAllOfBound(BindAll(bound, page), page);
  }

  /** Where a click sends the user: the closest link's player URL, else the last hovered one, else nowhere. */
  function ClickTarget(fromClosest: Option<string>, lastMouseOver: Option<string>): (r: Option<string>)
    ensures Truthy(fromClosest) ==> r == fromClosest
    ensures !Truthy(fromClosest) && Truthy(lastMouseOver) ==> r == lastMouseOver
    ensures r.None? <==> !Truthy(fromClosest) && !Truthy(lastMouseOver)
  {
    if Truthy(fromClosest) then fromClosest
    else if Truthy(lastMouseOver) then lastMouseOver
    else None
  }

  /** Click interception: the bound elements, the latch and the last hovered player URL. */
  class OpenInDuckPlayer {
    var clickBoundElements: seq<Element>
    var enabled: bool
    var lastMouseOver: Option<string>
    /** The `onDOMChanged` observers registered so far. */
    var observers: nat

    predicate Valid()
      reads this
    {
      Distinct(clickBoundElements)
    }

    constructor ()
      ensures Valid() && clickBoundElements == [] && !enabled && lastMouseOver.None? && observers == 0
    {
      clickBoundElements := [];
      enabled := false;
      lastMouseOver := None;
      observers := 0;
    }

    /** `bindEventsToAll()` over the elements the page currently holds. */
    method BindEventsToAll(page: seq<Element>)
      requires Valid()
      modifies this
      ensures Valid()
      ensures clickBoundElements == (if old(enabled) then BindAll(old(clickBoundElements), page) else old(clickBoundElements))
      ensures enabled == old(enabled) && lastMouseOver == old(lastMouseOver) && observers == old(observers)
    {
      if !enabled {
        return;
      }
      ghost var start := clickBoundElements;
      var i := 0;
      while i < |page|
        invariant 0 <= i <= |page|
        invariant clickBoundElements == BindAll(start, page[..i])
        invariant enabled == old(enabled) && lastMouseOver == old(lastMouseOver) && observers == old(observers)
      {
        var element := page[i];
        assert page[..i + 1][..i] == page[..i];
        if element in clickBoundElements {
        } else if !IsValidTarget(element) {
        } else {
          clickBoundElements := clickBoundElements + [element];
        }
        i := i + 1;
      }
      assert page[..|page|] == page;
      BindAllBindsEachValidOnce(start, page);
    }

    /** `disable()`: every listener removed, the registry emptied, the latch cleared. */
    method Disable()
      modifies this
      ensures Valid() && clickBoundElements == [] && !enabled
      ensures lastMouseOver == old(lastMouseOver) && observers == old(observers)
    {
      clickBoundElements := [];
      enabled := false;
    }

    /** `enable()`: the latch set, the page bound, and one more observer that rebinds on DOM changes. */
    method Enable(page: seq<Element>)
      requires Valid()
      modifies this
      ensures Valid() && enabled
      ensures clickBoundElements == BindAll(old(clickBoundElements), page)
      ensures lastMouseOver == old(lastMouseOver) && observers == old(observers) + 1
    {
      enabled := true;
      BindEventsToAll(page);
      observers := observers + 1;
    }

    /** `enableOnDOMLoaded()`: the latch set at once; binding waits for the DOM. */
    method EnableOnDOMLoaded()
      modifies this
      ensures enabled
      ensures clickBoundElements == old(clickBoundElements) && lastMouseOver == old(lastMouseOver)
      ensures observers == old(observers)
    {
      enabled := true;
    }

    /** The `onDOMLoaded` callback `enableOnDOMLoaded` scheduled. */
    method OnDOMLoaded(page: seq<Element>)
      requires Valid()
      modifies this
      ensures Valid()
      ensures clickBoundElements == (if old(enabled) then BindAll(old(clickBoundElements), page) else old(clickBoundElements))
      ensures enabled == old(enabled) && lastMouseOver == old(lastMouseOver) && observers == old(observers) + 1
    {
      BindEventsToAll(page);
      observers := observers + 1;
    }

    /** A `mouseover` on `element`: remember its player URL when it has one. */
    method OnMouseOver(element: Element, privateUrl: Option<string>)
      modifies this
      ensures lastMouseOver == (if element in old(clickBoundElements) && Truthy(privateUrl) then privateUrl else old(lastMouseOver))
      ensures clickBoundElements == old(clickBoundElements) && enabled == old(enabled) && observers == old(observers)
    {
      if element in clickBoundElements && Truthy(privateUrl) {
        lastMouseOver := privateUrl;
      }
    }

    /**
     * A `click` on `element`: when its listener is bound, the player URL sent
     * with `openInDuckPlayerViaMessage`, if any.
     */
    method OnClick(element: Element, fromClosest: Option<string>) returns (sent: Option<string>)
      ensures element !in clickBoundElements ==> sent.None?
      ensures element in clickBoundElements ==> sent == ClickTarget(fromClosest, lastMouseOver)
    {
      if element !in clickBoundElements {
        return None;
      }
      if Truthy(fromClosest) {
        sent := fromClosest;
      } else if Truthy(lastMouseOver) {
        sent := lastMouseOver;
      } else {
        sent := None;
      }
    }
  }

  // ---------------------------------------------------------------------------
  // `initOverlays`.

  /** What the load-time branch on the mode schedules for when the DOM is loaded. */
  datatype Activation = IconsOnDOMLoaded | ClicksOnDOMLoaded | NoActivation

  /** The branch at the end of `initOverlays`: icons in `alwaysAsk`, clicks in `enabled`. */
  function InitialActivation(mode: PlayerMode): (r: Activation)
    ensures r == IconsOnDOMLoaded <==> mode == AlwaysAsk
    ensures r == ClicksOnDOMLoaded <==> mode == Enabled
  {
    if mode == AlwaysAsk then IconsOnDOMLoaded
    else if mode == Enabled then ClicksOnDOMLoaded
    else NoActivation
  }

  /**
   * The `onUserValuesChanged` callback: the manager takes the new values and
   * re-renders ignoring its cache; then `disabled` turns both features off,
   * `enabled` turns icons off and click interception on, `alwaysAsk` the
   * reverse.
   */
  method OnUserValuesChanged(manager: VideoOverlayManager, icons: AllIconOverlays, clicks: OpenInDuckPlayer,
                             values: UserValues, watchPage: Page, page: seq<Element>)
    requires icons.Valid() && clicks.Valid()
    modifies manager, icons, clicks
    ensures manager.State() == Watch(old(manager.State()).(userValues := values), true, watchPage)
    ensures icons.Valid() && clicks.Valid()
    ensures values.mode == Disabled ==> !icons.enabled && !clicks.enabled && clicks.clickBoundElements == []
    ensures values.mode == Enabled ==>
      !icons.enabled && clicks.enabled && clicks.clickBoundElements == BindAll(old(clicks.clickBoundElements), page)
    ensures values.mode == AlwaysAsk ==> icons.enabled && !clicks.enabled && clicks.clickBoundElements == []
    ensures values.mode == NoKnownMode ==>
      icons.enabled == old(icons.enabled) && clicks.enabled == old(clicks.enabled) &&
      clicks.clickBoundElements == old(clicks.clickBoundElements)
  {
    manager.userValues := values;
    manager.WatchForVideoBeingAdded(true, watchPage);
    if values.mode == Disabled {
      icons.Disable();
      clicks.Disable();
    } else if values.mode == Enabled {
      icons.Disable();
      clicks.Enable(page);
    } else if values.mode == AlwaysAsk {
      icons.Enable();
      clicks.Disable();
    }
  }

  /** The objects `initOverlays` sets up once the user values arrived. */
  datatype Session = Session(manager: VideoOverlayManager, icons: AllIconOverlays, clicks: OpenInDuckPlayer,
                             pending: Activation)

  /**
   * `initOverlays(environment, comms)`, given what `comms.getUserValues()`
   * yields (absent when it throws): without values nothing is set up;
   * otherwise the manager handles the first page load and the branch on the
   * mode decides what starts once the DOM is loaded.
   */
  method InitOverlays(reply: Option<UserValues>, params: Option<VideoParams>) returns (session: Option<Session>)
    ensures session.None? <==> reply.None?
    ensures session.Some? ==>
      session.value.manager.State() == FirstPageLoad(Manager(reply.value, None, None, [], [], []), params) &&
      session.value.pending == InitialActivation(reply.value.mode) &&
      session.value.icons.Valid() && !session.value.icons.enabled &&
      session.value.clicks.Valid() && session.value.clicks.clickBoundElements == [] &&
      session.value.clicks.enabled == (reply.value.mode == Enabled)
  {
    if reply.None? {
      return None;
    }
    var values := reply.value;
    var manager := new VideoOverlayManager(values);
    manager.HandleFirstPageLoad(params);
    var icons := new AllIconOverlays();
    var clicks := new OpenInDuckPlayer();
    var pending := NoActivation;
    if values.mode == AlwaysAsk {
      pending := IconsOnDOMLoaded;
    } else if values.mode == Enabled {
      clicks.EnableOnDOMLoaded();
      pending := ClicksOnDOMLoaded;
    }
    session := Some(Session(manager, icons, clicks, pending));
  }
}
