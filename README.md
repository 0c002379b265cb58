# Content-scope scripts: a Dafny model of the messaging, debug-tools and feature-loading core

This project models the decision and state logic of DuckDuckGo's content-scope
scripts and proves what that logic promises. It covers:

- **The `sendMessage` transport** (`Messaging`). A set of handler closures correlates replies
  from the native side with pending requests and subscriptions. `onResponse` runs every handler
  on every event; a request handler removes itself before it resolves its promise. The
  transport is a class whose `OnResponse` loop is proved against the dispatch function
  `Dispatch`.
- **The debug-tools resource editor** (`DebugToolsTypes`, `DebugToolsMessages`, `Workflow`,
  `RemoteResources`).
  - The xstate machine and its implementation are flattened into a transition table. The table
    covers the states, entry and `always` transitions, invoked services and their done/error
    events, and the ordered actions (`preserveActionOrder`). The `error`/`clearErrors` events
    the actions raise are processed in the same macrostep.
  - The typed messages client (`getFeatures`, `updateResource`) and the page component's
    `resourceSelector` and state flags are modelled as functions.
- **Duck Player** (`DuckPlayerValues`, `VideoOverlayManagement`, `Overlays`, `OverlaysV2`,
  `DuckPlayer`).
  - The video overlay manager is a class whose fields mirror the object's. Each method is
    proved against a function of the old state.
  - The first-generation overlays include the URL test, the one-time override, the icon
    overlays' latches and click interception. Click interception's binding loop is proved
    against `BindAll`.
  - The second-generation overlays cover feature selection and the rebuild on a change of
    preferences.
  - The feature's entry point covers the gate, the settings defaults and the cached messaging
    getter.
- **The web-compatibility shims** (`WebCompat`). The window-sizing, notification, permissions,
  credentials, `window.safari` and `webkit.messageHandlers` fixes are methods of a `Globals`
  class. The shims they install are values whose behaviour is given by `Query`,
  `RequestPermission`, `HandlerStrategy` and `Get`.
- **The feature loader** (`ContentScopeFeatures`). The module-level `features`, `updates` and
  `initArgs` are fields of `FeatureLoader`. Calls into feature instances go into a log. The
  `load` loop, the `init` loop and the LIFO drain of buffered updates are proved against
  specification functions.

Inputs the code reads from outside are parameters:

- the native side's replies;
- whether a subscriber throws (the `failing` set). Only the subscriber callbacks can end the `forEach` early: the comparators at `packages/messaging/lib/sendMessageWrapper.js:58-64`, `:76-78` and `:96-101` only read properties of an event already known to be truthy, so they cannot throw;
- the document kind (`shouldRun`), `import.meta.injectName` and `platformSupport`;
- `isFeatureBroken`, given as a set of broken feature names;
- which DOM elements exist;
- the feature settings.

## Model

| member | source | states |
|---|---|---|
| Messaging.RequestComparator | packages/messaging/lib/sendMessageWrapper.js:55-89 | A default request's reply matches exactly when `responseMessageType` equals the method name. A `getYouTubeVideoDetails` reply also needs a present `response` whose `videoURL` equals the request params. |
| Messaging.SubscriptionComparator | packages/messaging/lib/sendMessageWrapper.js:95-101 | A subscription matches exactly when `messageType` or `responseMessageType` equals its name. |
| Messaging.Without | packages/messaging/lib/sendMessageWrapper.js:136-138 | Deleting handlers from the set keeps exactly the others and keeps the set duplicate-free. |
| Messaging.UnsubscribeIdempotent | packages/messaging/lib/sendMessageWrapper.js:136-142 | Calling a remover twice leaves the queue as after one call, and removes only its own handler. |
| Messaging.FalsyEventInvokesNothing | packages/messaging/lib/sendMessageWrapper.js:124-128 | A falsy event reaches no callback and changes no state. |
| Messaging.DispatchQueue | packages/messaging/lib/sendMessageWrapper.js:40-42 | With no throwing subscriber, dispatch runs to the end and removes exactly the request handlers whose comparator holds. |
| Messaging.DispatchReceived | packages/messaging/lib/sendMessageWrapper.js:95-109 | With no throwing subscriber, every matching subscriber is called once with the event's `response`, in queue order. |
| Messaging.DispatchPromises | packages/messaging/lib/sendMessageWrapper.js:65-86 | With no throwing subscriber, every matching request's promise is resolved with `response` and no other promise changes. |
| Messaging.DispatchEffect | packages/messaging/lib/sendMessageWrapper.js:40-42 | The whole effect of `onResponse` on queue, promises and subscriber calls: all matching waiters fire, not only the first. |
| Messaging.IdenticalRequestsResolvedTogether | packages/messaging/lib/sendMessageWrapper.js:40-42 | Two identical in-flight requests are both resolved by one matching event. |
| Messaging.DispatchAllAppend | packages/messaging/lib/sendMessageWrapper.js:41 | Dispatch over `a + b` is dispatch over `a`, then, unless that threw, over `b`. |
| Messaging.ThrowingSubscriberAborts | packages/messaging/lib/sendMessageWrapper.js:41 | A throwing subscriber ends the `forEach`: only the handlers up to and including it run. |
| Messaging.SubscriptionPersists | packages/messaging/lib/sendMessageWrapper.js:95-109 | A subscription handler stays registered across any event. |
| Messaging.SettledPromiseIsFinal | packages/messaging/lib/sendMessageWrapper.js:67-71 | Once a request's handler is gone, no later event changes its promise. |
| Messaging.RequestResolvesOnce | packages/messaging/lib/sendMessageWrapper.js:65-86 | A resolved request is not resolved again by a second matching event. |
| Messaging.DispatchKeepsWellFormed | packages/messaging/lib/sendMessageWrapper.js:116-143 | Dispatch keeps handlers distinct with fresh ids and every registered request pending, whether or not it is cut short. |
| Messaging.Transport.constructor | packages/messaging/lib/sendMessageWrapper.js:16 | The handler set starts empty. |
| Messaging.Transport.Register | packages/messaging/lib/sendMessageWrapper.js:116-143 | `_subscribe` appends one new handler and changes nothing else. |
| Messaging.Transport.Unsubscribe | packages/messaging/lib/sendMessageWrapper.js:140-142 | The remover deletes exactly its handler. |
| Messaging.Transport.Notify | packages/messaging/lib/sendMessageWrapper.js:47-49 | `notify` sends one message and leaves the handler queue unchanged. |
| Messaging.Transport.Request | packages/messaging/lib/sendMessageWrapper.js:55-89 | `request` sends one message, registers a one-shot handler with the request comparator, and creates a pending promise. |
| Messaging.Transport.Subscribe | packages/messaging/lib/sendMessageWrapper.js:95-109 | `subscribe` registers a persistent forwarding handler with the subscription comparator. |
| Messaging.Transport.OnResponse | packages/messaging/lib/sendMessageWrapper.js:40-42 | The loop over the live set has exactly the effect of `Dispatch` and keeps the invariant. |
| Messaging.Transport.DeliverTo | packages/messaging/lib/sendMessageWrapper.js:124-133 | One handler still in the set has exactly the effect `Deliver` gives it: a request removed and resolved, a subscriber called and possibly throwing, anything else untouched. |
| DebugToolsTypes.Parse | packages/special-pages/pages/debug-tools/src/js/DebugToolsMessages.mjs:27 | Schema parsing succeeds exactly on well-typed input and returns it; otherwise it throws with the issues. |
| DebugToolsTypes.Find | packages/special-pages/pages/debug-tools/src/js/DebugToolsMessages.mjs:39 | `find` by id yields a resource iff one has the id, and then the first one with it. |
| DebugToolsMessages.GetFeatures | packages/special-pages/pages/debug-tools/src/js/DebugToolsMessages.mjs:25-29 | One `getFeatures` request; the result is the reply iff the reply parses. |
| DebugToolsMessages.UpdateResource | packages/special-pages/pages/debug-tools/src/js/DebugToolsMessages.mjs:35-44 | Malformed params send nothing. Otherwise one `updateResource` request is sent, and the result is the first returned resource with the params' id. If there is none, it throws 'todo! how can we get here?'. |
| Workflow.Start | packages/special-pages/pages/debug-tools/src/js/machine.ts:8-23 | The machine starts in `Initial state` with only `getFeatures` invoked. |
| Workflow.SaveNewRemoteRun | packages/special-pages/pages/debug-tools/src/js/machine-impl.ts:19-25 | The service calls `updateResource` with the payload iff triggered by `save new remote`, else rejects with 'not supported'. |
| Workflow.SaveEditedRun | packages/special-pages/pages/debug-tools/src/js/machine-impl.ts:26-32 | The same for `save edited`. |
| Workflow.ParseJSONRun | packages/special-pages/pages/debug-tools/src/js/machine-impl.ts:15-17 | `parseJSON` always resolves. |
| Workflow.ApplyAllRaisesOnlyRegionEvents | packages/special-pages/pages/debug-tools/src/js/machine-impl.ts:51-64 | The actions raise only `error` and `clearErrors`. |
| Workflow.RaisedEventsTouchOnlyErrors | packages/special-pages/pages/debug-tools/src/js/machine.ts:72-86 | The raised events change only the `errors` region of `showing editor`, never the context or the services. |
| Workflow.ErrorsRegionIndependentOfEditing | packages/special-pages/pages/debug-tools/src/js/machine.ts:72-86 | `error` moves the errors region to `some` and `clearErrors` to `none`, in any editing sub-state. |
| Workflow.FeaturesLoadedLandsInLoadingResource | packages/special-pages/pages/debug-tools/src/js/machine.ts:8-66 | A `getFeatures` reply assigns the features and goes through the current feature and resource to `loading resource`, invoking `parseJSON`. |
| Workflow.FeaturesFailedShowsErrorUntilRetry | packages/special-pages/pages/debug-tools/src/js/machine.ts:8-38 | A `getFeatures` failure shows the error state, which only `Retry` leaves. |
| Workflow.ParseOutcomes | packages/special-pages/pages/debug-tools/src/js/machine.ts:51-66 | A parsed resource opens the editor in `editorEnabled` with no errors; a parse failure goes to `resourceInvalid`; the context is kept. |
| Workflow.ResourceInvalidAbsorbs | packages/special-pages/pages/debug-tools/src/js/machine.ts:148 | `resourceInvalid` ignores every event. |
| Workflow.SaveStartsOnlyFromEditorEnabled | packages/special-pages/pages/debug-tools/src/js/machine.ts:87-99 | A save service starts only from `editorEnabled` on its own save event. |
| Workflow.StartedSavesForwardPayload | packages/special-pages/pages/debug-tools/src/js/machine.ts:100-143 | A started save service carries the triggering event, hence its payload. |
| Workflow.SaveEventsIgnoredWhileSaving | packages/special-pages/pages/debug-tools/src/js/machine.ts:100-143 | While saving, further save events change nothing. |
| Workflow.SaveSucceeded | packages/special-pages/pages/debug-tools/src/js/machine.ts:100-143 | A successful save replaces the current resource by the saved one, raises the key and clears the errors, back in `editorEnabled`. |
| Workflow.SaveFailedRecordsMessage | packages/special-pages/pages/debug-tools/src/js/machine-impl.ts:51-58 | A failed save with a message returns to `editorEnabled` with errors `some`; without a string message, `serviceError` throws. |
| Workflow.SendPreservesConsistent | packages/special-pages/pages/debug-tools/src/js/machine-impl.ts:65-78 | Once a resource is selected, features and the current resource stay present. |
| Workflow.ThrowsOnlyOnMessagelessRejection | packages/special-pages/pages/debug-tools/src/js/machine-impl.ts:51-58 | In a consistent configuration, an event fails iff the editor is saving and the event is that save's error event with no string message. |
| Workflow.ResourceKeyCountsLoadsAndSaves | packages/special-pages/pages/debug-tools/src/js/machine-impl.ts:79-81 | `resourceKey ?? 0` goes up by one exactly when the features arrive and a resource is selected, and on a successful save; otherwise it is unchanged. |
| Workflow.EditorKeyCountsSaves | packages/special-pages/pages/debug-tools/src/js/machine-impl.ts:79-81 | Inside `showing editor`, `resourceKey ?? 0` goes up by one exactly on a successful save and is otherwise unchanged. |
| Workflow.ApplyAllCountsRaiseUpdated | packages/special-pages/pages/debug-tools/src/js/machine-impl.ts:79-81 | A transition's actions raise `resourceKey ?? 0` by exactly the number of `raiseUpdated` actions among them. |
| Workflow.UnhandledEventKeepsConfig | packages/special-pages/pages/debug-tools/src/js/machine.ts:7-161 | An event with no transition in the active state leaves state and context unchanged and starts nothing. |
| Workflow.ReplaceByIdReplacesExactly | packages/special-pages/pages/debug-tools/src/js/machine-impl.ts:70-76 | The update keeps the length, replaces every resource with the current id and keeps the others. |
| Workflow.SavedResourceIsSelected | packages/special-pages/pages/debug-tools/src/js/machine-impl.ts:65-78 | After the replacement, finding the current id yields the saved resource; replacing twice equals replacing once. |
| RemoteResources.ResourceSelector | packages/special-pages/pages/debug-tools/src/js/components/remote-resources.js:84-93 | The selector yields the first resource with the current id iff there is one, else throws 'unreachable, could not access … in context'. |
| RemoteResources.RenderFlags | packages/special-pages/pages/debug-tools/src/js/components/remote-resources.js:49-66 | The editor shows iff the machine is in `showing editor`, with the error line iff errors is `some`, and the pending flags iff saving. The invalid message shows iff in `resourceInvalid`. |
| RemoteResources.SaveRendersPending | packages/special-pages/pages/debug-tools/src/js/components/remote-resources.js:49-66 | A save from an enabled editor renders the saving form pending and the other not, over the same resource and key. |
| RemoteResources.SaveRendersSaved | packages/special-pages/pages/debug-tools/src/js/components/remote-resources.js:49-66 | Once the save settles with a resource of the current id: no form pending, no error line, the key one higher, and the saved resource shown. |
| RemoteResources.RenderAfterSave | packages/special-pages/pages/debug-tools/src/js/components/remote-resources.js:49-66 | The render of the configuration a successful save lands in shows the saved resource with the key one higher. |
| RemoteResources.SaveCallbacksStartTheirService | packages/special-pages/pages/debug-tools/src/js/components/remote-resources.js:38-47 | Each save callback sends its event, which starts its service with the unchanged payload. |
| RemoteResources.SelectorShowsSavedResource | packages/special-pages/pages/debug-tools/src/js/components/remote-resources.js:84-93 | After a successful save the selector shows the saved resource. |
| VideoOverlayManagement.FullOverlayPairCount | src/features/duckplayer/video-overlay-manager.js:168-215 | Showing the full overlay registers exactly one full overlay among its effects. |
| VideoOverlayManagement.RemoveAllReleasesEverything | src/features/duckplayer/video-overlay-manager.js:292-301 | Every registered cleanup runs once in order; no cleanup and no icon remain; a second call runs nothing. |
| VideoOverlayManagement.FirstPageLoadGuards | src/features/duckplayer/video-overlay-manager.js:37-82 | The first load adds its two effects iff the mode is not `disabled`, no interaction is recorded and the page has params; otherwise nothing changes. |
| VideoOverlayManagement.OverlayChoiceTable | src/features/duckplayer/video-overlay-manager.js:132-161 | Small icon in `enabled` or after an interaction in `alwaysAsk`; full overlay in `alwaysAsk` without interaction and without a one-time override; nothing otherwise. |
| VideoOverlayManagement.LeavingWatchPageClears | src/features/duckplayer/video-overlay-manager.js:103-120 | Off a watch page with a video seen, everything is torn down and the id forgotten; with none, nothing changes. |
| VideoOverlayManagement.WatchRendersOnlyOnChange | src/features/duckplayer/video-overlay-manager.js:103-162 | Re-rendering happens only when the cache is ignored or the id changed, with the video and container present. It then releases every earlier effect before adding the chosen overlay. |
| VideoOverlayManagement.WatchIsIdempotent | src/features/duckplayer/video-overlay-manager.js:103-162 | A repeated watch with the cache respected changes nothing. |
| VideoOverlayManagement.OperationsKeepOverlaysExclusive | src/features/duckplayer/video-overlay-manager.js:87-301 | Every operation keeps at most one full overlay, never beside the small icon. |
| VideoOverlayManagement.OptInStoresChoice | src/features/duckplayer/video-overlay-manager.js:225-242 | Opting in stores `enabled` when remembered, else `alwaysAsk`, with no interaction, and keeps the overlays. |
| VideoOverlayManagement.OptInOpensPrivatePlayer | src/features/duckplayer/video-overlay-manager.js:225-241 | An opt-in whose choice was stored emits the pixel, the store request and then the navigation to the video's private player URL, in that order; overlays, values and cache are unchanged. |
| VideoOverlayManagement.OptOutSwapsForIcon | src/features/duckplayer/video-overlay-manager.js:248-274 | Opting out without remembering swaps the overlay for the small icon. Remembering stores `alwaysAsk` with an interaction, after which the watch shows the icon. |
| VideoOverlayManagement.VideoOverlayManager.constructor | src/features/duckplayer/video-overlay-manager.js:28-32 | A new manager holds the values and no video, icon or cleanup. |
| VideoOverlayManagement.VideoOverlayManager.HandleFirstPageLoad | src/features/duckplayer/video-overlay-manager.js:37-82 | The fields after the call are `FirstPageLoad` of those before. |
| VideoOverlayManagement.VideoOverlayManager.AddSmallDaxOverlay | src/features/duckplayer/video-overlay-manager.js:87-97 | The fields after the call are `AddSmallIcon` of those before. |
| VideoOverlayManagement.VideoOverlayManager.RemoveAllOverlays | src/features/duckplayer/video-overlay-manager.js:292-301 | The fields after the call are `RemoveAll` of those before. |
| VideoOverlayManagement.VideoOverlayManager.WatchForVideoBeingAdded | src/features/duckplayer/video-overlay-manager.js:103-162 | The fields after the call are `Watch` of those before. |
| VideoOverlayManagement.VideoOverlayManager.UserOptIn | src/features/duckplayer/video-overlay-manager.js:225-239 | The fields after the call are `OptIn` of those before: the pixel, then the request to store the choice. |
| VideoOverlayManagement.VideoOverlayManager.OnOptInStored | src/features/duckplayer/video-overlay-manager.js:239-240 | Once the choice is stored, the fields are `OptInStored` of those before: one navigation to the params' private player URL. |
| VideoOverlayManagement.VideoOverlayManager.UserOptOut | src/features/duckplayer/video-overlay-manager.js:248-274 | The fields after the call are `OptOut` of those before. |
| VideoOverlayManagement.VideoOverlayManager.OnOptOutStored | src/features/duckplayer/video-overlay-manager.js:264-267 | The remembered opt-out's continuation takes the stored values and re-renders. |
| Overlays.IncludesIffOccurs | src/features/duckplayer/overlays.js:60-65 | The `includes` scan succeeds exactly when the substring occurs somewhere. |
| Overlays.IsSingleVideoURLIff | src/features/duckplayer/overlays.js:60-65 | A link is a single video iff it contains `/watch?v=`, has no `&list=` or else an `&index=`, and is not a rental (`&pp=`). |
| Overlays.HasOneTimeOverride | src/features/duckplayer/overlays.js:387-403 | True iff the hash is `#ddg-play`, the referrer is a string, and its hostname parses and is `duckduckgo.com`. |
| Overlays.AllIconOverlays.constructor | src/features/duckplayer/overlays.js:204-206 | The icon overlays start disabled and never enabled. |
| Overlays.AllIconOverlays.Enable | src/features/duckplayer/overlays.js:214-237 | The one-time setup happens only on the first enable; the binding pass on every one. |
| Overlays.AllIconOverlays.Disable | src/features/duckplayer/overlays.js:239-242 | Clears `enabled` and removes the icons, but keeps `hasBeenEnabled`. |
| Overlays.BindAllBindsEachValidOnce | src/features/duckplayer/overlays.js:250-317 | Binding keeps what was bound, binds every valid element of the page, adds nothing else, and binds no element twice. |
| Overlays.BindAllOfBound | src/features/duckplayer/overlays.js:250-317 | A fully bound page binds nothing more. |
| Overlays.ClickTarget | src/features/duckplayer/overlays.js:285-305 | A click opens the closest link's player URL, else the last hovered one, else nothing. |
| Overlays.OpenInDuckPlayer.BindEventsToAll | src/features/duckplayer/overlays.js:250-317 | The loop's registry equals `BindAll` of the old registry over the page. |
| Overlays.OpenInDuckPlayer.Disable | src/features/duckplayer/overlays.js:319-327 | Every listener is removed, the registry emptied and the latch cleared. |
| Overlays.OpenInDuckPlayer.Enable | src/features/duckplayer/overlays.js:329-336 | The latch is set, the page bound, and one more observer added. |
| Overlays.OpenInDuckPlayer.EnableOnDOMLoaded | src/features/duckplayer/overlays.js:338-348 | The latch is set at once; binding waits for the DOM. |
| Overlays.OpenInDuckPlayer.OnDOMLoaded | src/features/duckplayer/overlays.js:338-348 | Once the DOM is loaded, the page is bound and an observer added. |
| Overlays.OpenInDuckPlayer.OnMouseOver | src/features/duckplayer/overlays.js:272-284 | A hover on a bound element with a non-empty player URL remembers that URL; anything else keeps the last one. |
| Overlays.OpenInDuckPlayer.OnClick | src/features/duckplayer/overlays.js:285-305 | A click on a bound element sends `ClickTarget`; on an unbound one nothing. |
| Overlays.InitialActivation | src/features/duckplayer/overlays.js:351-356 | Icons are scheduled iff the mode is `alwaysAsk`; clicks iff it is `enabled`. |
| Overlays.OnUserValuesChanged | src/features/duckplayer/overlays.js:29-43 | The manager takes the new values and re-renders ignoring its cache. `disabled` turns both features off; `enabled` turns icons off and clicks on; `alwaysAsk` the reverse. |
| Overlays.InitOverlays | src/features/duckplayer/overlays.js:10-357 | Without user values nothing is set up; with them, the first page load is handled and the initial activation follows the mode. |
| OverlaysV2.ThumbnailsFeatureFromSettings | src/features/duckplayer/overlays-v2.js:94-111 | Icons iff `alwaysAsk` with thumbnail overlays enabled; else click interception iff `enabled` with interception enabled; else none. |
| OverlaysV2.VideoOverlaysFeatureFromSettings | src/features/duckplayer/overlays-v2.js:120-125 | A manager with the user's values iff the mode is not `disabled` and video overlays are enabled. |
| OverlaysV2.BuiltInSelection | src/features/duckplayer/overlays-v2.js:24-40 | With the built-in settings: icons in `alwaysAsk`, clicks in `enabled`, a manager in every mode but `disabled`. |
| OverlaysV2.ChangeDestroysBeforeCreating | src/features/duckplayer/overlays-v2.js:74-85 | The intended change handler destroys every existing feature before initialising exactly the new ones. |
| OverlaysV2.HandlersAsWrittenThrowOnVideoOverlays | src/features/duckplayer/overlays-v2.js:65-85 | As written, each handler throws whenever a video overlay manager exists. Switching from `alwaysAsk` to `enabled` destroys the icons and throws, so click interception never starts. |
| OverlaysV2.OverlaysV2Session.Start | src/features/duckplayer/overlays-v2.js:42-74 | Without values nothing happens. With values, both features are built, `onLoaded` is registered iff one exists, and the subscription is made. |
| OverlaysV2.OverlaysV2Session.OnLoaded | src/features/duckplayer/overlays-v2.js:65-68 | Follows the corrected handler (see Findings): each existing feature is initialised, thumbnails first. As written, the call on the video overlay manager throws; `HandlersAsWrittenThrowOnVideoOverlays` states that. |
| OverlaysV2.OverlaysV2Session.OnUserValuesChanged | src/features/duckplayer/overlays-v2.js:74-85 | Follows the corrected handler (see Findings): both features are destroyed, then rebuilt from the new values and initialised. As written, the handler throws at the manager's `destroy`; `HandlersAsWrittenThrowOnVideoOverlays` states that. |
| DuckPlayer.ValidateOverlaySettings | src/features/duck-player.js:121-139 | Each given field is kept; each missing one takes its default (`a[href^='/watch']:has(img)`, `['#playlist']`, `'enabled'`). |
| DuckPlayer.InitPlan | src/features/duck-player.js:66-108 | Nothing in a frame or with neither part enabled; the overlays with validated settings when enabled; the SERP proxy only on its own. |
| DuckPlayer.InitPlanGates | src/features/duck-player.js:70-108 | Both directions of each gate of `init`. |
| DuckPlayer.InitOverlaysAsWrittenGetsNoValues | src/features/duck-player.js:105 | As written, `comms` binds to the environment, so the overlays never receive user values. |
| DuckPlayer.InitOverlaysCorrectedGetsValues | src/features/duck-player.js:105 | With the two declared arguments, the overlays receive exactly the native side's answer. |
| DuckPlayer.DuckPlayerFeature.Messaging | src/features/duck-player.js:59-64 | The getter returns the cached instance. Otherwise it throws without an inject name, or creates an instance once and caches it. |
| DuckPlayer.DuckPlayerFeature.Init | src/features/duck-player.js:66-109 | Follows `InitPlan`. It throws iff past the gate with no messaging and no inject name. It follows the corrected `initOverlays` call (see Findings): the overlays start with values iff the native side answered. As written they never receive values (`InitOverlaysAsWrittenGetsNoValues`). The SERP proxy is called iff that plan is chosen. |
| WebCompat.WindowSizingFix | src/features/web-compat.js:6-12 | No change when both outer sizes are non-zero; otherwise both inner sizes are copied and nothing else changes. |
| WebCompat.ValidPermissionNames | src/features/web-compat.js:52-60 | A configured list, even empty, is used; a missing one gives the five defaults. |
| WebCompat.Query | src/features/web-compat.js:61-72 | `TypeError` for a missing query, a missing or empty name, or a name outside the list, each with its message. Otherwise a `'denied'` status with the name. |
| WebCompat.DefaultNamesAccepted | src/features/web-compat.js:53-71 | Without a configured list exactly the five default names are accepted. |
| WebCompat.RequestPermission | src/features/web-compat.js:156-163 | A function callback gets a `'denied'` permission with no device token; otherwise the invalid-callback error is thrown. |
| WebCompat.HandlerStrategy | src/features/web-compat.js:189-212 | The order is `reflect`, then `undefined`, then `polyfill` by `'*'` or by name, then unhandled. Each outcome holds iff its condition does. |
| WebCompat.ProxyGet | src/features/web-compat.js:188-212 | Through a proxy, `reflect` names reach the native handler. Polyfilled names get a stub whose `postMessage` resolves to `{}`; others yield `undefined`. |
| WebCompat.ProxyKeepsReflectedHandlers | src/features/web-compat.js:188-218 | A handler read through the new proxy is unchanged exactly for `reflect` names or where both yield the same stub or nothing. |
| WebCompat.InitGating | src/features/web-compat.js:76-89 | An existing `window.safari` skips the notification and permissions fixes. Those two shims are installed only through `safariObjectFix`. The handler proxy is installed iff enabled and `messageHandlers` is present. |
| WebCompat.Globals.WindowSizingFix | src/features/web-compat.js:6-12 | The globals after the call are `SizingFixed` of those before. |
| WebCompat.Globals.NotificationFix | src/features/web-compat.js:17-33 | A missing `Notification` gets the denied shim with two actions; an existing one is kept. |
| WebCompat.Globals.PermissionsFix | src/features/web-compat.js:38-73 | A missing `navigator.permissions` gets the shim over `ValidPermissionNames`; an existing one is kept. |
| WebCompat.Globals.NavigatorCredentialsFix | src/features/web-compat.js:94-113 | Credentials without `get` get the rejecting shim. |
| WebCompat.Globals.SafariObjectFix | src/features/web-compat.js:115-177 | Returns early when `window.safari` exists. Otherwise it installs the shim, then the notification and permissions fixes as enabled. |
| WebCompat.Globals.MessageHandlersFix | src/features/web-compat.js:182-219 | No-op when `messageHandlers` is absent; otherwise wraps it in the proxy. |
| WebCompat.Globals.Init | src/features/web-compat.js:76-89 | The globals after the call are `Initialised` of those before. |
| ContentScopeFeatures.InjectedSettings | src/content-scope-features.js:67-76 | The injected copy keeps settings exactly for the injected features not broken for the site. |
| ContentScopeFeatures.LoadableCounts | src/content-scope-features.js:50-59 | `load` instantiates each supported non-injected feature as often as listed, and no injected one. |
| ContentScopeFeatures.LoadableWithoutInjection | src/content-scope-features.js:50-59 | Without injected features the loaded list is exactly the supported list. |
| ContentScopeFeatures.InitCallsExactly | src/content-scope-features.js:122-126 | `callInit` runs iff a feature is loaded and either not broken or `cookie` on `extension`. |
| ContentScopeFeatures.UpdateCallsExactly | src/content-scope-features.js:156-163 | A feature gets an update iff it is loaded, not broken for `initArgs`, and defines `update`. |
| ContentScopeFeatures.DrainIsNewestFirst | src/content-scope-features.js:131-134 | Draining with `pop` equals applying the buffered updates in reverse arrival order. |
| ContentScopeFeatures.BufferedUpdatesAppliedNewestFirst | src/content-scope-features.js:131-134 | Two buffered updates are applied the later one first. |
| ContentScopeFeatures.FeatureLoader.constructor | src/content-scope-features.js:21-24 | The loader starts with no init args, no updates and no features. |
| ContentScopeFeatures.FeatureLoader.Load | src/content-scope-features.js:40-61 | Nothing outside an HTML document, and nothing when the inject name is not a string. It throws iff the build has no `platformSupport` entry; otherwise it appends `Loadable` in order. |
| ContentScopeFeatures.FeatureLoader.LoadFeatures | src/content-scope-features.js:50-59 | The loop over the platform's names appends exactly `Loadable` to the features and one `load` call per loaded feature, in order. |
| ContentScopeFeatures.FeatureLoader.UpdateFeaturesInner | src/content-scope-features.js:156-163 | The loop logs exactly `UpdateCalls` judged by `initArgs`. |
| ContentScopeFeatures.FeatureLoader.CallInits | src/content-scope-features.js:122-126 | The loop logs exactly `InitCalls`. |
| ContentScopeFeatures.FeatureLoader.DrainUpdates | src/content-scope-features.js:131-134 | The `pop` loop empties the buffer and logs `Drain` of it. |
| ContentScopeFeatures.FeatureLoader.Init | src/content-scope-features.js:113-139 | Records the args even when not running. When running, it logs the inits, the injection if supported, then the drained updates, and empties the buffer. |
| ContentScopeFeatures.FeatureLoader.Update | src/content-scope-features.js:141-150 | Nothing when not running. Before `init` it only buffers; afterwards it applies at once. |

## Left out

- DOM work is left out and abstracted as parameters: element creation and removal, CSS, event listeners, `setInterval` pausing, the icon and overlay rendering in `thumbnails.js` and `video-player-icon.js`, and React rendering of the debug-tools page.
- Promises and `async` scheduling: a request's promise is a pending/resolved slot, a service settles through an explicit done/error event, and `init` runs to completion before any other call. `update` arriving during `init`'s `await` is not modelled.
- Messaging: re-entrant subscriber callbacks that subscribe or unsubscribe during dispatch are not modelled. A `Set` is iterated live, and only self-removal happens during dispatch, so a snapshot iteration with skip-if-deleted is exact for the modelled calls.
- The zod and generated schema parsers, `dlv`, `VideoParams.forWatchPage`, `sendMessage`, `isFeatureBroken`, `applyEffect`/`execCleanups`, `createMessaging` and WHATWG URL parsing live outside these files. They are modelled as well-typed/malformed inputs, `Option` values, or set membership.
- Workflow: `assignError` has no implementation, so it is a no-op and `context.error` is set only by `serviceError`.
- The xstate runtime is reduced to the flattened table. Only the features this machine uses are modelled: entry, `always`, invoke, parallel regions and raised events.
- DuckPlayer.DuckPlayerFeature.Init: follows the corrected call `initOverlays(env, comms)`, not the three-argument call as written, under which the overlays never receive values (first row of Findings).
- OverlaysV2.OverlaysV2Session.OnLoaded: follows the corrected callback; as written, `videoOverlays?.init('page-load')` throws whenever a manager exists (second row of Findings).
- OverlaysV2.OverlaysV2Session.OnUserValuesChanged: follows the corrected handler; as written, `videoOverlays?.destroy()` throws before anything is rebuilt (second row of Findings).
- VideoOverlayManagement.VideoOverlayManager.UserOptIn: when the store request rejects, the source only logs the error; the model represents that by not calling `OnOptInStored`, so nothing is navigated.
- DuckPlayer.DuckPlayerFeature.Init: the guard that throws 'cannot operate duck player without a messaging backend' is not modelled. `createMessaging` always returns an object, so the guard cannot fire.
- DuckPlayer.DuckPlayerFeature.Init: the `Environment`'s `debug` flag is not modelled.
- Overlays: element identity is the value `(node, href, id)`, not an object reference: `node` numbers the DOM object, and an element whose attributes change counts as a different element.
- `onDOMChanged` observers accumulate across enables. This is counted but not deduplicated, which is harmless because `BindAllIsIdempotent` holds.
- VideoOverlayManagement: `handleFirstPageLoad` also runs in `enabled` mode, although its comment speaks of `alwaysAsk` only. The model follows the code.
- OverlaysV2: `initOverlaysV2` builds its own settings and ignores the remote ones. The model follows the code. The pixels and DOM work of `Thumbnails` are left out; their `init`/`destroy` calls are logged.
- WebCompat: `defineProperty` failures, which the `try` blocks swallow, are not modelled. Each shim is installed whole.
- WebCompat: the property descriptors (`configurable`, `enumerable`) are not modelled.
- WebCompat.Globals.MessageHandlersFix: a missing `handlerStrategies` setting, which would make every lookup throw, is not modelled.
- WebCompat.Globals.PermissionsFix: the settings object `getFeatureSettingEnabled` returns is a parameter, because `content-feature.js` is not part of this model.
- ContentScopeFeatures: `registerMessageSecret`, `initStringExemptionLists`, the performance marks and the script text of `injectFeatures` (`structuredClone`, `JSON.stringify`, `btoa`) are left out as I/O and code generation.
- ContentScopeFeatures: a feature class missing from `platformFeatures`, and a feature's own `callLoad`/`callInit` throwing, are not modelled.

## Findings

| source | as written | input that shows it | evidently intended | confidence | as-written member | corrected member |
|---|---|---|---|---|---|---|
| src/features/duck-player.js:105 | `initOverlays(settings, env, comms)` passes three arguments, but `initOverlays(environment, comms)` (src/features/duckplayer/overlays.js:10) declares two. `comms` is bound to the `Environment`, whose missing `getUserValues` throws inside the `try`, so `initOverlays` returns. | Any page with `overlays.youtube.state === 'enabled'`: no overlay is ever set up. | `initOverlays(env, comms)` | not executed | DuckPlayer.InitOverlaysAsWrittenGetsNoValues | DuckPlayer.InitOverlaysCorrectedGetsValues |
| src/features/duckplayer/overlays-v2.js:65-85 | The handlers call `videoOverlays?.init(…)` and `videoOverlays?.destroy()`, but `VideoOverlayManager` defines neither, so each call throws a `TypeError`. | User values `alwaysAsk`, then a change to `enabled`: the icon thumbnails are destroyed, the handler throws, and click interception never starts. | Every existing feature destroyed, then the new ones created and initialised | not executed | OverlaysV2.HandlersAsWrittenThrowOnVideoOverlays | OverlaysV2.ChangeDestroysBeforeCreating |
