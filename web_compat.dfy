/**
 * The web-compatibility shims: each fix installs a missing browser API (or
 * corrects a wrong value) on the page's global objects, and `init` runs the
 * fixes its settings enable.
 *
 * The global objects are the fields of `Globals`; each installed shim is a
 * value whose behaviour is given by the pure functions below (`Query`,
 * `Get`, `RequestPermission`).
 */
module WebCompat {
  import opened Wrappers

  // ---------------------------------------------------------------------------
  // The permissions shim (`permissionsFix`).

  /** The `query` argument: a truthy object with a `name` property, or nothing. */
  datatype PermissionDescriptor = PermissionDescriptor(name: Option<string>)

  datatype PermissionStatus = PermissionStatus(name: string, state: string)

  datatype TypeError = TypeError(message: string)

  const NoArgument: string :=
    "Failed to execute 'query' on 'Permissions': 1 argument required, but only 0 present."
  const MissingName: string :=
    "Failed to execute 'query' on 'Permissions': Failed to read the 'name' property from 'PermissionDescriptor': Required member is undefined."
  const InvalidName: string :=
    "Failed to execute 'query' on 'Permissions': Failed to read the 'name' property from 'PermissionDescriptor': The provided value 's' is not a valid enum value of type PermissionName."

  const DefaultValidPermissionNames: seq<string> :=
    ["geolocation", "notifications", "push", "persistent-storage", "midi"]

  /** A string is truthy unless it is empty. */
  predicate Truthy(name: Option<string>) {
    name.Some? && name.value != ""
  }

  /**
   * `settings.validPermissionNames || defaultValidPermissionNames`: an array,
   * even an empty one, is truthy; only a missing list falls back.
   */
  function ValidPermissionNames(configured: Option<seq<string>>): (r: seq<string>)
    ensures configured.None? ==> r == ["geolocation", "notifications", "push", "persistent-storage", "midi"]
    ensures configured.Some? ==> r == configured.value
  {
    match configured
    case Some(names) => names
    case None => DefaultValidPermissionNames
  }

  /**
   * The shim's `navigator.permissions.query(query)`: a `TypeError` for a
   * missing query, a missing or empty name, or a name outside the valid
   * list; otherwise a `'denied'` status for that name.
   */
  function Query(validNames: seq<string>, query: Option<PermissionDescriptor>): (r: Result<PermissionStatus, TypeError>)
    ensures r.Failure? <==> query.None? || !Truthy(query.value.name) || query.value.name.value !in validNames
    ensures query.None? ==> r == Failure(TypeError(NoArgument))
    ensures query.Some? && !Truthy(query.value.name) ==> r == Failure(TypeError(MissingName))
    ensures query.Some? && Truthy(query.value.name) && query.value.name.value !in validNames ==>
      r == Failure(TypeError(InvalidName))
    ensures r.Success? ==>
      r.value.name == query.value.name.value && r.value.name in validNames && r.value.state == "denied"
  {
    match query
    case None => Failure(TypeError(NoArgument))
    case Some(q) =>
      if !Truthy(q.name) then Failure(TypeError(MissingName))
      else if q.name.value !in validNames then Failure(TypeError(InvalidName))
      else Success(PermissionStatus(q.name.value, "denied"))
  }

  /** With no configured list, exactly the five default names are accepted. */
  lemma DefaultNamesAccepted(name: string)
    ensures Query(ValidPermissionNames(None), Some(PermissionDescriptor(Some(name)))).Success? <==>
      name in {"geolocation", "notifications", "push", "persistent-storage", "midi"}
  {
    assert ValidPermissionNames(None) == DefaultValidPermissionNames;
    if name in {"geolocation", "notifications", "push", "persistent-storage", "midi"} {
      assert name in DefaultValidPermissionNames;
    }
  }

  // ---------------------------------------------------------------------------
  // The `window.safari` shim (`safariObjectFix`).

  /** A `SafariRemoteNotificationPermission`. */
  datatype SafariPermission = SafariPermission(deviceToken: Option<string>, permission: string)

  const InvalidCallback: string :=
    "Invalid 'callback' value passed to safari.pushNotification.requestPermission(). Expected a function."

  const SafariNotificationTag: string := "[object SafariRemoteNotification]"

  /**
   * `safari.pushNotification.requestPermission(name, domain, options, callback)`:
   * with a function callback, what the callback is called with; otherwise the
   * error thrown.
   */
  function RequestPermission(callbackIsFunction: bool): (r: Result<SafariPermission, string>)
    ensures r.Success? <==> callbackIsFunction
    ensures r.Success? ==> r.value.deviceToken.None? && r.value.permission == "denied"
    ensures r.Failure? ==> r.error == InvalidCallback
  {
    if callbackIsFunction then Success(SafariPermission(None, "denied")) else Failure(InvalidCallback)
  }

  // ---------------------------------------------------------------------------
  // The `webkit.messageHandlers` proxy (`messageHandlersFix`).

  /** `settings.handlerStrategies`. */
  datatype HandlerStrategies = HandlerStrategies(reflect: seq<string>, undefined: seq<string>, polyfill: seq<string>)

  /** Which branch of the proxy's `get` trap a handler name takes. */
  datatype Strategy = ReflectStrategy | UndefinedStrategy | PolyfillStrategy | Unhandled

  /** The order of the `get` trap: `reflect`, then `undefined`, then `polyfill` by `'*'` or by name. */
  function HandlerStrategy(s: HandlerStrategies, name: string): (r: Strategy)
    ensures r == ReflectStrategy <==> name in s.reflect
    ensures r == UndefinedStrategy <==> name !in s.reflect && name in s.undefined
    ensures r == PolyfillStrategy <==>
      name !in s.reflect && name !in s.undefined && ("*" in s.polyfill || name in s.polyfill)
    ensures r == Unhandled <==>
      name !in s.reflect && name !in s.undefined && "*" !in s.polyfill && name !in s.polyfill
  {
    if name in s.reflect then ReflectStrategy
    else if name in s.undefined then UndefinedStrategy
    else if "*" in s.polyfill || name in s.polyfill then PolyfillStrategy
    else Unhandled
  }

  /** `webkit.messageHandlers`: absent, the native object, or a proxy over an earlier value. */
  datatype Handlers = NoHandlers | NativeHandlers | ProxiedHandlers(strategies: HandlerStrategies, target: Handlers)

  /**
   * What reading a handler yields: the native handler of that name, nothing
   * (`undefined`), or an object whose `postMessage` resolves to `reply`.
   */
  datatype HandlerValue = NativeHandler(name: string) | NoHandler | PostMessageStub(reply: map<string, string>)

  /** `webkit.messageHandlers[name]`. */
  function Get(h: Handlers, name: string): HandlerValue {
    match h
    case NoHandlers => NoHandler
    case NativeHandlers => NativeHandler(name)
    case ProxiedHandlers(s, target) =>
      match HandlerStrategy(s, name)
      case ReflectStrategy => Get(target, name)
      case PolyfillStrategy => PostMessageStub(map[])
      case _ => NoHandler
  }

  /**
   * Through one proxy over the native handlers: a `reflect` name reaches its
   * native handler, a polyfilled name gets a stub whose `postMessage`
   * resolves to `{}`, and every other name yields `undefined`.
   */
  lemma ProxyGet(s: HandlerStrategies, name: string)
    ensures var v := Get(ProxiedHandlers(s, NativeHandlers), name);
      (v == NativeHandler(name) <==> name in s.reflect) &&
      (v.PostMessageStub? <==> name !in s.reflect && name !in s.undefined && ("*" in s.polyfill || name in s.polyfill)) &&
      (v.PostMessageStub? ==> v.reply == map[]) &&
      (v == NoHandler <==>
        name !in s.reflect && (name in s.undefined || ("*" !in s.polyfill && name !in s.polyfill)))
  {
  }

  // ---------------------------------------------------------------------------
  // The global objects and the fixes.

  /** `window.Notification`: absent, native, or the shim (permission `'denied'`, two actions). */
  datatype NotificationApi = NoNotification | NativeNotification | NotificationShim(permission: string, maxActions: int)

  /** `navigator.permissions`: absent, native, or the shim answering with `Query(validNames, ·)`. */
  datatype PermissionsApi = NoPermissions | NativePermissions | PermissionsShim(validNames: seq<string>)

  /**
   * `navigator.credentials`: absent, present without `get`, native, or the
   * shim whose `get` rejects.
   */
  datatype CredentialsApi = NoCredentials | CredentialsWithoutGet | NativeCredentials | RejectingCredentials

  /** `window.safari`: absent, native, or the shim answering with `RequestPermission`. */
  datatype SafariApi = NoSafari | NativeSafari | SafariShim(pushNotificationTag: string)

  datatype World = World(
    outerHeight: int, outerWidth: int, innerHeight: int, innerWidth: int,
    notification: NotificationApi, permissions: PermissionsApi, credentials: CredentialsApi,
    safari: SafariApi, handlers: Handlers)

  /** The feature settings `init` reads. */
  datatype Settings = Settings(
    windowSizing: bool, navigatorCredentials: bool, safariObject: bool, messageHandlers: bool,
    notification: bool, permissions: bool,
    validPermissionNames: Option<seq<string>>, handlerStrategies: HandlerStrategies)

  /** `windowSizingFix`. */
  function SizingFixed(w: World): World {
    if w.outerHeight != 0 && w.outerWidth != 0 then w
    else w.(outerHeight := w.innerHeight, outerWidth := w.innerWidth)
  }

  /** `notificationFix`. */
  function NotificationFixed(w: World): World {
    if w.notification != NoNotification then w
    else w.(notification := NotificationShim("denied", 2))
  }

  /** `permissionsFix(settings)`. */
  function PermissionsFixed(w: World, configured: Option<seq<string>>): World {
    if w.permissions != NoPermissions then w
    else w.(permissions := PermissionsShim(ValidPermissionNames(configured)))
  }

  /** `navigatorCredentialsFix`. */
  function CredentialsFixed(w: World): World {
    if w.credentials == NativeCredentials || w.credentials == RejectingCredentials then w
    else w.(credentials := RejectingCredentials)
  }

  /** `safariObjectFix`: the `return` inside the `try` also skips the two fixes after it. */
  function SafariFixed(w: World, s: Settings): World {
    if w.safari != NoSafari then w
    else
      var w1 := w.(safari := SafariShim(SafariNotificationTag));
      var w2 := if s.notification then NotificationFixed(w1) else w1;
      if s.permissions then PermissionsFixed(w2, s.validPermissionNames) else w2
  }

  /** `messageHandlersFix`. */
  function HandlersFixed(w: World, strategies: HandlerStrategies): World {
    if w.handlers == NoHandlers then w
    else w.(handlers := ProxiedHandlers(strategies, w.handlers))
  }

  /** `init`: the fixes in source order, each behind its setting. */
  function Initialised(w: World, s: Settings): World {
    var w1 := if s.windowSizing then SizingFixed(w) else w;
    var w2 := if s.navigatorCredentials then CredentialsFixed(w1) else w1;
    var w3 := if s.safariObject then SafariFixed(w2, s) else w2;
    if s.messageHandlers then HandlersFixed(w3, s.handlerStrategies) else w3
  }

  /**
   * `windowSizingFix` changes nothing when both outer dimensions are
   * non-zero, otherwise copies both inner dimensions over them, touches
   * nothing else, and a second run changes nothing more.
   */
  lemma WindowSizingFix(w: World)
    ensures w.outerHeight != 0 && w.outerWidth != 0 ==> SizingFixed(w) == w
    ensures !(w.outerHeight != 0 && w.outerWidth != 0) ==>
      SizingFixed(w).outerHeight == w.innerHeight && SizingFixed(w).outerWidth == w.innerWidth
    ensures SizingFixed(w).(outerHeight := w.outerHeight, outerWidth := w.outerWidth) == w
    ensures w.innerHeight != 0 && w.innerWidth != 0 ==> SizingFixed(SizingFixed(w)) == SizingFixed(w)
  {
  }

  /**
   * The notification and permissions shims are only ever installed by
   * `safariObjectFix`, so an existing `window.safari` keeps them out; and a
   * present `webkit.messageHandlers` is the only thing the proxy replaces.
   */
  lemma InitGating(w: World, s: Settings)
    ensures w.safari != NoSafari ==>
      Initialised(w, s).safari == w.safari &&
      Initialised(w, s).notification == w.notification &&
      Initialised(w, s).permissions == w.permissions
    ensures Initialised(w, s).notification != w.notification <==>
      s.safariObject && s.notification && w.safari == NoSafari && w.notification == NoNotification
    ensures Initialised(w, s).permissions != w.permissions <==>
      s.safariObject && s.permissions && w.safari == NoSafari && w.permissions == NoPermissions
    ensures Initialised(w, s).permissions != w.permissions ==>
      Initialised(w, s).permissions == PermissionsShim(ValidPermissionNames(s.validPermissionNames))
    ensures Initialised(w, s).handlers != w.handlers <==> s.messageHandlers && w.handlers != NoHandlers
    ensures !s.windowSizing ==>
      Initialised(w, s).outerHeight == w.outerHeight && Initialised(w, s).outerWidth == w.outerWidth
  {
    if s.messageHandlers && w.handlers != NoHandlers {
      var h := Initialised(w, s).handlers;
      assert h == ProxiedHandlers(s.handlerStrategies, w.handlers);
      assert Depth(h) == Depth(w.handlers) + 1;
    }
  }

  /** How many proxies are stacked over the handlers. */
  function Depth(h: Handlers): nat {
    match h
    case ProxiedHandlers(_, target) => Depth(target) + 1
    case _ => 0
  }

  /**
   * Through the installed proxy, the handlers that were there before remain
   * reachable exactly for the `reflect` names.
   */
  lemma ProxyKeepsReflectedHandlers(w: World, strategies: HandlerStrategies, name: string)
    requires w.handlers != NoHandlers
    ensures Get(HandlersFixed(w, strategies).handlers, name) == Get(w.handlers, name) <==>
      name in strategies.reflect ||
      (Get(w.handlers, name) == NoHandler && HandlerStrategy(strategies, name) != PolyfillStrategy) ||
      (Get(w.handlers, name).PostMessageStub? && HandlerStrategy(strategies, name) == PolyfillStrategy)
  {
    if Get(w.handlers, name).PostMessageStub? {
      // A proxy only ever stubs with an empty reply.
      StubsReplyEmpty(w.handlers, name);
    }
  }

  /** Every stub a proxy hands out resolves to `{}`. */
  lemma {:induction false} StubsReplyEmpty(h: Handlers, name: string)
    ensures Get(h, name).PostMessageStub? ==> Get(h, name).reply == map[]
  {
    match h
    case NoHandlers =>
    case NativeHandlers =>
    case ProxiedHandlers(s, target) =>
      StubsReplyEmpty(target, name);
  }

  /** The page's global objects that the fixes change. */
  class Globals {
    var outerHeight: int
    var outerWidth: int
    var innerHeight: int
    var innerWidth: int
    var notification: NotificationApi
    var permissions: PermissionsApi
    var credentials: CredentialsApi
    var safari: SafariApi
    var handlers: Handlers

    function State(): World
      reads this
    {
      World(outerHeight, outerWidth, innerHeight, innerWidth, notification, permissions, credentials, safari, handlers)
    }

    constructor (w: World)
      ensures State() == w
    {
      outerHeight, outerWidth, innerHeight, innerWidth := w.outerHeight, w.outerWidth, w.innerHeight, w.innerWidth;
      notification, permissions, credentials := w.notification, w.permissions, w.credentials;
      safari, handlers := w.safari, w.handlers;
    }

    method WindowSizingFix()
      modifies this
      ensures State() == SizingFixed(old(State()))
    {
      if outerHeight != 0 && outerWidth != 0 {
        return;
      }
      outerHeight := innerHeight;
      outerWidth := innerWidth;
    }

    method NotificationFix()
      modifies this
      ensures State() == NotificationFixed(old(State()))
    {
      if notification != NoNotification {
        return;
      }
      notification := NotificationShim("denied", 2);
    }

    method PermissionsFix(configured: Option<seq<string>>)
      modifies this
      ensures State() == PermissionsFixed(old(State()), configured)
    {
      if permissions != NoPermissions {
        return;
      }
      permissions := PermissionsShim(ValidPermissionNames(configured));
    }

    method NavigatorCredentialsFix()
      modifies this
      ensures State() == CredentialsFixed(old(State()))
    {
      if credentials == NativeCredentials || credentials == RejectingCredentials {
        return;
      }
      credentials := RejectingCredentials;
    }

    method SafariObjectFix(s: Settings)
      modifies this
      ensures State() == SafariFixed(old(State()), s)
    {
      if safari != NoSafari {
        return;
      }
      safari := SafariShim(SafariNotificationTag);
      if s.notification {
        NotificationFix();
      }
      if s.permissions {
        PermissionsFix(s.validPermissionNames);
      }
    }

    method MessageHandlersFix(strategies: HandlerStrategies)
      modifies this
      ensures State() == HandlersFixed(old(State()), strategies)
    {
      if handlers == NoHandlers {
        return;
      }
      handlers := ProxiedHandlers(strategies, handlers);
    }

    method Init(s: Settings)
      modifies this
      ensures State() == Initialised(old(State()), s)
    {
      if s.windowSizing {
        WindowSizingFix();
      }
      if s.navigatorCredentials {
        NavigatorCredentialsFix();
      }
      if s.safariObject {
        SafariObjectFix(s);
      }
      if s.messageHandlers {
        MessageHandlersFix(s.handlerStrategies);
      }
    }
  }
}
