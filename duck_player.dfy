/**
 * `DuckPlayerFeature`: the gate that decides whether the Duck Player
 * overlays or the SERP proxy start, the defaults applied to the remote
 * overlay settings, the lazily created messaging instance, and the call into
 * the first-generation overlays.
 */
module DuckPlayer {
  import opened Wrappers
  import opened DuckPlayerValues
  import Overlays

  // ---------------------------------------------------------------------------
  // `validateOverlaySettings`.

  /** The remote `overlays.youtube` object; an absent field is `undefined`. */
  datatype RawYoutube = RawYoutube(
    state: Option<string>,
    thumbLink: Option<string>,
    excludedRegions: Option<seq<string>>,
    thumbnailOverlays: Option<string>,
    clickInterception: Option<string>,
    videoOverlays: Option<string>)

  /** The remote `overlays` setting: its `youtube` object and `serpProxy.state`. */
  datatype RawOverlays = RawOverlays(youtube: Option<RawYoutube>, serpProxyState: Option<string>)

  const DefaultThumbLink: string := "a[href^='/watch']:has(img)"
  const DefaultExcludedRegions: seq<string> := ["#playlist"]

  /** `dlv(input, path, fallback)`: the value at the path, or the fallback when it is undefined. */
  function Dlv<T>(value: Option<T>, fallback: T): T {
    match value
    case Some(v) => v
    case None => fallback
  }

  /**
   * `validateOverlaySettings(input)`: every field the remote object gives is
   * kept, every missing one takes its default (the thumbnail link selector,
   * `['#playlist']`, `'enabled'`).
   */
  function ValidateOverlaySettings(input: RawYoutube): (r: OverlaysSettings)
    ensures r.thumbLink == if input.thumbLink.Some? then input.thumbLink.value else "a[href^='/watch']:has(img)"
    ensures r.excludedRegions == if input.excludedRegions.Some? then input.excludedRegions.value else ["#playlist"]
    ensures r.thumbnailOverlays == if input.thumbnailOverlays.Some? then input.thumbnailOverlays.value else "enabled"
    ensures r.clickInterception == if input.clickInterception.Some? then input.clickInterception.value else "enabled"
    ensures r.videoOverlays == if input.videoOverlays.Some? then input.videoOverlays.value else "enabled"
  {
    OverlaysSettings(
      Dlv(input.thumbLink, DefaultThumbLink),
      Dlv(input.excludedRegions, DefaultExcludedRegions),
      Dlv(input.thumbnailOverlays, EnabledState),
      Dlv(input.clickInterception, EnabledState),
      Dlv(input.videoOverlays, EnabledState))
  }

  /** Validated settings as a remote object with every field present. */
  function AsRaw(s: OverlaysSettings, state: Option<string>): RawYoutube {
    RawYoutube(state, Some(s.thumbLink), Some(s.excludedRegions), Some(s.thumbnailOverlays),
               Some(s.clickInterception), Some(s.videoOverlays))
  }

  /** Validating settings that were already validated changes nothing. */
  lemma ValidateOverlaySettingsIdempotent(input: RawYoutube)
    ensures ValidateOverlaySettings(AsRaw(ValidateOverlaySettings(input), input.state)) == ValidateOverlaySettings(input)
  {
  }

  // ---------------------------------------------------------------------------
  // The gate of `init`.

  /** `overlaySettings?.youtube?.state === 'enabled'`. */
  predicate OverlaysEnabled(o: Option<RawOverlays>) {
    o.Some? && o.value.youtube.Some? && o.value.youtube.value.state == Some(EnabledState)
  }

  /** `overlaySettings?.serpProxy?.state === 'enabled'`. */
  predicate SerpProxyEnabled(o: Option<RawOverlays>) {
    o.Some? && o.value.serpProxyState == Some(EnabledState)
  }

  /** What `init` goes on to do once past its guards. */
  datatype Plan = DoNothing | RunOverlays(settings: OverlaysSettings) | RunSerpProxy

  /** The guards of `init`: never in a frame, only with a part enabled, overlays before the SERP proxy. */
  function InitPlan(framed: bool, o: Option<RawOverlays>): Plan {
    if framed then DoNothing
    else if !OverlaysEnabled(o) && !SerpProxyEnabled(o) then DoNothing
    else if OverlaysEnabled(o) then RunOverlays(ValidateOverlaySettings(o.value.youtube.value))
    else RunSerpProxy
  }

  /**
   * `init` does nothing in a frame or when neither part is enabled; with the
   * overlays enabled it runs them with the validated settings, even when the
   * SERP proxy is enabled too; the SERP proxy runs only on its own.
   */
  lemma InitPlanGates(framed: bool, o: Option<RawOverlays>)
    ensures InitPlan(framed, o) == DoNothing <==> framed || (!OverlaysEnabled(o) && !SerpProxyEnabled(o))
    ensures InitPlan(framed, o).RunOverlays? <==> !framed && OverlaysEnabled(o)
    ensures InitPlan(framed, o).RunOverlays? ==>
      InitPlan(framed, o).settings == ValidateOverlaySettings(o.value.youtube.value)
    ensures InitPlan(framed, o) == RunSerpProxy <==> !framed && !OverlaysEnabled(o) && SerpProxyEnabled(o)
  {
  }

  // ---------------------------------------------------------------------------
  // The call into `initOverlays`.

  /** The objects `init` has at hand when it calls into the overlays. */
  datatype Argument = SettingsArgument | EnvironmentArgument | CommsArgument

  /** The parameters of `initOverlays(environment, comms)` after binding positional arguments. */
  datatype Binding = Binding(environment: Option<Argument>, comms: Option<Argument>)

  /** JavaScript's binding: extra arguments are dropped, missing ones are `undefined`. */
  function BindInitOverlays(args: seq<Argument>): Binding {
    Binding(if |args| > 0 then Some(args[0]) else None, if |args| > 1 then Some(args[1]) else None)
  }

  /** `initOverlays(settings, env, comms)`, as `init` writes the call. */
  const CallAsWritten: seq<Argument> := [SettingsArgument, EnvironmentArgument, CommsArgument]

  /** `initOverlays(env, comms)`, the call the declared parameters ask for. */
  const CallCorrected: seq<Argument> := [EnvironmentArgument, CommsArgument]

  /**
   * What `await comms.getUserValues()` yields inside its `try`: only the
   * messages object has that method; on anything else the call throws a
   * `TypeError`, which the `try` catches, and `initOverlays` returns.
   */
  function UserValuesFrom(comms: Option<Argument>, reply: Option<UserValues>): Option<UserValues> {
    if comms == Some(CommsArgument) then reply else None
  }

  /**
   * As written, `comms` is bound to the environment and `environment` to the
   * settings, so the overlays never receive user values, whatever the native
   * side would answer.
   */
  lemma InitOverlaysAsWrittenGetsNoValues(reply: Option<UserValues>)
    ensures BindInitOverlays(CallAsWritten) == Binding(Some(SettingsArgument), Some(EnvironmentArgument))
    ensures UserValuesFrom(BindInitOverlays(CallAsWritten).comms, reply).None?
  {
  }

  /** With the arguments the parameters ask for, the overlays receive exactly the native side's answer. */
  lemma InitOverlaysCorrectedGetsValues(reply: Option<UserValues>)
    ensures BindInitOverlays(CallCorrected) == Binding(Some(EnvironmentArgument), Some(CommsArgument))
    ensures UserValuesFrom(BindInitOverlays(CallCorrected).comms, reply) == reply
  {
  }

  // ---------------------------------------------------------------------------
  // The feature object.

  /** What `createMessaging` builds. */
  class MessagingInstance {
    const injectName: string
    constructor (injectName: string)
      ensures this.injectName == injectName
    {
      this.injectName := injectName;
    }
  }

  const MissingInjectName: string := "import.meta.injectName missing"

  class DuckPlayerFeature {
    /** `import.meta.injectName`, fixed at build time. */
    const injectName: Option<string>
    /** `_messaging`. */
    var messaging: Option<MessagingInstance>
    /** Whether `comms.serpProxy()` was called. */
    var serpProxyStarted: bool

    constructor (injectName: Option<string>)
      ensures this.injectName == injectName && messaging.None? && !serpProxyStarted
    {
      this.injectName := injectName;
      messaging := None;
      serpProxyStarted := false;
    }

    /**
     * The `messaging` getter: the cached instance when there is one;
     * otherwise a new one for the inject name, kept for later calls; it
     * throws when there is no inject name.
     */
    method Messaging() returns (r: Result<MessagingInstance, string>)
      modifies this
      ensures old(messaging).Some? ==> r == Success(old(messaging).value) && messaging == old(messaging)
      ensures old(messaging).None? && injectName.None? ==> r == Failure(MissingInjectName) && messaging.None?
      ensures old(messaging).None? && injectName.Some? ==>
        r.Success? && fresh(r.value) && r.value.injectName == injectName.value && messaging == Some(r.value)
      ensures serpProxyStarted == old(serpProxyStarted)
    {
      if messaging.Some? {
        return Success(messaging.value);
      }
      if injectName.None? {
        return Failure(MissingInjectName);
      }
      var m := new MessagingInstance(injectName.value);
      messaging := Some(m);
      r := Success(m);
    }

    /**
     * `init(args)`: the gate, then the messaging instance (whose getter throws
     * without an inject name), then the overlays with the arguments their
     * parameters ask for, or the SERP proxy.
     */
    method Init(framed: bool, overlays: Option<RawOverlays>, reply: Option<UserValues>, params: Option<VideoParams>)
      returns (thrown: Option<string>, session: Option<Overlays.Session>)
      modifies this
      ensures InitPlan(framed, overlays) == DoNothing ==>
        thrown.None? && session.None? && messaging == old(messaging) && serpProxyStarted == old(serpProxyStarted)
      ensures InitPlan(framed, overlays) != DoNothing ==>
        (thrown.Some? <==> old(messaging).None? && injectName.None?)
      ensures thrown.Some? ==> thrown.value == MissingInjectName && session.None?
      ensures InitPlan(framed, overlays).RunOverlays? && thrown.None? ==> (session.Some? <==> reply.Some?)
      ensures session.Some? ==>
        reply.Some? && session.value.pending == Overlays.InitialActivation(reply.value.mode) &&
        session.value.manager.State().userValues == reply.value
      ensures serpProxyStarted == (old(serpProxyStarted) || (InitPlan(framed, overlays) == RunSerpProxy && thrown.None?))
    {
      thrown := None;
      session := None;
      var plan := InitPlan(framed, overlays);
      if plan == DoNothing {
        return;
      }
      var m := Messaging();
      if m.Failure? {
        thrown := Some(m.error);
        return;
      }
      if plan.RunOverlays? {
        var binding := BindInitOverlays(CallCorrected);
        session := Overlays.InitOverlays(UserValuesFrom(binding.comms, reply), params);
      } else {
        serpProxyStarted := true;
      }
    }
  }
}
