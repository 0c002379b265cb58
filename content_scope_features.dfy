/**
 * The feature loader: `load` instantiates the features the platform
 * supports, `init` initialises the ones not broken for the site and then
 * applies the updates that arrived before it, and `update` either buffers
 * its arguments (before `init`) or hands them to every feature.
 *
 * A feature instance is identified by its name, and each call into one
 * (`callLoad`, `callInit`, `update`) and the script injection are recorded
 * in a log.
 */
module ContentScopeFeatures {
  import opened Wrappers

  /** The arguments of `init` and `update`, as far as the loader reads them. */
  datatype Args = Args(platformName: string, brokenFeatures: set<string>, featureSettings: map<string, string>)

  /** `isFeatureBroken(args, featureName)`. */
  predicate Broken(args: Args, featureName: string) {
    featureName in args.brokenFeatures
  }

  /** What the loader knows about the page and the build before any call. */
  datatype Environment = Environment(
    /** `shouldRun()`: the document is HTML (or XHTML). */
    shouldRun: bool,
    /** `import.meta.injectName` when it is a string. */
    injectName: Option<string>,
    /** `platformSupport`: the features each build supports, in order. */
    platformSupport: map<string, seq<string>>,
    /** `supportsInjectedFeatures()`. */
    supportsInjected: bool,
    /** The keys of `injectedFeaturesCode`, in order. */
    injectedCode: seq<string>,
    /** The features whose instance defines `update`. */
    definesUpdate: set<string>)

  datatype Call =
    | LoadCall(featureName: string)
    | InitCall(featureName: string, args: Args)
    | UpdateCall(featureName: string, args: Args)
    /** The injected script, by the `featureSettings` it carries. */
    | InjectCall(featureSettings: map<string, Option<string>>)

  /** `isInjectedFeature(featureName)`. */
  predicate IsInjectedFeature(env: Environment, featureName: string) {
    env.supportsInjected && featureName in env.injectedCode
  }

  /** `alwaysInitExtensionFeatures(args, featureName)`. */
  predicate AlwaysInitExtensionFeatures(args: Args, featureName: string) {
    args.platformName == "extension" && featureName == "cookie"
  }

  /** Whether `init` calls a feature's `callInit`. */
  predicate InitRuns(args: Args, featureName: string) {
    !Broken(args, featureName) || AlwaysInitExtensionFeatures(args, featureName)
  }

  // ---------------------------------------------------------------------------
  // Specification functions.

  /** The feature names `load` instantiates, in order. */
  function Loadable(env: Environment, names: seq<string>): seq<string> {
    if names == [] then []
    else
      var last := names[|names| - 1];
      Loadable(env, names[..|names| - 1]) + (if IsInjectedFeature(env, last) then [] else [last])
  }

  function LoadCalls(names: seq<string>): seq<Call> {
    if names == [] then [] else LoadCalls(names[..|names| - 1]) + [LoadCall(names[|names| - 1])]
  }

  /** One more name: loaded unless it is injected. */
  lemma LoadableStep(env: Environment, names: seq<string>, i: nat)
    requires i < |names|
    ensures Loadable(env, names[..i + 1]) ==
      Loadable(env, names[..i]) + (if IsInjectedFeature(env, names[i]) then [] else [names[i]])
    ensures !IsInjectedFeature(env, names[i]) ==> Loadable(env, names[..i + 1]) == Loadable(env, names[..i]) + [names[i]]
    ensures IsInjectedFeature(env, names[i]) ==> Loadable(env, names[..i + 1]) == Loadable(env, names[..i])
  {
    assert names[..i + 1][..i] == names[..i];
  }

  /** One more loaded feature: one more `load` call, at the end. */
  lemma LoadCallsAppend(loaded: seq<string>, name: string)
    ensures LoadCalls(loaded + [name]) == LoadCalls(loaded) + [LoadCall(name)]
  {
    assert (loaded + [name])[..|loaded|] == loaded;
  }

  /** The `callInit` calls of `init`, in feature order. */
  function InitCalls(features: seq<string>, args: Args): seq<Call> {
    if features == [] then []
    else
      var f := features[|features| - 1];
      InitCalls(features[..|features| - 1], args) + (if InitRuns(args, f) then [InitCall(f, args)] else [])
  }

  /**
   * The `update` calls of `updateFeaturesInner(args)`: brokenness is judged
   * by the arguments `init` received, not by the update's own.
   */
  function UpdateCalls(env: Environment, features: seq<string>, initArgs: Args, args: Args): seq<Call> {
    if features == [] then []
    else
      var f := features[|features| - 1];
      UpdateCalls(env, features[..|features| - 1], initArgs, args) +
      (if !Broken(initArgs, f) && f in env.definesUpdate then [UpdateCall(f, args)] else [])
  }

  /** The buffered updates as `init` drains them: `pop` takes the newest first. */
  function Drain(env: Environment, features: seq<string>, initArgs: Args, pending: seq<Args>): seq<Call> {
    if pending == [] then []
    else
      var newest := pending[|pending| - 1];
      UpdateCalls(env, features, initArgs, newest) + Drain(env, features, initArgs, pending[..|pending| - 1])
  }

  /** The buffered updates applied oldest first. */
  function InOrder(env: Environment, features: seq<string>, initArgs: Args, pending: seq<Args>): seq<Call> {
    if pending == [] then []
    else UpdateCalls(env, features, initArgs, pending[0]) + InOrder(env, features, initArgs, pending[1..])
  }

  function Reverse<T>(s: seq<T>): seq<T> {
    if s == [] then [] else [s[|s| - 1]] + Reverse(s[..|s| - 1])
  }

  /**
   * `injectFeatures(args)`: the copied arguments keep `featureSettings` only
   * for the injected features not broken for the site (a feature without
   * settings gets `undefined`).
   */
  function InjectedSettings(env: Environment, args: Args): (r: map<string, Option<string>>)
    ensures forall f :: f in r <==> f in env.injectedCode && !Broken(args, f)
    ensures forall f :: f in r ==> r[f] == (if f in args.featureSettings then Some(args.featureSettings[f]) else None)
  {
    map f | f in env.injectedCode && !Broken(args, f) ::
      if f in args.featureSettings then Some(args.featureSettings[f]) else None
  }

  // ---------------------------------------------------------------------------
  // What the specification functions promise.

  /**
   * `load` instantiates each supported feature that is not injected, as
   * often as the list names it and in its order, and skips every injected one.
   */
  lemma {:induction false} LoadableCounts(env: Environment, names: seq<string>, f: string)
    ensures multiset(Loadable(env, names))[f] == if IsInjectedFeature(env, f) then 0 else multiset(names)[f]
    ensures f in Loadable(env, names) <==> f in names && !IsInjectedFeature(env, f)
  {
    if names != [] {
      var init := names[..|names| - 1];
      LoadableCounts(env, init, f);
      assert names == init + [names[|names| - 1]];
    }
  }

  /** Without injected features, `load` instantiates exactly the supported list. */
  lemma {:induction false} LoadableWithoutInjection(env: Environment, names: seq<string>)
    requires !env.supportsInjected
    ensures Loadable(env, names) == names
  {
    if names != [] {
      LoadableWithoutInjection(env, names[..|names| - 1]);
      assert names == names[..|names| - 1] + [names[|names| - 1]];
    }
  }

  /** A feature's `callInit` runs iff it is loaded and either not broken or `cookie` on the extension. */
  lemma {:induction false} InitCallsExactly(features: seq<string>, args: Args, f: string, a: Args)
    ensures InitCall(f, a) in InitCalls(features, args) <==>
      a == args && f in features && (!Broken(args, f) || (args.platformName == "extension" && f == "cookie"))
  {
    if features != [] {
      InitCallsExactly(features[..|features| - 1], args, f, a);
      assert features == features[..|features| - 1] + [features[|features| - 1]];
    }
  }

  /**
   * A feature receives an update iff it is loaded, not broken for the
   * arguments of `init`, and defines `update`; it receives the update's own
   * arguments.
   */
  lemma {:induction false} UpdateCallsExactly(env: Environment, features: seq<string>, initArgs: Args, args: Args, f: string, a: Args)
    ensures UpdateCall(f, a) in UpdateCalls(env, features, initArgs, args) <==>
      a == args && f in features && !Broken(initArgs, f) && f in env.definesUpdate
    ensures forall c :: c in UpdateCalls(env, features, initArgs, args) ==> c.UpdateCall?
  {
    if features != [] {
      UpdateCallsExactly(env, features[..|features| - 1], initArgs, args, f, a);
      assert features == features[..|features| - 1] + [features[|features| - 1]];
    }
  }

  lemma {:induction false} InOrderAppend(env: Environment, features: seq<string>, initArgs: Args, a: seq<Args>, b: seq<Args>)
    ensures InOrder(env, features, initArgs, a + b) ==
      InOrder(env, features, initArgs, a) + InOrder(env, features, initArgs, b)
  {
    if a == [] {
      assert a + b == b;
    } else {
      assert (a + b)[0] == a[0];
      assert (a + b)[1..] == a[1..] + b;
      InOrderAppend(env, features, initArgs, a[1..], b);
    }
  }

  /** Draining with `pop` applies the buffered updates newest first: in order over the reversed buffer. */
  lemma {:induction false} DrainIsNewestFirst(env: Environment, features: seq<string>, initArgs: Args, pending: seq<Args>)
    ensures Drain(env, features, initArgs, pending) == InOrder(env, features, initArgs, Reverse(pending))
  {
    if pending != [] {
      var last := pending[|pending| - 1];
      DrainIsNewestFirst(env, features, initArgs, pending[..|pending| - 1]);
      InOrderAppend(env, features, initArgs, [last], Reverse(pending[..|pending| - 1]));
      assert InOrder(env, features, initArgs, [last]) == UpdateCalls(env, features, initArgs, last);
    }
  }

  // ---------------------------------------------------------------------------
  // The module-level state.

  class FeatureLoader {
    const env: Environment
    /** `initArgs`: `null` until `init`. */
    var initArgs: Option<Args>
    /** `updates`: arguments of the updates that came before `init`. */
    var updates: seq<Args>
    /** `features`: the names of the loaded feature instances. */
    var features: seq<string>
    var log: seq<Call>

    constructor (env: Environment)
      ensures this.env == env && initArgs.None? && updates == [] && features == [] && log == []
    {
      this.env := env;
      initArgs := None;
      updates := [];
      features := [];
      log := [];
    }

    /**
     * `load(args)`: nothing outside an HTML document; no feature when the
     * inject name is not a string; a `TypeError` when the build has no
     * entry in `platformSupport`; otherwise one instance per supported
     * feature that is not injected, loaded in order.
     */
    method Load() returns (thrown: bool)
      modifies this
      ensures thrown <==> env.shouldRun && env.injectName.Some? && env.injectName.value !in env.platformSupport
      ensures !env.shouldRun || env.injectName.None? || thrown ==>
        features == old(features) && log == old(log)
      ensures env.shouldRun && env.injectName.Some? && !thrown ==>
        var added := Loadable(env, env.platformSupport[env.injectName.value]);
        features == old(features) + added && log == old(log) + LoadCalls(added)
      ensures initArgs == old(initArgs) && updates == old(updates)
    {
      thrown := false;
      if !env.shouldRun {
        return;
      }
      if env.injectName.None? {
        return;
      }
      if env.injectName.value !in env.platformSupport {
        return true;
      }
      LoadFeatures(env.platformSupport[env.injectName.value]);
    }

    /** The loop of `load` over the platform's feature names: each non-injected one is loaded, in order. */
    method LoadFeatures(names: seq<string>)
      modifies this
      ensures features == old(features) + Loadable(env, names)
      ensures log == old(log) + LoadCalls(Loadable(env, names))
      ensures initArgs == old(initArgs) && updates == old(updates)
    {
      var i := 0;
      while i < |names|
        invariant 0 <= i <= |names|
        invariant features == old(features) + Loadable(env, names[..i])
        invariant log == old(log) + LoadCalls(Loadable(env, names[..i]))
        invariant initArgs == old(initArgs) && updates == old(updates)
      {
        var featureName := names[i];
        ghost var loaded := Loadable(env, names[..i]);
        LoadableStep(env, names, i);
        if !IsInjectedFeature(env, featureName) {
          LoadCallsAppend(loaded, featureName);
          log := log + [LoadCall(featureName)];
          features := features + [featureName];
        }
        i := i + 1;
      }
      assert names[..i] == names;
    }

    /** `updateFeaturesInner(args)`, once `init` has recorded its arguments. */
    method UpdateFeaturesInner(args: Args)
      requires initArgs.Some?
      modifies this
      ensures initArgs == old(initArgs) && updates == old(updates) && features == old(features)
      ensures log == old(log) + UpdateCalls(env, features, old(initArgs).value, args)
    {
      var i := 0;
      while i < |features|
        invariant 0 <= i <= |features|
        invariant initArgs == old(initArgs) && updates == old(updates) && features == old(features)
        invariant log == old(log) + UpdateCalls(env, features[..i], old(initArgs).value, args)
      {
        assert features[..i + 1][..i] == features[..i];
        var f := features[i];
        if !Broken(initArgs.value, f) && f in env.definesUpdate {
          log := log + [UpdateCall(f, args)];
        }
        i := i + 1;
      }
      assert features[..i] == features;
    }

    /** The `forEach` of `init` over the loaded features. */
    method CallInits(args: Args)
      modifies this
      ensures log == old(log) + InitCalls(features, args)
      ensures initArgs == old(initArgs) && updates == old(updates) && features == old(features)
    {
      var i := 0;
      while i < |features|
        invariant 0 <= i <= |features|
        invariant log == old(log) + InitCalls(features[..i], args)
        invariant initArgs == old(initArgs) && updates == old(updates) && features == old(features)
      {
        assert features[..i + 1][..i] == features[..i];
        if InitRuns(args, features[i]) {
          log := log + [InitCall(features[i], args)];
        }
        i := i + 1;
      }
      assert features[..i] == features;
    }

    /** The `while (updates.length)` loop of `init`: `pop`, then `updateFeaturesInner`. */
    method DrainUpdates()
      requires initArgs.Some?
      modifies this
      ensures initArgs == old(initArgs) && features == old(features) && updates == []
      ensures log == old(log) + Drain(env, features, old(initArgs).value, old(updates))
    {
      while |updates| > 0
        invariant initArgs == old(initArgs) && features == old(features)
        invariant updates == old(updates)[..|updates|]
        invariant log + Drain(env, features, initArgs.value, updates) ==
          old(log) + Drain(env, features, initArgs.value, old(updates))
        decreases |updates|
      {
        var update := updates[|updates| - 1];
        updates := updates[..|updates| - 1];
        UpdateFeaturesInner(update);
      }
      assert log == log + Drain(env, features, initArgs.value, updates);
    }

    /**
     * `init(args)`: records the arguments; in an HTML document, initialises
     * each loaded feature that runs, injects the injected features when the
     * browser supports them, and drains the buffered updates newest first.
     */
    method Init(args: Args)
      modifies this
      ensures initArgs == Some(args) && features == old(features)
      ensures !env.shouldRun ==> updates == old(updates) && log == old(log)
      ensures env.shouldRun ==> updates == []
      ensures env.shouldRun ==>
        log == old(log) + InitCalls(features, args) +
          (if env.supportsInjected then [InjectCall(InjectedSettings(env, args))] else []) +
          Drain(env, features, args, old(updates))
    {
      initArgs := Some(args);
      if !env.shouldRun {
        return;
      }
      CallInits(args);
      if env.supportsInjected {
        log := log + [InjectCall(InjectedSettings(env, args))];
      }
      DrainUpdates();
    }

    /** `update(args)`: buffered before `init`, applied at once after it. */
    method Update(args: Args)
      modifies this
      ensures !env.shouldRun ==> updates == old(updates) && log == old(log)
      ensures env.shouldRun && old(initArgs).None? ==> updates == old(updates) + [args] && log == old(log)
      ensures env.shouldRun && old(initArgs).Some? ==>
        updates == old(updates) && log == old(log) + UpdateCalls(env, features, old(initArgs).value, args)
      ensures initArgs == old(initArgs) && features == old(features)
    {
      if !env.shouldRun {
        return;
      }
      if initArgs.None? {
        updates := updates + [args];
        return;
      }
      UpdateFeaturesInner(args);
    }
  }

  /**
   * Two updates before `init` reach each feature after its initialisation,
   * the later one first.
   */
  lemma BufferedUpdatesAppliedNewestFirst(env: Environment, features: seq<string>, args: Args, first: Args, second: Args)
    ensures Drain(env, features, args, [first, second]) ==
      UpdateCalls(env, features, args, second) + UpdateCalls(env, features, args, first)
  {
    var pending := [first, second];
    assert pending[..1] == [first];
    assert [first][..0] == [];
    assert Drain(env, features, args, [first]) == UpdateCalls(env, features, args, first) + [];
  }
}
