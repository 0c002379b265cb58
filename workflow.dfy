/**
 * The debug-tools resource workflow: the machine built by `getMachine`
 * together with the services and actions that `withMessages` supplies.
 *
 * States are flattened: the parallel `showing editor` node becomes one state
 * carrying the active child of each of its regions (`errors`, `editing`).
 * A transition runs its actions in declared order (`preserveActionOrder`),
 * then the entry actions and eventless (`always`) transitions of its target,
 * and finally the events its actions raised, one after the other.
 */
module Workflow {
  import opened Wrappers
  import opened DebugToolsTypes
  import DebugToolsMessages

  /** The id `assignResource` always selects. */
  const PrivacyConfiguration: string := "privacy-configuration"
  /** The feature `assignCurrentFeature` always selects. */
  const RemoteResourcesFeatureName: string := "remoteResources"
  /** The message a save service rejects with when started by the other save event. */
  const NotSupported: string := "not supported"

  /** Region `errors` of `showing editor`. */
  datatype Errors = NoErrors | SomeErrors

  /** Region `editing` of `showing editor`. */
  datatype Editing = EditorEnabled | SavingNewRemote | SavingEdited

  datatype State =
    | InitialState            // 'Initial state': invokes getFeatures
    | ReadingDesiredFeature   // 'reading desired feature': left at once by `always`
    | ShowingError            // 'showing error'
    | ReadingDesiredResource  // 'showing remote resources feature'.'reading desired resource': left at once
    | LoadingResource         // '… loading resource': invokes parseJSON
    | ShowingEditor(errors: Errors, editing: Editing)  // '… showing editor' (parallel)
    | ResourceInvalid         // '… resourceInvalid'

  /**
   * Events: the done/error outcome of each invoked service (only the service
   * of the active state can produce one), the UI's named events, and the
   * `error`/`clearErrors` events the actions raise.
   */
  datatype Event =
    | GetFeaturesDone(features: GetFeaturesResponse)
    | GetFeaturesError(failure: Thrown)
    | ParseJSONDone
    | ParseJSONError(failure: Thrown)
    | SaveNewRemoteDone(saved: RemoteResource)
    | SaveNewRemoteError(failure: Thrown)
    | SaveEditedDone(saved: RemoteResource)
    | SaveEditedError(failure: Thrown)
    | SaveNewRemote(payload: UpdateResourceParams)   // 'save new remote'
    | SaveEdited(payload: UpdateResourceParams)      // 'save edited'
    | Retry                                          // '👆 retry'
    | RaisedError                                    // 'error'
    | RaisedClearErrors                              // 'clearErrors'
    | Event1 | SaveModifications | Edits             // declared by the schema, handled nowhere

  /** The machine's context; `None` is an absent field or `null`. */
  datatype Context = Context(
    features: Option<Features>,
    resources: Option<seq<RemoteResource>>,
    currentFeature: Option<string>,
    currentResource: Option<string>,
    error: Option<string>,
    resourceKey: Option<int>)

  /** The named actions of `withMessages`, and `assignError`, which it never defines. */
  datatype Action =
    | AssignFeatures | AssignError | AssignCurrentFeature | AssignResource
    | RaiseUpdated | ServiceError | ClearErrors | UpdateCurrentResource

  /** A service started on entering a state, with the event that caused the entry. */
  datatype Service =
    | GetFeaturesService
    | ParseJSONService
    | SaveNewRemoteService(trigger: Event)
    | SaveEditedService(trigger: Event)

  datatype Config = Config(state: State, context: Context)

  /** One row of the transition table: the target and the ordered actions. */
  datatype Transition = Transition(target: State, actions: seq<Action>)

  /** A context after some actions, with the events those actions raised, in order. */
  datatype Applied = Applied(context: Context, raised: seq<Event>)

  /** The machine after one event, with the services it started. */
  datatype Step = Step(config: Config, started: seq<Service>)

  /** The transition an event takes in a state, if any: the table of `getMachine`. */
  function Table(s: State, e: Event): Option<Transition> {
    match s
    case InitialState =>
      if e.GetFeaturesDone? then Some(Transition(ReadingDesiredFeature, [AssignFeatures]))
      else if e.GetFeaturesError? then Some(Transition(ShowingError, [AssignError]))
      else None
    case ShowingError =>
      if e.Retry? then Some(Transition(InitialState, [])) else None
    case LoadingResource =>
      if e.ParseJSONDone? then Some(Transition(ShowingEditor(NoErrors, EditorEnabled), []))
      else if e.ParseJSONError? then Some(Transition(ResourceInvalid, [AssignError]))
      else None
    case ShowingEditor(errs, ed) =>
      if e.RaisedError? then Some(Transition(ShowingEditor(SomeErrors, ed), []))
      else if e.RaisedClearErrors? then Some(Transition(ShowingEditor(NoErrors, ed), []))
      else (match ed
        case EditorEnabled =>
          if e.SaveNewRemote? then Some(Transition(ShowingEditor(errs, SavingNewRemote), []))
          else if e.SaveEdited? then Some(Transition(ShowingEditor(errs, SavingEdited), []))
          else None
        case SavingNewRemote =>
          if e.SaveNewRemoteDone? then
            Some(Transition(ShowingEditor(errs, EditorEnabled), [UpdateCurrentResource, ClearErrors, RaiseUpdated]))
          else if e.SaveNewRemoteError? then Some(Transition(ShowingEditor(errs, EditorEnabled), [ServiceError]))
          else None
        case SavingEdited =>
          if e.SaveEditedDone? then
            Some(Transition(ShowingEditor(errs, EditorEnabled), [UpdateCurrentResource, ClearErrors, RaiseUpdated]))
          else if e.SaveEditedError? then Some(Transition(ShowingEditor(errs, EditorEnabled), [ServiceError]))
          else None)
    case _ => None
  }

  /** The error a service's error event carries. */
  function FailureOf(e: Event): Option<Thrown> {
    match e
    case GetFeaturesError(f) => Some(f)
    case ParseJSONError(f) => Some(f)
    case SaveNewRemoteError(f) => Some(f)
    case SaveEditedError(f) => Some(f)
    case _ => None
  }

  /** The resource a save service resolved with. */
  function SavedOf(e: Event): Option<RemoteResource> {
    match e
    case SaveNewRemoteDone(r) => Some(r)
    case SaveEditedDone(r) => Some(r)
    case _ => None
  }

  /** `ctx.resourceKey ?? 0`. */
  function KeyOf(ctx: Context): int {
    match ctx.resourceKey
    case Some(k) => k
    case None => 0
  }

  /** `resources.map(res => current === res.id ? updated : res)`. */
  function ReplaceById(rs: seq<RemoteResource>, current: string, updated: RemoteResource): seq<RemoteResource> {
    seq(|rs|, i requires 0 <= i < |rs| => if rs[i].id == current then updated else rs[i])
  }

  /**
   * One action on the context, with the event that triggered the transition;
   * a failure is an exception thrown by the action's schema parsing.
   */
  function Apply(ctx: Context, a: Action, e: Event): Result<Applied, Thrown> {
    match a
    case AssignFeatures =>
      // the event data is a `getFeatures` reply, already validated by the typed client
      if e.GetFeaturesDone? then
        Success(Applied(ctx.(features := Some(e.features.features),
                             resources := Some(e.features.features.remoteResources.resources)), []))
      else Failure(Thrown(None))
    case AssignError => Success(Applied(ctx, []))
    case AssignCurrentFeature => Success(Applied(ctx.(currentFeature := Some(RemoteResourcesFeatureName)), []))
    case AssignResource => Success(Applied(ctx.(currentResource := Some(PrivacyConfiguration)), []))
    case RaiseUpdated => Success(Applied(ctx.(resourceKey := Some(KeyOf(ctx) + 1)), []))
    case ServiceError =>
      // z.string().parse(evt.data?.message)
      (match FailureOf(e)
       case Some(Thrown(Some(message))) => Success(Applied(ctx.(error := Some(message)), [RaisedError]))
       case _ => Failure(Thrown(None)))
    case ClearErrors => Success(Applied(ctx.(error := None), [RaisedClearErrors]))
    case UpdateCurrentResource =>
      // getFeaturesResponseSchema.parse(ctx), remoteResourceSchema.parse(evt.data), z.string().parse(ctx.currentResource)
      if ctx.features.None? || ctx.currentResource.None? || SavedOf(e).None? then Failure(Thrown(None))
      else
        Success(Applied(ctx.(resources := Some(ReplaceById(ctx.features.value.remoteResources.resources,
                                                           ctx.currentResource.value, SavedOf(e).value))), []))
  }

  /** The actions of one transition, in declared order, each seeing the context the previous left. */
  function ApplyAll(ctx: Context, actions: seq<Action>, e: Event): Result<Applied, Thrown>
    decreases |actions|
  {
    if actions == [] then Success(Applied(ctx, []))
    else match Apply(ctx, actions[0], e)
      case Failure(f) => Failure(f)
      case Success(first) =>
        match ApplyAll(first.context, actions[1..], e)
        case Failure(f) => Failure(f)
        case Success(rest) => Success(Applied(rest.context, first.raised + rest.raised))
  }

  /** `reading desired resource`: always -> `loading resource`, with assignResource then raiseUpdated. */
  function EnterReadingDesiredResource(ctx: Context): Step {
    var ctx2 := ctx.(currentResource := Some(PrivacyConfiguration), resourceKey := Some(KeyOf(ctx) + 1));
    Step(Config(LoadingResource, ctx2), [ParseJSONService])
  }

  /**
   * Entering `target` from `source` on event `e`: entry actions, `always`
   * transitions, and the services the state reached invokes. The editing
   * region's saving states start their service only when newly entered.
   */
  function Enter(source: State, target: State, ctx: Context, e: Event): Step {
    match target
    case InitialState => Step(Config(InitialState, ctx), [GetFeaturesService])
    case ReadingDesiredFeature =>
      // entry: assignCurrentFeature; always -> 'showing remote resources feature'
      EnterReadingDesiredResource(ctx.(currentFeature := Some(RemoteResourcesFeatureName)))
    case ReadingDesiredResource => EnterReadingDesiredResource(ctx)
    case LoadingResource => Step(Config(LoadingResource, ctx), [ParseJSONService])
    case ShowingEditor(_, ed) =>
      var stays := source.ShowingEditor? && source.editing == ed;
      var started :=
        if stays then []
        else match ed
          case EditorEnabled => []
          case SavingNewRemote => [SaveNewRemoteService(e)]
          case SavingEdited => [SaveEditedService(e)];
      Step(Config(target, ctx), started)
    case _ => Step(Config(target, ctx), [])
  }

  /** One microstep: the table's transition, its actions, then entry into its target. */
  function Microstep(c: Config, e: Event): Result<(Step, seq<Event>), Thrown> {
    match Table(c.state, e)
    case None => Success((Step(c, []), []))
    case Some(t) =>
      match ApplyAll(c.context, t.actions, e)
      case Failure(f) => Failure(f)
      case Success(applied) => Success((Enter(c.state, t.target, applied.context, e), applied.raised))
  }

  /**
   * The raised events, in order, each handled like an external event. The
   * transitions they take carry no actions, so they raise nothing further
   * (`RaisedEventsTouchOnlyErrors`).
   */
  function ProcessRaised(s: Step, raised: seq<Event>): Result<Step, Thrown>
    decreases |raised|
  {
    if raised == [] then Success(s)
    else match Microstep(s.config, raised[0])
      case Failure(f) => Failure(f)
      case Success(m) => ProcessRaised(Step(m.0.config, s.started + m.0.started), raised[1..])
  }

  /** `send(event)`: a microstep, then the events its actions raised. */
  function Send(c: Config, e: Event): Result<Step, Thrown> {
    match Microstep(c, e)
    case Failure(f) => Failure(f)
    case Success(m) => ProcessRaised(m.0, m.1)
  }

  /** The machine as started: in `Initial state`, with `getFeatures` invoked. */
  function Start(ctx: Context): Step {
    Step(Config(InitialState, ctx), [GetFeaturesService])
  }

  // ---------------------------------------------------------------------------
  // The services of `withMessages`.

  /** How a service settles: a call of the typed client's `updateResource`, or a rejection. */
  datatype ServiceRun = CallsUpdateResource(payload: UpdateResourceParams) | Rejects(failure: Thrown)

  /** `saveNewRemote(ctx, evt)`. */
  function SaveNewRemoteRun(trigger: Event): (r: ServiceRun)
    ensures r.CallsUpdateResource? <==> trigger.SaveNewRemote?
    ensures trigger.SaveNewRemote? ==> r.payload == trigger.payload
    ensures !trigger.SaveNewRemote? ==> r == Rejects(Thrown(Some(NotSupported)))
  {
    if trigger.SaveNewRemote? then CallsUpdateResource(trigger.payload) else Rejects(Thrown(Some(NotSupported)))
  }

  /** `saveEdited(ctx, evt)`. */
  function SaveEditedRun(trigger: Event): (r: ServiceRun)
    ensures r.CallsUpdateResource? <==> trigger.SaveEdited?
    ensures trigger.SaveEdited? ==> r.payload == trigger.payload
    ensures !trigger.SaveEdited? ==> r == Rejects(Thrown(Some(NotSupported)))
  {
    if trigger.SaveEdited? then CallsUpdateResource(trigger.payload) else Rejects(Thrown(Some(NotSupported)))
  }

  /** `parseJSON()`: resolves with `true`, whatever the context. */
  function ParseJSONRun(): (done: Event)
    ensures done == ParseJSONDone
  {
    ParseJSONDone
  }

  /**
   * The event a save service's settling delivers: done with the resource
   * `updateResource` returned, or error with what it threw.
   */
  function SaveOutcome(s: Service, reply: Untyped<GetFeaturesResponse>): Option<Event> {
    match s
    case SaveNewRemoteService(trigger) =>
      (match SaveNewRemoteRun(trigger)
       case Rejects(f) => Some(SaveNewRemoteError(f))
       case CallsUpdateResource(p) =>
         match DebugToolsMessages.UpdateResource(WellTyped(p), reply).result
         case Success(r) => Some(SaveNewRemoteDone(r))
         case Failure(f) => Some(SaveNewRemoteError(f)))
    case SaveEditedService(trigger) =>
      (match SaveEditedRun(trigger)
       case Rejects(f) => Some(SaveEditedError(f))
       case CallsUpdateResource(p) =>
         match DebugToolsMessages.UpdateResource(WellTyped(p), reply).result
         case Success(r) => Some(SaveEditedDone(r))
         case Failure(f) => Some(SaveEditedError(f)))
    case _ => None
  }

  // ---------------------------------------------------------------------------
  // Properties of the machine.

  /** The machine is in one of the states where a resource has been selected. */
  predicate InResourceStates(s: State) {
    s.LoadingResource? || s.ShowingEditor? || s.ResourceInvalid?
  }

  /**
   * Once a resource is selected, the features that `updateCurrentResource`
   * parses from the context and the id it looks up are present.
   */
  predicate Consistent(c: Config) {
    InResourceStates(c.state) ==> c.context.features.Some? && c.context.currentResource.Some?
  }

  /** The events the machine raises itself. */
  predicate IsRaised(e: Event) {
    e == RaisedError || e == RaisedClearErrors
  }

  /** The actions of a transition raise only `error` and `clearErrors`. */
  lemma {:induction false} ApplyAllRaisesOnlyRegionEvents(ctx: Context, actions: seq<Action>, e: Event)
    requires ApplyAll(ctx, actions, e).Success?
    ensures forall i :: 0 <= i < |ApplyAll(ctx, actions, e).value.raised| ==> IsRaised(ApplyAll(ctx, actions, e).value.raised[i])
    decreases |actions|
  {
    if actions != [] {
      var first := Apply(ctx, actions[0], e).value;
      ApplyAllRaisesOnlyRegionEvents(first.context, actions[1..], e);
    }
  }

  /**
   * Raised events only move the `errors` region: they never fail, start no
   * service, keep the context and the `editing` region, and outside
   * `showing editor` they are ignored.
   */
  lemma {:induction false} RaisedEventsTouchOnlyErrors(s: Step, raised: seq<Event>)
    requires forall i :: 0 <= i < |raised| ==> IsRaised(raised[i])
    ensures ProcessRaised(s, raised).Success?
    ensures ProcessRaised(s, raised).value.config.context == s.config.context
    ensures ProcessRaised(s, raised).value.started == s.started
    ensures !s.config.state.ShowingEditor? ==> ProcessRaised(s, raised).value.config == s.config
    ensures s.config.state.ShowingEditor? ==>
      ProcessRaised(s, raised).value.config.state.ShowingEditor? &&
      ProcessRaised(s, raised).value.config.state.editing == s.config.state.editing &&
      ProcessRaised(s, raised).value.config.state.errors ==
        (if raised == [] then s.config.state.errors
         else if raised[|raised| - 1] == RaisedError then SomeErrors else NoErrors)
    decreases |raised|
  {
    if raised != [] {
      var m := Microstep(s.config, raised[0]).value;
      assert m.1 == [] && m.0.started == [];
      var next := Step(m.0.config, s.started + m.0.started);
      assert next.started == s.started;
      RaisedEventsTouchOnlyErrors(next, raised[1..]);
      if raised[1..] != [] {
        assert raised[1..][|raised[1..]| - 1] == raised[|raised| - 1];
      }
    }
  }

  /** A send from a selected state: the `error` event moves `errors` to `some`, `clearErrors` to `none`; nothing else changes. */
  lemma ErrorsRegionIndependentOfEditing(c: Config, e: Event)
    requires c.state.ShowingEditor? && IsRaised(e)
    ensures Send(c, e) == Success(Step(Config(ShowingEditor(if e == RaisedError then SomeErrors else NoErrors,
                                                          c.state.editing), c.context), []))
  {
    RaisedEventsTouchOnlyErrors(Step(Config(ShowingEditor(if e == RaisedError then SomeErrors else NoErrors,
                                                          c.state.editing), c.context), []), []);
  }

  /**
   * `getFeatures` succeeding: through `reading desired feature` and
   * `reading desired resource` with no further event, into `loading resource`
   * with the features assigned, `remoteResources` and `privacy-configuration`
   * selected, `resourceKey` one higher, and `parseJSON` invoked.
   */
  lemma FeaturesLoadedLandsInLoadingResource(ctx: Context, reply: GetFeaturesResponse)
    ensures Send(Start(ctx).config, GetFeaturesDone(reply)) ==
      Success(Step(Config(LoadingResource,
                          ctx.(features := Some(reply.features),
                               resources := Some(reply.features.remoteResources.resources),
                               currentFeature := Some(RemoteResourcesFeatureName),
                               currentResource := Some(PrivacyConfiguration),
                               resourceKey := Some(KeyOf(ctx) + 1))),
                   [ParseJSONService]))
  {
  }

  /**
   * `getFeatures` failing: `showing error`, with the context as it was
   * (`assignError` records nothing); from there only `👆 retry` leads on,
   * back to `Initial state` with `getFeatures` invoked again.
   */
  lemma FeaturesFailedShowsErrorUntilRetry(ctx: Context, f: Thrown, e: Event)
    ensures Send(Start(ctx).config, GetFeaturesError(f)) == Success(Step(Config(ShowingError, ctx), []))
    ensures Send(Config(ShowingError, ctx), e) ==
      Success(if e == Retry then Start(ctx) else Step(Config(ShowingError, ctx), []))
  {
  }

  /**
   * `parseJSON` settling: done enters `showing editor` with `errors.none` and
   * `editing.editorEnabled`; error enters `resourceInvalid`; the context is kept.
   */
  lemma ParseOutcomes(ctx: Context, f: Thrown)
    ensures Send(Config(LoadingResource, ctx), ParseJSONRun()) ==
      Success(Step(Config(ShowingEditor(NoErrors, EditorEnabled), ctx), []))
    ensures Send(Config(LoadingResource, ctx), ParseJSONError(f)) == Success(Step(Config(ResourceInvalid, ctx), []))
  {
  }

  /** `resourceInvalid` has no transitions: every event leaves the machine as it is. */
  lemma ResourceInvalidAbsorbs(ctx: Context, e: Event)
    ensures Send(Config(ResourceInvalid, ctx), e) == Success(Step(Config(ResourceInvalid, ctx), []))
  {
  }

  /**
   * A send ends where its microstep ended, up to the `errors` region: the
   * raised events change neither the context, nor the services started, nor
   * the `editing` region.
   */
  lemma SendAgreesWithMicrostep(c: Config, e: Event)
    requires Microstep(c, e).Success?
    ensures Send(c, e).Success?
    ensures Send(c, e).value.config.context == Microstep(c, e).value.0.config.context
    ensures Send(c, e).value.started == Microstep(c, e).value.0.started
    ensures Send(c, e).value.config.state.ShowingEditor? <==> Microstep(c, e).value.0.config.state.ShowingEditor?
    ensures !Send(c, e).value.config.state.ShowingEditor? ==>
      Send(c, e).value.config.state == Microstep(c, e).value.0.config.state
    ensures Send(c, e).value.config.state.ShowingEditor? ==>
      Send(c, e).value.config.state.editing == Microstep(c, e).value.0.config.state.editing
  {
    var m := Microstep(c, e).value;
    if Table(c.state, e).Some? {
      ApplyAllRaisesOnlyRegionEvents(c.context, Table(c.state, e).value.actions, e);
    }
    RaisedEventsTouchOnlyErrors(m.0, m.1);
  }

  /**
   * A save is started only by `save new remote` / `save edited` in
   * `editorEnabled`, and each saving state starts its own service with that
   * event; while a save is in flight no other save can start.
   */
  lemma SaveStartsOnlyFromEditorEnabled(c: Config, e: Event)
    requires Send(c, e).Success?
    ensures forall s :: s in Send(c, e).value.started && (s.SaveNewRemoteService? || s.SaveEditedService?) ==>
      c.state.ShowingEditor? && c.state.editing == EditorEnabled &&
      (s.SaveNewRemoteService? ==> e.SaveNewRemote? && s.trigger == e) &&
      (s.SaveEditedService? ==> e.SaveEdited? && s.trigger == e)
  {
    SendAgreesWithMicrostep(c, e);
    var started := Microstep(c, e).value.0.started;
    if c.state.ShowingEditor? && c.state.editing == EditorEnabled {
      assert started == [] || started == [SaveNewRemoteService(e)] || started == [SaveEditedService(e)];
      assert started == [SaveNewRemoteService(e)] ==> e.SaveNewRemote?;
      assert started == [SaveEditedService(e)] ==> e.SaveEdited?;
    } else if c.state.ShowingEditor? {
      assert started == [];
    } else {
      assert started == [] || started == [GetFeaturesService] || started == [ParseJSONService];
    }
  }

  /**
   * The save services the machine starts always forward their event's
   * payload to `updateResource`: their `'not supported'` rejection cannot
   * happen through the machine.
   */
  lemma StartedSavesForwardPayload(c: Config, e: Event)
    requires Send(c, e).Success?
    ensures forall s :: s in Send(c, e).value.started && s.SaveNewRemoteService? ==>
      e.SaveNewRemote? && SaveNewRemoteRun(s.trigger) == CallsUpdateResource(e.payload)
    ensures forall s :: s in Send(c, e).value.started && s.SaveEditedService? ==>
      e.SaveEdited? && SaveEditedRun(s.trigger) == CallsUpdateResource(e.payload)
  {
    SaveStartsOnlyFromEditorEnabled(c, e);
  }

  /** In a saving state both save events are ignored. */
  lemma SaveEventsIgnoredWhileSaving(errs: Errors, ed: Editing, ctx: Context, e: Event)
    requires ed != EditorEnabled && (e.SaveNewRemote? || e.SaveEdited?)
    ensures Send(Config(ShowingEditor(errs, ed), ctx), e) == Success(Step(Config(ShowingEditor(errs, ed), ctx), []))
  {
  }

  /** Each saving state's own done event, and no other kind. */
  predicate SaveDone(ed: Editing, e: Event) {
    (ed == SavingNewRemote && e.SaveNewRemoteDone?) || (ed == SavingEdited && e.SaveEditedDone?)
  }

  /** Each saving state's own error event. */
  predicate SaveFailed(ed: Editing, e: Event) {
    (ed == SavingNewRemote && e.SaveNewRemoteError?) || (ed == SavingEdited && e.SaveEditedError?)
  }

  /**
   * A save settling with the resource: back to `editorEnabled`, with, in this
   * order, `resources` rebuilt from the features with the saved resource in
   * place of the current one, `error` cleared (and `errors` back to `none`),
   * and `resourceKey` one higher.
   */
  lemma SaveSucceeded(errs: Errors, ed: Editing, ctx: Context, e: Event)
    requires SaveDone(ed, e) && ctx.features.Some? && ctx.currentResource.Some?
    ensures Send(Config(ShowingEditor(errs, ed), ctx), e) ==
      Success(Step(Config(ShowingEditor(NoErrors, EditorEnabled),
                          ctx.(resources := Some(ReplaceById(ctx.features.value.remoteResources.resources,
                                                             ctx.currentResource.value, e.saved)),
                               error := None,
                               resourceKey := Some(KeyOf(ctx) + 1))),
                   []))
  {
    var actions := [UpdateCurrentResource, ClearErrors, RaiseUpdated];
    assert Table(ShowingEditor(errs, ed), e) == Some(Transition(ShowingEditor(errs, EditorEnabled), actions));
    var updated := ctx.(resources := Some(ReplaceById(ctx.features.value.remoteResources.resources,
                                                      ctx.currentResource.value, e.saved)));
    var ctx' := updated.(error := None, resourceKey := Some(KeyOf(ctx) + 1));
    var none: seq<Event> := [];
    assert none + none == none && [RaisedClearErrors] + none == [RaisedClearErrors] == none + [RaisedClearErrors];
    assert ApplyAll(updated.(error := None), [RaiseUpdated], e) == Success(Applied(ctx', []));
    assert ApplyAll(updated, actions[1..], e) == Success(Applied(ctx', [RaisedClearErrors]));
    assert ApplyAll(ctx, actions, e) == Success(Applied(ctx', [RaisedClearErrors]));
    var s := Step(Config(ShowingEditor(errs, EditorEnabled), ctx'), []);
    assert Microstep(Config(ShowingEditor(errs, ed), ctx), e) == Success((s, [RaisedClearErrors]));
    RaisedEventsTouchOnlyErrors(s, [RaisedClearErrors]);
  }

  /**
   * A save rejecting: back to `editorEnabled`; a rejection carrying a message
   * records it and moves `errors` to `some`; one without a string message
   * makes `serviceError` throw.
   */
  lemma SaveFailedRecordsMessage(errs: Errors, ed: Editing, ctx: Context, e: Event)
    requires SaveFailed(ed, e)
    ensures e.failure.message.Some? ==>
      Send(Config(ShowingEditor(errs, ed), ctx), e) ==
        Success(Step(Config(ShowingEditor(SomeErrors, EditorEnabled), ctx.(error := e.failure.message)), []))
    ensures e.failure.message.None? ==> Send(Config(ShowingEditor(errs, ed), ctx), e).Failure?
  {
    if e.failure.message.Some? {
      var m := Microstep(Config(ShowingEditor(errs, ed), ctx), e).value;
      assert m.1 == [RaisedError];
      RaisedEventsTouchOnlyErrors(m.0, m.1);
    }
  }

  /** Every send from a consistent configuration leads to a consistent one. */
  lemma SendPreservesConsistent(c: Config, e: Event)
    requires Consistent(c) && Send(c, e).Success?
    ensures Consistent(Send(c, e).value.config)
  {
    match c.state
    case InitialState =>
      if e.GetFeaturesDone? {
        FeaturesLoadedLandsInLoadingResource(c.context, e.features);
      } else if e.GetFeaturesError? {
        FeaturesFailedShowsErrorUntilRetry(c.context, e.failure, e);
      } else {
        UnhandledEventKeepsConfig(c, e);
      }
    case ShowingEditor(errs, ed) =>
      if SaveDone(ed, e) {
        SaveSucceeded(errs, ed, c.context, e);
      } else if SaveFailed(ed, e) {
        SaveFailedRecordsMessage(errs, ed, c.context, e);
      } else {
        SendAgreesWithMicrostep(c, e);
      }
    case _ =>
      SendAgreesWithMicrostep(c, e);
  }

  /** An event the active state has no transition for leaves the machine as it is. */
  lemma UnhandledEventKeepsConfig(c: Config, e: Event)
    requires Table(c.state, e).None?
    ensures Send(c, e) == Success(Step(c, []))
  {
  }

  /**
   * From a consistent configuration a send throws exactly when a save is
   * rejected with no string message: `updateCurrentResource` always finds
   * what it parses, and the other actions cannot throw.
   */
  lemma ThrowsOnlyOnMessagelessRejection(c: Config, e: Event)
    requires Consistent(c)
    ensures Send(c, e).Failure? <==>
      c.state.ShowingEditor? && SaveFailed(c.state.editing, e) && e.failure.message.None?
  {
    if c.state.ShowingEditor? && SaveDone(c.state.editing, e) {
      SaveSucceeded(c.state.errors, c.state.editing, c.context, e);
    } else if c.state.ShowingEditor? && SaveFailed(c.state.editing, e) {
      SaveFailedRecordsMessage(c.state.errors, c.state.editing, c.context, e);
    } else if c.state.ShowingEditor? && IsRaised(e) {
      ErrorsRegionIndependentOfEditing(c, e);
    } else {
      var m := Microstep(c, e).value;
      assert m.1 == [];
    }
  }

  /** `resourceKey ?? 0` never decreases, and it grows exactly on a load and on a successful save. */
  lemma ResourceKeyCountsLoadsAndSaves(c: Config, e: Event)
    requires Send(c, e).Success?
    ensures KeyOf(Send(c, e).value.config.context) ==
      if (c.state == InitialState && e.GetFeaturesDone?) || (c.state.ShowingEditor? && SaveDone(c.state.editing, e))
      then KeyOf(c.context) + 1 else KeyOf(c.context)
  {
    match c.state
    case InitialState =>
      if e.GetFeaturesDone? {
        FeaturesLoadedLandsInLoadingResource(c.context, e.features);
      } else if e.GetFeaturesError? {
        FeaturesFailedShowsErrorUntilRetry(c.context, e.failure, e);
      } else {
        UnhandledEventKeepsConfig(c, e);
      }
    case ShowingEditor(errs, ed) =>
      EditorKeyCountsSaves(errs, ed, c.context, e);
    case _ =>
      SendAgreesWithMicrostep(c, e);
  }

  /** In `showing editor`, only a successful save moves `resourceKey`, by one. */
  lemma EditorKeyCountsSaves(errs: Errors, ed: Editing, ctx: Context, e: Event)
    requires Send(Config(ShowingEditor(errs, ed), ctx), e).Success?
    ensures KeyOf(Send(Config(ShowingEditor(errs, ed), ctx), e).value.config.context) ==
      if SaveDone(ed, e) then KeyOf(ctx) + 1 else KeyOf(ctx)
  {
    var c := Config(ShowingEditor(errs, ed), ctx);
    SendAgreesWithMicrostep(c, e);
    if Table(c.state, e).Some? {
      var t := Table(c.state, e).value;
      ApplyAllCountsRaiseUpdated(ctx, t.actions, e);
      assert t.target.ShowingEditor?;
      assert RaiseUpdatedCount(t.actions) == if SaveDone(ed, e) then 1 else 0;
    }
  }

  /** How many `raiseUpdated` actions a transition runs. */
  function RaiseUpdatedCount(actions: seq<Action>): nat {
    if actions == [] then 0 else (if actions[0] == RaiseUpdated then 1 else 0) + RaiseUpdatedCount(actions[1..])
  }

  /** Each `raiseUpdated` adds one to `resourceKey ?? 0`; no other action touches it. */
  lemma {:induction false} ApplyAllCountsRaiseUpdated(ctx: Context, actions: seq<Action>, e: Event)
    requires ApplyAll(ctx, actions, e).Success?
    ensures KeyOf(ApplyAll(ctx, actions, e).value.context) == KeyOf(ctx) + RaiseUpdatedCount(actions)
    decreases |actions|
  {
    if actions != [] {
      var first := Apply(ctx, actions[0], e).value;
      ApplyAllCountsRaiseUpdated(first.context, actions[1..], e);
    }
  }

  /**
   * `updateCurrentResource`'s rebuild keeps the length and order of the
   * features' resources and replaces exactly the entries with the current id.
   */
  lemma ReplaceByIdReplacesExactly(rs: seq<RemoteResource>, current: string, updated: RemoteResource)
    ensures |ReplaceById(rs, current, updated)| == |rs|
    ensures forall i :: 0 <= i < |rs| && rs[i].id == current ==> ReplaceById(rs, current, updated)[i] == updated
    ensures forall i :: 0 <= i < |rs| && rs[i].id != current ==> ReplaceById(rs, current, updated)[i] == rs[i]
  {
  }

  /**
   * After a save whose resource keeps the current id, the selector finds the
   * saved resource, and rebuilding again changes nothing.
   */
  lemma {:induction false} SavedResourceIsSelected(rs: seq<RemoteResource>, current: string, updated: RemoteResource)
    requires updated.id == current
    requires exists k :: 0 <= k < |rs| && rs[k].id == current
    ensures Find(ReplaceById(rs, current, updated), current) == Some(updated)
    ensures ReplaceById(ReplaceById(rs, current, updated), current, updated) == ReplaceById(rs, current, updated)
  {
    var k :| 0 <= k < |rs| && rs[k].id == current;
    var after := ReplaceById(rs, current, updated);
    assert after[k].id == current;
    var found := Find(after, current);
    assert found.Some?;
    var j :| 0 <= j < |after| && after[j] == found.value && forall i :: 0 <= i < j ==> after[i].id != current;
    assert after[j].id == current;
    assert rs[j].id == current;
  }
}
