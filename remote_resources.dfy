/**
 * The `RemoteResources` component of the debug-tools page, as far as it is
 * logic: the resource selector, the flags it derives from the machine's
 * state, and the save callbacks it hands to the URL form and the editor.
 */
module RemoteResources {
  import opened Wrappers
  import opened DebugToolsTypes
  import opened Workflow

  /** What `resourceSelector` throws when the current id is not among the resources. */
  function MissingMessage(current: string): string {
    "unreachable, could not access " + current + " in context"
  }

  /** `resourceSelector(state)`: the context's current resource, looked up by id. */
  function ResourceSelector(ctx: Context): (r: Result<RemoteResource, Thrown>)
    ensures r.Success? <==>
      ctx.currentResource.Some? && ctx.resources.Some? &&
      exists k :: 0 <= k < |ctx.resources.value| && ctx.resources.value[k].id == ctx.currentResource.value
    ensures r.Success? ==> r.value.id == ctx.currentResource.value
    ensures r.Success? ==>
      exists k :: 0 <= k < |ctx.resources.value| && ctx.resources.value[k] == r.value &&
                  forall j :: 0 <= j < k ==> ctx.resources.value[j].id != ctx.currentResource.value
    ensures ctx.currentResource.Some? && ctx.resources.Some? && r.Failure? ==>
      r.error == Thrown(Some(MissingMessage(ctx.currentResource.value)))
  {
    if ctx.currentResource.None? || ctx.resources.None? then Failure(Thrown(None))
    else match Find(ctx.resources.value, ctx.currentResource.value)
      case None => Failure(Thrown(Some(MissingMessage(ctx.currentResource.value))))
      case Some(match_) => Success(match_)
  }

  /** The editor block: the error line if any, the key, and the two save forms. */
  datatype EditorView = EditorView(
    errorLine: Option<Option<string>>,  // shown only in `errors.some`; its text may be absent
    resourceKey: int,
    resource: RemoteResource,
    urlPending: bool,                   // `RemoteResourceUrl` pending
    editorPending: bool)                // `Editor` pending

  /** The component's output: the `resourceInvalid` error, then the editor or the wait message. */
  datatype View = View(invalidError: Option<Option<string>>, editor: Option<EditorView>)

  /**
   * One render: the selectors (the resource, then `resourceKey`, which must be
   * a number), then the markup derived from `state.matches`.
   */
  function Render(c: Config): Result<View, Thrown> {
    match ResourceSelector(c.context)
    case Failure(f) => Failure(f)
    case Success(resource) =>
      if c.context.resourceKey.None? then Failure(Thrown(None))
      else
        var invalid := if c.state.ResourceInvalid? then Some(c.context.error) else None;
        var editor :=
          if c.state.ShowingEditor? then
            Some(EditorView(if c.state.errors == SomeErrors then Some(c.context.error) else None,
                            c.context.resourceKey.value, resource,
                            c.state.editing == SavingNewRemote, c.state.editing == SavingEdited))
          else None;
        Success(View(invalid, editor))
  }

  /**
   * What a successful render shows: the editor exactly in `showing editor`
   * (otherwise the wait message), its error line exactly in `errors.some`, the
   * error text exactly in `resourceInvalid`, the URL form pending exactly while
   * saving a new remote and the editor pending exactly while saving edits.
   */
  lemma RenderFlags(c: Config)
    requires Render(c).Success?
    ensures Render(c).value.editor.Some? <==> c.state.ShowingEditor?
    ensures c.state.ShowingEditor? ==>
      (Render(c).value.editor.value.errorLine.Some? <==> c.state.errors == SomeErrors)
    ensures Render(c).value.invalidError.Some? <==> c.state == ResourceInvalid
    ensures c.state.ShowingEditor? ==>
      (Render(c).value.editor.value.urlPending <==> c.state.editing == SavingNewRemote) &&
      (Render(c).value.editor.value.editorPending <==> c.state.editing == SavingEdited) &&
      !(Render(c).value.editor.value.urlPending && Render(c).value.editor.value.editorPending)
    ensures c.state.ShowingEditor? ==>
      Render(c).value.editor.value.resource == ResourceSelector(c.context).value
  {
  }

  /** The URL form's save callback: `save new remote` with the payload unchanged. */
  function SaveNewRemoteCallback(p: UpdateResourceParams): Event {
    SaveNewRemote(p)
  }

  /** The editor's save callback: `save edited` with the payload unchanged. */
  function SaveEditedCallback(p: UpdateResourceParams): Event {
    SaveEdited(p)
  }

  /**
   * A save from an enabled editor moves to the matching saving state, marks
   * the matching form pending, and starts the service, which forwards the
   * payload unchanged to `updateResource`.
   */
  lemma SaveCallbacksStartTheirService(errs: Errors, ctx: Context, p: UpdateResourceParams)
    ensures Send(Config(ShowingEditor(errs, EditorEnabled), ctx), SaveNewRemoteCallback(p)) ==
      Success(Step(Config(ShowingEditor(errs, SavingNewRemote), ctx), [SaveNewRemoteService(SaveNewRemote(p))]))
    ensures SaveNewRemoteRun(SaveNewRemote(p)) == CallsUpdateResource(p)
    ensures Send(Config(ShowingEditor(errs, EditorEnabled), ctx), SaveEditedCallback(p)) ==
      Success(Step(Config(ShowingEditor(errs, SavingEdited), ctx), [SaveEditedService(SaveEdited(p))]))
    ensures SaveEditedRun(SaveEdited(p)) == CallsUpdateResource(p)
  {
  }

  /**
   * After a save that returns a resource with the current id, when the
   * current id was among the features' resources, the selector yields the
   * saved resource.
   */
  lemma SelectorShowsSavedResource(errs: Errors, ed: Editing, ctx: Context, e: Event)
    requires SaveDone(ed, e) && ctx.features.Some? && ctx.currentResource.Some?
    requires e.saved.id == ctx.currentResource.value
    requires exists k :: 0 <= k < |ctx.features.value.remoteResources.resources| &&
                         ctx.features.value.remoteResources.resources[k].id == ctx.currentResource.value
    ensures Send(Config(ShowingEditor(errs, ed), ctx), e).Success?
    ensures ResourceSelector(Send(Config(ShowingEditor(errs, ed), ctx), e).value.config.context) == Success(e.saved)
  {
    SaveSucceeded(errs, ed, ctx, e);
    SavedResourceIsSelected(ctx.features.value.remoteResources.resources, ctx.currentResource.value, e.saved);
  }

  /**
   * A save as the page renders it, first half: from an enabled editor, the
   * form that saved is shown pending and the other is not, over the same
   * resource and key.
   */
  lemma SaveRendersPending(errs: Errors, ctx: Context, p: UpdateResourceParams, edited: bool)
    requires ResourceSelector(ctx).Success? && ctx.resourceKey.Some?
    ensures var save := if edited then SaveEditedCallback(p) else SaveNewRemoteCallback(p);
      var saving := Send(Config(ShowingEditor(errs, EditorEnabled), ctx), save);
      saving.Success? &&
      Render(saving.value.config) ==
        Success(View(None, Some(EditorView(if errs == SomeErrors then Some(ctx.error) else None, ctx.resourceKey.value,
                                           ResourceSelector(ctx).value, !edited, edited))))
  {
    SaveCallbacksStartTheirService(errs, ctx, p);
    var ed := if edited then SavingEdited else SavingNewRemote;
    assert Send(Config(ShowingEditor(errs, EditorEnabled), ctx),
                if edited then SaveEditedCallback(p) else SaveNewRemoteCallback(p)).value.config ==
           Config(ShowingEditor(errs, ed), ctx);
  }

  /**
   * Second half: once the save's service settles with a resource of the
   * current id, neither form is pending, no error line is shown, the key has
   * risen by one (so the editor remounts), and the editor shows the saved
   * resource.
   */
  lemma SaveRendersSaved(errs: Errors, ed: Editing, ctx: Context, e: Event)
    requires SaveDone(ed, e) && ctx.features.Some? && ctx.currentResource.Some? && ctx.resourceKey.Some?
    requires e.saved.id == ctx.currentResource.value
    requires exists k :: 0 <= k < |ctx.features.value.remoteResources.resources| &&
                         ctx.features.value.remoteResources.resources[k].id == ctx.currentResource.value
    ensures Send(Config(ShowingEditor(errs, ed), ctx), e).Success?
    ensures Render(Send(Config(ShowingEditor(errs, ed), ctx), e).value.config) ==
      Success(View(None, Some(EditorView(None, ctx.resourceKey.value + 1, e.saved, false, false))))
  {
    SaveSucceeded(errs, ed, ctx, e);
    RenderAfterSave(ctx, e.saved);
  }

  /** The editor as rendered in the configuration a successful save lands in. */
  lemma RenderAfterSave(ctx: Context, saved: RemoteResource)
    requires ctx.features.Some? && ctx.currentResource.Some? && ctx.resourceKey.Some?
    requires saved.id == ctx.currentResource.value
    requires exists k :: 0 <= k < |ctx.features.value.remoteResources.resources| &&
                         ctx.features.value.remoteResources.resources[k].id == ctx.currentResource.value
    ensures Render(Config(ShowingEditor(NoErrors, EditorEnabled),
                          ctx.(resources := Some(ReplaceById(ctx.features.value.remoteResources.resources,
                                                             ctx.currentResource.value, saved)),
                               error := None, resourceKey := Some(KeyOf(ctx) + 1)))) ==
      Success(View(None, Some(EditorView(None, ctx.resourceKey.value + 1, saved, false, false))))
  {
    var rs := ctx.features.value.remoteResources.resources;
    SavedResourceIsSelected(rs, ctx.currentResource.value, saved);
    var after := Config(ShowingEditor(NoErrors, EditorEnabled),
                        ctx.(resources := Some(ReplaceById(rs, ctx.currentResource.value, saved)),
                             error := None, resourceKey := Some(KeyOf(ctx) + 1)));
    assert ResourceSelector(after.context) == Success(saved);
    RenderEditor(after);
  }

  /** A render in `showing editor` with a resource to show. */
  lemma RenderEditor(c: Config)
    requires c.state.ShowingEditor? && ResourceSelector(c.context).Success? && c.context.resourceKey.Some?
    ensures Render(c) ==
      Success(View(None, Some(EditorView(if c.state.errors == SomeErrors then Some(c.context.error) else None,
                                         c.context.resourceKey.value, ResourceSelector(c.context).value,
                                         c.state.editing == SavingNewRemote, c.state.editing == SavingEdited))))
  {
  }
}
