/**
 * The payload shapes of the debug-tools page (the generated schema types that
 * the page's zod parsers check), and the `find`-by-id lookup that both the
 * typed client and the resource selector perform.
 */
module DebugToolsTypes {
  import opened Wrappers

  /** Where a resource's current contents came from: exactly one variant. */
  datatype RemoteSource =
    | Remote(url: string, fetchedAt: string)
    | DebugTools(content: Option<string>, modifiedAt: Option<string>)

  datatype CurrentResource = CurrentResource(source: RemoteSource, contents: string, contentType: string)

  datatype RemoteResource = RemoteResource(id: string, url: string, name: string, current: CurrentResource)

  datatype RemoteResourcesFeature = RemoteResourcesFeature(resources: seq<RemoteResource>)

  datatype Features = Features(remoteResources: RemoteResourcesFeature)

  /** The reply to `getFeatures`, and also the reply that `updateResource` parses. */
  datatype GetFeaturesResponse = GetFeaturesResponse(features: Features)

  /** The source a save asks for: a new remote URL, or edited contents. */
  datatype UpdateSource = UpdateRemote(url: string) | UpdateDebugTools(content: string)

  datatype UpdateResourceParams = UpdateResourceParams(id: string, source: UpdateSource)

  /**
   * An untyped value as a zod schema sees it: of the schema's shape, or not
   * (`issues` is the text of the parse error).
   */
  datatype Untyped<T> = WellTyped(value: T) | Malformed(issues: string)

  /** A thrown or rejected error as the page reads it: its `message`, when that is a string. */
  datatype Thrown = Thrown(message: Option<string>)

  /** `schema.parse(value)`: the typed value, or a thrown `ZodError` carrying the issues as its message. */
  function Parse<T>(u: Untyped<T>): (r: Result<T, Thrown>)
    ensures r.Success? <==> u.WellTyped?
    ensures u.WellTyped? ==> r.value == u.value
    ensures u.Malformed? ==> r.error == Thrown(Some(u.issues))
  {
    match u
    case WellTyped(v) => Success(v)
    case Malformed(issues) => Failure(Thrown(Some(issues)))
  }

  /** The position of the first resource with the given id, as `Array.prototype.find` scans. */
  function FirstWithId(rs: seq<RemoteResource>, id: string): (r: Option<nat>)
    ensures r.Some? ==> r.value < |rs| && rs[r.value].id == id
    ensures r.Some? ==> forall k :: 0 <= k < r.value ==> rs[k].id != id
    ensures r.None? <==> forall k :: 0 <= k < |rs| ==> rs[k].id != id
  {
    if rs == [] then None
    else if rs[0].id == id then Some(0)
    else match FirstWithId(rs[1..], id)
      case None => None
      case Some(k) => Some(k + 1)
  }

  /** `resources.find(x => x.id === id)`. */
  function Find(rs: seq<RemoteResource>, id: string): (r: Option<RemoteResource>)
    ensures r.Some? <==> exists k :: 0 <= k < |rs| && rs[k].id == id
    ensures r.Some? ==> r.value.id == id
    ensures r.Some? ==> exists k :: 0 <= k < |rs| && rs[k] == r.value && forall j :: 0 <= j < k ==> rs[j].id != id
  {
    match FirstWithId(rs, id)
    case None => None
    case Some(k) => Some(rs[k])
  }
}
