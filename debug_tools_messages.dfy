/**
 * `DebugToolsMessages`: the typed client of the debug-tools page. Each
 * operation validates what it sends, issues one request, and validates the
 * reply; `updateResource` then picks the saved resource out of the reply.
 */
module DebugToolsMessages {
  import opened Wrappers
  import opened DebugToolsTypes

  const GetFeaturesMethod: string := "getFeatures"
  const UpdateResourceMethod: string := "updateResource"

  /** One `messaging.request(method, params)` call. */
  datatype Request = Request(methodName: string, params: Option<UpdateResourceParams>)

  /** The requests a call issued, and what it returned or threw. */
  datatype Call<T> = Call(sent: seq<Request>, result: Result<T, Thrown>)

  /** The message thrown when the reply lacks the saved resource. */
  const MissingResourceMessage: string := "todo! how can we get here?"

  /**
   * `getFeatures()`: requests `getFeatures` with no params and returns the
   * reply only if it has the `GetFeaturesResponse` shape.
   */
  function GetFeatures(reply: Untyped<GetFeaturesResponse>): (c: Call<GetFeaturesResponse>)
    ensures c.sent == [Request(GetFeaturesMethod, None)]
    ensures c.result.Success? <==> reply.WellTyped?
    ensures c.result.Success? ==> c.result.value == reply.value
  {
    Call([Request(GetFeaturesMethod, None)], Parse(reply))
  }

  /**
   * `updateResource(params)`: validates `params` before sending anything,
   * requests `updateResource` with them, validates the reply as a
   * `GetFeaturesResponse`, and returns the first resource of the reply whose id
   * is `params.id`, throwing when there is none.
   */
  function UpdateResource(params: Untyped<UpdateResourceParams>, reply: Untyped<GetFeaturesResponse>): (c: Call<RemoteResource>)
    ensures params.Malformed? ==> c.sent == [] && c.result.Failure?
    ensures params.WellTyped? ==> c.sent == [Request(UpdateResourceMethod, Some(params.value))]
    ensures c.result.Success? ==> params.WellTyped? && reply.WellTyped? && c.result.value.id == params.value.id
    ensures c.result.Success? ==>
      var rs := reply.value.features.remoteResources.resources;
      exists k :: 0 <= k < |rs| && rs[k] == c.result.value && forall j :: 0 <= j < k ==> rs[j].id != params.value.id
    ensures params.WellTyped? && reply.WellTyped? ==>
      (c.result.Failure? <==>
        forall k :: 0 <= k < |reply.value.features.remoteResources.resources| ==>
          reply.value.features.remoteResources.resources[k].id != params.value.id)
    ensures params.WellTyped? && reply.WellTyped? && c.result.Failure? ==>
      c.result.error == Thrown(Some(MissingResourceMessage))
  {
    match Parse(params)
    case Failure(err) => Call([], Failure(err))
    case Success(outgoing) =>
      var sent := [Request(UpdateResourceMethod, Some(outgoing))];
      match Parse(reply)
      case Failure(err) => Call(sent, Failure(err))
      case Success(response) =>
        match Find(response.features.remoteResources.resources, params.value.id)
        case None => Call(sent, Failure(Thrown(Some(MissingResourceMessage))))
        case Some(matching) => Call(sent, Success(matching))
  }
}
