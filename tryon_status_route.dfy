/**
 * `GET /api/tryon-status?eventId=…`: check the event id and the provider key,
 * ask the provider for the event's status, and answer with the reply
 * normalised to camelCase.
 */
module TryOnStatusRoute {
  import opened Wrappers
  import opened Http

  const EVENT_ID_MESSAGE := "Event ID is required"
  const KEY_MESSAGE := "GLAM_AI_API_KEY is not set"
  const FAILED_MESSAGE := "Status check failed"

  /** The response for a provider reply that came back ok. */
  function Normalized(reply: ProviderReply): (b: Body)
    ensures b.StatusBody?
    ensures b.status == reply.status
    ensures b.eventId == EitherString(reply.eventIdCamel, reply.eventIdSnake)
    ensures b.mediaUrls == EitherList(reply.mediaUrlsCamel, reply.mediaUrlsSnake)
    ensures b.outputImage == EitherString(reply.outputImageCamel, reply.outputImageSnake)
  {
    StatusBody(
      reply.status,
      EitherString(reply.eventIdCamel, reply.eventIdSnake),
      EitherList(reply.mediaUrlsCamel, reply.mediaUrlsSnake),
      EitherString(reply.outputImageCamel, reply.outputImageSnake))
  }

  /**
   * The handler. `eventId` is the query parameter (`None` when absent),
   * `apiKey` the provider key from the environment, `provider` what the
   * status call would return.
   */
  function Get(eventId: Option<string>, apiKey: Option<string>, provider: Upstream<ProviderReply>): (x: Exchange)
    // The event id is checked first, then the key; neither failure calls the provider.
    ensures !Truthy(eventId) ==> x == Exchange(Error(400, EVENT_ID_MESSAGE), [])
    ensures Truthy(eventId) && !Truthy(apiKey) ==> x == Exchange(Error(500, KEY_MESSAGE), [])
    // Otherwise exactly one call is made, for that event with that key.
    ensures x.calls != [] <==> Truthy(eventId) && Truthy(apiKey)
    ensures x.calls != [] ==> x.calls == [StatusCall(apiKey.value, eventId.value)]
    // A provider error passes its status through with the raw text as details.
    ensures x.calls != [] && provider.NotOk? ==>
              x.response == Response(provider.status, ErrorBody(FAILED_MESSAGE, PayloadDetails(TextPayload(provider.text)), None))
    ensures x.calls != [] && provider.Threw? ==> x.response == Error(500, FAILED_MESSAGE)
    // A normalised reply is answered exactly when the provider answered ok;
    // its status is the provider's, unchanged.
    ensures x.response.body.StatusBody? <==> x.calls != [] && provider.Ok?
    ensures x.response.body.StatusBody? ==>
              x.response == Response(OK_STATUS, Normalized(provider.payload)) &&
              x.response.body.status == provider.payload.status
  {
    if !Truthy(eventId) then Exchange(Error(400, EVENT_ID_MESSAGE), [])
    else if !Truthy(apiKey) then Exchange(Error(500, KEY_MESSAGE), [])
    else
      var calls := [StatusCall(apiKey.value, eventId.value)];
      match provider
      case Threw => Exchange(Error(500, FAILED_MESSAGE), calls)
      case NotOk(status, text, _) =>
        Exchange(Response(status, ErrorBody(FAILED_MESSAGE, PayloadDetails(TextPayload(text)), None)), calls)
      case Ok(reply) => Exchange(Response(OK_STATUS, Normalized(reply)), calls)
  }
}
