/**
 * `POST /api/tryon`: check the two inputs, upload the user image through
 * `/api/upload`, send the uploaded URL and the garment URL to the try-on
 * provider, and answer with the provider's reply normalised to camelCase.
 */
module TryOnRoute {
  import opened Wrappers
  import opened Http

  /** The request body; a field is `None` when it is missing or `null`. */
  datatype TryOnRequest = TryOnRequest(userImage: Option<string>, garmentImageUrl: Option<string>)

  /** The success body of `/api/upload`. */
  datatype UploadReply = UploadReply(imageUrl: string, imageId: string)

  const REQUIRED_MESSAGE := "User image and garment image URL are required"
  const UPLOAD_FAILED_MESSAGE := "Failed to upload user image"
  const PROVIDER_FAILED_MESSAGE := "Try-on API failed"
  const CAUGHT_MESSAGE := "Try-on failed"
  const MASK_TYPE := "overall"

  /** Both inputs are truthy. */
  predicate Valid(request: TryOnRequest) {
    Truthy(request.userImage) && Truthy(request.garmentImageUrl)
  }

  /** The response for a provider reply that came back ok. */
  function Normalized(reply: ProviderReply): (b: Body)
    ensures b.TryOnBody?
    ensures b.eventId == EitherString(reply.eventIdCamel, reply.eventIdSnake)
    ensures b.mediaUrls == EitherList(reply.mediaUrlsCamel, reply.mediaUrlsSnake)
    ensures b.outputImage == EitherString(reply.outputImageCamel, reply.outputImageSnake)
  {
    TryOnBody(
      EitherString(reply.eventIdCamel, reply.eventIdSnake),
      EitherList(reply.mediaUrlsCamel, reply.mediaUrlsSnake),
      EitherString(reply.outputImageCamel, reply.outputImageSnake))
  }

  /**
   * The handler. `request` is `None` when the body is not JSON; `apiKey` is
   * the provider key from the environment; `upload` and `provider` are what
   * the two outbound calls would return.
   */
  function Post(request: Option<TryOnRequest>, apiKey: Option<string>,
                upload: Upstream<UploadReply>, provider: Upstream<ProviderReply>): (x: Exchange)
    // A body that is not JSON is caught by the handler.
    ensures request.None? ==> x == Exchange(Error(500, CAUGHT_MESSAGE), [])
    // Validation: nothing is called exactly when the body is unreadable or an input is missing.
    ensures x.calls == [] <==> request.None? || !Valid(request.value)
    ensures request.Some? && !Valid(request.value) ==> x.response == Error(400, REQUIRED_MESSAGE)
    // A valid request first uploads the user image, and makes at most one more call.
    ensures x.calls != [] ==> x.calls[0] == UploadCall(request.value.userImage.value) && |x.calls| <= 2
    // The provider is called only after a successful upload, with the uploaded URL, the
    // garment URL, the "overall" mask and the key, or "" when the key is not set.
    ensures |x.calls| == 2 <==> request.Some? && Valid(request.value) && upload.Ok?
    ensures |x.calls| == 2 ==>
              x.calls[1] == TryOnCall(apiKey.GetOr(""), upload.payload.imageUrl,
                                      request.value.garmentImageUrl.value, MASK_TYPE)
    // A failed upload answers 500 with the upload's error body as details.
    ensures |x.calls| == 1 && upload.NotOk? && upload.parsed.Some? ==>
              x.response == Response(500, ErrorBody(UPLOAD_FAILED_MESSAGE, PayloadDetails(JsonPayload(upload.parsed.value)), None))
    ensures |x.calls| == 1 && (upload.Threw? || (upload.NotOk? && upload.parsed.None?)) ==>
              x.response == Error(500, CAUGHT_MESSAGE)
    // A provider error passes its status through, with parsed-or-raw details.
    ensures |x.calls| == 2 && provider.NotOk? ==>
              x.response == Response(provider.status, ErrorBody(PROVIDER_FAILED_MESSAGE,
                                     PayloadDetails(ParsedOrRaw(provider.text, provider.parsed)), None))
    ensures |x.calls| == 2 && provider.Threw? ==> x.response == Error(500, CAUGHT_MESSAGE)
    // A normalised reply is answered exactly when the provider answered ok.
    ensures x.response.body.TryOnBody? <==> |x.calls| == 2 && provider.Ok?
    ensures x.response.body.TryOnBody? ==> x.response == Response(OK_STATUS, Normalized(provider.payload))
  {
    match request
    case None => Exchange(Error(500, CAUGHT_MESSAGE), [])
    case Some(req) =>
      if !Valid(req) then Exchange(Error(400, REQUIRED_MESSAGE), [])
      else
        var uploadCall := UploadCall(req.userImage.value);
        match upload
        case Threw => Exchange(Error(500, CAUGHT_MESSAGE), [uploadCall])
        case NotOk(_, _, parsed) =>
          // `uploadResponse.json()` throws when the error body is not JSON.
          if parsed.None? then Exchange(Error(500, CAUGHT_MESSAGE), [uploadCall])
          else Exchange(Response(500, ErrorBody(UPLOAD_FAILED_MESSAGE, PayloadDetails(JsonPayload(parsed.value)), None)),
                        [uploadCall])
        case Ok(uploaded) =>
          var providerCall := TryOnCall(apiKey.GetOr(""), uploaded.imageUrl, req.garmentImageUrl.value, MASK_TYPE);
          var calls := [uploadCall, providerCall];
          match provider
          case Threw => Exchange(Error(500, CAUGHT_MESSAGE), calls)
          case NotOk(status, text, parsed) =>
            Exchange(Response(status, ErrorBody(PROVIDER_FAILED_MESSAGE, PayloadDetails(ParsedOrRaw(text, parsed)), None)),
                     calls)
          case Ok(reply) => Exchange(Response(OK_STATUS, Normalized(reply)), calls)
  }
}
