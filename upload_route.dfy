/**
 * `POST /api/upload`: check the image and the image-hosting credentials,
 * obtain a direct-upload URL, upload the image data to it, and answer with a
 * public URL for the stored image.
 */
module UploadRoute {
  import opened Wrappers
  import opened Strings
  import opened Http

  /** The request body; `image` is `None` when missing or `null`. */
  datatype UploadRequest = UploadRequest(image: Option<string>)

  /** The three environment variables the handler reads. */
  datatype Credentials = Credentials(accountId: Option<string>, apiToken: Option<string>, accountHash: Option<string>)

  /** The `result` of the direct-upload call. */
  datatype DirectUpload = DirectUpload(uploadUrl: string, id: string)

  /** The `result` of the image upload. */
  datatype StoredImage = StoredImage(id: string, variants: Option<seq<string>>)

  const IMAGE_MESSAGE := "Image data is required"
  const CREDENTIALS_MESSAGE := "Cloudflare credentials not configured"
  const UPLOAD_URL_MESSAGE := "Failed to get upload URL"
  const UPLOAD_IMAGE_MESSAGE := "Failed to upload image"
  const NO_URL_MESSAGE := "Could not determine public image URL. Provide CLOUDFLARE_IMAGES_ACCOUNT_HASH or enable variants in Cloudflare Images."
  const CAUGHT_MESSAGE := "Upload failed"
  const DATA_SCHEME := "data:"
  const DELIVERY_HOST := "https://imagedelivery.net/"

  /**
   * The text that is base64-decoded: an image starting with "data:" is cut at
   * its commas and the second piece kept (`undefined` without a comma); any
   * other image is used unchanged.
   */
  function DataPart(image: string): (r: Option<string>)
    ensures !StartsWith(image, DATA_SCHEME) ==> r == Some(image)
    ensures StartsWith(image, DATA_SCHEME) ==> r == SecondField(image)
  {
    if StartsWith(image, DATA_SCHEME) then SecondField(image) else Some(image)
  }

  /**
   * A data URL in the form of section 3 of RFC 2397,
   * `data:[<mediatype>][;base64],<data>`, whose header and data hold no
   * comma, yields exactly its data.
   */
  lemma DataPartOfDataUrl(header: string, data: string)
    requires StartsWith(header, DATA_SCHEME) && !HasChar(header, ',') && !HasChar(data, ',')
    ensures DataPart(header + [','] + data) == Some(data)
  {
    var url := header + [','] + data;
    assert url[..|DATA_SCHEME|] == header[..|DATA_SCHEME|];
    assert url[|header|] == ',';
    var i := IndexOf(url, ',').value;
    assert url[..|header|] == header;
    assert url[i + 1..] == data;
  }

  /** The public URL of the stored image, as the handler chooses it. */
  function PublicUrl(stored: StoredImage, accountHash: Option<string>): (r: Option<string>)
    ensures stored.variants.Some? && stored.variants.value != [] ==> r == Some(stored.variants.value[0])
    ensures (stored.variants.None? || stored.variants.value == []) && Truthy(accountHash) && stored.id != "" ==>
              r == Some(DELIVERY_HOST + accountHash.value + "/" + stored.id + "/public")
    ensures (stored.variants.None? || stored.variants.value == []) && !(Truthy(accountHash) && stored.id != "") ==>
              r == None
  {
    var variants := stored.variants.GetOr([]);
    if |variants| > 0 then Some(variants[0])
    else if Truthy(accountHash) && stored.id != "" then Some(DELIVERY_HOST + accountHash.value + "/" + stored.id + "/public")
    else None
  }

  /**
   * The handler. `request` is `None` when the body is not JSON; `direct` and
   * `stored` are what the direct-upload call and the image upload would return.
   */
  function Post(request: Option<UploadRequest>, env: Credentials,
                direct: Upstream<DirectUpload>, stored: Upstream<StoredImage>): (x: Exchange)
    ensures request.None? ==> x == Exchange(Error(500, CAUGHT_MESSAGE), [])
    // The image is checked before the credentials.
    ensures request.Some? && !Truthy(request.value.image) ==> x == Exchange(Error(400, IMAGE_MESSAGE), [])
    // Missing credentials: 500, no call, and details saying which are present.
    ensures request.Some? && Truthy(request.value.image) && !(Truthy(env.accountId) && Truthy(env.apiToken)) ==>
              x == Exchange(Response(500, ErrorBody(CREDENTIALS_MESSAGE,
                                     CredentialFlags(Truthy(env.accountId), Truthy(env.apiToken)), None)), [])
    ensures x.calls != [] <==>
              request.Some? && Truthy(request.value.image) && Truthy(env.accountId) && Truthy(env.apiToken)
    ensures x.calls != [] ==> x.calls[0] == DirectUploadCall(env.accountId.value, env.apiToken.value) && |x.calls| <= 2
    // A failed direct-upload call answers 500 with the provider's details and status,
    // and the image is not uploaded.
    ensures x.calls != [] && direct.NotOk? ==>
              |x.calls| == 1 &&
              x.response == Response(500, ErrorBody(UPLOAD_URL_MESSAGE, PayloadDetails(ParsedOrRaw(direct.text, direct.parsed)),
                                                    Some(direct.status)))
    // The image is uploaded exactly when the direct upload succeeded and there is data
    // to decode; what is uploaded is that data.
    ensures |x.calls| == 2 <==> x.calls != [] && direct.Ok? && DataPart(request.value.image.value).Some?
    ensures |x.calls| == 2 ==>
              x.calls[1] == ImageUploadCall(direct.payload.uploadUrl, DataPart(request.value.image.value).value)
    ensures |x.calls| == 2 && stored.NotOk? ==> x.response == Error(500, UPLOAD_IMAGE_MESSAGE)
    // After a stored image: no usable URL answers 500 with the id; a URL answers exactly {imageUrl, imageId}.
    ensures |x.calls| == 2 && stored.Ok? && !Truthy(PublicUrl(stored.payload, env.accountHash)) ==>
              x.response == Response(500, ErrorBody(NO_URL_MESSAGE, ImageIdDetails(stored.payload.id), None))
    ensures x.response.body.UploadedBody? <==>
              |x.calls| == 2 && stored.Ok? && Truthy(PublicUrl(stored.payload, env.accountHash))
    ensures x.response.body.UploadedBody? ==>
              x.response == Response(OK_STATUS, UploadedBody(PublicUrl(stored.payload, env.accountHash).value, stored.payload.id))
    // Every other path is caught and answers 500 "Upload failed".
    ensures x.calls != [] && (direct.Threw? || (direct.Ok? && DataPart(request.value.image.value).None?)) ==>
              x.response == Error(500, CAUGHT_MESSAGE)
    ensures |x.calls| == 2 && stored.Threw? ==> x.response == Error(500, CAUGHT_MESSAGE)
  {
    match request
    case None => Exchange(Error(500, CAUGHT_MESSAGE), [])
    case Some(req) =>
      if !Truthy(req.image) then Exchange(Error(400, IMAGE_MESSAGE), [])
      else if !Truthy(env.accountId) || !Truthy(env.apiToken) then
        Exchange(Response(500, ErrorBody(CREDENTIALS_MESSAGE, CredentialFlags(Truthy(env.accountId), Truthy(env.apiToken)), None)),
                 [])
      else
        var directCall := DirectUploadCall(env.accountId.value, env.apiToken.value);
        match direct
        case Threw => Exchange(Error(500, CAUGHT_MESSAGE), [directCall])
        case NotOk(status, text, parsed) =>
          Exchange(Response(500, ErrorBody(UPLOAD_URL_MESSAGE, PayloadDetails(ParsedOrRaw(text, parsed)), Some(status))),
                   [directCall])
        case Ok(target) =>
          match DataPart(req.image.value)
          // `Buffer.from(undefined, "base64")` throws before the second call.
          case None => Exchange(Error(500, CAUGHT_MESSAGE), [directCall])
          case Some(data) =>
            var calls := [directCall, ImageUploadCall(target.uploadUrl, data)];
            match stored
            case Threw => Exchange(Error(500, CAUGHT_MESSAGE), calls)
            case NotOk(_, _, _) => Exchange(Error(500, UPLOAD_IMAGE_MESSAGE), calls)
            case Ok(image) =>
              var imageUrl := PublicUrl(image, env.accountHash);
              if !Truthy(imageUrl) then Exchange(Response(500, ErrorBody(NO_URL_MESSAGE, ImageIdDetails(image.id), None)), calls)
              else Exchange(Response(OK_STATUS, UploadedBody(imageUrl.value, image.id)), calls)
  }
}
