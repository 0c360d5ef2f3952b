/**
 * What the three proxy endpoints and the search endpoint share: the abstract
 * outcome of an upstream call, the JSON bodies they answer with, the trace of
 * outbound calls they make, and the camelCase/snake_case normaliser built
 * from JavaScript's `||`.
 */
module Http {
  import opened Wrappers

  /** A JSON value, as `JSON.parse` or `response.json()` produces it. */
  datatype Json =
    | JNull
    | JBool(b: bool)
    | JNumber(n: int)
    | JString(s: string)
    | JArray(items: seq<Json>)
    | JObject(members: seq<(string, Json)>)

  /**
   * The outcome of one `fetch` to a provider: an ok response with its parsed
   * body; a non-ok response with its status, its text and what `JSON.parse`
   * makes of that text (`None` when the text is not JSON); or an exception
   * (network failure, or an ok body that is not the expected JSON).
   */
  datatype Upstream<T> =
    | Ok(payload: T)
    | NotOk(status: int, text: string, parsed: Option<Json>)
    | Threw

  /** Error detail copied from a provider: parsed JSON if the text parses, else the raw text. */
  datatype Payload = JsonPayload(json: Json) | TextPayload(text: string)

  function ParsedOrRaw(text: string, parsed: Option<Json>): (p: Payload)
    ensures parsed.Some? ==> p == JsonPayload(parsed.value)
    ensures parsed.None? ==> p == TextPayload(text)
  {
    match parsed
    case Some(j) => JsonPayload(j)
    case None => TextPayload(text)
  }

  /** The `details` member of an error body. */
  datatype Details =
    | NoDetails
    | PayloadDetails(payload: Payload)
    | CredentialFlags(hasAccountId: bool, hasApiToken: bool)
    | ImageIdDetails(imageId: string)

  /** A product record from the search provider, passed on verbatim. */
  datatype Product = Product(id: string, title: string, brandName: string, imageUrl: Option<string>, url: string)

  /** The JSON bodies the endpoints answer with. */
  datatype Body =
    | ErrorBody(error: string, details: Details, providerStatus: Option<int>)
    | TryOnBody(eventId: Option<string>, mediaUrls: Option<seq<string>>, outputImage: Option<string>)
    | StatusBody(status: Option<string>, eventId: Option<string>, mediaUrls: Option<seq<string>>,
                 outputImage: Option<string>)
    | UploadedBody(imageUrl: string, imageId: string)
    | ProductsBody(products: seq<Product>)

  datatype Response = Response(status: int, body: Body)

  /** `NextResponse.json(body)` without an explicit status answers 200. */
  const OK_STATUS: int := 200

  function Error(status: int, message: string): (r: Response)
    ensures r.status == status && r.body.ErrorBody? && r.body.error == message
    ensures r.body.details == NoDetails && r.body.providerStatus == None
  {
    Response(status, ErrorBody(message, NoDetails, None))
  }

  /** One outbound call an endpoint makes, with what it sends. */
  datatype Call =
    | UploadCall(image: string)
    | TryOnCall(apiKey: string, mediaUrl: string, garmentUrl: string, maskType: string)
    | StatusCall(apiKey: string, eventId: string)
    | DirectUploadCall(accountId: string, apiToken: string)
    | ImageUploadCall(uploadUrl: string, base64Data: string)
    | SearchCall(apiKey: string, query: string, limit: int)

  /** The response an endpoint returns, with the calls it made, in order. */
  datatype Exchange = Exchange(response: Response, calls: seq<Call>)

  /** JavaScript truthiness of an optional string: present and not empty. */
  predicate Truthy(s: Option<string>) {
    s.Some? && s.value != ""
  }

  /**
   * `camel || snake || undefined` for a string field: the first truthy
   * spelling, otherwise absent.
   */
  function EitherString(camel: Option<string>, snake: Option<string>): (r: Option<string>)
    ensures Truthy(camel) ==> r == camel
    ensures !Truthy(camel) && Truthy(snake) ==> r == snake
    ensures !Truthy(camel) && !Truthy(snake) ==> r == None
    ensures r.Some? ==> Truthy(r)
  {
    if Truthy(camel) then camel else if Truthy(snake) then snake else None
  }

  /**
   * `camel || snake || undefined` for a list field. Every JavaScript array is
   * truthy, so a present camelCase list wins even when it is empty.
   */
  function EitherList(camel: Option<seq<string>>, snake: Option<seq<string>>): (r: Option<seq<string>>)
    ensures camel.Some? ==> r == camel
    ensures camel.None? ==> r == snake
  {
    if camel.Some? then camel else snake
  }

  /** The body the try-on provider returns, in either spelling. */
  datatype ProviderReply = ProviderReply(
    status: Option<string>,
    eventIdCamel: Option<string>, eventIdSnake: Option<string>,
    mediaUrlsCamel: Option<seq<string>>, mediaUrlsSnake: Option<seq<string>>,
    outputImageCamel: Option<string>, outputImageSnake: Option<string>)
}
