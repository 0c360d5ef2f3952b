/**
 * How the page and the endpoints fit together: what the page sends to
 * `/api/tryon` for a captured photo, and how a status reply normalised by
 * `/api/tryon-status` is classified by the page's poller.
 */
module Flows {
  import opened Wrappers
  import opened Strings
  import opened Http
  import opened Poll
  import TryOnRoute
  import TryOnStatusRoute
  import Page

  /**
   * A photo with no comma sends no `userImage`, so the try-on endpoint answers
   * 400 before uploading anything.
   */
  lemma PhotoWithoutCommaRejected(photo: string, product: Product, apiKey: Option<string>,
                                  upload: Upstream<TryOnRoute.UploadReply>, provider: Upstream<ProviderReply>)
    requires !HasChar(photo, ',')
    ensures TryOnRoute.Post(Some(Page.TryOnRequestFor(photo, product)), apiKey, upload, provider) ==
            Exchange(Error(400, TryOnRoute.REQUIRED_MESSAGE), [])
  {
    var request := Page.TryOnRequestFor(photo, product);
    assert request.userImage == None;
    assert !TryOnRoute.Valid(request);
  }

  /**
   * A captured data URL `<header>,<data>` of a product with an image URL: the
   * endpoint uploads exactly the data, and after a successful upload asks for
   * a try-on of that product's image.
   */
  lemma PhotoDataIsUploaded(header: string, data: string, product: Product, apiKey: Option<string>,
                            upload: Upstream<TryOnRoute.UploadReply>, provider: Upstream<ProviderReply>)
    requires !HasChar(header, ',') && !HasChar(data, ',') && data != "" && Truthy(product.imageUrl)
    ensures var x := TryOnRoute.Post(Some(Page.TryOnRequestFor(header + [','] + data, product)), apiKey, upload, provider);
            x.calls != [] && x.calls[0] == UploadCall(data) &&
            (upload.Ok? ==> |x.calls| == 2 && x.calls[1].garmentUrl == product.imageUrl.value)
  {
    SecondFieldOf(header, data);
    var request := Page.TryOnRequestFor(header + [','] + data, product);
    assert request.userImage == Some(data);
    assert TryOnRoute.Valid(request);
  }

  /** The status reply the page reads from a normalised status body. */
  function PageReads(reply: ProviderReply): (r: StatusReply)
    ensures r.status == reply.status
    ensures r.mediaUrls == EitherList(reply.mediaUrlsCamel, reply.mediaUrlsSnake)
    ensures r.outputImage == EitherString(reply.outputImageCamel, reply.outputImageSnake)
  {
    var b := TryOnStatusRoute.Normalized(reply);
    StatusReply(b.status, b.mediaUrls, b.outputImage)
  }

  /**
   * An empty camelCase media list is truthy in JavaScript and hides a
   * non-empty snake_case list: a reply that is otherwise still in progress
   * keeps the poller waiting although the provider sent a result URL.
   */
  lemma EmptyCamelListShadowsSnake(reply: ProviderReply)
    requires reply.mediaUrlsCamel == Some([]) && reply.mediaUrlsSnake.Some? && reply.mediaUrlsSnake.value != []
    requires !IsDoneStatus(reply.status) && reply.status != Some("failed")
    requires !Truthy(reply.outputImageCamel) && !Truthy(reply.outputImageSnake)
    ensures Classify(PageReads(reply)) == KeepPolling
  {
  }

  /** Without a camelCase list, the snake_case media list reaches the page and its first URL is shown. */
  lemma SnakeCaseMediaShown(reply: ProviderReply)
    requires reply.mediaUrlsCamel == None && reply.mediaUrlsSnake.Some? && reply.mediaUrlsSnake.value != []
    ensures Classify(PageReads(reply)) == ShowMedia(reply.mediaUrlsSnake.value[0])
  {
  }
}
