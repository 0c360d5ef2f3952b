/**
 * The try-on page's state and the handlers that change it: `searchProducts`,
 * `tryOnItem`, `reset`, and the poller that `tryOnItem` starts. React's
 * `useState` slots are the fields of `TryOnDemo`; each interval callback and
 * the timeout callback are `Poller.Tick` and `Poller.Timeout`.
 */
module Page {
  import opened Wrappers
  import opened Strings
  import opened Http
  import opened Poll
  import TryOnRoute

  /** The page's `limit` for every search. */
  const SEARCH_LIMIT: int := 6

  /** The body `searchProducts` posts to `/api/search`. */
  datatype SearchPost = SearchPost(query: string, limit: int)

  /** The outcome of the page's `fetch("/api/search")`. */
  datatype SearchOutcome = SearchAnswered(products: seq<Product>) | SearchFailed

  /**
   * The body `tryOnItem` posts to `/api/tryon`: the part of the photo's data
   * URL after its first comma (absent when there is none, which
   * `JSON.stringify` then leaves out), and the product's image URL or "".
   */
  function TryOnRequestFor(photo: string, product: Product): (r: TryOnRoute.TryOnRequest)
    ensures r.userImage == SecondField(photo)
    ensures r.garmentImageUrl == Some(if Truthy(product.imageUrl) then product.imageUrl.value else "")
  {
    TryOnRoute.TryOnRequest(SecondField(photo), Some(if Truthy(product.imageUrl) then product.imageUrl.value else ""))
  }

  class TryOnDemo {
    var searchQuery: string
    var searchResults: seq<Product>
    var selectedProduct: Option<Product>
    var userPhoto: Option<string>
    var tryOnResult: Option<string>
    var isSearching: bool
    var isTryingOn: bool
    var alerts: seq<Alert>

    /** The search box, the product list, the selection and the photo are as they were. */
    twostate predicate KeepsInputs()
      reads this
    {
      searchQuery == old(searchQuery) && searchResults == old(searchResults) &&
      selectedProduct == old(selectedProduct) && userPhoto == old(userPhoto) && isSearching == old(isSearching)
    }

    constructor ()
      ensures searchQuery == "" && searchResults == [] && selectedProduct == None && userPhoto == None
      ensures tryOnResult == None && !isSearching && !isTryingOn && alerts == []
    {
      searchQuery, searchResults, selectedProduct, userPhoto := "", [], None, None;
      tryOnResult, isSearching, isTryingOn, alerts := None, false, false, [];
    }

    /**
     * `searchProducts`: nothing happens for a query that is empty or white
     * space only; otherwise one search is posted with limit 6 and its
     * products replace the list, or an alert is raised.
     */
    method SearchProducts(outcome: SearchOutcome) returns (sent: Option<SearchPost>)
      modifies this
      ensures IsBlank(old(searchQuery)) ==> sent == None && unchanged(this)
      ensures !IsBlank(old(searchQuery)) ==> sent == Some(SearchPost(searchQuery, SEARCH_LIMIT)) && !isSearching
      ensures !IsBlank(old(searchQuery)) && outcome.SearchAnswered? ==>
                searchResults == outcome.products && alerts == old(alerts)
      ensures !IsBlank(old(searchQuery)) && outcome.SearchFailed? ==>
                searchResults == old(searchResults) && alerts == old(alerts) + [SearchFailedAlert]
      ensures searchQuery == old(searchQuery) && selectedProduct == old(selectedProduct) && userPhoto == old(userPhoto)
      ensures tryOnResult == old(tryOnResult) && isTryingOn == old(isTryingOn)
    {
      TrimEmptyIffBlank(searchQuery);
      if Trim(searchQuery) == [] {
        return None;
      }
      isSearching := true;
      sent := Some(SearchPost(searchQuery, SEARCH_LIMIT));
      match outcome {
        case SearchAnswered(products) =>
          searchResults := products;
        case SearchFailed =>
          alerts := alerts + [SearchFailedAlert];
      }
      isSearching := false;
    }

    /**
     * `tryOnItem`: nothing happens unless a product is selected and a photo
     * taken. Otherwise the flag is raised, the request is posted, and the
     * answer is dispatched: a poller is started for an event id, a direct
     * result is shown, a failure alerts and lowers the flag, and an answer
     * with nothing usable leaves the flag raised.
     */
    method TryOnItem(outcome: SubmitOutcome) returns (sent: Option<TryOnRoute.TryOnRequest>, poller: Poller?)
      modifies this
      ensures old(selectedProduct).None? || !Truthy(old(userPhoto)) ==> sent == None && poller == null && unchanged(this)
      ensures old(selectedProduct).Some? && Truthy(old(userPhoto)) ==>
                sent == Some(TryOnRequestFor(old(userPhoto).value, old(selectedProduct).value))
      ensures old(selectedProduct).Some? && Truthy(old(userPhoto)) ==>
                match Dispatch(outcome)
                case StartPolling(eventId) =>
                  poller != null && fresh(poller) && poller.page == this && poller.eventId == eventId &&
                  poller.captured == old(isTryingOn) && poller.queried == [] &&
                  poller.View() == Started(old(tryOnResult), old(alerts))
                case ShowResult(result) =>
                  poller == null && tryOnResult == Some(result) && !isTryingOn && alerts == old(alerts)
                case NoAction =>
                  poller == null && tryOnResult == old(tryOnResult) && isTryingOn && alerts == old(alerts)
                case SubmitFailed =>
                  poller == null && tryOnResult == old(tryOnResult) && !isTryingOn && alerts == old(alerts) + [TryOnFailedAlert]
      ensures KeepsInputs()
    {
      if selectedProduct.None? || !Truthy(userPhoto) {
        return None, null;
      }
      var captured := isTryingOn;
      isTryingOn := true;
      sent := Some(TryOnRequestFor(userPhoto.value, selectedProduct.value));
      poller := null;
      match Dispatch(outcome)
      case StartPolling(eventId) =>
        poller := new Poller(this, eventId, captured);
      case ShowResult(result) =>
        tryOnResult := Some(result);
        isTryingOn := false;
      case NoAction =>
      case SubmitFailed =>
        alerts := alerts + [TryOnFailedAlert];
        isTryingOn := false;
    }

    /** `reset`: clear the photo, the result and the selection; keep the search. */
    method Reset()
      modifies this
      ensures userPhoto == None && tryOnResult == None && selectedProduct == None
      ensures searchQuery == old(searchQuery) && searchResults == old(searchResults) && isSearching == old(isSearching)
      ensures isTryingOn == old(isTryingOn) && alerts == old(alerts)
    {
      userPhoto := None;
      tryOnResult := None;
      selectedProduct := None;
    }
  }

  /**
   * The interval and the timeout that `tryOnItem` sets up for one event id.
   * `captured` is the in-progress flag as it was when `tryOnItem` was
   * entered: the timeout callback closes over that value, not the live one.
   */
  class Poller {
    const page: TryOnDemo
    const eventId: string
    const captured: bool
    var phase: Phase
    /** The event id of every status query sent so far, in order. */
    var queried: seq<string>
    var deadlineArmed: bool

    /** The poller's state together with the page state it writes. */
    function View(): PollView
      reads this, page
    {
      PollView(phase, page.tryOnResult, page.isTryingOn, |queried|, page.alerts, deadlineArmed)
    }

    constructor (page: TryOnDemo, eventId: string, captured: bool)
      ensures this.page == page && this.eventId == eventId && this.captured == captured
      ensures phase == Pending && queried == [] && deadlineArmed
    {
      this.page := page;
      this.eventId := eventId;
      this.captured := captured;
      phase := Pending;
      queried := [];
      deadlineArmed := true;
    }

    /**
     * One firing of the 2-second interval, with the answer its status query
     * gets; while pending, the query asks about this poller's own event.
     */
    method Tick(response: PollResponse)
      modifies this, page
      ensures View() == TickStep(old(View()), response)
      ensures queried == old(queried) + (if old(phase) == Pending then [eventId] else [])
      ensures page.KeepsInputs()
    {
      if phase != Pending {
        return;  // the interval has been cleared
      }
      queried := queried + [eventId];
      match ClassifyResponse(response)
      case ShowMedia(url) =>
        phase := Succeeded;
        page.tryOnResult := Some(url);
        page.isTryingOn := false;
      case Completed(result) =>
        phase := Succeeded;
        if result.Some? {
          page.tryOnResult := result;
        }
        page.isTryingOn := false;
      case Abort =>
        phase := Failed;
        page.alerts := page.alerts + [PollingFailedAlert];
        page.isTryingOn := false;
      case KeepPolling =>
    }

    /** The single firing of the 60-second timeout. */
    method Timeout()
      modifies this, page
      ensures View() == TimeoutStep(old(View()), captured)
      ensures queried == old(queried)
      ensures page.KeepsInputs()
    {
      if !deadlineArmed {
        return;
      }
      deadlineArmed := false;
      if phase == Pending {
        phase := Stopped;
      }
      if captured {
        page.alerts := page.alerts + [TimedOutAlert];
        page.isTryingOn := false;
      }
    }

    /**
     * The timeout as the page evidently intends it, reading the in-progress
     * flag as it is when the timer fires.
     */
    method TimeoutAsIntended()
      modifies this, page
      ensures View() == TimeoutStepLive(old(View()))
      ensures queried == old(queried)
      ensures page.KeepsInputs()
    {
      if !deadlineArmed {
        return;
      }
      deadlineArmed := false;
      if phase != Pending {
        return;  // the attempt has ended; the flag may be a later attempt's
      }
      phase := Stopped;
      if page.isTryingOn {
        page.alerts := page.alerts + [TimedOutAlert];
      }
      page.isTryingOn := false;
    }
  }

  /**
   * `reset` does not cancel a running poller: a media answer that arrives
   * afterwards shows its result again on the cleared page.
   */
  method ResetLeavesPollerRunning(page: TryOnDemo, poller: Poller, url: string)
    requires poller.page == page && poller.phase == Pending
    modifies page, poller
    ensures page.tryOnResult == Some(url) && page.selectedProduct == None && page.userPhoto == None
  {
    page.Reset();
    poller.Tick(Answered(StatusReply(None, Some([url]), None)));
  }
}
