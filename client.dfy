/**
  The Flickr client's search and its process-wide pagination state. The first
  search asks for page 1; each search that decodes a reply replaces the page
  with a random one in `1..<pages` of that reply; a transport or decode
  failure leaves it alone. The network round trip is an input (`Outcome`)
  and the completion handler's invocations are returned in order.
 */
module Client {
  import opened Wrappers
  import opened SearchResponses
  import opened Endpoints

  /** A pin's coordinate, as the text Swift's interpolation gives its two `Double` values. */
  datatype Pin = Pin(latitude: string, longitude: string)

  /** An error the data task or the decoder reports; it is passed on, uninterpreted. */
  datatype Error = Error(description: string)

  /** What the data task delivers for a search request. */
  datatype Outcome =
    | TransportFailure(error: Error)      // the task reports an error
    | DecodeFailure(error: Error)         // data arrived, the decoder threw
    | Decoded(response: SearchResponse)   // data arrived and decoded

  /** One invocation of the completion handler, with its two optional arguments. */
  datatype Completion = Completion(response: Option<SearchResponse>, error: Option<Error>)

  /**
    The pages the random draw picks from for a reply with `total` pages: every
    page but the last. For `total >= 1` this is Swift's half-open range
    `1..<total`, which is empty only when `total == 1`; for `total < 1` Swift
    cannot form the range at all, and the set is empty.
   */
  function DrawablePages(total: int): (pages: set<int>)
    ensures forall p :: p in pages <==> 1 <= p < total
    ensures |pages| == if total >= 2 then total - 1 else 0
    decreases total
  {
    if total <= 1 then {} else DrawablePages(total - 1) + {total - 1}
  }

  /**
    The client's pagination state, `FlickrClient.Search.page`: one shared page
    number that every search reads and every decoded reply replaces.
   */
  class FlickrClient {
    var page: int

    /** Every page the client ever asks for is a valid 1-based page number. */
    ghost predicate Valid()
      reads this
    {
      page >= 1
    }

    /** The state at process start: page 1. */
    constructor ()
      ensures Valid() && page == 1
    {
      page := 1;
    }

    /**
      Replaces the page with a random draw from `1..<total`. The source has no
      guard: for `total < 1` the range `1..<total` cannot be formed and for
      `total == 1` it is empty; either way the program traps, hence the
      precondition.
     */
    method SetRandomPage(total: int)
      requires total >= 2
      modifies this
      ensures page in DrawablePages(total)
      ensures Valid() && 1 <= page <= total - 1
    {
      assert 1 in DrawablePages(total);
      var drawn :| drawn in DrawablePages(total);
      page := drawn;
    }

    /**
      The request half of `search(pin:completion:)`: the search URL for the pin
      with the page current at call time. Nothing changes until the data task
      completes.
     */
    method Request(pin: Pin, apiKey: string) returns (url: string)
      ensures url == StringValue(Endpoint.Search(pin.latitude, pin.longitude, page), apiKey)
    {
      url := StringValue(Endpoint.Search(pin.latitude, pin.longitude, page), apiKey);
    }

    /**
      The body of the data task's completion closure: hands the outcome to the
      completion handler exactly once, and moves to a random page only when
      the reply decoded.
     */
    method Complete(outcome: Outcome) returns (calls: seq<Completion>)
      requires Valid()
      requires outcome.Decoded? ==> outcome.response.photos.pages >= 2
      modifies this
      ensures Valid()
      ensures |calls| == 1
      ensures outcome.TransportFailure? ==> page == old(page) && calls[0] == Completion(None, Some(outcome.error))
      ensures outcome.DecodeFailure? ==> page == old(page) && calls[0] == Completion(None, Some(outcome.error))
      ensures outcome.Decoded? ==>
        && page in DrawablePages(outcome.response.photos.pages)
        && calls[0] == Completion(Some(outcome.response), None)
    {
      calls := [];
      match outcome {
        case TransportFailure(error) =>
          calls := calls + [Completion(None, Some(error))];
        case DecodeFailure(error) =>
          calls := calls + [Completion(None, Some(error))];
        case Decoded(response) =>
          SetRandomPage(response.photos.pages);
          calls := calls + [Completion(Some(response), None)];
      }
    }

    /**
      `search(pin:completion:)` when the data task completes before the next
      search: the request, then what the data task delivers.
     */
    method Search(pin: Pin, apiKey: string, outcome: Outcome) returns (url: string, calls: seq<Completion>)
      requires Valid()
      requires outcome.Decoded? ==> outcome.response.photos.pages >= 2
      modifies this
      ensures Valid()
      ensures url == StringValue(Endpoint.Search(pin.latitude, pin.longitude, old(page)), apiKey)
      ensures |calls| == 1
      ensures outcome.TransportFailure? ==> page == old(page) && calls[0] == Completion(None, Some(outcome.error))
      ensures outcome.DecodeFailure? ==> page == old(page) && calls[0] == Completion(None, Some(outcome.error))
      ensures outcome.Decoded? ==>
        && page in DrawablePages(outcome.response.photos.pages)
        && calls[0] == Completion(Some(outcome.response), None)
    {
      url := Request(pin, apiKey);
      calls := Complete(outcome);
    }
  }

  /** A fresh client's first search asks for page 1, whatever the outcome. */
  method FirstSearch(pin: Pin, apiKey: string, outcome: Outcome) returns (url: string)
    requires outcome.Decoded? ==> outcome.response.photos.pages >= 2
    ensures url == StringValue(Endpoint.Search(pin.latitude, pin.longitude, 1), apiKey)
  {
    var client := new FlickrClient();
    var calls;
    url, calls := client.Search(pin, apiKey, outcome);
  }

  /**
    Two searches for the same pin issued before either data task completes
    send the same request: both read the same shared page.
   */
  method OverlappingRequests(client: FlickrClient, pin: Pin, apiKey: string) returns (first: string, second: string)
    ensures first == second
  {
    first := client.Request(pin, apiKey);
    second := client.Request(pin, apiKey);
  }

  /**
    After a failed search, from whatever page, the next search for the same
    pin sends the very same request: the page did not move.
   */
  method SearchAfterFailure(client: FlickrClient, pin: Pin, apiKey: string, failure: Outcome, next: Outcome)
    returns (first: string, second: string)
    requires client.Valid()
    requires !failure.Decoded?
    requires next.Decoded? ==> next.response.photos.pages >= 2
    modifies client
    ensures first == second
  {
    var calls;
    first, calls := client.Search(pin, apiKey, failure);
    second, calls := client.Search(pin, apiKey, next);
  }

  /**
    After any search whose reply decodes with `pages` pages, the next search
    asks for a page from 1 to `pages - 1`: never the last page.
   */
  method SearchAfterSuccess(client: FlickrClient, pin: Pin, apiKey: string, response: SearchResponse, next: Outcome)
    returns (first: string, second: string)
    requires client.Valid()
    requires response.photos.pages >= 2
    requires next.Decoded? ==> next.response.photos.pages >= 2
    modifies client
    ensures first == StringValue(Endpoint.Search(pin.latitude, pin.longitude, old(client.page)), apiKey)
    ensures exists p :: p in DrawablePages(response.photos.pages)
                        && second == StringValue(Endpoint.Search(pin.latitude, pin.longitude, p), apiKey)
  {
    var calls;
    first, calls := client.Search(pin, apiKey, Decoded(response));
    ghost var drawn := client.page;
    second, calls := client.Search(pin, apiKey, next);
    assert drawn in DrawablePages(response.photos.pages);
  }
}
