/**
  `RemoteFeedLoader`: converting wire items into feed items, mapping a
  transport result into a `LoadFeedResult`, and the loader object itself.

  The loader talks to a scripted transport (`HttpClientSpy`) that records every
  `get` together with the completion the loader registered, and completes a
  recorded request on demand. The completion is the loader's closure: it holds
  the loader weakly (here: it consults the loader's `alive` flag) and the
  caller's callback, modelled as a `ResponseLog` that collects every result
  the callback receives.
 */
module RemoteFeedLoading {
  import opened Values
  import opened FeedModel
  import HttpClient
  import opened FeedMapper

  // ---------------------------------------------------------------------------
  // Converting wire items into feed items

  /** One wire item as a feed item, field by field; `image` becomes `imageURL`. */
  function ToFeedItem(item: RemoteFeedItem): FeedItem
  {
    FeedItem(item.id, item.description, item.location, item.image)
  }

  /**
    `Array<RemoteFeedItem>.toModel`: the same number of items, in the same
    order, each one carrying the same id, description, location and image URL.
    An absent description or location stays absent (`None`), never becomes "".
   */
  function ToModel(items: seq<RemoteFeedItem>): (r: seq<FeedItem>)
    ensures |r| == |items|
    ensures forall i :: 0 <= i < |items| ==>
              && r[i].id == items[i].id
              && r[i].description == items[i].description
              && r[i].location == items[i].location
              && r[i].imageURL == items[i].image
  {
    if items == [] then [] else [ToFeedItem(items[0])] + ToModel(items[1..])
  }

  /** A feed item as the wire item it came from; the inverse of `ToFeedItem`. */
  function ToRemoteFeedItem(item: FeedItem): RemoteFeedItem
  {
    RemoteFeedItem(item.id, item.description, item.location, item.imageURL)
  }

  /** A reference inverse of `ToModel`, element by element. */
  function FromModel(items: seq<FeedItem>): seq<RemoteFeedItem>
  {
    if items == [] then [] else [ToRemoteFeedItem(items[0])] + FromModel(items[1..])
  }

  /** `ToModel` loses nothing: the wire items can be recovered from the feed items. */
  lemma {:induction false} FromModelToModel(items: seq<RemoteFeedItem>)
    ensures FromModel(ToModel(items)) == items
  {
    if items != [] {
      FromModelToModel(items[1..]);
      assert ToModel(items) == [ToFeedItem(items[0])] + ToModel(items[1..]);
      assert ToModel(items)[1..] == ToModel(items[1..]);
    }
  }

  /**
    Two different wire lists never convert to the same feed; this follows from
    the element-wise contract of `ToModel`.
   */
  lemma ToModelInjective(xs: seq<RemoteFeedItem>, ys: seq<RemoteFeedItem>)
    requires ToModel(xs) == ToModel(ys)
    ensures xs == ys
  {
  }

  /**
    `toModel` distributes over concatenation, so converting commutes with
    splitting the feed; this follows from the element-wise contract of `ToModel`.
   */
  lemma ToModelAppend(xs: seq<RemoteFeedItem>, ys: seq<RemoteFeedItem>)
    ensures ToModel(xs + ys) == ToModel(xs) + ToModel(ys)
  {
  }

  // ---------------------------------------------------------------------------
  // Mapping a transport result

  /**
    The private static `RemoteFeedLoader.map`: the converted items when the
    mapper returns, `invalidData` whenever the mapper throws.
   */
  function MapResponse(decode: Decoder, data: Bytes, response: HttpClient.HttpUrlResponse): (r: LoadFeedResult)
    // a success exactly when the status is 200 and the body decodes
    ensures r.Success? <==> response.statusCode == 200 && decode(data).Some?
    // carrying the decoded items converted to feed items, in order
    ensures r.Success? ==> r.items == ToModel(decode(data).value.items)
    // and otherwise `invalidData`, never `connectivity`
    ensures r.Failure? ==> r.error == InvalidData
  {
    match Map(decode, data, response)
    case Returned(remoteFeedItems) => Success(ToModel(remoteFeedItems))
    case Threw(_) => Failure(InvalidData)
  }

  /**
    The `switch` in `load`'s completion: a transport failure of any kind is
    `connectivity`; a received response is mapped, so it is a success exactly
    when the status is 200 and the body decodes, and `invalidData` otherwise.
   */
  function Outcome(decode: Decoder, result: HttpClient.HttpClientResult): (r: LoadFeedResult)
    // whatever the underlying error, a transport failure is exactly `connectivity`
    ensures result.Failure? ==> r == Failure(Connectivity)
    // and `connectivity` never arises from a received response
    ensures r == Failure(Connectivity) <==> result.Failure?
    ensures result.Success? ==>
              (r.Success? <==> result.response.statusCode == 200 && decode(result.data).Some?)
    ensures result.Success? && r.Success? ==> r.items == ToModel(decode(result.data).value.items)
    ensures result.Success? && r.Failure? ==> r.error == InvalidData
  {
    match result
    case Success(data, response) => MapResponse(decode, data, response)
    case Failure(_) => Failure(Connectivity)
  }

  /**
    What the caller's callback receives when the transport completes: nothing
    when the loader is gone (the `guard self != nil`), otherwise exactly one
    result, the outcome of the transport result.
   */
  function Delivered(alive: bool, decode: Decoder, result: HttpClient.HttpClientResult): (r: seq<LoadFeedResult>)
    ensures |r| <= 1
    ensures r == [] <==> !alive
    ensures alive ==> r == [Outcome(decode, result)]
  {
    if alive then [Outcome(decode, result)] else []
  }

  /**
    The whole pipeline over URLSession: a finished data task, classified by
    `URLSessionHTTPClient` and delivered to a live loader. An error, a missing
    body, a missing or non-HTTP response all read as `connectivity`; a body
    with an HTTP response is `invalidData` unless the status is 200 and the
    body decodes, in which case it is the converted feed.
   */
  lemma UrlSessionPipeline(decode: Decoder, data: Option<Bytes>, response: Option<HttpClient.UrlResponse>, error: Option<HttpClient.ClientError>)
    ensures var r := Outcome(decode, HttpClient.Classify(data, response, error));
            && (r == Failure(Connectivity) <==> !(error.None? && data.Some? && HttpClient.IsHttp(response)))
            && (r.Success? <==>
                  error.None? && data.Some? && HttpClient.IsHttp(response)
                  && response.value.http.statusCode == 200 && decode(data.value).Some?)
            && (r.Success? ==> r.items == ToModel(decode(data.value).value.items))
  {
  }

  // ---------------------------------------------------------------------------
  // The loader, the caller's callback and the scripted transport

  /** The callback `{ responses.append($0) }`: every result it receives, in order. */
  class ResponseLog {
    var responses: seq<LoadFeedResult>

    constructor ()
      ensures responses == []
    {
      responses := [];
    }

    method Append(response: LoadFeedResult)
      modifies this
      ensures responses == old(responses) + [response]
    {
      responses := responses + [response];
    }
  }

  /**
    The closure `load` registers with the client: the loader, held weakly,
    and the caller's callback.
   */
  datatype Completion = Completion(owner: RemoteFeedLoader, callback: ResponseLog)

  /** One recorded `get`: the requested URL and the completion to call later. */
  datatype Message = Message(url: Url, completion: Completion)

  /** The URLs of the recorded requests, in call order. */
  function UrlsOf(messages: seq<Message>): (urls: seq<Url>)
    ensures |urls| == |messages|
    ensures forall i :: 0 <= i < |messages| ==> urls[i] == messages[i].url
  {
    if messages == [] then [] else [messages[0].url] + UrlsOf(messages[1..])
  }

  /**
    Running a registered completion with a transport result: if the loader
    still exists the callback receives the outcome once, otherwise it receives
    nothing; nothing else changes.
   */
  method RunCompletion(completion: Completion, result: HttpClient.HttpClientResult)
    modifies completion.callback
    ensures completion.callback.responses
         == old(completion.callback.responses)
          + Delivered(completion.owner.alive, completion.owner.decode, result)
  {
    if !completion.owner.alive {
      return;
    }
    completion.callback.Append(Outcome(completion.owner.decode, result));
  }

  /** A transport that records each `get` and completes recorded requests when told to. */
  class HttpClientSpy {
    var messages: seq<Message>

    constructor ()
      ensures messages == []
    {
      messages := [];
    }

    /** `requestURL`: the URL of the latest request, if any. */
    function RequestUrl(): (u: Option<Url>)
      reads this
      ensures u.None? <==> UrlsOf(messages) == []
      ensures u.Some? ==> u.value == UrlsOf(messages)[|messages| - 1]
    {
      if messages == [] then None else Some(messages[|messages| - 1].url)
    }

    /** `requestedURLs`: the requested URLs, gathered one message at a time. */
    method RequestedUrls() returns (urls: seq<Url>)
      ensures urls == UrlsOf(messages)
    {
      urls := [];
      var i := 0;
      while i < |messages|
        invariant 0 <= i <= |messages|
        invariant |urls| == i
        invariant forall k :: 0 <= k < i ==> urls[k] == messages[k].url
      {
        urls := urls + [messages[i].url];
        i := i + 1;
      }
    }

    /** `get(from:_:)`: records the request and its completion; nothing is called yet. */
    method Get(url: Url, completion: Completion)
      modifies this
      ensures messages == old(messages) + [Message(url, completion)]
    {
      messages := messages + [Message(url, completion)];
    }

    /** `complete(with:at:)`: calls the completion of request `index` with `result`. */
    method Complete(result: HttpClient.HttpClientResult, index: nat)
      requires index < |messages|
      modifies messages[index].completion.callback
      ensures var c := messages[index].completion;
              c.callback.responses == old(c.callback.responses) + Delivered(c.owner.alive, c.owner.decode, result)
    {
      RunCompletion(messages[index].completion, result);
    }

    /**
      `complete(with:data:at:)`: answers request `index` with `data` and an
      HTTP response for the requested URL carrying `statusCode`.
     */
    method CompleteWithStatus(statusCode: int, data: Bytes, index: nat)
      requires index < |messages|
      modifies messages[index].completion.callback
      ensures var c := messages[index].completion;
              var response := HttpClient.HttpUrlResponse(messages[index].url, statusCode);
              c.callback.responses
                == old(c.callback.responses) + Delivered(c.owner.alive, c.owner.decode, HttpClient.Success(data, response))
    {
      var response := HttpClient.HttpUrlResponse(messages[index].url, statusCode);
      Complete(HttpClient.Success(data, response), index);
    }
  }

  /**
    `RemoteFeedLoader`: a URL, a client and (standing in for `JSONDecoder`) the
    decoder; `alive` is false once the loader has been released.
   */
  class RemoteFeedLoader {
    const url: Url
    const client: HttpClientSpy
    const decode: Decoder
    var alive: bool

    constructor (url: Url, client: HttpClientSpy, decode: Decoder)
      ensures this.url == url && this.client == client && this.decode == decode
      ensures alive
    {
      this.url := url;
      this.client := client;
      this.decode := decode;
      alive := true;
    }

    /**
      `load(completion:)`: exactly one `get`, to the configured URL, with a
      completion holding this loader and the caller's callback. Nothing is
      delivered until the transport completes.
     */
    method Load(callback: ResponseLog)
      requires alive
      modifies client
      ensures client.messages == old(client.messages) + [Message(url, Completion(this, callback))]
    {
      client.Get(url, Completion(this, callback));
    }

    /** The last reference to the loader goes away (`sut = nil`). */
    method Release()
      modifies this
      ensures !alive
    {
      alive := false;
    }
  }
}
