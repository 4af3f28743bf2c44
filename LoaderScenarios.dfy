/**
  Client scenarios for `RemoteFeedLoader` over the scripted transport. All but
  the last replay a behaviour the loader's unit tests exercise; the last,
  `CompleteSecondOfTwo`, exercises the transport's `at:` index, which those
  tests never set, and the independence of two loads. Each builds a fresh
  client and loader, drives them, and returns what is observed; the
  contracts are proved from the loader's and the client's specifications
  alone.
 */
module LoaderScenarios {
  import opened Values
  import opened FeedModel
  import HttpClient
  import opened FeedMapper
  import opened RemoteFeedLoading

  /** A fresh loader has issued no request. */
  method FreshLoaderRequestsNothing(url: Url, decode: Decoder) returns (requestUrl: Option<Url>)
    ensures requestUrl == None
  {
    var client := new HttpClientSpy();
    var loader := new RemoteFeedLoader(url, client, decode);
    requestUrl := client.RequestUrl();
  }

  /** One `load` requests the configured URL. */
  method LoadRequestsUrl(url: Url, decode: Decoder) returns (requestUrl: Option<Url>)
    ensures requestUrl == Some(url)
  {
    var client := new HttpClientSpy();
    var loader := new RemoteFeedLoader(url, client, decode);
    var callback := new ResponseLog();
    loader.Load(callback);
    requestUrl := client.RequestUrl();
  }

  /** Two `load`s issue two requests, both to the configured URL, in call order. */
  method LoadTwiceRequestsTwice(url: Url, decode: Decoder) returns (requestedUrls: seq<Url>)
    ensures requestedUrls == [url, url]
  {
    var client := new HttpClientSpy();
    var loader := new RemoteFeedLoader(url, client, decode);
    var callback := new ResponseLog();
    loader.Load(callback);
    loader.Load(callback);
    requestedUrls := client.RequestedUrls();
  }

  /** One `load`, then the transport completes it with `result`: the callback receives its outcome once. */
  method ExecuteLoad(url: Url, decode: Decoder, result: HttpClient.HttpClientResult)
    returns (responses: seq<LoadFeedResult>)
    ensures responses == [Outcome(decode, result)]
  {
    var client := new HttpClientSpy();
    var loader := new RemoteFeedLoader(url, client, decode);
    var callback := new ResponseLog();
    loader.Load(callback);
    client.Complete(result, 0);
    responses := callback.responses;
  }

  /** One `load`, answered with `statusCode` and `data`. */
  method ExecuteLoadWithStatus(url: Url, decode: Decoder, statusCode: int, data: Bytes)
    returns (responses: seq<LoadFeedResult>)
    ensures responses == [Outcome(decode, HttpClient.Success(data, HttpClient.HttpUrlResponse(url, statusCode)))]
  {
    var client := new HttpClientSpy();
    var loader := new RemoteFeedLoader(url, client, decode);
    var callback := new ResponseLog();
    loader.Load(callback);
    client.CompleteWithStatus(statusCode, data, 0);
    responses := callback.responses;
  }

  /** A transport error, whatever it is, reaches the callback as `connectivity`. */
  method TransportErrorIsConnectivity(url: Url, decode: Decoder, error: HttpClient.ClientError)
    returns (responses: seq<LoadFeedResult>)
    ensures responses == [Failure(Connectivity)]
  {
    responses := ExecuteLoad(url, decode, HttpClient.Failure(error));
  }

  /** Status 200 with a body that does not decode reaches the callback as `invalidData`. */
  method InvalidJsonIsInvalidData(url: Url, decode: Decoder, data: Bytes)
    returns (responses: seq<LoadFeedResult>)
    requires decode(data) == None
    ensures responses == [Failure(InvalidData)]
  {
    responses := ExecuteLoadWithStatus(url, decode, 200, data);
  }

  /** Status 200 with `{"items": []}` reaches the callback as a success with no items. */
  method EmptyJsonIsEmptyFeed(url: Url, decode: Decoder, data: Bytes)
    returns (responses: seq<LoadFeedResult>)
    requires decode(data) == Some(Root([]))
    ensures responses == [Success([])]
  {
    responses := ExecuteLoadWithStatus(url, decode, 200, data);
  }

  /** Any status other than 200 reaches the callback as `invalidData`, even with a decodable body. */
  method Non200IsInvalidDataEvenWhenDecodable(url: Url, decode: Decoder, statusCode: int, data: Bytes)
    returns (responses: seq<LoadFeedResult>)
    requires statusCode != 200 && decode(data).Some?
    ensures responses == [Failure(InvalidData)]
  {
    responses := ExecuteLoadWithStatus(url, decode, statusCode, data);
  }

  /**
    Status 200 with two items, one with every field and one with only `id` and
    `image`: both arrive, in order, and the missing fields stay absent.
   */
  method TwoItemsArriveInOrder(url: Url, decode: Decoder, data: Bytes, id1: Uuid, id2: Uuid, image: Url)
    returns (responses: seq<LoadFeedResult>)
    requires decode(data) == Some(Root([
      RemoteFeedItem(id1, Some("desc"), Some("loc"), image),
      RemoteFeedItem(id2, None, None, image)]))
    ensures responses == [Success([
      FeedItem(id1, Some("desc"), Some("loc"), image),
      FeedItem(id2, None, None, image)])]
  {
    responses := ExecuteLoadWithStatus(url, decode, 200, data);
    ghost var items := decode(data).value.items;
    assert ToModel(items) == [ToFeedItem(items[0]), ToFeedItem(items[1])];
  }

  /**
    The loader is released before the transport completes with a valid 200
    payload: the callback is never called.
   */
  method ReleasedLoaderDoesNotComplete(url: Url, decode: Decoder, data: Bytes)
    returns (responses: seq<LoadFeedResult>)
    requires decode(data) == Some(Root([]))
    ensures responses == []
  {
    var client := new HttpClientSpy();
    var loader := new RemoteFeedLoader(url, client, decode);
    var callback := new ResponseLog();
    loader.Load(callback);
    loader.Release();
    client.CompleteWithStatus(200, data, 0);
    responses := callback.responses;
  }

  /**
    Two `load`s with separate callbacks; completing the second request calls
    only the second callback, once, and leaves the first untouched.
   */
  method CompleteSecondOfTwo(url: Url, decode: Decoder, result: HttpClient.HttpClientResult)
    returns (first: seq<LoadFeedResult>, second: seq<LoadFeedResult>)
    ensures first == []
    ensures second == [Outcome(decode, result)]
  {
    var client := new HttpClientSpy();
    var loader := new RemoteFeedLoader(url, client, decode);
    var callback1 := new ResponseLog();
    var callback2 := new ResponseLog();
    loader.Load(callback1);
    loader.Load(callback2);
    client.Complete(result, 1);
    first, second := callback1.responses, callback2.responses;
  }
}
