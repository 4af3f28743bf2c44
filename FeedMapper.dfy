/**
  `RemoteFeedLoaderMapper`: the wire shape of a feed and the check that turns
  a received body and HTTP response into the list of wire items.
 */
module FeedMapper {
  import opened Values
  import opened HttpClient
  import opened FeedModel

  /** One element of the wire `items` array; `image` is the wire name of the image URL. */
  datatype RemoteFeedItem = RemoteFeedItem(
    id: Uuid,
    description: Option<string>,
    location: Option<string>,
    image: Url)

  /** The JSON envelope `{ "items": [...] }`. */
  datatype Root = Root(items: seq<RemoteFeedItem>)

  /**
    `JSONDecoder().decode(Root.self, from:)` under `try?`: `None` when the body
    is not a well-formed `Root`. The decoder is a parameter of the model, so
    every property below holds whatever the decoder does.
   */
  type Decoder = Bytes -> Option<Root>

  /** A call that either returns a value or throws a `RemoteFeedLoader.Error`. */
  datatype Throwing<+T> = Returned(value: T) | Threw(error: LoaderError)

  /**
    `RemoteFeedLoaderMapper.map`: the decoded items, provided the body decodes
    and the status is exactly 200; otherwise it throws `invalidData`.
   */
  function Map(decode: Decoder, data: Bytes, response: HttpUrlResponse): (r: Throwing<seq<RemoteFeedItem>>)
    // it returns if and only if the status is 200 and the body decodes
    ensures r.Returned? <==> response.statusCode == 200 && decode(data).Some?
    // what it returns is exactly the decoded `root.items`, in order
    ensures r.Returned? ==> r.value == decode(data).value.items
    // the only error it ever throws is `invalidData`
    ensures r.Threw? ==> r.error == InvalidData
  {
    match decode(data)
    case Some(root) =>
      if response.statusCode == 200 then Returned(root.items) else Threw(InvalidData)
    case None =>
      Threw(InvalidData)
  }

  /** A status other than 200 throws `invalidData` even when the body decodes (199, 201, 300, 400, 500, ...). */
  lemma Non200IsInvalidData(decode: Decoder, data: Bytes, response: HttpUrlResponse)
    requires response.statusCode != 200
    ensures Map(decode, data, response) == Threw(InvalidData)
  {
  }

  /** `{"items": []}` with status 200 is a success with no items, not an error. */
  lemma EmptyItemsIsSuccess(decode: Decoder, data: Bytes, response: HttpUrlResponse)
    requires response.statusCode == 200 && decode(data) == Some(Root([]))
    ensures Map(decode, data, response) == Returned([])
  {
  }
}
