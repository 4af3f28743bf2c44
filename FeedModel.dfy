/**
  Values shared by every component: the optional wrapper, raw bytes, and URLs
  and UUIDs as opaque values.
 */
module Values {

  /** Swift's `Optional`: `nil` is `None`. */
  datatype Option<+T> = None | Some(value: T)

  /** One byte of a response body (Foundation's `Data` is a sequence of them). */
  newtype byte = x: int | 0 <= x < 256

  type Bytes = seq<byte>

  /** An absolute URL, kept opaque: only equality is observed. */
  datatype Url = Url(absoluteString: string)

  /** A UUID, kept opaque: only equality is observed. */
  datatype Uuid = Uuid(uuidString: string)
}

/**
  The domain model of the feed: the feed item, the loader's two error kinds
  and the two-case load result.
 */
module FeedModel {
  import opened Values

  /** The domain feed item; equality is structural. */
  datatype FeedItem = FeedItem(
    id: Uuid,
    description: Option<string>,
    location: Option<string>,
    imageURL: Url)

  /** `RemoteFeedLoader.Error`: the only two failures a caller ever sees. */
  datatype LoaderError = Connectivity | InvalidData

  /** `LoadFeedResult<RemoteFeedLoader.Error>`. */
  datatype LoadFeedResult = Success(items: seq<FeedItem>) | Failure(error: LoaderError)
}
