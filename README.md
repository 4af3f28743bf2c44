# OnlineFeed feed-loading pipeline, modelled in Dafny

This project models the decision logic of the OnlineFeed client: how a
finished URLSession data task becomes an `HTTPClientResult`
(`URLSessionHTTPClient`), how a received body and HTTP response become a list
of wire items or an `invalidData` error (`RemoteFeedLoaderMapper`), and how
`RemoteFeedLoader` turns the transport result into a `LoadFeedResult`
(`connectivity`, `invalidData` or the converted feed). It also models what
happens when the loader is gone before the transport answers: the
`[weak self]` guard then drops the result.

Files and modules:

- `FeedModel.dfy`: module `Values` holds `Option`, bytes, and URLs and UUIDs as opaque values. Module `FeedModel` holds `FeedItem`, `LoaderError` (`RemoteFeedLoader.Error`) and `LoadFeedResult`.
- `HttpClient.dfy`: module `HttpClient` holds `HTTPURLResponse`, `URLResponse`, the client error, `HTTPClientResult` and `Classify`, the completion closure of `URLSessionHTTPClient.get`.
- `FeedMapper.dfy`: module `FeedMapper` holds `RemoteFeedItem`, `Root`, the decoder type and `Map`, which is `RemoteFeedLoaderMapper.map`. A thrown error is the `Threw` case of `Throwing`.
- `RemoteFeedLoader.dfy`: module `RemoteFeedLoading` holds three groups:
  - the pure pieces: `ToModel`, the static `map` (`MapResponse`), and the switch inside `load`'s completion (`Outcome`, `Delivered`);
  - the objects: the loader (`RemoteFeedLoader`, whose `alive` flag stands for the weak reference), a scripted transport (`HttpClientSpy`, the test double that records each `get` with its completion), and the caller's callback (`ResponseLog`, which collects every result it receives);
  - a registered closure, the `Completion` value. It holds the loader and the callback. `RunCompletion` runs it.
- `LoaderScenarios.dfy`: module `LoaderScenarios` holds client methods that drive a fresh transport and loader and return what is observed, each proved from the specifications of the loader and the transport. All but `CompleteSecondOfTwo` replay one of the loader's unit tests; `CompleteSecondOfTwo` exercises the transport's `at:` index, which those tests never set, and the independence of two loads.

JSON decoding (`JSONDecoder().decode(Root.self, from:)` under `try?`) is a
parameter: a total function `Bytes -> Option<Root>`. The loader receives it
at construction, so every property holds for every decoder.

## Model

| member | source | states |
|---|---|---|
| `HttpClient.Classify` | OnlineFeed/OnlineFeed/API/HTTPClient/URLSessionHTTPClient.swift:22-31 | If an error is present, the result fails with that same error, whatever the data and response are. The result is a success exactly when there is no error, the data is present and the response is an HTTP response. A success passes the data and the HTTP response through unchanged. With no error, every failure is `UnvalidResponseError`. |
| `HttpClient.StatusCodeNotInspected` | OnlineFeed/OnlineFeed/API/HTTPClient/URLSessionHTTPClient.swift:25-27 | Data with an HTTP response of any status, 0 included, classifies as success. |
| `HttpClient.ClassifyOutcomesPartition` | OnlineFeed/OnlineFeed/API/HTTPClient/URLSessionHTTPClient.swift:22-31 | The result is exactly one of three things: the reported error passed through, a success, or, with no error reported, `UnvalidResponseError`. That the completion runs exactly once per task comes from `Classify` being a function, not from this lemma. |
| `FeedMapper.Map` | OnlineFeed/OnlineFeed/API/RemoteFeedLoaderMapper.swift:13-19 | The mapper returns if and only if the status is exactly 200 and the body decodes. What it returns is exactly the decoded `root.items`, in order. The only error it throws is `invalidData`. |
| `FeedMapper.Non200IsInvalidData` | OnlineFeed/OnlineFeed/API/RemoteFeedLoaderMapper.swift:14-16 | Any status other than 200 throws `invalidData`, even when the body decodes. |
| `FeedMapper.EmptyItemsIsSuccess` | OnlineFeed/OnlineFeed/API/RemoteFeedLoaderMapper.swift:14-18 | Status 200 with a body that decodes to `{"items": []}` returns the empty list, which is not an error. |
| `RemoteFeedLoading.ToModel` | OnlineFeed/OnlineFeed/API/RemoteFeedLoader.swift:50-55 | `toModel` keeps the length. Element i has the same `id`, `description` and `location` as wire item i, and its `imageURL` is the item's `image`. A `nil` description or location therefore stays `nil`. |
| `RemoteFeedLoading.FromModelToModel` | OnlineFeed/OnlineFeed/API/RemoteFeedLoader.swift:50-55 | Converting back element by element recovers the wire list exactly, so `toModel` loses no field and no position. |
| `RemoteFeedLoading.ToModelInjective` | OnlineFeed/OnlineFeed/API/RemoteFeedLoader.swift:50-55 | Two different wire lists never convert to the same feed. |
| `RemoteFeedLoading.ToModelAppend` | OnlineFeed/OnlineFeed/API/RemoteFeedLoader.swift:50-55 | Converting a concatenation gives the concatenation of the converted parts, so the order of the items is kept. |
| `RemoteFeedLoading.MapResponse` | OnlineFeed/OnlineFeed/API/RemoteFeedLoader.swift:39-47 | The static `map` yields a success exactly when the status is 200 and the body decodes. The success carries the decoded items converted by `toModel`, in order. Every other case is `.failure(.invalidData)`, never `.connectivity`. |
| `RemoteFeedLoading.Outcome` | OnlineFeed/OnlineFeed/API/RemoteFeedLoader.swift:29-34 | Every transport failure, whatever its error, yields exactly `.failure(.connectivity)`, and `.connectivity` never arises from a received response. For a received response the result is a success exactly when the status is 200 and the body decodes, and the success carries the converted decoded items. Otherwise the result is `.invalidData`. |
| `RemoteFeedLoading.Delivered` | OnlineFeed/OnlineFeed/API/RemoteFeedLoader.swift:27-34 | A gone loader delivers nothing. A live loader delivers exactly one result: the outcome of the transport result. |
| `RemoteFeedLoading.UrlSessionPipeline` | OnlineFeed/OnlineFeed/API/RemoteFeedLoader.swift:26-47 | This is the loader over `URLSessionHTTPClient`. The result is `.connectivity` exactly when the task did not finish with no error, data present and an HTTP response. The result is a success exactly when, in addition, the status is 200 and the body decodes. |
| `RemoteFeedLoading.RunCompletion` | OnlineFeed/OnlineFeed/API/RemoteFeedLoader.swift:27-34 | Running the registered closure adds `Delivered(alive, decode, result)` to the callback's log and changes nothing else: nothing for a gone loader, exactly one entry for a live one. |
| `RemoteFeedLoading.UrlsOf` | OnlineFeed/OnlineFeedTests/API/RemoteFeedLoaderTests.swift:127-131 | The requested URLs are the recorded messages' URLs, in order, one per message. |
| `RemoteFeedLoading.ResponseLog.constructor` | OnlineFeed/OnlineFeedTests/API/RemoteFeedLoaderTests.swift:113 | A new callback log is empty. |
| `RemoteFeedLoading.ResponseLog.Append` | OnlineFeed/OnlineFeedTests/API/RemoteFeedLoaderTests.swift:114 | The callback appends the result it receives to the log and changes nothing else. |
| `RemoteFeedLoading.HttpClientSpy.constructor` | OnlineFeed/OnlineFeedTests/API/RemoteFeedLoaderTests.swift:133 | A new transport has recorded no message. |
| `RemoteFeedLoading.HttpClientSpy.RequestUrl` | OnlineFeed/OnlineFeedTests/API/RemoteFeedLoaderTests.swift:123-125 | `requestURL` is `nil` exactly when nothing was requested. Otherwise it is the last requested URL. |
| `RemoteFeedLoading.HttpClientSpy.RequestedUrls` | OnlineFeed/OnlineFeedTests/API/RemoteFeedLoaderTests.swift:127-131 | The loop gathers exactly the recorded URLs, in call order. |
| `RemoteFeedLoading.HttpClientSpy.Get` | OnlineFeed/OnlineFeedTests/API/RemoteFeedLoaderTests.swift:135-137 | `get` appends one message (URL and completion) and calls nothing. |
| `RemoteFeedLoading.HttpClientSpy.Complete` | OnlineFeed/OnlineFeedTests/API/RemoteFeedLoaderTests.swift:139-141 | Completing message `index` with a result runs that message's completion once. Its callback log grows by `Delivered(...)` of the owning loader, and the recorded messages are unchanged. |
| `RemoteFeedLoading.HttpClientSpy.CompleteWithStatus` | OnlineFeed/OnlineFeedTests/API/RemoteFeedLoaderTests.swift:143-151 | The same, with a success made of the data and an HTTP response. The response is for the message's own URL and carries the given status. |
| `RemoteFeedLoading.RemoteFeedLoader.constructor` | OnlineFeed/OnlineFeed/API/RemoteFeedLoader.swift:21-24 | A new loader keeps the URL, the client and the decoder, and is alive. |
| `RemoteFeedLoading.RemoteFeedLoader.Load` | OnlineFeed/OnlineFeed/API/RemoteFeedLoader.swift:26-36 | Each `load` issues exactly one `get`, to the configured URL. The completion it registers holds this loader and the caller's callback. Nothing is delivered yet. |
| `RemoteFeedLoading.RemoteFeedLoader.Release` | OnlineFeed/OnlineFeedTests/API/RemoteFeedLoaderTests.swift:87 | After release the loader is no longer alive. |
| `LoaderScenarios.FreshLoaderRequestsNothing` | OnlineFeed/OnlineFeedTests/API/RemoteFeedLoaderTests.swift:13-18 | A fresh loader has requested nothing: `requestURL` is `nil`. |
| `LoaderScenarios.LoadRequestsUrl` | OnlineFeed/OnlineFeedTests/API/RemoteFeedLoaderTests.swift:20-29 | After one `load`, `requestURL` is the configured URL. |
| `LoaderScenarios.LoadTwiceRequestsTwice` | OnlineFeed/OnlineFeedTests/API/RemoteFeedLoaderTests.swift:31-41 | Two `load`s record `[url, url]`. |
| `LoaderScenarios.ExecuteLoad` | OnlineFeed/OnlineFeedTests/API/RemoteFeedLoaderTests.swift:108-120 | One `load` completed with any result gives a log holding exactly that result's outcome. |
| `LoaderScenarios.ExecuteLoadWithStatus` | OnlineFeed/OnlineFeedTests/API/RemoteFeedLoaderTests.swift:143-151 | The same for a response with a given status and body for the configured URL. |
| `LoaderScenarios.TransportErrorIsConnectivity` | OnlineFeed/OnlineFeedTests/API/RemoteFeedLoaderTests.swift:43-47 | Any transport error reaches the callback as `[.failure(.connectivity)]`. |
| `LoaderScenarios.InvalidJsonIsInvalidData` | OnlineFeed/OnlineFeedTests/API/RemoteFeedLoaderTests.swift:49-53 | Status 200 with an undecodable body reaches the callback as `[.failure(.invalidData)]`. |
| `LoaderScenarios.EmptyJsonIsEmptyFeed` | OnlineFeed/OnlineFeedTests/API/RemoteFeedLoaderTests.swift:55-59 | Status 200 with `{"items": []}` reaches the callback as `[.success([])]`. |
| `LoaderScenarios.Non200IsInvalidDataEvenWhenDecodable` | OnlineFeed/OnlineFeedTests/API/RemoteFeedLoaderTests.swift:61-70 | Any status other than 200 (199, 201, 300, 400, 500, ...) with a decodable body reaches the callback as `[.failure(.invalidData)]`. |
| `LoaderScenarios.TwoItemsArriveInOrder` | OnlineFeed/OnlineFeedTests/API/RemoteFeedLoaderTests.swift:72-77 | Two decoded items arrive as `[.success([item1, item2])]`, in order and field for field. The second item has only `id` and `image`, and its description and location stay `nil`. |
| `LoaderScenarios.ReleasedLoaderDoesNotComplete` | OnlineFeed/OnlineFeedTests/API/RemoteFeedLoaderTests.swift:79-92 | If the loader is released before the transport completes with a valid 200 payload, the callback is never called and the log stays empty. |
| `LoaderScenarios.CompleteSecondOfTwo` | OnlineFeed/OnlineFeedTests/API/RemoteFeedLoaderTests.swift:139-141 | This scenario is not one of the unit tests; it uses the spy's `at:` index, which they never set. With two pending loads and separate callbacks, completing the second calls only the second callback, exactly once, and leaves the first log empty. |

## Left out

- The network request itself is not modelled: `session.dataTask(with:).resume()`, the URL and GET method it sends, `URLProtocolStub`, and the end-to-end test against the live server. `URLSessionHTTPClient` contributes only its classification of the finished task.
- Asynchronous dispatch is not modelled. A completion runs when `HttpClientSpy.Complete` is called, as an explicit later step, with no threads.
- `JSONDecoder`, Codable, and UUID and URL string parsing are foreign library code. Decoding is the parameter described above; URLs and UUIDs are opaque values.
- URLSession's conversion of a missing body into empty `Data` is not modelled. The classifier is modelled as written, so `nil` data with an HTTP response is `UnvalidResponseError`. URLSession delivers a missing body as empty `Data`, which is how the test at OnlineFeedTests/API/URLSessionHTTPClientTests.swift:76-90 can succeed.
- ARC weak references and `checkMemoryLeak` are not modelled. The weak capture is an explicit `alive` flag that `Release` clears. A released loader cannot be asked to `load` again (`Load` requires `alive`), just as `nil` cannot be sent a message.
- The `HTTPClient` protocol and the generic `FeedLoader` protocol are not modelled as abstractions. Without interfaces, the loader is wired directly to the scripted transport, and the load result's error type is fixed to the two-case enum.
- The unused `OK_RESPONSE` constant is left out; the mapper compares against the literal 200, as the code does.
- `HttpClientSpy.Complete`: the message index must be in range. Swift traps on an out-of-range index instead of reporting an error.
- Swift's `Error` values are reduced to the domain and code of an `NSError`, the only things the tests compare, plus the client's own `UnvalidResponseError`.
