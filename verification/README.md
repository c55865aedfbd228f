# Gallery controller model

A Dafny model of the controller of an infinite-scrolling photo gallery backed by
the Unsplash API (the `App` component). The controller holds six pieces of
state: `loading`, the displayed `photos`, the `page`, the `query` bound to the
search input, the `mounted` marker and the `newImages` scroll request. It
reacts to four kinds of event: typing, scrolling, submitting the search form,
and a fetch resolving or rejecting.

The model is a reducer. `State` is an immutable record. Each handler and each
effect is a pure function. `Step` runs one event and then the effects whose
dependency changed:

- the `[page]` effect when the page changed;
- then the `[newImages]` effect when the scroll request changed;
- then the `[page]` effect again when that advance moved the page.

`Run` folds `Step` over a sequence of events. A fetch is split in two:

- `FetchStart` raises `loading` and emits a `Request`. The request records the
  query and page the `fetchImages` closure captured, plus the URL built from
  them.
- A later `Complete(request, outcome)` event merges the outcome using that
  snapshot. The outcome is an abstract `Success(payload)` or `Failure`.

Modules:

- `Decimal`: rendering a page number as text in the URL, and parsing it back.
- `Urls`: the two endpoints, URL construction, and a parser that recovers the
  query and page from a URL.
- `Gallery`: the data model, the handlers, the effects, `Step`, `Mount`, `Run`.
- `GalleryProps`: properties of steps and of whole runs.

Two behaviours of the code that a reader might not expect; the model follows
the code in both:

- The query follows the text input on every keystroke (`OnType`). No separate
  input buffer exists. The submit button only decides whether and how to fetch.
- Only the scroll-driven page advance waits for `loading` to clear. Submitting
  starts a fetch even while another is in flight (`SubmitWhileLoadingStartsFetch`).
  So the model states no global single-fetch invariant. What it does prove is
  that scrolling alone never starts a second fetch (`ScrollsWhileLoading`).

## Model

| member | source | states |
|---|---|---|
| Decimal.NatToString | src/App.js:21 | the page is written as a non-empty run of decimal digits with no leading zero unless it is 0 |
| Decimal.ParseNatToString | src/App.js:21 | reading the written page number back gives the page itself, so no two pages share a rendering |
| Urls.FetchUrl | src/App.js:20-28 | a non-empty query selects the search endpoint and an empty one the listing endpoint; parsing the URL gives back exactly the query and the page, written in its shortest decimal form, so the listing URL carries no query parameter |
| Urls.PaddedPageRejected | src/App.js:21 | a listing URL whose page is any digit string of two or more characters starting with zero is not one the gallery builds: it parses to nothing and differs from the listing URL of every page |
| Urls.FetchUrlInjective | src/App.js:20-28 | two different (query, page) snapshots never build the same URL string; this is about the string, not the request the API reads (see "## Left out") |
| Gallery.FetchStart | src/App.js:17-28 | starting a fetch sets `loading` and changes nothing else; it sends one request that carries the current query and page, to the URL built from them |
| Gallery.Merge | src/App.js:34-42 | a search snapshot on page 1 replaces the collection with the results; any other snapshot keeps the old collection as a prefix, appends the results (search) or the flat list (listing), and the length is the sum |
| Gallery.FetchComplete | src/App.js:30-48 | success and failure both clear `loading` and `newImages`; failure keeps the collection; success merges under the request's snapshot; page, query and mount marker are untouched |
| Gallery.OnScroll | src/App.js:76-80 | the scroll request becomes set exactly when innerHeight + scrollY >= scrollHeight - 2 or it was already set; otherwise nothing changes |
| Gallery.Advance | src/App.js:59-74 | the first run only marks the component mounted; later runs advance the page by exactly one if and only if a next page was requested and nothing is loading, and change nothing else |
| Gallery.OnType | src/App.js:107-113 | typing replaces the query with the input's text and changes nothing else |
| Gallery.OnSubmit | src/App.js:89-101 | an empty query is a no-op; on page 1 it starts a fetch with the current query; otherwise it only resets the page to 1 |
| Gallery.PageEffect | src/App.js:52-55 | when the page changed, exactly one fetch is added behind those already started, carrying the new page and the current query, and `loading` is raised; otherwise nothing happens |
| Gallery.Step | src/App.js:52-101 | one event plus its effects keeps page >= 1; typing only sets the query; submitting a non-empty query ends on page 1 with exactly one fetch for that query and page 1; scrolling away from the bottom does nothing; scrolling while loading starts no fetch; scrolling to the bottom while idle advances the page and fetches it; a completion starts no fetch from any state, and once mounted its state is exactly that of the completion handler |
| Gallery.Mount | src/App.js:8-63 | the first render's effects start one listing fetch for page 1 with no query parameter and mark the component mounted |
| GalleryProps.RunPreservesValid | src/App.js:71-73 | page >= 1 holds after any sequence of events, since the page is only ever set to 1 or incremented |
| GalleryProps.ReachableValid | src/App.js:11-14 | every state reachable from mounting has page >= 1 |
| GalleryProps.ScrollsWhileLoading | src/App.js:66-68 | any number of scroll events during a load start no fetch, keep `loading`, and leave the page and the collection as they are |
| GalleryProps.ScrollIdempotent | src/App.js:76-80 | firing the scroll listener twice at the same position has the effect of firing it once, both for the handler and for the full step |
| GalleryProps.HandlersTouchOneDependency | src/App.js:52-74 | no handler changes both the page and the scroll request, so the order in which the two effects run never matters |
| GalleryProps.ScrollRequestDroppedWhileLoading | src/App.js:59-74 | a scroll request made while loading is not queued: the completion clears it, starts no fetch, and leaves the page where it was |
| GalleryProps.SubmitWhileLoadingStartsFetch | src/App.js:94-97 | submitting a non-empty query while a fetch is in flight still starts a fetch |
| GalleryProps.FailureKeepsPhotos | src/App.js:45-48 | a failed fetch keeps the collection, clears both flags and starts nothing |
| GalleryProps.ListingThenScrollScenario | src/App.js:24-40 | after mounting, the page-1 listing becomes the collection; a scroll to the bottom fetches listing page 2, which is appended, and the length is the sum |
| GalleryProps.SearchFromLaterPageScenario | src/App.js:99-100 | typing a keyword and submitting from a later page resets to page 1, starts exactly one search for page 1 of that keyword, and its results replace the collection |

## Left out

- Rendering: the JSX, the `Photo` component and the `image.id + index` list keys are presentation only.
- The network and JSON parsing (`fetch`, `response.json()`) are reduced to an abstract `Success(payload)` or `Failure` outcome.
- The access key from `process.env.REACT_APP_ACCESS_KEY` is a parameter `accessKey`. `ClientId` builds the `client_id` parameter from it.
- Adding and removing the scroll listener, and React's scheduling and batching, are framework plumbing. Without batching, the state setters after an `await` each re-render one at a time. That cannot change the outcome: the `[newImages]` effect they trigger returns early because `newImages` is false.
- Concurrent fetches are modelled only through their snapshots. A `Complete` event may name any request, in any order. The timing of out-of-order responses is not modelled beyond that.
- A response whose shape does not match the query is excluded by a precondition (`Fits`). An example is a flat list arriving for a search request. The code does not handle that case.
- Scroll metrics are whole numbers. The browser reports fractional values.
- Advance: the model's page is an unbounded natural number and always advances by one. In the code the page is a JavaScript number: from 2^53 on, `oldPage + 1` gives back the same value, so the page stops changing, the `[page]` effect no longer fires and paging stops. The model does not promise that behaviour.
- Query text goes into the URL unencoded, as in the code, and the model stops at the URL string. `FetchUrl` and `ParseUrl` invert the string building, not how the request is read. The following are not modelled:
  - `fetch` drops everything after a `#` and percent-encodes spaces, so the queries `cats#1` and `cats` on the same page send the same request.
  - The API splits the unencoded query at `&`, so the query `a&page=9` reaches it as the query `a` with a second `page` parameter.
