/**
 * The gallery controller (the `App` component) as a reducer: an immutable
 * state, one pure function per event handler and per effect, and a fetch
 * split into a start (the request leaves, `loading` is raised) and a
 * completion (the response, or the failure, is merged).
 */
module Gallery {
  import opened Urls

  /** One photo record of the upstream API; only its identity matters here. */
  datatype Image = Image(id: string)

  /**
   * A parsed response body: the listing endpoint answers with a flat list,
   * the search endpoint with a container whose `results` field holds the list.
   */
  datatype Payload = Listing(items: seq<Image>) | SearchPage(results: seq<Image>)

  /** How a fetch ends: a parsed body, or a network or parse error. */
  datatype Outcome = Success(payload: Payload) | Failure

  /** A fetch in flight, with the query and page its closure captured. */
  datatype Request = Request(query: string, page: nat, url: string)

  datatype State = State(
    loading: bool,
    photos: seq<Image>,
    page: nat,
    query: string,
    mounted: bool,    // the `mounted` ref: has the [newImages] effect run once?
    newImages: bool   // a next page was requested by scrolling
  )

  /** The browser scroll metrics the scroll listener reads, in whole pixels. */
  datatype Viewport = Viewport(innerHeight: int, scrollY: int, scrollHeight: int)

  /** A new state together with the fetches started on the way to it, in order. */
  datatype Transition = Transition(state: State, fetches: seq<Request>)

  datatype Event =
    | Type(text: string)                       // the search input's onChange
    | Scroll(viewport: Viewport)               // the window scroll listener
    | Submit                                   // the search form's submit button
    | Complete(request: Request, outcome: Outcome)  // a fetch resolves or rejects

  /** The state of the first render. */
  const Initial: State := State(false, [], 1, "", false, false)

  /** The page number never drops below 1. */
  predicate Valid(s: State) {
    s.page >= 1
  }

  /** The response shape matches the endpoint the request's query selected. */
  predicate Matches(req: Request, p: Payload) {
    if req.query != "" then p.SearchPage? else p.Listing?
  }

  predicate Fits(req: Request, o: Outcome) {
    o.Success? ==> Matches(req, o.payload)
  }

  predicate EventFits(e: Event) {
    e.Complete? ==> Fits(e.request, e.outcome)
  }

  /** The images a payload contributes, whichever shape it has. */
  function NewItems(p: Payload): seq<Image> {
    match p
    case Listing(items) => items
    case SearchPage(results) => results
  }

  // ---------------------------------------------------------------------
  // fetchImages
  // ---------------------------------------------------------------------

  /**
   * Start of `fetchImages`: raises `loading` and sends one request whose URL
   * encodes the current query and page; nothing else in the state changes.
   */
  function FetchStart(s: State, accessKey: string): (t: Transition)
    ensures t.state.loading
    ensures t.state.(loading := s.loading) == s
    ensures |t.fetches| == 1
    ensures t.fetches[0].query == s.query && t.fetches[0].page == s.page
    ensures ParseUrl(accessKey, t.fetches[0].url) == Some(UrlParams(s.query, s.page))
    ensures t.fetches[0].url == FetchUrl(accessKey, s.query, s.page)
  {
    Transition(s.(loading := true), [Request(s.query, s.page, FetchUrl(accessKey, s.query, s.page))])
  }

  /**
   * The `setPhotos` updater, closed over the request's query and page: a
   * search for page 1 replaces the collection with its results; every other
   * response keeps the displayed collection as a prefix and appends its items.
   */
  function Merge(shown: seq<Image>, req: Request, p: Payload): (photos: seq<Image>)
    requires Matches(req, p)
    ensures req.query != "" && req.page == 1 ==> photos == p.results
    ensures req.query != "" && req.page != 1 ==>
      |photos| == |shown| + |p.results| && photos[..|shown|] == shown && photos[|shown|..] == p.results
    ensures req.query == "" ==>
      |photos| == |shown| + |p.items| && photos[..|shown|] == shown && photos[|shown|..] == p.items
  {
    if req.query != "" && req.page == 1 then NewItems(p)
    else shown + NewItems(p)
  }

  /**
   * End of `fetchImages`: on success the payload is merged, on failure the
   * collection is kept; either way `loading` and `newImages` are cleared and
   * the page, query and mount marker are untouched.
   */
  function FetchComplete(s: State, req: Request, o: Outcome): (r: State)
    requires Fits(req, o)
    ensures !r.loading && !r.newImages
    ensures o.Failure? ==> r.photos == s.photos
    ensures o.Success? ==> r.photos == Merge(s.photos, req, o.payload)
    ensures r.page == s.page && r.query == s.query && r.mounted == s.mounted
  {
    match o
    case Success(p) => s.(photos := Merge(s.photos, req, p), newImages := false, loading := false)
    case Failure => s.(newImages := false, loading := false)
  }

  // ---------------------------------------------------------------------
  // Scrolling
  // ---------------------------------------------------------------------

  /** The viewport's bottom is within two pixels of the document's bottom. */
  predicate NearBottom(v: Viewport) {
    v.innerHeight + v.scrollY >= v.scrollHeight - 2
  }

  /** The scroll listener: requests a next page when near the bottom. */
  function OnScroll(s: State, v: Viewport): (r: State)
    ensures r.newImages <==> s.newImages || NearBottom(v)
    ensures r.(newImages := s.newImages) == s
    ensures !NearBottom(v) ==> r == s
  {
    if NearBottom(v) then s.(newImages := true) else s
  }

  /**
   * The [newImages] effect. Its first run only marks the component mounted.
   * Later runs advance the page by one exactly when a next page was
   * requested and no fetch is loading; nothing but `mounted` and `page`
   * ever changes.
   */
  function Advance(s: State): (r: State)
    ensures r.mounted
    ensures r.(mounted := s.mounted, page := s.page) == s
    ensures !s.mounted ==> r.page == s.page
    ensures r.page != s.page <==> s.mounted && s.newImages && !s.loading
    ensures r.page == s.page || r.page == s.page + 1
  {
    if !s.mounted then s.(mounted := true)
    else if !s.newImages then s
    else if s.loading then s
    else s.(page := s.page + 1)
  }

  // ---------------------------------------------------------------------
  // Search
  // ---------------------------------------------------------------------

  /** The search input's onChange: the query follows the input at once. */
  function OnType(s: State, text: string): (r: State)
    ensures r.query == text
    ensures r.(query := s.query) == s
  {
    s.(query := text)
  }

  /**
   * `handleSubmit`: ignored with an empty query; on page 1 it fetches at
   * once with the current query; otherwise it only resets the page to 1
   * (the [page] effect then fetches).
   */
  function OnSubmit(s: State, accessKey: string): (t: Transition)
    ensures s.query == "" ==> t == Transition(s, [])
    ensures s.query != "" && s.page == 1 ==> t == FetchStart(s, accessKey)
    ensures s.query != "" && s.page != 1 ==> t.fetches == [] && t.state == s.(page := 1)
  {
    if s.query == "" then Transition(s, [])
    else if s.page == 1 then FetchStart(s, accessKey)
    else Transition(s.(page := 1), [])
  }

  // ---------------------------------------------------------------------
  // Events and effects
  // ---------------------------------------------------------------------

  /** Runs a handler's event: the state it sets and the fetches it starts itself. */
  function Handle(s: State, e: Event, accessKey: string): Transition
    requires EventFits(e)
  {
    match e
    case Type(text) => Transition(OnType(s, text), [])
    case Scroll(v) => Transition(OnScroll(s, v), [])
    case Submit => OnSubmit(s, accessKey)
    case Complete(req, o) => Transition(FetchComplete(s, req, o), [])
  }

  /** Appends the fetches of a later step to those already started. */
  function Then(t: Transition, u: Transition): Transition {
    Transition(u.state, t.fetches + u.fetches)
  }

  /** The [page] effect: a fetch for the new page whenever the page changed. */
  function PageEffect(before: State, t: Transition, accessKey: string): (r: Transition)
    ensures t.state.page == before.page ==> r == t
    ensures t.state.page != before.page ==>
      && r.state == t.state.(loading := true)
      && |r.fetches| == |t.fetches| + 1 && r.fetches[..|t.fetches|] == t.fetches
      && r.fetches[|t.fetches|].query == t.state.query && r.fetches[|t.fetches|].page == t.state.page
  {
    if t.state.page != before.page then Then(t, FetchStart(t.state, accessKey)) else t
  }

  /**
   * The re-render after a handler: the [page] effect if the page changed,
   * then the [newImages] effect if `newImages` changed, whose page advance
   * in turn runs the [page] effect again.
   */
  function Settle(before: State, t: Transition, accessKey: string): Transition {
    var afterPage := PageEffect(before, t, accessKey);
    if afterPage.state.newImages != before.newImages then
      var advanced := Transition(Advance(afterPage.state), afterPage.fetches);
      PageEffect(afterPage.state, advanced, accessKey)
    else afterPage
  }

  /** One user or network event, followed by the effects it triggers. */
  function Step(s: State, e: Event, accessKey: string): (t: Transition)
    requires EventFits(e)
    ensures Valid(s) ==> Valid(t.state)
    ensures e.Type? ==> t == Transition(s.(query := e.text), [])
    ensures e.Submit? && s.query == "" ==> t == Transition(s, [])
    ensures e.Submit? && s.query != "" ==>
      && t.state == s.(page := 1, loading := true)
      && |t.fetches| == 1
      && t.fetches[0].query == s.query && t.fetches[0].page == 1
    ensures e.Scroll? && !NearBottom(e.viewport) ==> t == Transition(s, [])
    ensures e.Scroll? && s.loading ==>
      t.fetches == [] && t.state.loading && t.state.page == s.page && t.state.photos == s.photos
    ensures e.Scroll? && NearBottom(e.viewport) && s.mounted && !s.newImages && !s.loading ==>
      && t.state == s.(newImages := true, page := s.page + 1, loading := true)
      && |t.fetches| == 1
      && t.fetches[0].query == s.query && t.fetches[0].page == s.page + 1
    ensures e.Complete? ==> t.fetches == []
    ensures e.Complete? && s.mounted ==> t.state == FetchComplete(s, e.request, e.outcome)
  {
    // One case per kind of event, so that each case is proved on its own.
    match e
    case Type(_) => Settle(s, Handle(s, e, accessKey), accessKey)
    case Scroll(_) => Settle(s, Handle(s, e, accessKey), accessKey)
    case Submit => Settle(s, Handle(s, e, accessKey), accessKey)
    case Complete(_, _) => Settle(s, Handle(s, e, accessKey), accessKey)
  }

  /**
   * Mounting: the first render's effects in order, the [page] effect
   * fetching page 1 of the listing and the [newImages] effect marking the
   * component mounted.
   */
  function Mount(accessKey: string): (t: Transition)
    ensures Valid(t.state)
    ensures t.state == Initial.(loading := true, mounted := true)
    ensures t.fetches == [Request("", 1, FetchUrl(accessKey, "", 1))]
    ensures t.fetches[0].url == MainUrl + ClientId(accessKey) + PageParam + "1"
  {
    var started := FetchStart(Initial, accessKey);
    Transition(Advance(started.state), started.fetches)
  }

  predicate AllFit(events: seq<Event>) {
    forall i :: 0 <= i < |events| ==> EventFits(events[i])
  }

  /** A sequence of events applied in order, collecting every fetch started. */
  function Run(s: State, events: seq<Event>, accessKey: string): Transition
    requires AllFit(events)
    decreases |events|
  {
    if |events| == 0 then Transition(s, [])
    else Then(Step(s, events[0], accessKey), Run(Step(s, events[0], accessKey).state, events[1..], accessKey))
  }
}
