/**
 * Properties of the gallery controller over single steps and whole runs of
 * events: the page invariant, the scroll gate, the dropped scroll request,
 * and the end-to-end scenarios of loading, scrolling and searching.
 */
module GalleryProps {
  import opened Urls
  import opened Gallery

  /** Every step keeps `page >= 1`, so every run does. */
  lemma {:induction false} RunPreservesValid(s: State, events: seq<Event>, accessKey: string)
    requires AllFit(events)
    requires Valid(s)
    ensures Valid(Run(s, events, accessKey).state)
    decreases |events|
  {
    if |events| > 0 {
      var t := Step(s, events[0], accessKey);
      RunPreservesValid(t.state, events[1..], accessKey);
    }
  }

  /** Every state reachable from mounting has `page >= 1`. */
  lemma ReachableValid(events: seq<Event>, accessKey: string)
    requires AllFit(events)
    ensures Valid(Run(Mount(accessKey).state, events, accessKey).state)
  {
    RunPreservesValid(Mount(accessKey).state, events, accessKey);
  }

  predicate AllScrolls(events: seq<Event>) {
    forall i :: 0 <= i < |events| ==> events[i].Scroll?
  }

  /**
   * While a fetch is loading, no number of scroll events starts another
   * fetch or moves the page, and the collection stays as it is.
   */
  lemma {:induction false} ScrollsWhileLoading(s: State, events: seq<Event>, accessKey: string)
    requires AllScrolls(events) && AllFit(events)
    requires s.loading
    ensures Run(s, events, accessKey).fetches == []
    ensures Run(s, events, accessKey).state.loading
    ensures Run(s, events, accessKey).state.page == s.page
    ensures Run(s, events, accessKey).state.photos == s.photos
    decreases |events|
  {
    if |events| > 0 {
      var t := Step(s, events[0], accessKey);
      ScrollsWhileLoading(t.state, events[1..], accessKey);
    }
  }

  /** Firing the scroll listener again at the same position changes nothing more. */
  lemma ScrollIdempotent(s: State, v: Viewport, accessKey: string)
    ensures OnScroll(OnScroll(s, v), v) == OnScroll(s, v)
    ensures var t := Step(s, Scroll(v), accessKey);
      Step(t.state, Scroll(v), accessKey) == Transition(t.state, [])
  {
  }

  /** No handler changes both dependencies of the two effects at once. */
  lemma HandlersTouchOneDependency(s: State, e: Event, accessKey: string)
    requires EventFits(e)
    ensures var t := Handle(s, e, accessKey);
      t.state.page == s.page || t.state.newImages == s.newImages
  {
  }

  /**
   * A scroll request that arrives while a fetch is loading is not queued:
   * the completion clears it and leaves the page where it was, with no
   * further fetch.
   */
  lemma ScrollRequestDroppedWhileLoading(s: State, v: Viewport, req: Request, o: Outcome, accessKey: string)
    requires s.mounted && s.loading && !s.newImages && NearBottom(v)
    requires Fits(req, o)
    ensures var t := Step(s, Scroll(v), accessKey);
      && t.fetches == [] && t.state.newImages && t.state.page == s.page
      && var u := Step(t.state, Complete(req, o), accessKey);
      u.fetches == [] && !u.state.newImages && !u.state.loading && u.state.page == s.page
  {
  }

  /** Submitting does not wait for a fetch in flight: it starts another one. */
  lemma SubmitWhileLoadingStartsFetch(s: State, accessKey: string)
    requires s.loading && s.query != ""
    ensures |Step(s, Submit, accessKey).fetches| == 1
  {
  }

  /** A failed fetch keeps the collection and leaves the gallery idle. */
  lemma FailureKeepsPhotos(s: State, req: Request, accessKey: string)
    ensures var t := Step(s, Complete(req, Failure), accessKey);
      t.fetches == [] && t.state.photos == s.photos && !t.state.loading && !t.state.newImages
  {
  }

  /**
   * Mounting fetches page 1 of the listing without a query parameter; its
   * flat list becomes the collection. A scroll to the bottom then fetches
   * page 2, whose list is appended behind the first.
   */
  lemma ListingThenScrollScenario(accessKey: string, first: seq<Image>, second: seq<Image>, v: Viewport)
    requires NearBottom(v)
    ensures var m := Mount(accessKey);
      && m.fetches[0].url == MainUrl + ClientId(accessKey) + PageParam + "1"
      && var loaded := Step(m.state, Complete(m.fetches[0], Success(Listing(first))), accessKey);
      && loaded.state.photos == first
      && var scrolled := Step(loaded.state, Scroll(v), accessKey);
      && scrolled.state.page == 2
      && |scrolled.fetches| == 1
      && ParseUrl(accessKey, scrolled.fetches[0].url) == Some(UrlParams("", 2))
      && var appended := Step(scrolled.state, Complete(scrolled.fetches[0], Success(Listing(second))), accessKey);
      && appended.state.photos == first + second
      && |appended.state.photos| == |first| + |second|
  {
  }

  /**
   * Typing a keyword and submitting it while scrolled to a later page resets
   * the page to 1, starts exactly one search for page 1 of that keyword, and
   * the search's results replace the whole collection.
   */
  lemma SearchFromLaterPageScenario(s: State, keyword: string, results: seq<Image>, accessKey: string)
    requires s.mounted && s.page > 1 && keyword != ""
    ensures var typed := Step(s, Type(keyword), accessKey);
      && var submitted := Step(typed.state, Submit, accessKey);
      && submitted.state.page == 1
      && |submitted.fetches| == 1
      && ParseUrl(accessKey, submitted.fetches[0].url) == Some(UrlParams(keyword, 1))
      && var done := Step(submitted.state, Complete(submitted.fetches[0], Success(SearchPage(results))), accessKey);
      && done.state.photos == results
      && !done.state.loading
  {
  }
}
